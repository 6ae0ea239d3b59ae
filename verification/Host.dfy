/** The prepare, adopt and cancel protocol over the stream seam: admission, tombstones,
    ownership slots, delivery tickets and generations. Every critical section is one step; an
    admission holds both ownership maps across several. */
module Host {
  import opened Prelude
  import opened SessionState

  type Id = nat
  type Handle = nat
  type Gen = nat

  /** An ownership slot: `delivered` once the outcome is on the wire. */
  datatype Slot = Slot(handle: Handle, delivered: bool, gen: Gen)

  /** An admitted invocation. */
  datatype LiveRequest = LiveRequest(cancelled: bool, isPrepare: bool, settled: bool, gen: Gen)

  datatype Outcome = Prepared(handle: Handle) | Failed | Answered

  /** Where a request stands. Up to `Found` the caller has not returned. */
  datatype Pc =
    | New
    | Tracked
    | Admitted(tombstoned: bool)
    | Found
    | Refusing
    | Refused
    | Failing
    | FailingBare
    | AdoptReady
    | AdoptLive
    | AdoptDead
    | AdoptSent
    | Leaving
    | Invoking
    | Settled
    | Resolved(produced: bool)
    | Stoned
    | Cleared
    | Aborting
    | FailingInvoke
    | InvokeReady
    | InvokeSent
    | LeavingInvoke
    | Closing
    | Finished

  /** One request: `gen` is its prepare generation, `liveGen` its invocation's. */
  datatype Task = Task(
    id: Id,
    prepare: bool,
    gen: Gen,
    liveGen: Gen,
    pc: Pc,
    handle: Handle,
    committed: bool,
    out: Option<Outcome>)

  datatype CancelPc = Begin | Spent | Waiting | IdleSeen | Taken(delivered: bool) | Done

  /** One `cancel` call. `early` if it looked before every start of its id had returned. */
  datatype Canceler = Canceler(id: Id, pc: CancelPc, early: bool, stones: bool)

  datatype State = State(
    lives: map<Handle, Life>,
    slots: map<Id, Slot>,
    cancels: map<Id, LiveRequest>,
    stones: set<Id>,
    inFlight: map<Id, nat>,
    tasks: seq<Task>,
    cancelers: seq<Canceler>,
    nextGen: Gen,
    busy: Option<nat>)

  function Start(): State {
    State(map[], map[], map[], {}, map[], [], [], 0, None)
  }

  /** What sessions do on their own: consumers, the pump, the reaper, another prepare's scan. */
  datatype Op = Attach | Close(now: nat) | End(error: StreamError) | EndIfUnowned(error: StreamError)

  function Apply(l: Life, op: Op): Life {
    match op
    case Attach => if l.Live() then l.Attach() else l
    case Close(now) => l.Close(now)
    case End(e) => l.End(e)
    case EndIfUnowned(e) => if l.Unowned() then l.End(e) else l
  }

  /** What the environment chooses for a request's step: whether a warm session or a resolve
      result turns up, and a coin for everything else. */
  datatype Choice = Choice(handle: Option<Handle>, coin: bool)

  datatype Act =
    | Call(id: Id, prepare: bool)
    | Step(i: nat, ch: Choice)
    | Cancel(id: Id)
    | CancelStep(c: nat, room: bool, swept: set<Id>)
    | Create(h: Handle)
    | Session(h: Handle, op: Op)
    | DropSlots(h: Handle)

  function LiveAt(lives: map<Handle, Life>, h: Handle): bool {
    h in lives && lives[h].Live()
  }

  /** The admission guards keep every other section over the two maps out. */
  predicate Enabled(s: State, a: Act) {
    match a
    case Call(_, _) => true
    case Step(i, ch) => i < |s.tasks| && MayStep(s, s.tasks[i], ch)
    case Cancel(_) => true
    case CancelStep(c, _, _) => c < |s.cancelers| && MayCancel(s, s.cancelers[c])
    case Create(h) => h !in s.lives
    case Session(h, _) => h in s.lives
    case DropSlots(h) => s.busy.None? && !LiveAt(s.lives, h)
  }

  predicate MayStep(s: State, t: Task, ch: Choice) {
    match t.pc
    case New => t.prepare || s.busy.None?
    case Tracked => s.busy.None?
    case Admitted(tombstoned) =>
      // Only a live, unattached session is a warm candidate.
      t.prepare && !tombstoned && ch.handle.Some? ==>
        LiveAt(s.lives, ch.handle.value) && !s.lives[ch.handle.value].attached
    case AdoptReady => s.busy.None?
    case AdoptSent => s.busy.None?
    case Invoking => s.busy.None?
    case Settled => ch.handle.Some? ==> ch.handle.value in s.lives
    case Cleared => s.busy.None?
    case InvokeSent => s.busy.None?
    case Closing => s.busy.None?
    case Finished => false
    case Refused => false
    case _ => true
  }

  predicate MayCancel(s: State, c: Canceler) {
    match c.pc
    case Waiting => InFlight(s.inFlight, c.id) == 0
    case Taken(_) => true
    case Done => false
    case _ => s.busy.None?
  }

  function InFlight(m: map<Id, nat>, id: Id): nat {
    if id in m then m[id] else 0
  }

  // ---- admission --------------------------------------------------------------------------

  /** Slots whose session still lives. */
  function Pruned(slots: map<Id, Slot>, lives: map<Handle, Life>): map<Id, Slot> {
    map id | id in slots && LiveAt(lives, slots[id].handle) :: slots[id]
  }

  /** A settled generic entry no longer blocks its id. */
  predicate Spendable(cancels: map<Id, LiveRequest>, id: Id) {
    id in cancels && cancels[id].settled && !cancels[id].isPrepare
  }

  predicate Duplicate(s: State, id: Id) {
    || id in Pruned(s.slots, s.lives)
    || (id in s.cancels && !Spendable(s.cancels, id))
  }

  /** The step that runs `begin_admission`. */
  predicate Admits(t: Task) {
    t.pc.Tracked? || (t.pc.New? && !t.prepare)
  }

  /** The step that commits a slot and delivers: a warm adoption, or a resolve that was not
      cancelled; the claim is the liveness check. */
  predicate Commits(s: State, t: Task) {
    && LiveAt(s.lives, t.handle)
    && (t.pc.Found? || (t.pc.Cleared? && !(t.id in s.cancels && s.cancels[t.id].cancelled)))
  }

  /** The step that inserts the invocation's entry. */
  predicate Launches(t: Task, ch: Choice) {
    t.pc.Admitted? && (!t.prepare || (!t.pc.tombstoned && ch.handle.None?)) && !ch.coin
  }

  // ---- one step of a request, component by component -------------------------------------------

  function NextTask(s: State, t: Task, ch: Choice): Task {
    match t.pc
    case New => if t.prepare then t.(pc := Tracked) else AdmitTask(s, t, ch)
    case Tracked => AdmitTask(s, t, ch)
    case Admitted(tombstoned) =>
      if t.prepare && tombstoned then t.(pc := Failing)
      else if t.prepare && ch.handle.Some? then t.(pc := Found, handle := ch.handle.value)
      else if ch.coin then t.(pc := Refused)
      else t.(pc := Invoking, liveGen := s.nextGen)
    case Found => if Commits(s, t) then t.(pc := AdoptReady, committed := true) else t.(pc := Failing)
    case Refusing => t.(pc := Refused)
    case Failing => if ch.coin then t.(pc := Leaving, out := Some(Failed)) else t.(pc := FailingBare)
    case FailingBare => t.(pc := Finished, out := Some(Failed))
    case AdoptReady => t.(pc := if LiveAt(s.lives, t.handle) then AdoptLive else AdoptDead)
    case AdoptLive => t.(pc := AdoptSent, out := Some(Prepared(t.handle)))
    case AdoptDead => t.(pc := Leaving, out := Some(Failed))
    case AdoptSent => t.(pc := Leaving)
    case Leaving => t.(pc := Finished)
    case Invoking => t.(pc := Settled)
    case Settled =>
      if !t.prepare then t.(pc := Closing, out := Some(Answered))
      else if ch.handle.Some? then t.(pc := Resolved(true), handle := ch.handle.value)
      else t.(pc := Resolved(false))
    case Resolved(produced) =>
      t.(pc := if !produced then FailingInvoke else if t.id in s.stones then Stoned else Cleared)
    case Stoned => t.(pc := FailingInvoke)
    case Cleared => if Commits(s, t) then t.(pc := InvokeReady, committed := true) else t.(pc := Aborting)
    case Aborting => t.(pc := FailingInvoke)
    case FailingInvoke => t.(pc := Closing, out := Some(Failed))
    case InvokeReady => t.(pc := InvokeSent, out := Some(Prepared(t.handle)))
    case InvokeSent => t.(pc := LeavingInvoke)
    case LeavingInvoke => t.(pc := Closing)
    case Closing => t.(pc := Finished)
    case Refused => t
    case Finished => t
  }

  /** The duplicate checks; admission consumes a tombstone, honoured unless it expired. */
  function AdmitTask(s: State, t: Task, ch: Choice): Task {
    if Duplicate(s, t.id) then t.(pc := if t.prepare then Refusing else Refused)
    else t.(pc := Admitted(t.id in s.stones && ch.coin), gen := if t.prepare then s.nextGen else 0)
  }

  function NextSlots(s: State, t: Task): map<Id, Slot> {
    if Admits(t) then Pruned(s.slots, s.lives)
    else if t.pc.Found? && Commits(s, t) then s.slots[t.id := Slot(t.handle, false, t.gen)]
    else if t.pc.Cleared? then
      var kept := map id | id in s.slots && (s.slots[id].handle == t.handle || LiveAt(s.lives, s.slots[id].handle)) ::
        s.slots[id];
      if Commits(s, t) then kept[t.id := Slot(t.handle, false, t.gen)] else kept
    else if t.pc.AdoptSent? || t.pc.InvokeSent? || (t.pc.AdoptReady? && !LiveAt(s.lives, t.handle)) then
      Flipped(s.slots, t)
    else s.slots
  }

  /** Mark the slot delivered, if it is still the one this request committed. */
  function Flipped(slots: map<Id, Slot>, t: Task): map<Id, Slot> {
    if t.id in slots && slots[t.id].gen == t.gen then slots[t.id := slots[t.id].(delivered := true)] else slots
  }

  function NextCancels(s: State, t: Task, ch: Choice): map<Id, LiveRequest> {
    if Admits(t) && Spendable(s.cancels, t.id) && t.id !in Pruned(s.slots, s.lives) then s.cancels - {t.id}
    else if Launches(t, ch) then s.cancels[t.id := LiveRequest(t.pc.tombstoned, t.prepare, false, s.nextGen)]
    else if t.pc.Invoking? && t.id in s.cancels then s.cancels[t.id := s.cancels[t.id].(settled := true)]
    else if t.pc.Closing? && t.id in s.cancels && s.cancels[t.id].gen == t.liveGen then s.cancels - {t.id}
    else s.cancels
  }

  function NextStones(s: State, t: Task): set<Id> {
    if (Admits(t) && !Duplicate(s, t.id)) || t.pc.Resolved? || (t.pc.Cleared? && !Commits(s, t))
       || (t.pc.AdoptReady? && !LiveAt(s.lives, t.handle))
    then s.stones - {t.id}
    else s.stones
  }

  function NextLives(s: State, t: Task): map<Handle, Life> {
    if t.handle !in s.lives then s.lives
    else if Commits(s, t) then s.lives[t.handle := s.lives[t.handle].Claim()]
    else if t.pc.Stoned? || t.pc.Aborting? then s.lives[t.handle := Apply(s.lives[t.handle], EndIfUnowned(Cancelled))]
    else s.lives
  }

  /** Whether a request holds a delivery ticket. */
  predicate Ticket(t: Task) {
    || (t.prepare && (t.pc.Tracked? || t.pc.Admitted? || t.pc.Found? || t.pc.Refusing?))
    || t.pc.Failing? || t.pc.AdoptReady? || t.pc.AdoptLive? || t.pc.AdoptDead? || t.pc.AdoptSent? || t.pc.Leaving?
    || t.pc.InvokeReady? || t.pc.InvokeSent? || t.pc.LeavingInvoke?
  }

  function Track(m: map<Id, nat>, id: Id): map<Id, nat> {
    m[id := InFlight(m, id) + 1]
  }

  function Release(m: map<Id, nat>, id: Id): map<Id, nat> {
    if id !in m then m else if m[id] <= 1 then m - {id} else m[id := m[id] - 1]
  }

  function NextInFlight(s: State, t: Task, ch: Choice): map<Id, nat> {
    if !Ticket(t) && Ticket(NextTask(s, t, ch)) then Track(s.inFlight, t.id)
    else if Ticket(t) && !Ticket(NextTask(s, t, ch)) then Release(s.inFlight, t.id)
    else s.inFlight
  }

  predicate Holding(pc: Pc) {
    pc.Admitted? || pc.Found?
  }

  function NextBusy(s: State, i: nat, t: Task, ch: Choice): Option<nat> {
    if Holding(NextTask(s, t, ch).pc) then Some(i) else if Holding(t.pc) then None else s.busy
  }

  function DoStep(s: State, i: nat, ch: Choice): State
    requires i < |s.tasks|
  {
    var t := s.tasks[i];
    State(NextLives(s, t), NextSlots(s, t), NextCancels(s, t, ch), NextStones(s, t), NextInFlight(s, t, ch),
          s.tasks[i := NextTask(s, t, ch)], s.cancelers,
          if (t.pc.Tracked? && !Duplicate(s, t.id)) || Launches(t, ch) then s.nextGen + 1 else s.nextGen,
          NextBusy(s, i, t, ch))
  }

  // ---- one step of a cancel --------------------------------------------------------------------

  /** The start of this id has returned, every time it was called. */
  predicate Returned(t: Task) {
    !(t.pc.New? || t.pc.Tracked? || Holding(t.pc) || t.pc.Refusing?)
  }

  ghost predicate AllReturned(tasks: seq<Task>, id: Id) {
    && (exists i :: 0 <= i < |tasks| && tasks[i].id == id)
    && (forall i :: 0 <= i < |tasks| && tasks[i].id == id ==> Returned(tasks[i]))
  }

  /** The step that takes the slot: at once, unless it is still mid-delivery. */
  predicate Takes(s: State, c: Canceler) {
    c.pc.IdleSeen? || (c.pc.Spent? && !(c.id in s.slots && !s.slots[c.id].delivered))
  }

  /** `h` is named by some slot other than `id`'s. */
  predicate OwnedBesides(slots: map<Id, Slot>, id: Id, h: Handle) {
    exists j :: j in slots && j != id && slots[j].handle == h
  }

  ghost function NextCanceler(s: State, c: Canceler): Canceler {
    match c.pc
    case Begin =>
      var spent := Spendable(s.cancels, c.id);
      c.(pc := Spent, early := !AllReturned(s.tasks, c.id),
         stones := !spent && (c.id !in s.cancels || s.cancels[c.id].isPrepare))
    case Spent => if Takes(s, c) then c.(pc := Taken(c.id in s.slots)) else c.(pc := Waiting)
    case Waiting => c.(pc := IdleSeen)
    case IdleSeen => c.(pc := Taken(c.id in s.slots))
    case Taken(_) => c.(pc := Done)
    case Done => c
  }

  function CancelLives(s: State, c: Canceler): map<Handle, Life> {
    if Takes(s, c) && c.id in s.slots && s.slots[c.id].handle in s.lives
       && !OwnedBesides(s.slots, c.id, s.slots[c.id].handle)
    then s.lives[s.slots[c.id].handle := s.lives[s.slots[c.id].handle].Abandon()]
    else s.lives
  }

  function CancelCancels(s: State, c: Canceler): map<Id, LiveRequest> {
    if c.pc.Begin? && c.id in s.cancels && !Spendable(s.cancels, c.id)
    then s.cancels[c.id := s.cancels[c.id].(cancelled := true)]
    else s.cancels
  }

  function CancelStones(s: State, c: Canceler, room: bool, swept: set<Id>): set<Id> {
    if c.pc.Taken? && !c.pc.delivered && c.stones then s.stones - swept + if room then {c.id} else {} else s.stones
  }

  ghost function DoCancelStep(s: State, c: nat, room: bool, swept: set<Id>): State
    requires c < |s.cancelers|
  {
    var k := s.cancelers[c];
    s.(lives := CancelLives(s, k),
       slots := if Takes(s, k) then s.slots - {k.id} else s.slots,
       cancels := CancelCancels(s, k),
       stones := CancelStones(s, k, room, swept),
       cancelers := s.cancelers[c := NextCanceler(s, k)])
  }

  ghost function Do(s: State, a: Act): State
    requires Enabled(s, a)
  {
    match a
    case Call(id, prepare) => s.(tasks := s.tasks + [Task(id, prepare, 0, 0, New, 0, false, None)])
    case Step(i, ch) => DoStep(s, i, ch)
    case Cancel(id) => s.(cancelers := s.cancelers + [Canceler(id, Begin, false, false)])
    case CancelStep(c, room, swept) => DoCancelStep(s, c, room, swept)
    case Create(h) => s.(lives := s.lives[h := NewLife(0)])
    case Session(h, op) => s.(lives := s.lives[h := Apply(s.lives[h], op)])
    case DropSlots(h) => s.(slots := map id | id in s.slots && s.slots[id].handle != h :: s.slots[id])
  }
}
