/** Every mutex of the host and stream code, which nestings the code takes, and why no set of
    threads that nest only so can wait for each other in a circle. */
module Locks {
  import opened Prelude

  datatype Kind =
    | PreparedHandles
    | Cancels
    | CancelledRequests
    | InFlight
    | Plugins
    | AuthToken
    | ServerSlot
    | Grants
    | Attaches
    | ConnSlots
    | PrepareLock
    | Sessions
    | Reaper
    | PersistLock
    | Shared
    | Core
    | Store
    | Task

  /** A mutex: the per-session kinds exist once per session. */
  datatype Lock = Lock(kind: Kind, session: nat)

  /** Whether the code anywhere acquires `inner` while it holds `outer`. */
  predicate Nests(outer: Kind, inner: Kind) {
    match outer
    // Admission holds both maps across adoption, claim, a missed adoption's ticket drop and launch;
    // the delivery commit prunes, claims, counts and clears tombstones under the first; a cancel
    // abandons under it.
    case PreparedHandles =>
      inner in {Cancels, CancelledRequests, InFlight, Plugins, AuthToken, PrepareLock, Sessions, PersistLock, Shared,
                Core, Task}
    case Cancels =>
      inner in {CancelledRequests, InFlight, Plugins, AuthToken, PrepareLock, Sessions, PersistLock, Shared, Core, Task}
    // Counted attach and close; a stale attach terminates.
    case Attaches => inner in {Sessions, PersistLock, Shared, Core, Store, Task}
    // Minting a URL prunes grants of dead sessions.
    case Grants => inner in {Sessions, Shared}
    // Prepare and shutdown: scan, supersede, create, insert, terminate.
    case PrepareLock => inner in {Reaper, Sessions, PersistLock, Shared, Core, Task}
    // The scans read each session's flags and source; the reaper terminates under the map.
    case Sessions => inner in {PersistLock, Shared, Core, Task}
    // The terminal transition, and the persist job's liveness check.
    case PersistLock => inner in {Shared}
    case Shared => inner in {Core, Store}
    case Core => inner in {Store}
    case _ => false
  }

  function Rank(k: Kind): nat {
    match k
    case PreparedHandles => 0
    case Cancels => 1
    case Grants => 1
    case Attaches => 1
    case PrepareLock => 2
    case Sessions => 3
    case PersistLock => 4
    case Shared => 5
    case Core => 6
    case Store => 7
    case _ => 8
  }

  const RANKS: nat := 9

  /** Every nesting the code takes climbs the order. */
  lemma NestingClimbs(outer: Kind, inner: Kind)
    requires Nests(outer, inner)
    ensures Rank(outer) < Rank(inner) < RANKS
  {
  }

  /** Condvars wait on these. */
  predicate Waitable(k: Kind) {
    k == Shared || k == InFlight || k == ConnSlots
  }

  // ---- threads -----------------------------------------------------------------------------

  /** What a thread holds, what it is blocked on, and the condvar mutex it gave up to wait. */
  datatype Thread = Thread(held: set<Lock>, want: Option<Lock>, parked: Option<Lock>)

  type State = seq<Thread>

  datatype Act =
    | Spawn
    | Ask(i: nat, l: Lock)
    | Grant(i: nat)
    | Drop(i: nat, l: Lock)
    | Park(i: nat, l: Lock)
    | Wake(i: nat)

  /** A thread may ask for `l`: it nests inside everything it holds. */
  predicate MayAsk(t: Thread, l: Lock) {
    forall h :: h in t.held ==> Nests(h.kind, l.kind)
  }

  predicate Free(s: State, l: Lock) {
    forall i :: 0 <= i < |s| ==> l !in s[i].held
  }

  predicate Running(t: Thread) {
    t.want.None? && t.parked.None?
  }

  ghost predicate Enabled(s: State, a: Act) {
    match a
    case Spawn => true
    case Ask(i, l) => i < |s| && Running(s[i]) && MayAsk(s[i], l)
    case Grant(i) => i < |s| && s[i].want.Some? && Free(s, s[i].want.value)
    case Drop(i, l) => i < |s| && Running(s[i]) && l in s[i].held
    case Park(i, l) => i < |s| && Running(s[i]) && s[i].held == {l} && Waitable(l.kind)
    case Wake(i) => i < |s| && s[i].parked.Some?
  }

  ghost function Do(s: State, a: Act): State
    requires Enabled(s, a)
  {
    match a
    case Spawn => s + [Thread({}, None, None)]
    case Ask(i, l) => s[i := s[i].(want := Some(l))]
    case Grant(i) => s[i := s[i].(held := s[i].held + {s[i].want.value}, want := None)]
    case Drop(i, l) => s[i := s[i].(held := s[i].held - {l})]
    case Park(i, l) => s[i := Thread({}, None, Some(l))]
    case Wake(i) => s[i := Thread({}, s[i].parked, None)]
  }

  // ---- what every state keeps ----------------------------------------------------------------

  ghost predicate ThreadOk(t: Thread) {
    && (t.want.Some? ==> MayAsk(t, t.want.value) && t.parked.None?)
    && (t.parked.Some? ==> t.held == {} && Waitable(t.parked.value.kind))
  }

  ghost predicate Inv(s: State) {
    && (forall i :: 0 <= i < |s| ==> ThreadOk(s[i]))
    && (forall i, j, l :: 0 <= i < j < |s| && l in s[i].held ==> l !in s[j].held)
  }

  lemma ActKeeps(s: State, a: Act)
    requires Inv(s) && Enabled(s, a)
    ensures Inv(Do(s, a))
  {
  }

  ghost predicate Run(s: State, acts: seq<Act>, t: State)
    decreases acts
  {
    if acts == [] then s == t
    else Enabled(s, acts[0]) && Run(Do(s, acts[0]), acts[1..], t)
  }

  lemma {:induction false} RunKeeps(s: State, acts: seq<Act>, t: State)
    requires Inv(s) && Run(s, acts, t)
    ensures Inv(t)
    decreases acts
  {
    hide Inv, Do, Enabled;
    if acts != [] {
      ActKeeps(s, acts[0]);
      RunKeeps(Do(s, acts[0]), acts[1..], t);
    }
  }

  /** Thread `i` is blocked on a lock that thread `j` holds. */
  predicate WaitsFor(s: State, i: nat, j: nat) {
    i < |s| && j < |s| && s[i].want.Some? && s[i].want.value in s[j].held
  }

  /** A chain of waits: each thread is blocked on the next. */
  ghost predicate Chain(s: State, c: seq<nat>) {
    c != [] && forall k :: 0 <= k < |c| - 1 ==> WaitsFor(s, c[k], c[k + 1])
  }

  /** Along a chain the wanted locks climb. */
  lemma {:induction false} ChainClimbs(s: State, c: seq<nat>)
    requires Inv(s) && Chain(s, c) && |c| >= 2
    requires c[|c| - 1] < |s| && s[c[|c| - 1]].want.Some?
    ensures c[0] < |s| && s[c[0]].want.Some?
    ensures Rank(s[c[0]].want.value.kind) + |c| - 1 <= Rank(s[c[|c| - 1]].want.value.kind)
    decreases c
  {
    assert WaitsFor(s, c[0], c[1]);
    if |c| == 2 {
      OneWait(s, c[0], c[1]);
    } else {
      assert Chain(s, c[1..]) by {
        forall k | 0 <= k < |c[1..]| - 1 ensures WaitsFor(s, c[1..][k], c[1..][k + 1]) {
          assert WaitsFor(s, c[k + 1], c[k + 2]);
        }
      }
      ChainClimbs(s, c[1..]);
      assert WaitsFor(s, c[1], c[2]);
      OneWait(s, c[0], c[1]);
    }
  }

  lemma OneWait(s: State, i: nat, j: nat)
    requires Inv(s) && WaitsFor(s, i, j) && s[j].want.Some?
    ensures Rank(s[i].want.value.kind) < Rank(s[j].want.value.kind)
  {
    assert ThreadOk(s[j]);
    NestingClimbs(s[i].want.value.kind, s[j].want.value.kind);
  }

  /** No set of threads waits in a circle, in any reachable state. */
  lemma NoWaitCycle(acts: seq<Act>, s: State, c: seq<nat>)
    requires Run([], acts, s) && Chain(s, c) && |c| >= 2
    ensures c[|c| - 1] != c[0]
  {
    RunKeeps([], acts, s);
    if c[|c| - 1] == c[0] {
      assert WaitsFor(s, c[0], c[1]);
      ChainClimbs(s, c);
    }
  }

  /** Some thread blocked on a lock can be granted it, or the lock's holder is running. */
  ghost predicate Moves(s: State, i: nat) {
    i < |s| && ((s[i].want.Some? && Free(s, s[i].want.value)) || (Running(s[i]) && s[i].held != {}))
  }

  /** So a blocked thread always leads to one that can move: no deadlock. A thread parked on a
      condvar holds nothing and is never the one waited for. */
  lemma SomeoneMoves(acts: seq<Act>, s: State, i: nat) returns (j: nat)
    requires Run([], acts, s) && i < |s| && s[i].want.Some?
    ensures Moves(s, j)
  {
    RunKeeps([], acts, s);
    j := Follow(s, i);
  }

  lemma {:induction false} Follow(s: State, i: nat) returns (j: nat)
    requires Inv(s) && i < |s| && s[i].want.Some?
    ensures Moves(s, j)
    decreases RANKS - Rank(s[i].want.value.kind)
  {
    if Free(s, s[i].want.value) {
      return i;
    }
    var h: nat :| h < |s| && s[i].want.value in s[h].held;
    if s[h].want.None? {
      assert ThreadOk(s[h]);
      return h;
    }
    assert WaitsFor(s, i, h);
    OneWait(s, i, h);
    j := Follow(s, h);
  }
}
