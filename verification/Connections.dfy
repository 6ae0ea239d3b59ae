/** The loopback server's per-handle connection counts: the session is closed when, and only
    when, the last connection that holds it ends. */
module Connections {
  import opened Prelude
  import opened SessionState

  type Handle = nat

  /** One connection: the handle it holds, and whether it anchored a reader on it. */
  datatype Conn = Conn(handle: Option<Handle>, anchored: bool)

  datatype State = State(counts: map<Handle, nat>, conns: seq<Conn>, lives: map<Handle, Life>)

  function CountOf(counts: map<Handle, nat>, h: Handle): nat {
    if h in counts then counts[h] else 0
  }

  function Hold(counts: map<Handle, nat>, h: Handle): map<Handle, nat> {
    counts[h := CountOf(counts, h) + 1]
  }

  /** A decrement that removes the entry with its last holder. */
  function Unhold(counts: map<Handle, nat>, h: Handle): map<Handle, nat> {
    if CountOf(counts, h) > 1 then counts[h := counts[h] - 1] else counts - {h}
  }

  /** Open connections that hold `h`. */
  function Holders(conns: seq<Conn>, h: Handle): nat {
    if conns == [] then 0 else (if conns[0].handle == Some(h) then 1 else 0) + Holders(conns[1..], h)
  }

  datatype Act =
    | Accept
    | Attach(c: nat, h: Handle, stale: bool)
    | Probe(c: nat, h: Handle, stale: bool)
    | Reattach(c: nat)
    | Finish(c: nat, now: nat)
    | Session(h: Handle, op: Op)

  /** What others do to a session; only the server closes it. */
  datatype Op = End(error: StreamError) | Claim | Abandon

  function Apply(l: Life, op: Op): Life {
    match op
    case End(e) => l.End(e)
    case Claim => l.Claim()
    case Abandon => l.Abandon()
  }

  predicate Enabled(s: State, a: Act) {
    match a
    case Accept => true
    case Attach(c, h, _) => c < |s.conns| && s.conns[c].handle.None?
    case Probe(c, h, _) => c < |s.conns| && s.conns[c].handle.None?
    case Reattach(c) => c < |s.conns| && s.conns[c].handle.Some? && s.conns[c].anchored
    case Finish(c, _) => c < |s.conns|
    case Session(h, _) => h in s.lives
  }

  /** An attach or a probe that the registry lets through: a known, live session that is not a
      stale prepare. */
  predicate Admitted(lives: map<Handle, Life>, h: Handle, stale: bool) {
    h in lives && lives[h].Live() && !(stale && !lives[h].everAttached)
  }

  /** A stale prepare ends `Expired` when someone turns up for it. */
  function Expire(lives: map<Handle, Life>, h: Handle): map<Handle, Life> {
    if h in lives then lives[h := lives[h].End(Expired)] else lives
  }

  function Do(s: State, a: Act): State
    requires Enabled(s, a)
  {
    match a
    case Accept => s.(conns := s.conns + [Conn(None, false)])
    case Attach(c, h, stale) =>
      if !Admitted(s.lives, h, stale) then s.(lives := if stale then Expire(s.lives, h) else s.lives)
      else State(Hold(s.counts, h), s.conns[c := Conn(Some(h), true)], s.lives[h := s.lives[h].Attach()])
    case Probe(c, h, stale) =>
      if !Admitted(s.lives, h, stale) then s.(lives := if stale then Expire(s.lives, h) else s.lives)
      else State(Hold(s.counts, h), s.conns[c := Conn(Some(h), false)], s.lives)
    case Reattach(c) =>
      var h := s.conns[c].handle.value;
      if h in s.lives && s.lives[h].Live() then s.(lives := s.lives[h := s.lives[h].Attach()]) else s
    case Finish(c, now) =>
      if s.conns[c].handle.None? then s
      else
        var h := s.conns[c].handle.value;
        State(Unhold(s.counts, h), s.conns[c := Conn(None, false)],
              if CountOf(s.counts, h) <= 1 && h in s.lives then s.lives[h := s.lives[h].Close(now)] else s.lives)
    case Session(h, op) => s.(lives := s.lives[h := Apply(s.lives[h], op)])
  }

  // ---- what every state keeps --------------------------------------------------------------

  /** Each count is the number of holders, and no entry outlives them. */
  ghost predicate Counted(s: State) {
    && (forall h :: CountOf(s.counts, h) == Holders(s.conns, h))
    && (forall h :: h in s.counts ==> s.counts[h] > 0)
  }

  /** A session some connection anchored a reader on is attached. */
  ghost predicate Anchored(s: State) {
    forall c :: 0 <= c < |s.conns| && s.conns[c].anchored ==>
      s.conns[c].handle.Some? && s.conns[c].handle.value in s.lives && s.lives[s.conns[c].handle.value].attached
  }

  lemma {:induction false} HoldersUpdate(conns: seq<Conn>, c: nat, now: Conn, h: Handle)
    requires c < |conns|
    ensures Holders(conns[c := now], h) + (if conns[c].handle == Some(h) then 1 else 0)
            == Holders(conns, h) + (if now.handle == Some(h) then 1 else 0)
    decreases conns
  {
    if c == 0 {
      assert conns[0 := now][1..] == conns[1..];
    } else {
      HoldersUpdate(conns[1..], c - 1, now, h);
      assert conns[c := now][1..] == conns[1..][c - 1 := now];
    }
  }

  lemma {:induction false} HoldersAppend(conns: seq<Conn>, now: Conn, h: Handle)
    requires now.handle.None?
    ensures Holders(conns + [now], h) == Holders(conns, h)
    decreases conns
  {
    if conns == [] {
      assert [now][1..] == [];
    } else {
      HoldersAppend(conns[1..], now, h);
      assert (conns + [now])[1..] == conns[1..] + [now];
    }
  }

  /** Two holders count for two. */
  lemma {:induction false} TwoHolders(conns: seq<Conn>, c: nat, d: nat, h: Handle)
    requires c < |conns| && d < |conns| && c != d && conns[c].handle == Some(h) && conns[d].handle == Some(h)
    ensures Holders(conns, h) >= 2
    decreases conns
  {
    if c == 0 {
      OneHolder(conns[1..], d - 1, h);
    } else if d == 0 {
      OneHolder(conns[1..], c - 1, h);
    } else {
      TwoHolders(conns[1..], c - 1, d - 1, h);
    }
  }

  lemma {:induction false} OneHolder(conns: seq<Conn>, c: nat, h: Handle)
    requires c < |conns| && conns[c].handle == Some(h)
    ensures Holders(conns, h) >= 1
    decreases conns
  {
    if c > 0 {
      OneHolder(conns[1..], c - 1, h);
    }
  }

  lemma CountedKept(s: State, a: Act)
    requires Counted(s) && Enabled(s, a)
    ensures Counted(Do(s, a))
  {
    match a
    case Accept =>
      forall h { HoldersAppend(s.conns, Conn(None, false), h); }
    case Attach(c, h, stale) =>
      forall g { HoldersUpdate(s.conns, c, Conn(Some(h), true), g); }
    case Probe(c, h, stale) =>
      forall g { HoldersUpdate(s.conns, c, Conn(Some(h), false), g); }
    case Reattach(_) =>
    case Finish(c, _) =>
      if s.conns[c].handle.Some? {
        OneHolder(s.conns, c, s.conns[c].handle.value);
        forall g { HoldersUpdate(s.conns, c, Conn(None, false), g); }
      }
    case Session(_, _) =>
  }

  /** While one connection holds a session, another one ending leaves it alone. */
  lemma SiblingSpared(s: State, c: nat, d: nat, now: nat)
    requires Counted(s) && c < |s.conns| && d < |s.conns| && c != d && s.conns[c].handle.Some?
    ensures s.conns[d].handle == s.conns[c].handle ==> Do(s, Finish(c, now)).lives == s.lives
    ensures forall h :: h in s.lives && s.conns[d].handle == Some(h) ==> Do(s, Finish(c, now)).lives[h] == s.lives[h]
  {
    if s.conns[d].handle == s.conns[c].handle {
      TwoHolders(s.conns, c, d, s.conns[c].handle.value);
    }
  }

  lemma AnchoredKept(s: State, a: Act)
    requires Counted(s) && Anchored(s) && Enabled(s, a)
    ensures Anchored(Do(s, a))
  {
    if a.Finish? && s.conns[a.c].handle.Some? {
      forall d | 0 <= d < |s.conns| && d != a.c
        ensures s.conns[d].handle == s.conns[a.c].handle ==> Do(s, a).lives == s.lives
      {
        SiblingSpared(s, a.c, d, a.now);
      }
    }
  }

  function Start(lives: map<Handle, Life>): State {
    State(map[], [], lives)
  }

  ghost predicate Run(s: State, acts: seq<Act>, t: State)
    decreases acts
  {
    if acts == [] then s == t
    else Enabled(s, acts[0]) && Run(Do(s, acts[0]), acts[1..], t)
  }

  lemma {:induction false} RunKeeps(s: State, acts: seq<Act>, t: State)
    requires Counted(s) && Anchored(s) && Run(s, acts, t)
    ensures Counted(t) && Anchored(t)
    decreases acts
  {
    hide Counted, Anchored, Do, Enabled;
    if acts != [] {
      CountedKept(s, acts[0]);
      AnchoredKept(s, acts[0]);
      RunKeeps(Do(s, acts[0]), acts[1..], t);
    }
  }

  /** Each handle's count is the number of open connections that hold it. */
  lemma CountIsHolders(lives: map<Handle, Life>, acts: seq<Act>, s: State, h: Handle)
    requires Run(Start(lives), acts, s)
    ensures CountOf(s.counts, h) == Holders(s.conns, h)
    ensures h in s.counts ==> Holders(s.conns, h) > 0
  {
    RunKeeps(Start(lives), acts, s);
  }

  /** A connection that ends closes its session exactly when nobody else holds it. */
  lemma ClosesExactlyAtLast(lives: map<Handle, Life>, acts: seq<Act>, s: State, c: nat, now: nat, h: Handle)
    requires Run(Start(lives), acts, s) && c < |s.conns| && s.conns[c].handle == Some(h) && h in s.lives
    ensures Do(s, Finish(c, now)).lives == if Holders(s.conns, h) == 1 then s.lives[h := s.lives[h].Close(now)]
              else s.lives
    ensures Holders(s.conns, h) == 1 <==> forall d :: 0 <= d < |s.conns| && d != c ==> s.conns[d].handle != Some(h)
  {
    RunKeeps(Start(lives), acts, s);
    OneHolder(s.conns, c, h);
    if d :| 0 <= d < |s.conns| && d != c && s.conns[d].handle == Some(h) {
      TwoHolders(s.conns, c, d, h);
    } else {
      AloneHolds(s.conns, c, h);
    }
  }

  lemma {:induction false} AloneHolds(conns: seq<Conn>, c: nat, h: Handle)
    requires c < |conns| && conns[c].handle == Some(h)
    requires forall d :: 0 <= d < |conns| && d != c ==> conns[d].handle != Some(h)
    ensures Holders(conns, h) == 1
    decreases conns
  {
    if c == 0 {
      NobodyHolds(conns[1..], h);
    } else {
      assert conns[0].handle != Some(h);
      AloneHolds(conns[1..], c - 1, h);
    }
  }

  lemma {:induction false} NobodyHolds(conns: seq<Conn>, h: Handle)
    requires forall d :: 0 <= d < |conns| ==> conns[d].handle != Some(h)
    ensures Holders(conns, h) == 0
    decreases conns
  {
    if conns != [] {
      NobodyHolds(conns[1..], h);
    }
  }

  /** From one state of a run to the next, connection `d` stays open on `h`. */
  ghost predicate StaysOpen(s: State, acts: seq<Act>, d: nat, h: Handle)
    decreases acts
  {
    && d < |s.conns| && s.conns[d].handle == Some(h)
    && (acts != [] && Enabled(s, acts[0]) ==> StaysOpen(Do(s, acts[0]), acts[1..], d, h))
  }

  /** A reader parked by an open connection never sees its session's detach epoch move, whatever
      siblings end meanwhile; and while it lives the session stays attached. */
  lemma {:induction false} ParkedReadUndisturbed(s: State, acts: seq<Act>, t: State, d: nat, h: Handle)
    requires Counted(s) && Anchored(s) && Run(s, acts, t) && StaysOpen(s, acts, d, h) && h in s.lives
    ensures h in t.lives && t.lives[h].detachEpoch == s.lives[h].detachEpoch
    ensures s.lives[h].attached ==> t.lives[h].attached
    decreases acts
  {
    if acts != [] {
      CountedKept(s, acts[0]);
      AnchoredKept(s, acts[0]);
      StepKeepsEpoch(s, acts[0], d, h);
      ParkedReadUndisturbed(Do(s, acts[0]), acts[1..], t, d, h);
    }
  }

  lemma StepKeepsEpoch(s: State, a: Act, d: nat, h: Handle)
    requires Counted(s) && Enabled(s, a) && d < |s.conns| && s.conns[d].handle == Some(h) && h in s.lives
    requires d < |Do(s, a).conns| && Do(s, a).conns[d].handle == Some(h)
    ensures h in Do(s, a).lives && Do(s, a).lives[h].detachEpoch == s.lives[h].detachEpoch
    ensures s.lives[h].attached ==> Do(s, a).lives[h].attached
  {
    if a.Finish? && s.conns[a.c].handle.Some? && a.c != d {
      SiblingSpared(s, a.c, d, a.now);
    }
  }

  // ---- the object form -------------------------------------------------------------------------

  class LoopbackShared {
    var attaches: map<Handle, nat>
    /** The sessions of the stream registry, by handle. */
    var sessions: map<Handle, Life>

    constructor (sessions: map<Handle, Life>)
      ensures attaches == map[] && this.sessions == sessions
    {
      attaches := map[];
      this.sessions := sessions;
    }

    /** Attach and count in one section, so a racing detach is ordered against it. */
    method AttachCounted(h: Handle, stale: bool) returns (ok: bool)
      modifies this
      ensures ok <==> Admitted(old(sessions), h, stale)
      ensures ok ==> attaches == Hold(old(attaches), h) && sessions == old(sessions)[h := old(sessions)[h].Attach()]
      ensures !ok ==> attaches == old(attaches) && sessions == if stale then Expire(old(sessions), h) else old(sessions)
      ensures ok <==> h in old(sessions) && old(sessions)[h].terminal.None? && (stale ==> old(sessions)[h].everAttached)
      ensures stale && h in old(sessions) && old(sessions)[h].terminal.None? && !old(sessions)[h].everAttached ==>
                sessions == old(sessions)[h := old(sessions)[h].(terminal := Some(Expired))]
      ensures ok ==> sessions[h].attached && attaches[h] == (if h in old(attaches) then old(attaches)[h] else 0) + 1
    {
      if h !in sessions {
        return false;
      }
      if sessions[h].terminal.Some? {
        assert sessions[h := sessions[h]] == sessions;
        return false;
      }
      if stale && !sessions[h].everAttached {
        sessions := sessions[h := sessions[h].End(Expired)];
        return false;
      }
      sessions := sessions[h := sessions[h].Attach()];
      attaches := attaches[h := (if h in attaches then attaches[h] else 0) + 1];
      return true;
    }

    /** A connection's end: the last holder closes, still under the counts' lock. */
    method ConnDropped(handle: Option<Handle>, now: nat)
      modifies this
      ensures handle.None? ==> attaches == old(attaches) && sessions == old(sessions)
      ensures handle.Some? ==>
                && attaches == Unhold(old(attaches), handle.value)
                && sessions == if CountOf(old(attaches), handle.value) <= 1 && handle.value in old(sessions)
                               then old(sessions)[handle.value := old(sessions)[handle.value].Close(now)]
                               else old(sessions)
    {
      if handle.None? {
        return;
      }
      var h := handle.value;
      var last := true;
      if h in attaches && attaches[h] > 1 {
        attaches := attaches[h := attaches[h] - 1];
        last := false;
      } else {
        attaches := attaches - {h};
      }
      if last && h in sessions {
        sessions := sessions[h := sessions[h].Close(now)];
      }
    }
  }
}
