/** What one pass of a read does to the session, field by field, and the life of a latched error: one
    reader is told, then the pump may try again. */
module SeamLatch {
  import opened Prelude
  import opened Extents
  import opened SessionState
  import opened Seam
  import opened SeamRuns
  import SparseStore

  /** The wire has shown that `pos` is at or past the end. */
  predicate KnownEnd(s: Session, pos: nat) {
    (s.total.Some? && pos >= s.total.value) || (s.sh.eofBelow.Some? && pos >= s.sh.eofBelow.value)
  }

  /** A pass, case by case, in the fields it finds and leaves: the terminal error, a detach, the bytes, the
      end, the latch, or nothing yet; only a served pass moves the read position, and only the latch's own
      answer clears the latch. */
  lemma PassOnFields(s: Session, rd: Reader, ioFails: bool)
    requires rd.maxLen > 0
    ensures var (t, out) := Verdict(s, rd, ioFails);
            var sh := s.sh;
            if sh.life.terminal.Some? then out == Some(Failure(sh.life.terminal.value)) && t == s
            else if rd.epoch != sh.life.detachEpoch then out == Some(Failure(Cancelled)) && t == s
            else if rd.pos in s.data && ioFails then out == Some(Failure(Internal)) && t == s
            else if rd.pos in s.data then
              && out.Some? && out.value.Bytes? && out.value.bytes == SparseStore.Serve(s.data, rd.pos, rd.maxLen)
              && t == s.(sh := sh.(readPos := t.sh.readPos), permit := true)
              && t.sh.readPos >= sh.readPos && t.sh.readPos >= Min(rd.pos + |out.value.bytes|, U64_MAX)
              && t.sh.readPos in {sh.readPos, Min(rd.pos + |out.value.bytes|, U64_MAX)}
            else if KnownEnd(s, rd.pos) then out == Some(Bytes([])) && t == s
            else if sh.transientError.Some? then
              && out == Some(Failure(sh.transientError.value))
              && t == s.(sh := t.sh, permit := true) && t.sh == sh.(transientError := None)
            else out.None? && t == s
  {
    hide SparseStore.Serve;
  }

  /** A stall latches its error on a live session, and both the readers and the pump will hear of it; an
      attach clears it and anchors the session where the consumer starts. */
  lemma StallAndAttach(s: Session, e: StreamError, pos: nat, demand: int)
    requires s.holder == Free && s.sh.life.terminal.None?
    ensures var t := Do(s, Stall(e), demand);
            t.sh == s.sh.(transientError := Some(e)) && t.notes == s.notes + 1 && t.permit
    ensures var t := Do(s, Attach(pos), demand);
            && t.sh.life.attached && t.sh.life.everAttached && t.sh.readPos == pos && t.sh.transientError.None?
            && t.permit
            && t.sh.fetchThrough == s.sh.fetchThrough && t.sh.life.detachEpoch == s.sh.life.detachEpoch
  {
  }

  /** A commit counts its bytes and owes the readers a notify, unless the session ended meanwhile. */
  lemma CommitCounts(s: Session, off: nat, bytes: seq<Byte>, demand: int)
    requires Enabled(s, CommitStore(off, bytes)) && s.holder == Free
    ensures var u := Do(s, CommitStore(off, bytes), demand);
            && Enabled(u, CommitMark(|bytes|)) && u.data == s.data + SparseStore.Placed(off, bytes)
            && var t := Do(u, CommitMark(|bytes|), demand);
               && t.stored == s.stored
               && t.sh == s.sh.(committed := s.sh.committed + if s.sh.life.terminal.None? then |bytes| else 0)
               && t.notes == s.notes + if s.sh.life.terminal.None? then 1 else 0
  {
    hide SparseStore.Placed, BodyTrue;
  }

  /** Reader `r` is about to be told the latched error. */
  predicate LatchAnswers(s: Session, r: nat) {
    && r < |s.readers| && s.readers[r].pc in {Entering, Woken} && s.readers[r].maxLen > 0 && s.holder == Free
    && s.sh.life.terminal.None? && s.sh.transientError.Some?
    && (s.readers[r].pc == Woken ==> s.readers[r].epoch == s.sh.life.detachEpoch)
    && s.readers[r].pos !in s.data && !KnownEnd(s, s.readers[r].pos)
  }

  /** It is told so, and takes the latch with it. */
  lemma LatchIsTaken(s: Session, r: nat, ioFails: bool, demand: int)
    requires LatchAnswers(s, r)
    ensures Enabled(s, ReadCheck(r, ioFails))
    ensures var t := Do(s, ReadCheck(r, ioFails), demand);
            && t.readers[r].pc == Done && t.readers[r].out == Some(Failure(s.sh.transientError.value))
            && t.sh.transientError.None? && t.permit && t.holder == Free
            && t.data == s.data && t.total == s.total && t.hint == s.hint && t.cfg == s.cfg && t.pump == s.pump
            && t.sh.life == s.sh.life && t.sh.eofBelow == s.sh.eofBelow
            && |t.readers| == |s.readers|
  {
    hide Verdict;
    PassOnFields(s, Anchored(s, s.readers[r]), ioFails);
  }

  /** Nothing but a stall sets the latch. */
  lemma LatchStaysEmpty(s: Session, a: Act, demand: int)
    requires Enabled(s, a) && !a.Stall? && s.sh.transientError.None?
    ensures Do(s, a, demand).sh.transientError.None?
  {
    hide DoReadCheck, SparseStore.Placed, DecideRest, Whole, Least, BodyTrue;
    if a.ReadCheck? {
      CheckLeavesLatch(s, a.r, a.ioFails);
    }
  }

  lemma CheckLeavesLatch(s: Session, r: nat, ioFails: bool)
    requires Enabled(s, ReadCheck(r, ioFails))
    ensures DoReadCheck(s, r, ioFails).sh.transientError in {s.sh.transientError, None}
  {
    hide Verdict;
    PassOnFields(s, Anchored(s, s.readers[r]), ioFails);
  }

  ghost predicate Stalls(steps: seq<Step>, i: nat, k: nat, l: nat) {
    exists m :: k < m < l && m < |steps| && steps[m].Local? && steps[m].i == i && steps[m].act.Stall?
  }

  lemma {:induction false} StillEmpty(ws: seq<World>, steps: seq<Step>, i: nat, k: nat, l: nat)
    requires Run(ws, steps) && k < l < |ws| && i < |ws[k + 1].sessions|
    requires ws[k + 1].sessions[i].sh.transientError.None? && !Stalls(steps, i, k, l)
    ensures i < |ws[l].sessions| && ws[l].sessions[i].sh.transientError.None?
    decreases l
  {
    hide Do, Enabled;
    if l > k + 1 {
      var step := steps[l - 1];
      assert !Stalls(steps, i, k, l - 1);
      StillEmpty(ws, steps, i, k, l - 1);
      assert StepEnabled(ws[l - 1], step) && ws[l] == Next(ws[l - 1], step);
      if step.Local? && step.i == i {
        assert !step.act.Stall?;
        LatchStaysEmpty(ws[l - 1].sessions[i], step.act, ws[l - 1].demand);
      }
    }
  }

  /** In every run, between two stalls of a session its latch answers at most one reader. */
  lemma LatchAnswersOnce(ws: seq<World>, steps: seq<Step>, i: nat, k: nat, l: nat, r: nat, q: nat, io: bool, jo: bool)
    requires Run(ws, steps) && k < l < |steps|
    requires steps[k] == Local(i, ReadCheck(r, io)) && steps[l] == Local(i, ReadCheck(q, jo))
    requires i < |ws[k].sessions| && LatchAnswers(ws[k].sessions[i], r)
    requires i < |ws[l].sessions| && LatchAnswers(ws[l].sessions[i], q)
    ensures Stalls(steps, i, k, l)
  {
    hide Do, Enabled;
    assert StepEnabled(ws[k], steps[k]) && ws[k + 1] == Next(ws[k], steps[k]);
    LatchIsTaken(ws[k].sessions[i], r, io, ws[k].demand);
    if !Stalls(steps, i, k, l) {
      StillEmpty(ws, steps, i, k, l);
    }
  }

  /** One session's actions, one after another. */
  ghost predicate Follows(s: Session, acts: seq<Act>, demand: int, t: Session)
    decreases acts
  {
    if acts == [] then s == t else Enabled(s, acts[0]) && Follows(Do(s, acts[0], demand), acts[1..], demand, t)
  }

  lemma FollowsCons(s: Session, a: Act, acts: seq<Act>, all: seq<Act>, t: Session, demand: int)
    requires Enabled(s, a) && Follows(Do(s, a, demand), acts, demand, t) && all == [a] + acts
    ensures Follows(s, all, demand, t)
  {
    hide Do, Enabled;
    assert all[1..] == acts;
  }

  lemma FollowsOne(s: Session, a: Act, demand: int)
    requires Enabled(s, a)
    ensures Follows(s, [a], demand, Do(s, a, demand))
  {
    hide Do, Enabled;
    assert [a][1..] == [];
  }

  lemma {:induction false} FollowsJoin(s: Session, a: seq<Act>, t: Session, b: seq<Act>, u: Session, demand: int)
    requires Follows(s, a, demand, t) && Follows(t, b, demand, u)
    ensures Follows(s, a + b, demand, u)
    decreases a
  {
    hide Do, Enabled;
    if a == [] {
      assert a + b == b;
    } else {
      assert (a + b)[1..] == a[1..] + b;
      FollowsJoin(Do(s, a[0], demand), a[1..], t, b, u, demand);
    }
  }

  /** A live session with no latch and its lock free, and a position nothing answers yet. */
  predicate Unanswered(s: Session, pos: nat) {
    s.holder == Free && s.sh.life.terminal.None? && s.sh.transientError.None? && pos !in s.data && !KnownEnd(s, pos)
  }

  /** Queued demand that the pump has been told of. */
  predicate Signalled(s: Session, pos: nat) {
    Unanswered(s, pos) && pos in s.sh.fetchThrough && s.permit
  }

  /** A new read of such a position finds nothing and keeps the lock. */
  lemma ReadChecks(s: Session, pos: nat, n: nat, demand: int) returns (t: Session)
    requires Unanswered(s, pos) && n > 0
    ensures Follows(s, [ReadBegin(pos, n), ReadCheck(|s.readers|, false)], demand, t)
    ensures |t.readers| == |s.readers| + 1
    ensures var rd := t.readers[|s.readers|]; rd.pc == Checked && rd.pos == pos && !rd.holding
    ensures t == s.(readers := t.readers, holder := ByReader(|s.readers|))
  {
    hide Verdict, Follows;
    var q := |s.readers|;
    var s1 := Do(s, ReadBegin(pos, n), demand);
    PassOnFields(s1, Anchored(s1, s1.readers[q]), false);
    t := Do(s1, ReadCheck(q, false), demand);
    FollowsOne(s1, ReadCheck(q, false), demand);
    FollowsCons(s, ReadBegin(pos, n), [ReadCheck(q, false)], [ReadBegin(pos, n), ReadCheck(q, false)], t, demand);
  }

  /** Then it queues its position, tells the pump and parks. */
  lemma ReadQueues(s: Session, q: nat, demand: int) returns (t: Session)
    requires q < |s.readers| && s.readers[q].pc == Checked && !s.readers[q].holding && s.permit
    requires Unanswered(s.(holder := Free), s.readers[q].pos)
    ensures Follows(s, [ReadQueue(q), ReadPark(q, false)], demand, t)
    ensures Signalled(t, s.readers[q].pos) && t.pump == s.pump && t.cfg == s.cfg
  {
    hide Follows;
    var s1 := Do(s, ReadQueue(q), demand);
    t := Do(s1, ReadPark(q, false), demand);
    FollowsOne(s1, ReadPark(q, false), demand);
    FollowsCons(s, ReadQueue(q), [ReadPark(q, false)], [ReadQueue(q), ReadPark(q, false)], t, demand);
  }

  /** A parked pump that has been told decides on a fetch for the least position queued. */
  lemma PumpAnswers(s: Session, pos: nat, demand: int) returns (t: Session)
    requires Signalled(s, pos) && s.pump == Parked
    ensures Follows(s, [PumpWake, PumpDecide], demand, t)
    ensures t.pump.Fetching? && t.pump.through && t.pump.offset <= pos && t.pump.offset !in t.data
            && t.pump.len == Min(s.cfg.probeBytes, s.cfg.chunkBytes)
  {
    hide Follows, DoPumpDecide;
    var s1 := Do(s, PumpWake, demand);
    t := Do(s1, PumpDecide, demand);
    DecidesFor(s1, pos);
    FollowsOne(s1, PumpDecide, demand);
    FollowsCons(s, PumpWake, [PumpDecide], [PumpWake, PumpDecide], t, demand);
  }

  lemma DecidesFor(s: Session, pos: nat)
    requires Unanswered(s, pos) && pos in s.sh.fetchThrough
    ensures var t := DoPumpDecide(s);
            && t.data == s.data && t.pump.Fetching? && t.pump.through && t.pump.offset <= pos
            && t.pump.offset !in t.data
            && t.pump.len == Min(s.cfg.probeBytes, s.cfg.chunkBytes)
  {
    hide Whole;
    NotWhole(s, pos);
    assert pos in s.sh.Retain(s.data.Keys).fetchThrough;
  }

  /** And the read after that one gets the pump going again: it queues its position, and a pump that was
      parked on the latch decides on a fetch for the least position queued. */
  lemma RetriedAfterLatch(s: Session, r: nat, pos: nat, n: nat, demand: int) returns (t: Session)
    requires LatchAnswers(s, r) && s.pump == Parked && n > 0
    requires pos !in s.data && !KnownEnd(s, pos)
    ensures var q := |s.readers|;
            Follows(s, [ReadCheck(r, false)] + [ReadBegin(pos, n), ReadCheck(q, false)]
                       + [ReadQueue(q), ReadPark(q, false)] + [PumpWake, PumpDecide], demand, t)
    ensures t.pump.Fetching? && t.pump.through && t.pump.offset <= pos && t.pump.offset !in t.data
            && t.pump.len == Min(s.cfg.probeBytes, s.cfg.chunkBytes)
  {
    hide Do, Enabled, Follows;
    var q := |s.readers|;
    var told, read, queued := [ReadCheck(r, false)], [ReadBegin(pos, n), ReadCheck(q, false)],
      [ReadQueue(q), ReadPark(q, false)];
    LatchIsTaken(s, r, false, demand);
    FollowsOne(s, ReadCheck(r, false), demand);
    var s1 := Do(s, ReadCheck(r, false), demand);
    var s2 := ReadChecks(s1, pos, n, demand);
    var s3 := ReadQueues(s2, q, demand);
    t := PumpAnswers(s3, pos, demand);
    FollowsJoin(s, told, s1, read, s2, demand);
    FollowsJoin(s, told + read, s2, queued, s3, demand);
    FollowsJoin(s, told + read + queued, s3, [PumpWake, PumpDecide], t, demand);
  }

  lemma NotWhole(s: Session, pos: nat)
    requires pos !in s.data && !KnownEnd(s, pos)
    ensures !Whole(s.data.Keys, s.total)
  {
    if s.total.Some? {
      GapIsLeast(s.data.Keys, 0, s.total.value);
      assert pos in Span(0, s.total.value);
    }
  }
}
