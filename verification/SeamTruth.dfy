/** What readers are told: bytes are true to the resource, end-of-stream is sound and
    final, and a stopped pump leaves nothing to wait for. */
module SeamTruth {
  import opened Prelude
  import opened Extents
  import opened SessionState
  import opened Seam
  import SeamDemand
  import SparseStore

  /** `peek`: committed bytes, a confirmed end, or an unfetched hole. */
  ghost function Peek(s: Session, pos: nat, maxLen: nat, ioFails: bool): Result<Option<seq<Byte>>, StreamError> {
    if maxLen == 0 then Ok(Some([]))
    else if s.sh.life.terminal.Some? then Err(s.sh.life.terminal.value)
    else if pos in s.data then
      if ioFails then Err(Internal) else Ok(Some(SparseStore.Serve(s.data, pos, maxLen)))
    else if (s.total.Some? && pos >= s.total.value) || s.sh.PastEof(pos) then Ok(Some([]))
    else Ok(None)
  }

  /** A non-empty answer is a slice of the resource at the asked position. */
  ghost predicate SliceOf(res: seq<Byte>, pos: nat, maxLen: nat, bytes: seq<Byte>) {
    bytes != [] ==> |bytes| <= maxLen && pos + |bytes| <= |res| && bytes == res[pos..pos + |bytes|]
  }

  /** Every covered offset holds the resource's byte, and so does every answer given. */
  ghost predicate TruthInv(s: Session) {
    && (forall p :: p in s.data ==> p < |s.res| && s.data[p] == s.res[p])
    && (forall r :: 0 <= r < |s.readers| && s.readers[r].out.Some? && s.readers[r].out.value.Bytes? ==>
          SliceOf(s.res, s.readers[r].pos, s.readers[r].maxLen, s.readers[r].out.value.bytes))
  }

  /** What an honest server answers: every total it names is the true length, and a URL minted since
      the cycle began refuses only what lies at or past the end. What the session concludes from it
      is the code's own affair. */
  ghost predicate Honest(s: Session, a: Act) {
    && (a.SetTotal? ==> a.total == |s.res|)
    && (a.PumpEof? && a.reminted && s.pump.Fetching? ==> s.pump.offset >= |s.res|)
  }

  /** End-of-stream is only ever reported at or past the end. */
  ghost predicate EofInv(s: Session) {
    && (s.total.Some? ==> s.total.value == |s.res|)
    && (s.sh.eofBelow.Some? ==> s.sh.eofBelow.value >= |s.res|)
    && (forall r :: 0 <= r < |s.readers| && s.readers[r].out == Some(Bytes([])) ==>
          s.readers[r].maxLen == 0 || s.readers[r].pos >= |s.res|)
  }

  /** Serving from a truthful store answers a non-empty slice. */
  lemma ServeTrue(data: map<nat, Byte>, res: seq<Byte>, pos: nat, maxLen: nat)
    requires forall p :: p in data ==> p < |res| && data[p] == res[p]
    requires pos in data && maxLen > 0
    ensures SliceOf(res, pos, maxLen, SparseStore.Serve(data, pos, maxLen))
  {
    var bytes := SparseStore.Serve(data, pos, maxLen);
    assert pos + (|bytes| - 1) in data;
    assert forall i :: 0 <= i < |bytes| ==> bytes[i] == res[pos + i];
  }

  /** What a critical section may touch, action by action: only checks answer readers, only
      commits write the store, only the wire moves the length, and an end is final. */
  ghost predicate Frame(s: Session, a: Act, t: Session) {
    && t.res == s.res && t.cfg == s.cfg
    && (a.CommitStore? || t.data == s.data)
    && (a.SetTotal? || t.total == s.total)
    && (a.MarkEof? || a.PumpEof? || t.sh.eofBelow == s.sh.eofBelow)
    && (s.sh.life.Live() || t.sh.life.terminal == s.sh.life.terminal)
    && (a.ReadBegin? || (|t.readers| == |s.readers| &&
                         forall r :: 0 <= r < |s.readers| && (!a.ReadCheck? || r != a.r) ==>
                           && t.readers[r].pos == s.readers[r].pos && t.readers[r].maxLen == s.readers[r].maxLen
                           && t.readers[r].out in {s.readers[r].out, Some(Failure(Transient))}))
  }

  lemma ReaderFrame(s: Session, a: Act, demand: int)
    requires Enabled(s, a) && (a.ReadBegin? || a.ReadQueue? || a.ReadPark? || a.ReadStir? || a.NotifyReaders?)
    ensures Frame(s, a, Do(s, a, demand))
  {
    hide DoReadCheck, DoCommitStore, DoPumpDecide, DoPumpPick;
  }

  lemma VerdictFrame(s: Session, rd: Reader, ioFails: bool)
    requires rd.maxLen > 0
    ensures var t := Verdict(s, rd, ioFails).0;
            t == s.(sh := t.sh, permit := t.permit) && t.sh.life == s.sh.life && t.sh.eofBelow == s.sh.eofBelow
  {
    hide SparseStore.Serve, SparseStore.ServeLen;
  }

  lemma FinishFrame(s: Session, r: nat, rd: Reader, out: Outcome)
    requires r < |s.readers|
    ensures var t := Finish(s, r, rd, out);
            && t.res == s.res && t.cfg == s.cfg && t.data == s.data && t.total == s.total
            && t.sh.eofBelow == s.sh.eofBelow && t.sh.life == s.sh.life
            && |t.readers| == |s.readers| && forall q :: 0 <= q < |s.readers| && q != r ==> t.readers[q] == s.readers[q]
  {
  }

  lemma CheckFrame(s: Session, r: nat, ioFails: bool)
    requires Enabled(s, ReadCheck(r, ioFails))
    ensures Frame(s, ReadCheck(r, ioFails), DoReadCheck(s, r, ioFails))
  {
    hide Verdict, Finish;
    var rd := Anchored(s, s.readers[r]);
    var (t, out) := Verdict(s, rd, ioFails);
    VerdictFrame(s, rd, ioFails);
    if out.Some? {
      FinishFrame(t, r, rd, out.value);
    }
  }

  lemma PumpFrame(s: Session, a: Act, demand: int)
    requires Enabled(s, a)
    requires a in {PumpDecide, PumpPick, PumpListen, PumpRecheck, PumpWake, PumpFetched, PumpExit} || a.PumpEof?
    ensures Frame(s, a, Do(s, a, demand))
  {
    hide DoReadCheck, DoCommitStore, DoReadQueue, DoReadPark, DoNotify, DecideRest, Whole, Least;
  }

  lemma ProducerFrame(s: Session, a: Act, demand: int)
    requires Enabled(s, a)
    requires a.CommitStore? || a.CommitMark? || a.SetTotal? || a.SetHint? || a.MarkEof? || a.Stall?
    ensures Frame(s, a, Do(s, a, demand))
  {
    hide DoReadCheck, DoReadBegin, DoReadQueue, DoReadPark, DoNotify, DoPumpDecide, DoPumpPick, SetReader, DoAttach,
      DoClose, SparseStore.Placed, BodyTrue, Wakeable;
  }

  lemma LifecycleFrame(s: Session, a: Act, demand: int)
    requires Enabled(s, a)
    requires a.Terminate? || a.Attach? || a.Close? || a.Claim? || a.MarkAbandoned?
    ensures Frame(s, a, Do(s, a, demand))
  {
    hide DoReadCheck, DoReadBegin, DoReadQueue, DoReadPark, DoNotify, DoPumpDecide, DoPumpPick, SetReader,
      DoCommitStore, DoCommitMark, DoStall, BodyTrue, Wakeable;
  }

  lemma ActFrame(s: Session, a: Act, demand: int)
    requires Enabled(s, a)
    ensures Frame(s, a, Do(s, a, demand))
  {
    hide Frame, DoReadCheck, DoReadQueue, DoReadPark, DoNotify, DoPumpDecide, DoPumpPick, DoCommitStore, DoCommitMark,
      DoStall, DoAttach, DoClose, DoReadBegin, Enabled, SetReader;
    match a
    case ReadCheck(r, ioFails) => CheckFrame(s, r, ioFails);
    case ReadBegin(_, _) => ReaderFrame(s, a, demand);
    case ReadQueue(_) => ReaderFrame(s, a, demand);
    case ReadPark(_, _) => ReaderFrame(s, a, demand);
    case ReadStir(_) => ReaderFrame(s, a, demand);
    case NotifyReaders => ReaderFrame(s, a, demand);
    case PumpDecide => PumpFrame(s, a, demand);
    case PumpPick => PumpFrame(s, a, demand);
    case PumpListen => PumpFrame(s, a, demand);
    case PumpRecheck => PumpFrame(s, a, demand);
    case PumpWake => PumpFrame(s, a, demand);
    case PumpFetched => PumpFrame(s, a, demand);
    case PumpEof(_) => PumpFrame(s, a, demand);
    case PumpExit => PumpFrame(s, a, demand);
    case Terminate(_) => LifecycleFrame(s, a, demand);
    case Attach(_) => LifecycleFrame(s, a, demand);
    case Close(_) => LifecycleFrame(s, a, demand);
    case Claim => LifecycleFrame(s, a, demand);
    case MarkAbandoned => LifecycleFrame(s, a, demand);
    case _ => ProducerFrame(s, a, demand);
  }

  /** A served verdict is a slice of the resource. */
  lemma VerdictIsTrue(s: Session, rd: Reader, ioFails: bool)
    requires TruthInv(s) && rd.maxLen > 0
    ensures var out := Verdict(s, rd, ioFails).1;
            out.Some? && out.value.Bytes? ==> SliceOf(s.res, rd.pos, rd.maxLen, out.value.bytes)
  {
    if rd.pos in s.data {
      ServeTrue(s.data, s.res, rd.pos, rd.maxLen);
    }
  }

  /** An end-of-stream verdict is never early. */
  lemma VerdictIsNotEarly(s: Session, rd: Reader, ioFails: bool)
    requires EofInv(s) && rd.maxLen > 0
    ensures Verdict(s, rd, ioFails).1 == Some(Bytes([])) ==> rd.pos >= |s.res|
  {
  }

  /** A check leaves the verdict, or nothing, in its reader. */
  lemma CheckAnswers(s: Session, r: nat, ioFails: bool)
    requires Enabled(s, ReadCheck(r, ioFails))
    ensures var rd := DoReadCheck(s, r, ioFails).readers[r];
            && rd.pos == s.readers[r].pos && rd.maxLen == s.readers[r].maxLen
            && rd.out in {s.readers[r].out, Verdict(s, Anchored(s, s.readers[r]), ioFails).1}
  {
    hide SparseStore.Serve, SparseStore.ServeLen, Shared.Drop;
  }

  lemma CheckKeepsTruth(s: Session, r: nat, ioFails: bool)
    requires TruthInv(s) && Enabled(s, ReadCheck(r, ioFails))
    ensures TruthInv(DoReadCheck(s, r, ioFails))
  {
    hide DoReadCheck, Verdict;
    CheckFrame(s, r, ioFails);
    CheckAnswers(s, r, ioFails);
    VerdictIsTrue(s, Anchored(s, s.readers[r]), ioFails);
  }

  lemma CheckKeepsEof(s: Session, r: nat, ioFails: bool)
    requires EofInv(s) && Enabled(s, ReadCheck(r, ioFails))
    ensures EofInv(DoReadCheck(s, r, ioFails))
  {
    hide DoReadCheck, Verdict;
    CheckFrame(s, r, ioFails);
    CheckAnswers(s, r, ioFails);
    VerdictIsNotEarly(s, Anchored(s, s.readers[r]), ioFails);
  }

  lemma CommitKeepsTruth(s: Session, off: nat, bytes: seq<Byte>)
    requires TruthInv(s) && Enabled(s, CommitStore(off, bytes))
    ensures TruthInv(DoCommitStore(s, off, bytes))
  {
    assert forall p :: p in SparseStore.Placed(off, bytes) ==> SparseStore.Placed(off, bytes)[p] == s.res[p];
  }

  lemma FrameKeepsTruth(s: Session, a: Act, t: Session)
    requires TruthInv(s) && Frame(s, a, t) && !a.ReadBegin? && !a.ReadCheck? && !a.CommitStore?
    ensures TruthInv(t)
  {
    hide SliceOf;
  }

  lemma BeginKeepsTruth(s: Session, pos: nat, maxLen: nat)
    requires TruthInv(s)
    ensures TruthInv(DoReadBegin(s, pos, maxLen))
  {
  }

  lemma ActKeepsTruth(s: Session, a: Act, demand: int)
    requires TruthInv(s) && Enabled(s, a)
    ensures TruthInv(Do(s, a, demand))
  {
    hide DoReadCheck, DoReadQueue, DoReadPark, DoNotify, DoPumpDecide, DoPumpPick, DoCommitStore, DoCommitMark,
      DoStall, DoAttach, DoClose, SetReader, TruthInv, Frame, DoMarkEof, DoReadBegin;
    if a.ReadBegin? {
      BeginKeepsTruth(s, a.pos, a.maxLen);
    } else if a.ReadCheck? {
      CheckKeepsTruth(s, a.r, a.ioFails);
    } else if a.CommitStore? {
      CommitKeepsTruth(s, a.off, a.bytes);
    } else {
      ActFrame(s, a, demand);
      FrameKeepsTruth(s, a, Do(s, a, demand));
    }
  }

  /** What neither checks a reader nor hears from the wire leaves end-of-stream alone. */
  lemma FrameKeepsEof(s: Session, a: Act, t: Session)
    requires EofInv(s) && Frame(s, a, t)
    requires !a.ReadBegin? && !a.ReadCheck? && !a.SetTotal? && !a.MarkEof? && !a.PumpEof?
    ensures EofInv(t)
  {
  }

  lemma WireKeepsEof(s: Session, a: Act, demand: int)
    requires EofInv(s) && Enabled(s, a) && Honest(s, a)
    requires a.ReadBegin? || a.SetTotal? || a.MarkEof? || a.PumpEof?
    ensures EofInv(Do(s, a, demand))
  {
    hide DoReadCheck, DoReadQueue, DoReadPark, DoNotify, DoPumpDecide, DoPumpPick, DoCommitStore, DoCommitMark,
      DoStall, DoAttach, DoClose, SetReader;
  }

  lemma ActKeepsEof(s: Session, a: Act, demand: int)
    requires EofInv(s) && Enabled(s, a) && Honest(s, a)
    ensures EofInv(Do(s, a, demand))
  {
    hide DoReadCheck, DoReadQueue, DoReadPark, DoNotify, DoPumpDecide, DoPumpPick, DoCommitStore, DoCommitMark,
      DoStall, DoAttach, DoClose, SetReader, EofInv, Frame, Honest, DoMarkEof, DoReadBegin;
    if a.ReadCheck? {
      CheckKeepsEof(s, a.r, a.ioFails);
    } else if a.ReadBegin? || a.SetTotal? || a.MarkEof? || a.PumpEof? {
      WireKeepsEof(s, a, demand);
    } else {
      ActFrame(s, a, demand);
      FrameKeepsEof(s, a, Do(s, a, demand));
    }
  }

  /** The ceiling never rises, the wire total never changes, the coverage never shrinks, and
      an ended session stays ended. */
  lemma KnowledgeOnlyGrows(s: Session, a: Act, demand: int)
    requires Enabled(s, a)
    ensures var t := Do(s, a, demand);
            && t.res == s.res && t.cfg == s.cfg
            && (s.sh.eofBelow.Some? ==> t.sh.eofBelow.Some? && t.sh.eofBelow.value <= s.sh.eofBelow.value)
            && (s.total.Some? ==> t.total == s.total)
            && s.data.Keys <= t.data.Keys
            && (!s.sh.life.Live() ==> t.sh.life.terminal == s.sh.life.terminal)
  {
    hide DoReadCheck, DoReadQueue, DoReadPark, DoNotify, DoPumpDecide, DoPumpPick, DoCommitMark, DoStall, DoAttach,
      DoClose, SetReader, DoReadBegin;
    ActFrame(s, a, demand);
  }

  /** The pump never decides a fetch at a covered offset or at or past the ceiling. */
  lemma NoFetchPastCeiling(s: Session, a: Act, demand: int)
    requires s.cfg.Valid() && Enabled(s, a) && (a == PumpDecide || a == PumpPick)
    ensures var t := Do(s, a, demand);
            t.pump.Fetching? ==> t.pump.offset !in t.data && !t.sh.PastEof(t.pump.offset) && t.pump.len >= 1
  {
    DecisionsAreUseful(s.sh, s.data.Keys, s.total, s.hint, s.cfg, demand);
  }

  /** A peek tells the truth too. */
  lemma PeekIsTrue(s: Session, pos: nat, maxLen: nat, ioFails: bool)
    requires TruthInv(s)
    ensures var p := Peek(s, pos, maxLen, ioFails);
            p.Ok? && p.value.Some? ==>
              && SliceOf(s.res, pos, maxLen, p.value.value)
              && (EofInv(s) && maxLen > 0 && p.value.value == [] ==> pos >= |s.res|)
  {
    if maxLen > 0 && pos in s.data {
      ServeTrue(s.data, s.res, pos, maxLen);
    }
  }

  /** Once the pump has stopped on a live session, a fresh read is answered on the spot,
      from the store or as end-of-stream, with no pump. */
  lemma StoppedPumpAnswersAll(s: Session, r: nat)
    requires SeamDemand.Inv(s) && s.pump == Stopped && s.sh.life.Live()
    requires Enabled(s, ReadCheck(r, false)) && s.readers[r].pc == Entering
    ensures var rd := DoReadCheck(s, r, false).readers[r];
            && rd.pc == Done && rd.out.Some? && rd.out.value.Bytes?
            && (rd.out.value.bytes == [] <==> rd.pos >= s.total.value && rd.pos !in s.data)
  {
    GapIsLeast(s.data.Keys, 0, s.total.value);
    assert s.readers[r].pos < s.total.value ==> s.readers[r].pos in Span(0, s.total.value);
  }
}
