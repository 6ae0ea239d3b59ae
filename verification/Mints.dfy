/** The two mint budgets of a session, over every run of `begin_mint`. */
module Mints {
  import opened Prelude
  import opened SessionState
  import opened SessionObjects

  /** The counters after a run of mint attempts, each made at a given committed count. */
  function AfterMints(core: PumpCore, commits: seq<nat>, cfg: Config): PumpCore
    decreases commits
  {
    if commits == [] then core else AfterMints(MintStep(core, commits[0], cfg).0, commits[1..], cfg)
  }

  /** Which attempts of the run reach the host's `remint`. */
  function Granted(core: PumpCore, commits: seq<nat>, cfg: Config): (oks: seq<bool>)
    ensures |oks| == |commits|
    decreases commits
  {
    if commits == [] then []
    else [MintStep(core, commits[0], cfg).1.Ok?] + Granted(MintStep(core, commits[0], cfg).0, commits[1..], cfg)
  }

  function Count(oks: seq<bool>): nat {
    if oks == [] then 0 else (if oks[0] then 1 else 0) + Count(oks[1..])
  }

  /** Over any run of attempts at all, `remint` is called at most as often as the budget allows. */
  lemma {:induction false} MintBudgetHolds(core: PumpCore, commits: seq<nat>, cfg: Config)
    ensures Count(Granted(core, commits, cfg)) <= core.Remaining(cfg.mintBudget)
    decreases commits
  {
    if commits != [] {
      var next := MintStep(core, commits[0], cfg).0;
      MintBudgetHolds(next, commits[1..], cfg);
      assert Granted(core, commits, cfg)[1..] == Granted(next, commits[1..], cfg);
    }
  }

  lemma {:induction false} GrantedSplits(core: PumpCore, a: seq<nat>, b: seq<nat>, cfg: Config)
    ensures Granted(core, a + b, cfg) == Granted(core, a, cfg) + Granted(AfterMints(core, a, cfg), b, cfg)
    decreases a
  {
    if a == [] {
      assert a + b == b;
    } else {
      assert (a + b)[1..] == a[1..] + b;
      GrantedSplits(MintStep(core, a[0], cfg).0, a[1..], b, cfg);
    }
  }

  /** Attempts that follow a mint with nothing committed since: each one counts. */
  lemma {:induction false} StuckMints(core: PumpCore, commits: seq<nat>, cfg: Config)
    requires core.mintsUsed > 0 && forall i :: 0 <= i < |commits| ==> commits[i] == core.committedAtMint
    requires forall i :: 0 <= i < |commits| ==> Granted(core, commits, cfg)[i]
    ensures |commits| == 0 || core.zeroProgress + |commits| <= cfg.maxZeroProgressMints
    decreases commits
  {
    if commits != [] {
      var next := MintStep(core, commits[0], cfg).0;
      assert Granted(core, commits, cfg)[0];
      forall i | 0 <= i < |commits| - 1 ensures Granted(next, commits[1..], cfg)[i] {
        assert Granted(core, commits, cfg)[i + 1] == Granted(next, commits[1..], cfg)[i];
      }
      StuckMints(next, commits[1..], cfg);
    }
  }

  /** Anywhere in any run: mints granted in a row with no byte committed between them number at
      most `maxZeroProgressMints + 1`. */
  lemma ZeroProgressBounded(core: PumpCore, before: seq<nat>, window: seq<nat>, cfg: Config)
    requires forall i :: 0 <= i < |window| ==> window[i] == window[0]
    requires forall i :: |before| <= i < |before| + |window| ==> Granted(core, before + window, cfg)[i]
    ensures |window| <= cfg.maxZeroProgressMints + 1
  {
    if window != [] {
      GrantedSplits(core, before, window, cfg);
      var start := AfterMints(core, before, cfg);
      var oks := Granted(start, window, cfg);
      assert Granted(core, before + window, cfg) == Granted(core, before, cfg) + oks;
      forall i | 0 <= i < |window| ensures oks[i] {
        assert Granted(core, before + window, cfg)[|before| + i];
      }
      AfterFirst(start, window, oks, cfg);
    }
  }

  lemma AfterFirst(start: PumpCore, window: seq<nat>, oks: seq<bool>, cfg: Config)
    requires window != [] && oks == Granted(start, window, cfg)
    requires forall i :: 0 <= i < |window| ==> window[i] == window[0]
    requires forall i :: 0 <= i < |window| ==> oks[i]
    ensures |window| <= cfg.maxZeroProgressMints + 1
  {
    assert oks[0];
    var next := MintStep(start, window[0], cfg).0;
    var rest := Granted(next, window[1..], cfg);
    assert oks[1..] == rest;
    forall i | 0 <= i < |window| - 1 ensures rest[i] {
      assert oks[i + 1] == rest[i];
    }
    StuckMints(next, window[1..], cfg);
  }

  // ---- exactly when a mint is granted ------------------------------------------------------

  /** How many attempts in a row, up to attempt `i`, found the byte count of the one before them. */
  function Streak(commits: seq<nat>, i: nat): nat
    requires i < |commits|
  {
    if i == 0 || commits[i] != commits[i - 1] then 0 else Streak(commits, i - 1) + 1
  }

  /** The counters of a session whose attempts have all been granted so far. */
  lemma {:induction false} CountersTell(source: Source, commits: seq<nat>, cfg: Config, i: nat)
    requires i < |commits| && forall j :: 0 <= j <= i ==> Granted(PumpCore(0, 0, 0, source), commits, cfg)[j]
    ensures AfterMints(PumpCore(0, 0, 0, source), commits[..i + 1], cfg)
            == PumpCore(i + 1, Streak(commits, i), commits[i], source)
  {
    var core := PumpCore(0, 0, 0, source);
    StepAt(core, commits, cfg, i);
    if i > 0 {
      CountersTell(source, commits, cfg, i - 1);
    } else {
      assert commits[..0] == [];
    }
  }

  /** The attempt `i` of a run, from where the first `i` left the counters. */
  lemma {:induction false} StepAt(core: PumpCore, commits: seq<nat>, cfg: Config, i: nat)
    requires i < |commits|
    ensures var before := AfterMints(core, commits[..i], cfg);
            && Granted(core, commits, cfg)[i] == MintStep(before, commits[i], cfg).1.Ok?
            && AfterMints(core, commits[..i + 1], cfg) == MintStep(before, commits[i], cfg).0
    decreases i
  {
    if i == 0 {
      assert commits[..1] == [commits[0]] && [commits[0]][1..] == [] && commits[..0] == [];
    } else {
      var next := MintStep(core, commits[0], cfg).0;
      StepAt(next, commits[1..], cfg, i - 1);
      assert commits[..i][1..] == commits[1..][..i - 1] && commits[..i + 1][1..] == commits[1..][..i];
      assert commits[..i][0] == commits[0] && commits[..i + 1][0] == commits[0];
    }
  }

  /** A new session's mints are granted exactly while both budgets last: the total, and the run of attempts
      that found nothing committed since the one before. */
  lemma GrantedExactly(source: Source, commits: seq<nat>, cfg: Config, i: nat)
    requires i < |commits| && forall j :: 0 <= j < i ==> Granted(PumpCore(0, 0, 0, source), commits, cfg)[j]
    ensures Granted(PumpCore(0, 0, 0, source), commits, cfg)[i] <==>
              i < cfg.mintBudget && Streak(commits, i) <= cfg.maxZeroProgressMints
  {
    var core := PumpCore(0, 0, 0, source);
    StepAt(core, commits, cfg, i);
    if i > 0 {
      CountersTell(source, commits, cfg, i - 1);
    } else {
      assert commits[..0] == [];
    }
  }

  // ---- pins -------------------------------------------------------------------------------

  /** The source after a run of re-mint answers, each adopted in turn; the first refused one ends it. */
  function Adopted(core: PumpCore, answers: seq<Source>): Result<PumpCore, StreamError>
    decreases answers
  {
    if answers == [] then Ok(core)
    else
      match core.Adopt(answers[0])
      case Err(e) => Err(e)
      case Ok(next) => Adopted(next, answers[1..])
  }

  /** The answer resolves the pinned track, provider and container. */
  predicate SameTrack(a: Source, b: Source) {
    a.track == b.track && a.provider == b.provider && a.mime == b.mime
  }

  /** The encode named just before answer `i`. */
  function NamedBefore(itag: Option<nat>, answers: seq<Source>, i: nat): Option<nat>
    requires i <= |answers|
  {
    if i == 0 then itag else answers[i - 1].itag
  }

  /** Once an encode has been named, every later answer names it. */
  predicate OneEncode(itag: Option<nat>, answers: seq<Source>) {
    forall i, j :: 0 <= i <= j < |answers| && NamedBefore(itag, answers, i).Some? ==>
      answers[j].itag == NamedBefore(itag, answers, i)
  }

  /** A session is never spliced from two sources: a run of re-mints is adopted exactly if every answer
      is the pinned track, provider and container and no named encode ever changes. */
  lemma {:induction false} PinsNeverDrift(core: PumpCore, answers: seq<Source>)
    ensures Adopted(core, answers).Ok? <==>
              && (forall i :: 0 <= i < |answers| ==> SameTrack(answers[i], core.source))
              && OneEncode(core.source.itag, answers)
    ensures Adopted(core, answers).Ok? ==>
              var after := Adopted(core, answers).value;
              && SameTrack(after.source, core.source) && after == core.(source := after.source)
              && (core.source.itag.Some? ==> after.source == core.source)
    decreases answers
  {
    if answers != [] {
      var itag, rest := core.source.itag, answers[1..];
      if core.Adopt(answers[0]).Ok? {
        var next := core.Adopt(answers[0]).value;
        PinsNeverDrift(next, rest);
        EncodeSplits(itag, answers);
      } else if itag.Some? && answers[0].itag != itag {
        assert !OneEncode(itag, answers) by {
          assert NamedBefore(itag, answers, 0) == itag;
        }
      }
    }
  }

  lemma EncodeSplits(itag: Option<nat>, answers: seq<Source>)
    requires answers != [] && (itag.Some? ==> answers[0].itag == itag)
    ensures OneEncode(itag, answers) <==> OneEncode(answers[0].itag, answers[1..])
  {
    var next, rest := answers[0].itag, answers[1..];
    assert forall i :: 0 <= i <= |rest| ==> NamedBefore(next, rest, i) == NamedBefore(itag, answers, i + 1);
    if OneEncode(itag, answers) {
      forall i, j | 0 <= i <= j < |rest| && NamedBefore(next, rest, i).Some?
        ensures rest[j].itag == NamedBefore(next, rest, i)
      {
        assert answers[j + 1].itag == NamedBefore(itag, answers, i + 1);
      }
    }
    if OneEncode(next, rest) {
      forall i, j | 0 <= i <= j < |answers| && NamedBefore(itag, answers, i).Some?
        ensures answers[j].itag == NamedBefore(itag, answers, i)
      {
        if j > 0 {
          assert rest[j - 1] == answers[j];
          assert rest[j - 1].itag == NamedBefore(next, rest, if i == 0 then 0 else i - 1);
        }
      }
    }
  }
}
