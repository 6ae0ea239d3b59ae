/** The registry as the object the sources mutate, one caller at a time: the scan-and-supersede
    loop, prepare, adoption, the reaper's pass and shutdown over the session map. */
module RegistryObjects {
  import opened Prelude
  import opened SessionState
  import opened Registry

  /** The map after a scan: dead entries are pruned, unowned ones end, `except` is untouched. */
  function Survivors(sessions: map<Handle, Entry>, except: Option<Handle>): map<Handle, Entry> {
    map h | h in sessions && (sessions[h].life.Live() || except == Some(h)) ::
      if except == Some(h) then sessions[h] else Supersede(sessions[h])
  }

  /** The handles a scan must report: pruned or ended by it. */
  predicate Reported(sessions: map<Handle, Entry>, except: Option<Handle>, h: Handle) {
    h in sessions && except != Some(h) && (!sessions[h].life.Live() || sessions[h].life.Unowned())
  }

  /** What freshness is measured by: the monotonic clock against the prepare ttl, the wall clock
      against a URL's expiry less the margin. */
  datatype Clock = Clock(now: nat, ttl: nat, wall: U64, margin: U64)

  /** Live, unattached, detached for less than the ttl, minted for `key`, and its URL outside the
      expiry margin. */
  predicate Candidate(sessions: map<Handle, Entry>, h: Handle, key: Key, clock: Clock) {
    && h in sessions && sessions[h].life.Live() && !sessions[h].life.attached
    && sessions[h].life.detachedSince.Some? && clock.now < sessions[h].life.detachedSince.value + clock.ttl
    && sessions[h].key == key
    && (sessions[h].expires.Some? ==> SatAdd(clock.wall, clock.margin) < sessions[h].expires.value)
  }

  /** What a prepare may coalesce onto, and why it passed a session of its key over, by the clocks. */
  predicate UpToDate(e: Entry, key: Key, clock: Clock) {
    && e.key == key && e.life.terminal.None? && !e.life.attached
    && e.life.detachedSince.Some? && clock.now - e.life.detachedSince.value < clock.ttl
    && (e.expires.Some? ==> clock.wall + clock.margin < e.expires.value)
  }

  predicate PassedOver(e: Entry, key: Key, clock: Clock) {
    || e.key != key || e.life.terminal.Some? || e.life.attached || e.life.detachedSince.None?
    || clock.now - e.life.detachedSince.value >= clock.ttl
    || (e.expires.Some? && clock.wall + clock.margin >= e.expires.value)
  }

  lemma UpToDateOrPassedOver(sessions: map<Handle, Entry>, key: Key, clock: Clock)
    ensures forall h :: Candidate(sessions, h, key, clock) <==> h in sessions && UpToDate(sessions[h], key, clock)
    ensures !AnyCandidate(sessions, key, clock) <==> forall h :: h in sessions ==> PassedOver(sessions[h], key, clock)
  {
    if !AnyCandidate(sessions, key, clock) {
      forall h | h in sessions ensures PassedOver(sessions[h], key, clock) {
        assert !Candidate(sessions, h, key, clock);
      }
    }
  }

  /** A candidate is what the transition system may reuse, once the clocks have had their say. */
  lemma CandidateIsReusable(s: State, h: Handle, key: Key, clock: Clock)
    requires s.present == s.all.Keys
    ensures Candidate(s.all, h, key, clock) <==>
              && Registry.Reusable(s, h, key)
              && UpToDate(s.all[h], key, clock)
    ensures Registry.Reusable(s, h, key) <==>
              h in s.all && s.all[h].life.terminal.None? && !s.all[h].life.attached && s.all[h].key == key
  {
  }

  /** The reaper's filter and its recheck. */
  predicate Reapable(e: Entry, now: nat, ttl: nat) {
    e.life.Live() && e.life.Stale(now, ttl)
  }

  ghost predicate AnyCandidate(sessions: map<Handle, Entry>, key: Key, clock: Clock) {
    exists h: Handle :: Candidate(sessions, h, key, clock)
  }

  /** The map once the doomed have been struck. */
  function StruckIn(sessions: map<Handle, Entry>, doomed: set<Handle>): map<Handle, Entry> {
    map h | h in sessions :: if h in doomed then Supersede(sessions[h]) else sessions[h]
  }

  lemma AllStruck()
    ensures forall e: Entry :: Supersede(e).key == e.key && (e.Sane() ==> Supersede(e).Sane())
    ensures forall e: Entry :: if e.life.Unowned() then !Supersede(e).life.Live() else Supersede(e) == e
  {
  }

  lemma Coalescing(sessions: map<Handle, Entry>, reuse: Option<Handle>, key: Key, clock: Clock)
    requires reuse.Some? ==> Candidate(sessions, reuse.value, key, clock)
    ensures reuse.Some? ==>
              reuse.value in sessions && var e := sessions[reuse.value];
              e.life.Live() && !e.life.attached && e.key == key && AnyCandidate(sessions, key, clock)
  {
  }

  class StreamRegistry {
    var sessions: map<Handle, Entry>
    var counter: Handle
    var shutdown: bool

    ghost predicate Valid() reads this {
      forall h :: h in sessions ==> h < counter && sessions[h].Sane()
    }

    constructor ()
      ensures Valid() && sessions == map[] && counter == 0 && !shutdown
    {
      sessions, counter, shutdown := map[], 0, false;
    }

    /** Drop the entries that have ended, sparing `except`. */
    method Retain(except: Option<Handle>) returns (pruned: seq<Handle>)
      modifies this`sessions
      ensures sessions == map h | h in old(sessions) && (old(sessions)[h].life.Live() || except == Some(h)) ::
                old(sessions)[h]
      ensures forall h :: h in pruned <==> h in old(sessions) && !old(sessions)[h].life.Live() && except != Some(h)
    {
      pruned := [];
      var todo := sessions.Keys;
      ghost var all := sessions;
      while todo != {}
        invariant todo <= all.Keys
        invariant forall h :: h in pruned <==> h in all && h !in todo && !all[h].life.Live() && except != Some(h)
        invariant sessions == map h | h in all && (h in todo || all[h].life.Live() || except == Some(h)) :: all[h]
        decreases todo
      {
        var h: Handle :| h in todo;
        todo := todo - {h};
        if !sessions[h].life.Live() && except != Some(h) {
          sessions := sessions - {h};
          pruned := pruned + [h];
        }
      }
    }

    /** End each doomed session if nobody owns it by now, and report those that did end. */
    method StrikeAll(doomed: set<Handle>) returns (ended: seq<Handle>)
      requires forall h :: h in doomed ==> h in sessions && sessions[h].life.Live() && sessions[h].life.Unowned()
      modifies this`sessions
      ensures sessions == StruckIn(old(sessions), doomed)
      ensures forall h :: h in ended <==> h in doomed
    {
      hide Supersede;
      AllStruck();
      ended := [];
      var todo := doomed;
      ghost var all := sessions;
      while todo != {}
        invariant todo <= doomed
        invariant sessions == StruckIn(all, doomed - todo)
        invariant forall h :: h in ended <==> h in doomed && h !in todo
        decreases todo
      {
        var h: Handle :| h in todo;
        todo := todo - {h};
        sessions := sessions[h := Supersede(sessions[h])];
        if !sessions[h].life.Live() {
          ended := ended + [h];
        }
      }
    }

    /** End every unattached, unclaimed session but `except`, prune the dead, report both. */
    method SupersedeUnattached(except: Option<Handle>) returns (superseded: seq<Handle>)
      modifies this`sessions
      ensures sessions == Survivors(old(sessions), except)
      ensures forall h :: h in superseded <==> Reported(old(sessions), except, h)
    {
      hide Supersede, Life.Unowned, Life.Live;
      AllStruck();
      var doomed := set h | h in sessions && except != Some(h) && sessions[h].life.Unowned() && sessions[h].life.Live();
      superseded := Retain(except);
      var ended := StrikeAll(doomed);
      superseded := superseded + ended;
    }

    /** A coalescing candidate, if there is one. */
    method FindReusable(key: Key, clock: Clock) returns (found: Option<Handle>)
      ensures found.Some? ==> Candidate(sessions, found.value, key, clock)
      ensures found.None? ==> !AnyCandidate(sessions, key, clock)
      ensures found.Some? ==> found.value in sessions && UpToDate(sessions[found.value], key, clock)
      ensures found.None? ==> forall h :: h in sessions ==> PassedOver(sessions[h], key, clock)
    {
      UpToDateOrPassedOver(sessions, key, clock);
      var todo := sessions.Keys;
      while todo != {}
        invariant todo <= sessions.Keys
        invariant forall h: Handle :: Candidate(sessions, h, key, clock) ==> h in todo
        decreases todo
      {
        var h: Handle :| h in todo;
        todo := todo - {h};
        if Candidate(sessions, h, key, clock) {
          return Some(h);
        }
      }
      return None;
    }

    /** `prepare_timed`: coalesce or mint; either way every other unowned session ends. */
    method PrepareTimed(key: Key, valid: bool, expires: Option<U64>, clock: Clock)
      returns (r: Result<Prepared, StreamError>)
      requires Valid()
      modifies this`sessions, this`counter
      ensures Valid() && counter >= old(counter)
      ensures r.Err? <==> old(shutdown) || !valid
      ensures r.Err? ==> r.error == (if shutdown then Cancelled else InvalidResponse)
                         && sessions == old(sessions) && counter == old(counter)
      ensures r.Ok? ==> Granted(old(sessions), r.value, key)
      ensures r.Ok? && AnyCandidate(old(sessions), key, clock) ==>
                Candidate(old(sessions), r.value.handle, key, clock) && counter == old(counter)
      ensures r.Ok? && !AnyCandidate(old(sessions), key, clock) ==>
                && r.value.handle == old(counter)
                && sessions[r.value.handle] == Entry(NewLife(clock.now), key, false, expires)
      ensures r.Ok? && r.value.handle in old(sessions) ==> UpToDate(old(sessions)[r.value.handle], key, clock)
      ensures r.Ok? && r.value.handle !in old(sessions) ==>
                forall h :: h in old(sessions) ==> PassedOver(old(sessions)[h], key, clock)
    {
      if shutdown {
        return Err(Cancelled);
      }
      if !valid {
        return Err(InvalidResponse);
      }
      hide Supersede, Candidate, AnyCandidate, UpToDate, PassedOver;
      ghost var all := sessions;
      var reuse := FindReusable(key, clock);
      AllStruck();
      Coalescing(all, reuse, key, clock);
      var superseded := SupersedeUnattached(reuse);
      if reuse.Some? {
        return Ok(Prepared(key, reuse.value, superseded));
      }
      var handle := counter;
      sessions := sessions[handle := Entry(NewLife(clock.now), key, false, expires)];
      counter := counter + 1;
      return Ok(Prepared(key, handle, superseded));
    }

    /** What a caller of prepare or adoption may rely on. */
    ghost predicate Granted(before: map<Handle, Entry>, p: Prepared, key: Key)
      reads this
    {
      && p.key == key && p.handle in sessions && sessions[p.handle].key == key
      && sessions[p.handle].life.Live() && !sessions[p.handle].life.attached
      && p.handle !in p.superseded
      && (forall h :: h in p.superseded <==> Reported(before, Some(p.handle), h))
      && (forall h :: h in sessions && sessions[h].life.Live() && sessions[h].life.Unowned() ==> h == p.handle)
      && (forall h :: h in before && before[h].life.Live() && !before[h].life.Unowned() ==>
            h in sessions && sessions[h] == before[h])
    }

    method AdoptReusable(key: Key, clock: Clock) returns (r: Option<Prepared>)
      requires Valid()
      modifies this`sessions
      ensures Valid()
      ensures r.Some? <==> !shutdown && AnyCandidate(old(sessions), key, clock)
      ensures r.Some? ==> Granted(old(sessions), r.value, key) && Candidate(old(sessions), r.value.handle, key, clock)
      ensures r.None? ==> sessions == old(sessions)
      ensures r.Some? ==> UpToDate(old(sessions)[r.value.handle], key, clock)
      ensures r.None? && !shutdown ==> forall h :: h in sessions ==> PassedOver(sessions[h], key, clock)
    {
      if shutdown {
        return None;
      }
      hide Supersede, Candidate, AnyCandidate, UpToDate, PassedOver;
      var reuse := FindReusable(key, clock);
      AllStruck();
      Coalescing(sessions, reuse, key, clock);
      if reuse.None? {
        return None;
      }
      var superseded := SupersedeUnattached(reuse);
      return Some(Prepared(key, reuse.value, superseded));
    }

    /** One pass of the reaper: sessions detached past the ttl end `Evicted` and leave the map
        together. `evicted` is what they ended as. */
    method ReapPass(now: nat, ttl: nat) returns (evicted: map<Handle, Entry>)
      requires Valid()
      modifies this`sessions
      ensures Valid()
      ensures forall h :: h in evicted <==> h in old(sessions) && Reapable(old(sessions)[h], now, ttl)
      ensures forall h :: h in evicted ==>
                && evicted[h] == Apply(old(sessions)[h], End(Evicted), now)
                && evicted[h].life.terminal == Some(Evicted) && !evicted[h].life.attached
      ensures sessions == map h | h in old(sessions) && !Reapable(old(sessions)[h], now, ttl) :: old(sessions)[h]
    {
      ghost var all := sessions;
      var doomed := set h | h in sessions && Reapable(sessions[h], now, ttl);
      ghost var first := doomed;
      evicted := map[];
      while doomed != {}
        invariant doomed <= first
        invariant sessions == all - (first - doomed)
        invariant evicted.Keys == first - doomed
        invariant forall h :: h in evicted ==> evicted[h] == Apply(all[h], End(Evicted), now)
        decreases doomed
      {
        var h: Handle :| h in doomed;
        doomed := doomed - {h};
        evicted := evicted[h := Apply(sessions[h], End(Evicted), now)];
        sessions := sessions - {h};
      }
    }

    method Shutdown()
      requires Valid()
      modifies this`sessions, this`shutdown
      ensures Valid() && shutdown
      ensures sessions == map h | h in old(sessions) :: Apply(old(sessions)[h], End(Cancelled), 0)
    {
      shutdown := true;
      ghost var all := sessions;
      var todo := sessions.Keys;
      while todo != {}
        invariant todo <= all.Keys && shutdown
        invariant sessions == map h | h in all :: if h in todo then all[h] else Apply(all[h], End(Cancelled), 0)
        decreases todo
      {
        var h: Handle :| h in todo;
        todo := todo - {h};
        sessions := sessions[h := Apply(sessions[h], End(Cancelled), 0)];
      }
      forall h | h in sessions ensures h < counter && sessions[h].Sane() {
        ApplyAges(all[h], End(Cancelled), 0);
      }
    }
  }
}
