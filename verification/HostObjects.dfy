/** The host as the object the sources mutate: the critical sections of admission, delivery and
    cancel over the two ownership maps, the tombstones and the delivery counts. */
module HostObjects {
  import opened Prelude
  import opened SessionState
  import opened Host

  const STONE_CAP: nat := 64

  /** What an admission does to the invocations' entries and the tombstones. */
  lemma AdmitsOnly(s: State, t: Task, ch: Choice)
    requires Admits(t)
    ensures NextCancels(s, t, ch)
            == if Spendable(s.cancels, t.id) && t.id !in Pruned(s.slots, s.lives) then s.cancels - {t.id} else s.cancels
    ensures NextStones(s, t) == if Duplicate(s, t.id) then s.stones else s.stones - {t.id}
  {
  }

  class PluginHost {
    var prepared: map<Id, Slot>
    var cancels: map<Id, LiveRequest>
    var cancelledRequests: map<Id, nat>
    var inFlight: map<Id, nat>
    var generation: Gen
    /** The sessions of the stream registry, by handle. */
    var sessions: map<Handle, Life>
    const stoneTtl: nat

    constructor (stoneTtl: nat)
      ensures prepared == map[] && cancels == map[] && cancelledRequests == map[] && inFlight == map[]
      ensures generation == 0 && sessions == map[] && this.stoneTtl == stoneTtl
    {
      prepared, cancels, cancelledRequests, inFlight := map[], map[], map[], map[];
      generation, sessions := 0, map[];
      this.stoneTtl := stoneTtl;
    }

    /** The host as the transition system sees it between two sections; which requests and cancels
        are under way is the system's own. */
    ghost function View(): State
      reads this
    {
      State(sessions, prepared, cancels, cancelledRequests.Keys, inFlight, [], [], generation, None)
    }

    /** Enter the delivery window. */
    method TrackDelivery(id: Id)
      modifies this`inFlight
      ensures inFlight == Track(old(inFlight), id)
    {
      if id !in inFlight {
        inFlight := inFlight[id := 0];
      }
      inFlight := inFlight[id := inFlight[id] + 1];
    }

    /** Drop a ticket: the last one removes the entry. */
    method DropTicket(id: Id)
      modifies this`inFlight
      ensures inFlight == Release(old(inFlight), id)
    {
      if id in inFlight {
        inFlight := inFlight[id := if inFlight[id] == 0 then 0 else inFlight[id] - 1];
        if inFlight[id] == 0 {
          inFlight := inFlight - {id};
        }
      }
    }

    /** Drop slots of dead sessions, sparing those of `keep`. */
    method RetainLive(keep: Option<Handle>)
      modifies this`prepared
      ensures prepared == map id | id in old(prepared)
                                   && (keep == Some(old(prepared)[id].handle)
                                       || LiveAt(sessions, old(prepared)[id].handle)) ::
                          old(prepared)[id]
    {
      ghost var all := prepared;
      var todo := prepared.Keys;
      while todo != {}
        invariant todo <= all.Keys
        invariant prepared == map id | id in all
                                       && (id in todo || keep == Some(all[id].handle)
                                           || LiveAt(sessions, all[id].handle)) ::
                              all[id]
        decreases todo
      {
        var id: Id :| id in todo;
        todo := todo - {id};
        if keep != Some(prepared[id].handle) && !LiveAt(sessions, prepared[id].handle) {
          prepared := prepared - {id};
        }
      }
    }

    /** The coin that says whether a tombstone has expired came up as the clock says. */
    predicate Judged(stones: map<Id, nat>, id: Id, now: nat, ch: Choice) {
      id in stones ==> (ch.coin <==> now < stones[id] + stoneTtl)
    }

    /** `begin_admission` at time `now`: refuse a duplicate, evict a settled generic entry, and
        consume the id's tombstone, honoured unless it expired. */
    method BeginAdmission(id: Id, now: nat) returns (admitted: bool, tombstoned: bool)
      modifies this`prepared, this`cancels, this`cancelledRequests
      ensures prepared == Pruned(old(prepared), sessions)
      ensures admitted <==>
                id !in Pruned(old(prepared), sessions) && (id !in old(cancels) || Spendable(old(cancels), id))
      ensures admitted ==> id !in prepared && id !in cancels
      ensures cancels == if admitted then old(cancels) - {id} else old(cancels)
      ensures cancelledRequests == if admitted then old(cancelledRequests) - {id} else old(cancelledRequests)
      ensures tombstoned <==> admitted && id in old(cancelledRequests) && now < old(cancelledRequests)[id] + stoneTtl
      ensures admitted <==> !Duplicate(old(View()), id)
      ensures forall t: Task :: t.id == id && Admits(t) ==>
                prepared == NextSlots(old(View()), t) && cancelledRequests.Keys == NextStones(old(View()), t)
      ensures forall t: Task, ch: Choice :: t.id == id && Admits(t) ==> cancels == NextCancels(old(View()), t, ch)
      ensures forall t: Task, ch: Choice :: t.id == id && Admits(t) && Judged(old(cancelledRequests), id, now, ch) ==>
                NextTask(old(View()), t, ch).pc == if admitted then Admitted(tombstoned)
                                                   else if t.prepare then Refusing else Refused
    {
      hide NextCancels;
      ghost var was := View();
      RetainLive(None);
      assert prepared == Pruned(old(prepared), sessions);
      forall t: Task, ch: Choice | t.id == id && Admits(t)
        ensures NextCancels(was, t, ch) == if Spendable(was.cancels, id) && id !in prepared then was.cancels - {id}
                  else was.cancels
      {
        AdmitsOnly(was, t, ch);
      }
      if id in prepared {
        return false, false;
      }
      if id in cancels && cancels[id].settled && !cancels[id].isPrepare {
        cancels := cancels - {id};
      }
      if id in cancels {
        return false, false;
      }
      assert !Duplicate(was, id);
      tombstoned := id in cancelledRequests && now < cancelledRequests[id] + stoneTtl;
      cancelledRequests := cancelledRequests - {id};
      assert cancelledRequests.Keys == was.stones - {id};
      assert cancels == if Spendable(was.cancels, id) then was.cancels - {id} else was.cancels;
      assert forall t: Task :: t.id == id && Admits(t) ==> cancelledRequests.Keys == NextStones(was, t);
      return true, tombstoned;
    }

    method NextGeneration() returns (g: Gen)
      modifies this`generation
      ensures g == old(generation) && generation == g + 1
    {
      g := generation;
      generation := generation + 1;
    }

    /** Claim and commit: the claim is the liveness check, and lands before the slot shows. */
    method CommitSlot(id: Id, handle: Handle, gen: Gen) returns (owned: bool)
      modifies this`prepared, this`sessions
      ensures owned <==> old(LiveAt(sessions, handle))
      ensures prepared == if owned then old(prepared)[id := Slot(handle, false, gen)] else old(prepared)
      ensures sessions == if owned then old(sessions)[handle := old(sessions)[handle].Claim()] else old(sessions)
      ensures owned ==> sessions[handle].claimed && !sessions[handle].abandoned && sessions[handle].Live()
      ensures forall t: Task :: t.id == id && t.handle == handle && t.gen == gen && t.pc.Found? ==>
                && (owned <==> Commits(old(View()), t))
                && prepared == NextSlots(old(View()), t) && sessions == NextLives(old(View()), t)
    {
      if !LiveAt(sessions, handle) {
        return false;
      }
      sessions := sessions[handle := sessions[handle].Claim()];
      prepared := prepared[id := Slot(handle, false, gen)];
      return true;
    }

    /** The delivery commit of the invoke path: prune, decide under the lock whether a cancel
        already won, and either own the slot, with its ticket, or leave the session to be given up. */
    method CommitDelivery(id: Id, handle: Handle, gen: Gen) returns (owned: bool)
      modifies this`prepared, this`sessions, this`inFlight, this`cancelledRequests
      ensures owned <==> old(LiveAt(sessions, handle)) && !(id in cancels && cancels[id].cancelled)
      ensures owned ==> id in prepared && prepared[id] == Slot(handle, false, gen)
                        && inFlight == Track(old(inFlight), id) && cancelledRequests == old(cancelledRequests)
                        && sessions == old(sessions)[handle := old(sessions)[handle].Claim()]
      ensures !owned ==> cancelledRequests == old(cancelledRequests) - {id} && inFlight == old(inFlight)
                         && sessions == old(sessions)
      ensures forall t: Task :: t.id == id && t.handle == handle && t.gen == gen && t.pc.Cleared? ==>
                && (owned <==> Commits(old(View()), t))
                && prepared == NextSlots(old(View()), t) && sessions == NextLives(old(View()), t)
                && cancelledRequests.Keys == NextStones(old(View()), t)
    {
      RetainLive(Some(handle));
      var wasCancelled := id in cancels && cancels[id].cancelled;
      owned := false;
      if !wasCancelled {
        owned := CommitSlot(id, handle, gen);
      }
      if owned {
        TrackDelivery(id);
      } else {
        cancelledRequests := cancelledRequests - {id};
      }
    }

    /** Give up a session nobody will be told about: only an unattached, unclaimed one ends. */
    method CancelIfUnattached(handle: Handle)
      modifies this`sessions
      ensures sessions == if handle in old(sessions)
                          then old(sessions)[handle := Apply(old(sessions)[handle], EndIfUnowned(Cancelled))]
                          else old(sessions)
      ensures forall t: Task :: t.handle == handle && (t.pc.Stoned? || t.pc.Aborting?) ==>
                sessions == NextLives(old(View()), t)
    {
      if handle in sessions && sessions[handle].Unowned() {
        sessions := sessions[handle := sessions[handle].End(Cancelled)];
      } else if handle in sessions {
        assert sessions[handle := sessions[handle]] == sessions;
      }
    }

    /** The generation-guarded flip. */
    method FlipDelivered(id: Id, gen: Gen)
      modifies this`prepared
      ensures forall t: Task :: t.id == id && t.gen == gen && (t.pc.AdoptSent? || t.pc.InvokeSent?) ==>
                prepared == NextSlots(old(View()), t)
      ensures forall j :: j in prepared && (j != id || prepared[j].gen != gen) ==>
                j in old(prepared) && prepared[j] == old(prepared)[j]
    {
      if id in prepared && prepared[id].gen == gen {
        prepared := prepared[id := prepared[id].(delivered := true)];
      }
    }

    method InsertLive(id: Id, isPrepare: bool, tombstoned: bool) returns (gen: Gen)
      modifies this`cancels, this`generation
      ensures gen == old(generation) && generation == gen + 1
      ensures cancels == old(cancels)[id := LiveRequest(tombstoned, isPrepare, false, gen)]
      ensures forall t: Task, ch: Choice :: t.id == id && t.prepare == isPrepare && t.pc == Admitted(tombstoned)
                                            && Launches(t, ch) ==>
                cancels == NextCancels(old(View()), t, ch)
    {
      gen := NextGeneration();
      cancels := cancels[id := LiveRequest(tombstoned, isPrepare, false, gen)];
    }

    method SettleInvocation(id: Id)
      modifies this`cancels
      ensures cancels == if id in old(cancels) then old(cancels)[id := old(cancels)[id].(settled := true)]
                else old(cancels)
      ensures forall t: Task, ch: Choice :: t.id == id && t.pc.Invoking? ==> cancels == NextCancels(old(View()), t, ch)
    {
      if id in cancels {
        cancels := cancels[id := cancels[id].(settled := true)];
      }
    }

    /** The generation-aware cleanup after a delivery. */
    method Cleanup(id: Id, gen: Gen)
      modifies this`cancels
      ensures cancels == if id in old(cancels) && old(cancels)[id].gen == gen then old(cancels) - {id} else old(cancels)
      ensures forall t: Task, ch: Choice :: t.id == id && t.liveGen == gen && t.pc.Closing? ==>
                cancels == NextCancels(old(View()), t, ch)
    {
      if id in cancels && cancels[id].gen == gen {
        cancels := cancels - {id};
      }
    }

    /** The first section of `cancel`: spend the token of whatever owns the id, unless that is a
        settled generic request. */
    method SpendToken(id: Id) returns (stones: bool)
      modifies this`cancels
      ensures cancels == if id in old(cancels) && !Spendable(old(cancels), id)
                         then old(cancels)[id := old(cancels)[id].(cancelled := true)] else old(cancels)
      ensures stones <==> id !in old(cancels) || old(cancels)[id].isPrepare
      ensures forall k: Canceler :: k.id == id && k.pc.Begin? ==>
                cancels == CancelCancels(old(View()), k) && stones == NextCanceler(old(View()), k).stones
    {
      var liveFound, livePrepare, completed := false, false, false;
      if id in cancels {
        if cancels[id].settled && !cancels[id].isPrepare {
          completed := true;
        } else {
          liveFound, livePrepare := true, cancels[id].isPrepare;
          cancels := cancels[id := cancels[id].(cancelled := true)];
        }
      }
      stones := !completed && (!liveFound || livePrepare);
    }

    /** The second: take the slot and, if it was the session's last, abandon the session in the
        same section. */
    method TakeSlot(id: Id) returns (delivered: bool)
      modifies this`prepared, this`sessions
      ensures delivered <==> id in old(prepared)
      ensures prepared == old(prepared) - {id}
      ensures id in old(prepared) && old(prepared)[id].handle in old(sessions)
              && !OwnedBesides(old(prepared), id, old(prepared)[id].handle) ==>
                var h := old(prepared)[id].handle; sessions == old(sessions)[h := old(sessions)[h].Abandon()]
      ensures (id in old(prepared) ==> old(prepared)[id].handle !in old(sessions)
                                       || OwnedBesides(old(prepared), id, old(prepared)[id].handle)) ==>
                sessions == old(sessions)
      ensures forall k: Canceler :: k.id == id && Takes(old(View()), k) ==>
                && sessions == CancelLives(old(View()), k)
                && NextCanceler(old(View()), k).pc == Taken(delivered)
    {
      if id !in prepared {
        return false;
      }
      var slot := prepared[id];
      ghost var all := prepared;
      prepared := prepared - {id};
      var shared := exists j :: j in prepared && prepared[j].handle == slot.handle;
      assert shared <==> OwnedBesides(all, id, slot.handle) by {
        if OwnedBesides(all, id, slot.handle) {
          var j :| j in all && j != id && all[j].handle == slot.handle;
          assert j in prepared && prepared[j].handle == slot.handle;
        }
      }
      if !shared && slot.handle in sessions {
        sessions := sessions[slot.handle := sessions[slot.handle].Abandon()];
      }
      return true;
    }

    /** The last: sweep expired tombstones, then leave one if the cap allows. */
    method LeaveStone(id: Id, now: nat) returns (room: bool, ghost swept: set<Id>)
      modifies this`cancelledRequests
      ensures swept == set j | j in old(cancelledRequests) && old(cancelledRequests)[j] + stoneTtl <= now
      ensures room <==> |old(cancelledRequests).Keys - swept| < STONE_CAP
      ensures cancelledRequests == if room then (old(cancelledRequests) - swept)[id := now]
                else old(cancelledRequests) - swept
      ensures forall k: Canceler :: k == Canceler(id, Taken(false), k.early, true) ==>
                cancelledRequests.Keys == CancelStones(old(View()), k, room, swept)
    {
      swept := set j | j in cancelledRequests && cancelledRequests[j] + stoneTtl <= now;
      cancelledRequests := map j | j in cancelledRequests && now < cancelledRequests[j] + stoneTtl ::
          cancelledRequests[j];
      assert cancelledRequests == old(cancelledRequests) - swept;
      assert cancelledRequests.Keys == old(cancelledRequests).Keys - swept;
      room := |cancelledRequests| < STONE_CAP;
      if room {
        cancelledRequests := cancelledRequests[id := now];
      }
    }

    /** `stream_release`: the session ends first, then its slots go. */
    method StreamRelease(handle: Handle)
      modifies this`prepared, this`sessions
      ensures sessions == if handle in old(sessions)
                then old(sessions)[handle := old(sessions)[handle].End(Released)] else old(sessions)
      ensures prepared == map id | id in old(prepared) && old(prepared)[id].handle != handle :: old(prepared)[id]
      ensures !LiveAt(sessions, handle)
      ensures handle in old(sessions) ==>
                && sessions == Do(old(View()), Session(handle, End(Released))).lives
                && prepared == Do(Do(old(View()), Session(handle, End(Released))), DropSlots(handle)).slots
    {
      if handle in sessions {
        sessions := sessions[handle := sessions[handle].End(Released)];
      }
      prepared := map id | id in prepared && prepared[id].handle != handle :: prepared[id];
    }
  }
}
