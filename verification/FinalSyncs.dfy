/** The final sync of a relocation: the last copy of every volume, made from a stand-in that nobody writes. */
module FinalSyncs {

  import opened Names
  import opened Objects
  import opened System
  import opened Protocol
  import opened Api
  import opened Handoff
  import opened Legality
  import opened SyncSteps
  import opened Handler
  import opened Wrappers

  datatype FinalSyncResult = FinalSyncResult(allComplete: bool, inSync: seq<Name>, total: nat)

  class FinalSyncHandler {
    const client: Cluster
    const copy: GroupCopy
    const vsHandler: VSHandler

    constructor (client: Cluster, copy: GroupCopy, vsHandler: VSHandler)
      ensures this.client == client && this.copy == copy && this.vsHandler == vsHandler
    {
      this.client := client;
      this.copy := copy;
      this.vsHandler := vsHandler;
    }

    ghost predicate Ready()
      reads client, copy
    {
      client.Valid() && copy.client == client && copy.Tracks() && vsHandler.client == client
    }

    /** Whether the VRG asks for a final sync. A VRG that cannot be read asks for none. */
    method ShouldRunFinalSync() returns (run: bool)
      requires Ready()
      modifies client
      ensures Extends(old(client.trace), client.trace)
      ensures Ready() && Idle(client.s, old(client.w), client.w)
      ensures run ==> Required(old(client.w), copy.vgr)
      ensures client.s.relocating || client.s.reliable ==> run == Required(old(client.w), copy.vgr)
    {
      hide Rely, Kept, Referred, Inv, LegalRun, SameSources, SameDestinations, NoNewPods;
      if copy.vgr.owner.None? {
        DriftIsReflexive(client.s, client.w);
        DriftIsIdle(client.s, client.w, client.w);
        return false;
      }
      var vrg := client.GetVRG(copy.vgr.owner.value);
      return vrg.Success? && vrg.value == VRG(Relocate, Secondary) && copy.vgr.status.state != SecondaryState;
    }

    /** Whether every source in the namespace has recorded the final sync; so it is when there is none. */
    method AreAllRSFinalSyncsComplete() returns (r: Result<bool>)
      requires Ready()
      modifies client
      ensures Extends(old(client.trace), client.trace)
      ensures Ready() && Idle(client.s, old(client.w), client.w)
      ensures r.Success? ==> r.value == AllStamped(old(client.w).rss, old(client.w).vgr.ns)
      ensures r == Success(true) ==> GateOpen(client.s, client.w)
      ensures r.Failure? ==> r.error == Fault && !client.s.reliable
    {
      hide Rely, Kept, Referred, Inv, LegalRun, SameDestinations, NoNewPods, SameSource;
      ghost var w0 := client.w;
      var list := client.ListRSs(copy.vgr.ns, None);
      if list.Failure? {
        return Failure(list.error);
      }
      var allComplete := true;
      var i := 0;
      while i < |list.value|
        invariant Extends(old(client.trace), client.trace)
        invariant i <= |list.value|
        invariant allComplete <==> forall j :: 0 <= j < i ==> list.value[j].value.Stamped()
      {
        if !list.value[i].value.Stamped() {
          allComplete := false;
        }
        i := i + 1;
      }
      AllListedAreStamped(list.value, w0.rss, w0.vgr.ns);
      if allComplete {
        SteadyIsDemoting(client.s, w0, client.w);
        GateAcross(client.s, w0, client.w);
      }
      return Success(allComplete);
    }

    /** Whether a pod mounts claim `k`. A VolSync pod in the way is deleted. */
    method IsPVCInUse(k: Key) returns (r: Result<bool>)
      requires client.Valid()
      modifies client
      ensures Extends(old(client.trace), client.trace)
      ensures client.Valid() && Steady(client.s, old(client.w), client.w) && Kept(old(client.w).pvcs, client.w.pvcs)
      ensures client.w.pvs == old(client.w).pvs && client.w.pvcs.Keys <= old(client.w).pvcs.Keys
      ensures r.Success? ==> (r.value <==> !Unmounted(old(client.w).pods, k))
      ensures client.s.calm && r == Success(false) ==> client.w == old(client.w)
      ensures client.s.calm ==> client.w == old(client.w).(pods := client.w.pods) && client.w.pods.Keys <= old(client.w).pods.Keys
      ensures client.s.calm ==> forall p :: p in old(client.w).pods && p !in client.w.pods ==>
        p.ns == k.ns && old(client.w).pods[p].volsync && k.name in old(client.w).pods[p].claims
      ensures client.s.calm && r == Success(true) ==> MadeWay(old(client.w).pods, client.w.pods, k)
      ensures client.s.calm && r.Failure? ==> client.w == old(client.w)
      ensures client.s.reliable && client.s.calm ==> r.Success?
      ensures r.Failure? ==> r.error.OfCall()
    {
      hide Rely, Kept, Referred, Inv, LegalRun, SameSources, SameDestinations, NoNewPods;
      ghost var w0 := client.w;
      var list := client.ListPods(k.ns);
      ghost var w1 := client.w;
      if list.Failure? {
        return Failure(list.error);
      }
      var i := 0;
      while i < |list.value|
        invariant Extends(old(client.trace), client.trace)
        invariant i <= |list.value|
        invariant client.w == w1
        invariant forall j :: 0 <= j < i ==> k.name !in list.value[j].value.claims
      {
        var pod := list.value[i];
        if k.name in pod.value.claims {
          assert pod in list.value;
          assert Mounts(w0.pods, pod.key, k) && w0.pods[pod.key] == pod.value;
          if pod.value.volsync {
            var o := client.DeletePod(pod.key);
            OnwardIsTransitive(client.s, w0, w1, client.w);
            if o.Failure? {
              return Failure(o.error);
            }
          }
          return Success(true);
        }
        i := i + 1;
      }
      AllListedAreUnmounted(list.value, w0.pods, k);
      return Success(false);
    }

    /** Pauses the source of claim `k` and stops its running job. */
    method PauseReplicationSource(k: Key) returns (o: Outcome)
      requires client.Valid()
      modifies client
      ensures Extends(old(client.trace), client.trace)
      ensures client.Valid() && Syncing(client.s, old(client.w), client.w) && OtherSources(old(client.w).rss, client.w.rss, k)
      ensures client.w.pvs == old(client.w).pvs && client.w.pvcs.Keys <= old(client.w).pvcs.Keys
      ensures o.Success? ==> k in old(client.w).rss && k in client.w.rss && client.w.rss[k].paused
      ensures client.s.calm && o.Success? && old(client.w).rss[k].paused ==> client.w == old(client.w)
      ensures client.s.calm && o.Failure? ==>
        || client.w == old(client.w)
        || (k in old(client.w).rss && client.w == old(client.w).(rss := old(client.w).rss[k := Settled(old(client.w).rss[k].(paused := true))]))
      ensures o.Failure? ==> o.error.OfCall()
      ensures client.s.calm && o.Success? && !old(client.w).rss[k].paused ==>
        client.w == old(client.w).(rss := old(client.w).rss[k := Settled(old(client.w).rss[k].(paused := true))], jobs := old(client.w).jobs - {k})
      ensures client.s.reliable && client.s.calm ==> (o.Success? <==> k in old(client.w).rss)
    {
      hide Rely, Kept, Referred, Inv, LegalRun, SameDestinations, NoNewPods, Policy, StampsStay, SameClaims, Legal, Idled, Took, Extends;
      TracesExtend();
      ghost var w0 := client.w;
      var found := client.GetRS(k);
      ghost var w1 := client.w;
      SteadyIsSyncing(client.s, w0, w1);
      if found.Failure? {
        return Failure(found.error);
      }
      var rs := found.value;
      if rs.paused {
        return OK;
      }
      if w1.rss[k] == rs {
        PausingIsLegal(client.s, w1, k);
      }
      hide Steady;
      o := client.PutRS(k, Some(rs), rs.(paused := true));
      ghost var w2 := client.w;
      if o.Failure? {
        UnwrittenIsSyncing(client.s, w1, w2);
        SyncingIsTransitive(client.s, w0, w1, w2);
        OtherSourcesIsTransitive(w0.rss, w1.rss, w2.rss, k);
        return;
      }
      PausingIsSyncing(client.s, w1, w2, k, rs);
      SyncingIsTransitive(client.s, w0, w1, w2);
      OtherSourcesIsTransitive(w0.rss, w1.rss, w2.rss, k);
      o := client.DeleteJob(k);
      SteadyIsSyncing(client.s, w2, client.w);
      SyncingIsTransitive(client.s, w0, w2, client.w);
      OtherSourcesIsTransitive(w0.rss, w2.rss, client.w.rss, k);
      PauseStays(client.s, w2, client.w, k);
      o := if o.Success? || o.error == NotFound then OK else o;
    }

    /** Turns the source of claim `k` to the stand-in and triggers the final sync; tells whether it is complete. */
    method TriggerFinalSyncForPVC(k: Key) returns (r: Result<bool>)
      requires client.Valid() && (client.s.relocating ==> Quiet(client.w.pods, k))
      modifies client
      ensures Extends(old(client.trace), client.trace)
      ensures client.Valid() && Syncing(client.s, old(client.w), client.w) && OtherSources(old(client.w).rss, client.w.rss, k)
      ensures client.w.pvs == old(client.w).pvs && client.w.pvcs.Keys <= old(client.w).pvcs.Keys
      ensures r.Success? ==> InFinalSync(client.w.rss, k) && (r.value ==> client.w.rss[k].Stamped())
      ensures client.s.calm && r.Success? ==>
        && k in old(client.w).rss && r.value == old(client.w).rss[k].Stamped()
        && client.w.rss[k] == old(client.w).rss[k].(paused := false, sourcePVC := Tmp(k.name), trigger := Manual(FinalSync))
        && client.w == old(client.w).(rss := old(client.w).rss[k := FinalSource(old(client.w).rss[k], k)])
      ensures client.s.calm && r.Failure? ==> client.w == old(client.w)
      ensures client.s.reliable && client.s.calm ==> (r.Success? <==> k in old(client.w).rss)
      ensures r.Failure? ==> r.error.OfCall()
    {
      hide Rely, Kept, Referred, Inv, LegalRun, SameDestinations, NoNewPods, Policy, StampsStay, SameClaims, Legal, Quiet;
      ghost var w0 := client.w;
      var found := client.GetRS(k);
      ghost var w1 := client.w;
      SteadyIsSyncing(client.s, w0, w1);
      if found.Failure? {
        return Failure(found.error);
      }
      var rs := found.value;
      if w1.rss[k] == rs {
        QuietStays(client.s, w0, w1, k);
        FinalSyncIsLegal(client.s, w1, k);
      }
      hide Steady;
      var o := client.PutRS(k, Some(rs), FinalSource(rs, k));
      if o.Failure? {
        UnwrittenIsSyncing(client.s, w1, client.w);
        SyncingIsTransitive(client.s, w0, w1, client.w);
        OtherSourcesIsTransitive(w0.rss, w1.rss, client.w.rss, k);
        return Failure(o.error);
      }
      FinalSyncIsSyncing(client.s, w1, client.w, k, rs);
      SyncingIsTransitive(client.s, w0, w1, client.w);
      OtherSourcesIsTransitive(w0.rss, w1.rss, client.w.rss, k);
      return Success(rs.Stamped());
    }

    /** A stand-in in phase Lost is told to bind again. */
    method HandleLostTemporaryPVC(x: Item<PVC>) returns (o: Outcome)
      requires client.Valid() && x.key.name.Tmp? && Referred(client.s, client.w)
      modifies client
      ensures Extends(old(client.trace), client.trace)
      ensures client.Valid() && Steady(client.s, old(client.w), client.w) && Kept(old(client.w).pvcs, client.w.pvcs)
      ensures client.w.pvs == old(client.w).pvs && client.w.pvcs.Keys <= old(client.w).pvcs.Keys && Referred(client.s, client.w)
      ensures client.s.calm ==> SameMains(old(client.w).pvcs, client.w.pvcs) && client.w.pvcs.Keys == old(client.w).pvcs.Keys
      ensures client.s.calm && o.Success? && x.value.phase.Lost? && BindCompleted in x.value.annotations ==>
        client.w == old(client.w).(pvcs := old(client.w).pvcs[x.key := x.value.(annotations := x.value.annotations - {BindCompleted})])
      ensures client.s.calm ==> Prepared(old(client.w), client.w)
      ensures !x.value.phase.Lost? ==> o.Success?
      ensures o.Failure? ==> o.error.OfCall()
      ensures client.s.calm && o.Success? ==> LostAreTold(client.w.pvcs, [x])
    {
      hide Rely, Inv, LegalRun, SameSources, SameDestinations, NoNewPods, Legal, Kept, Referred, Prepared;
      ghost var w0 := client.w;
      NothingPrepared(w0);
      if !x.value.phase.Lost? || BindCompleted !in x.value.annotations {
        NothingHappens(client.s, w0);
        return OK;
      }
      if x.key in w0.pvcs && w0.pvcs[x.key] == x.value {
        RebindingIsLegal(client.s, w0, x.key);
        RebindingIsPrepared(w0, x.key);
      }
      o := client.UpdatePVC(x.key, x.value, Rebound(x.value));
      RebindingIsOnTheSide(x.value);
      NoNewNames(client.s, w0, client.w);
    }

    /** Gives claim `k` a stand-in if it is terminating; tells whether it is. */
    method HandleTerminatingPVC(k: Key) returns (r: Result<bool>)
      requires client.Valid() && k.name.App? && Referred(client.s, client.w) && vsHandler.client == client
      modifies client
      ensures Extends(old(client.trace), client.trace)
      ensures client.Valid() && Steady(client.s, old(client.w), client.w) && Kept(old(client.w).pvcs, client.w.pvcs)
      ensures Referred(client.s, client.w) && client.w.pvcs.Keys <= old(client.w).pvcs.Keys + {TmpOf(k)}
      ensures r == Success(true) && (client.s.calm || !Going(old(client.w).pvcs, TmpOf(k))) ==> Firm(client.s, client.w.pvcs, k)
      ensures client.s.calm ==> SameMains(old(client.w).pvcs, client.w.pvcs) && client.w.pvcs.Keys >= old(client.w).pvcs.Keys
      ensures client.s.calm && r.Success? ==> r.value == Going(old(client.w).pvcs, k)
      ensures client.s.calm ==> Prepared(old(client.w), client.w)
      ensures client.s.calm && client.s.reliable && (Going(old(client.w).pvcs, k) ==> HasVolume(old(client.w), k)) ==> r.Success?
      ensures r.Failure? ==> r.error.OfCall()
    {
      hide Rely, Inv, LegalRun, Steady, Kept, Referred, OthersKept, HandOffAfter, Prepared;
      ghost var w0 := client.w;
      NothingPrepared(w0);
      r := vsHandler.IsTerminating(k);
      ghost var w1 := client.w;
      StandInDoesNotGo(client.s, w0, w1.pvcs, TmpOf(k));
      if r == Success(true) {
        var o;
        ghost var stage;
        o, stage := vsHandler.CreateTemporary(k, false);
        OnwardIsTransitive(client.s, w0, w1, client.w);
        HandOffLeavesMains(w1, k, stage);
        HandOffAddsStandIn(w1, k, stage);
        HandOffIsPrepared(w1, k, stage);
        if o.Failure? {
          r := Failure(o.error);
        }
      }
    }

    /**
     Phase 1: every terminating claim of the list gets a stand-in. Returns how many there are, of how many claims.
     All of them have one then, unless one that was already being deleted has gone meanwhile.
     */
    method CreateStandIns(list: seq<Item<PVC>>) returns (r: Result<(nat, nat)>)
      requires Ready() && Referred(client.s, client.w) && Distinct(list)
      modifies client
      ensures Extends(old(client.trace), client.trace)
      ensures Ready() && Steady(client.s, old(client.w), client.w) && Kept(old(client.w).pvcs, client.w.pvcs)
      ensures Referred(client.s, client.w)
      ensures r.Success? ==> r.value.0 <= r.value.1 == |Mains(list)|
      ensures r.Success? && r.value.0 == r.value.1 && NoneGoes(client.s, old(client.w).pvcs, Mains(list)) ==>
        FirmEach(client.s, client.w.pvcs, Mains(list))
      ensures client.s.calm ==> SameMains(old(client.w).pvcs, client.w.pvcs)
      ensures client.s.calm && r.Success? ==> (r.value.0 == r.value.1 <==> AllTerminating(old(client.w).pvcs, Mains(list)))
      ensures client.s.calm ==> Prepared(old(client.w), client.w)
      ensures client.s.calm && r.Success? ==> StoodInIfGoing(old(client.w).pvcs, client.w.pvcs, Mains(list))
      ensures client.s.calm && client.s.reliable && Preparable(old(client.w), list) ==> r.Success?
      ensures r.Failure? ==> r.error.OfCall()
      ensures client.s.calm && r.Success? ==> LostAreTold(client.w.pvcs, list)
    {
      hide Idled, Took, Extends, Rely, Inv, LegalRun, SameSources, SameDestinations, NoNewPods, Kept, Referred, Going, SameClaims, SameClaim;
      TracesExtend();
      hide FirmEach, Firm, NoneGoes, AllTerminating, SameMains, Mains, Run, Distinct, Prepared, Preparable, StoodInIfGoing, LostAreTold;
      ghost var w0 := client.w;
      NothingPrepared(w0);
      ghost var sound := NoneGoes(client.s, w0.pvcs, Mains(list));
      var terminating, total := 0, 0;
      NothingHappens(client.s, w0);
      NothingListed(client.s, w0.pvcs);
      assert list[0..] == list && list[..0] == [];
      for i := 0 to |list|
        invariant Extends(old(client.trace), client.trace)
        invariant client.Valid() && Steady(client.s, w0, client.w) && Kept(w0.pvcs, client.w.pvcs)
        invariant Referred(client.s, client.w)
        invariant terminating <= total == |Mains(list[..i])|
        invariant sound ==> NoneGoes(client.s, client.w.pvcs, Mains(list[i..]))
        invariant sound && terminating == total ==> FirmEach(client.s, client.w.pvcs, Mains(list[..i]))
        invariant client.s.calm ==> SameMains(w0.pvcs, client.w.pvcs) && Prepared(w0, client.w)
        invariant client.s.calm ==> (terminating == total <==> AllTerminating(w0.pvcs, Mains(list[..i])))
        invariant client.s.calm ==> StoodInIfGoing(w0.pvcs, client.w.pvcs, Mains(list[..i])) && LostAreTold(client.w.pvcs, list[..i])
      {
        ghost var w1 := client.w;
        var k := list[i].key;
        MainsOfNext(list, i);
        MainsFrom(list, i);
        NoneGoesAfter(client.s, w1.pvcs, Mains(list[i..]), Mains(list[i + 1..]));
        if k.name.Tmp? {
          var o := HandleLostTemporaryPVC(list[i]);
          if client.s.calm {
            PreparedIsTransitive(w0, w1, client.w);
          }
          OnwardIsTransitive(client.s, w0, w1, client.w);
          FirmStays(client.s, w1, client.w, Mains(list[..i]));
          NoneStartsToGo(client.s, w1, client.w, Mains(list[i + 1..]), k);
          SameMainsIsTransitive(w0.pvcs, w1.pvcs, client.w.pvcs, k);
          if client.s.calm {
            OneMoreIfGoing(client.s, w0.pvcs, w1.pvcs, client.w.pvcs, Mains(list[..i]), k);
          }
          if o.Failure? {
            if client.s.calm && Preparable(w0, list) {
              ListedIsPreparable(w0, w1, list, i);
            }
            return Failure(o.error);
          }
          if client.s.calm {
            OneMoreTold(w1, client.w, list, i);
          }
        } else {
          ListedDoesNotGo(client.s, w1.pvcs, Mains(list[i..]), k);
          var t := HandleTerminatingPVC(k);
          if client.s.calm {
            PreparedIsTransitive(w0, w1, client.w);
          }
          OnwardIsTransitive(client.s, w0, w1, client.w);
          FirmStays(client.s, w1, client.w, Mains(list[..i]));
          NoneStartsToGo(client.s, w1, client.w, Mains(list[i + 1..]), k);
          SameMainsIsTransitive(w0.pvcs, w1.pvcs, client.w.pvcs, k);
          if t.Failure? {
            if client.s.calm && Preparable(w0, list) {
              ListedIsPreparable(w0, w1, list, i);
            }
            return Failure(t.error);
          }
          OneMoreListed(client.s, w0.pvcs, client.w.pvcs, Mains(list[..i]), k);
          if client.s.calm {
            OneMoreIfGoing(client.s, w0.pvcs, w1.pvcs, client.w.pvcs, Mains(list[..i]), k);
          }
          if client.s.calm {
            NoneIsTold(client.w.pvcs, list[i]);
            OneMoreTold(w1, client.w, list, i);
          }
          total := total + 1;
          if t.value {
            terminating := terminating + 1;
          }
        }
      }
      assert list[..|list|] == list;
      return Success((terminating, total));
    }

    /** Phase 2 for one claim: once no pod mounts it, its source runs the final sync. Without a stand-in it is skipped. */
    method SyncOnce(k: Key) returns (r: Result<Option<bool>>)
      requires client.Valid() && k.name.App? && Referred(client.s, client.w) && vsHandler.client == client
      modifies client
      ensures Extends(old(client.trace), client.trace)
      ensures client.Valid() && Syncing(client.s, old(client.w), client.w) && OtherSources(old(client.w).rss, client.w.rss, k)
      ensures Referred(client.s, client.w)
      ensures r.Success? && r.value.Some? ==> InFinalSync(client.w.rss, k) && (r.value.value ==> client.w.rss[k].Stamped())
      ensures r == Success(None) ==> TmpOf(k) !in old(client.w).pvcs
      ensures client.s.calm && r.Success? ==> client.w == old(client.w).(rss := client.w.rss)
      ensures client.s.calm && r.Success? && r.value.Some? ==>
        && Unmounted(old(client.w).pods, k) && k in old(client.w).rss && r.value.value == old(client.w).rss[k].Stamped()
        && client.w.rss == old(client.w).rss[k := FinalSource(old(client.w).rss[k], k)]
      ensures client.s.calm && client.s.reliable && k in old(client.w).rss && Unmounted(old(client.w).pods, k) ==> r.Success?
      ensures r.Failure? ==> r.error.OfCall() || r.error.StillInUse?
      ensures r.Failure? && r.error.StillInUse? ==> r.error == StillInUse(k.name) && k in client.w.rss && client.w.rss[k].paused
      ensures client.s.calm && r.Failure? && r.error.StillInUse? ==> !Unmounted(old(client.w).pods, k) && Stopped(old(client.w), client.w, k)
      ensures client.s.calm && client.s.reliable && TmpOf(k) !in old(client.w).pvcs ==> r == Success(None) && client.w == old(client.w)
      ensures client.s.calm && client.s.reliable && TmpOf(k) in old(client.w).pvcs && k in old(client.w).rss && !Unmounted(old(client.w).pods, k) ==>
        r == Failure(StillInUse(k.name))
    {
      hide Rely, Inv, LegalRun, SameSources, SameDestinations, NoNewPods, Kept, Referred, SameClaims, Syncing, OtherSources, InFinalSync, Run;
      hide Unmounted, MadeWay, Settled, FinalSource;
      ghost var w0 := client.w;
      var has := vsHandler.HasTemporary(k);
      ghost var w1 := client.w;
      SteadyIsSyncing(client.s, w0, w1);
      if has.Failure? || !has.value {
        return if has.Failure? then Failure(has.error) else Success(None);
      }
      var inUse := IsPVCInUse(k);
      ghost var w2 := client.w;
      OnwardIsTransitive(client.s, w0, w1, w2);
      SteadyIsSyncing(client.s, w0, w2);
      NoNewNames(client.s, w1, w2);
      if inUse.Failure? {
        return Failure(inUse.error);
      }
      if inUse.value {
        var o := PauseReplicationSource(k);
        SyncingIsTransitive(client.s, w0, w2, client.w);
        OtherSourcesIsTransitive(w0.rss, w2.rss, client.w.rss, k);
        NoNewNamesInSync(client.s, w2, client.w);
        if client.s.calm && o.Success? {
          PausingStops(w0, w2, client.w, k);
        }
        return Failure(if o.Failure? then o.error else StillInUse(k.name));
      }
      UnmountedIsQuiet(client.s, w1, w2, k);
      var complete := TriggerFinalSyncForPVC(k);
      SyncingIsTransitive(client.s, w0, w2, client.w);
      OtherSourcesIsTransitive(w0.rss, w2.rss, client.w.rss, k);
      NoNewNamesInSync(client.s, w2, client.w);
      r := if complete.Success? then Success(Some(complete.value)) else Failure(complete.error);
    }

    /**
     Phase 2: the final sync of every listed claim. Returns how many are complete, and the names of the others; a claim
     whose stand-in has gone is in neither.
     */
    method SyncAll(list: seq<Item<PVC>>) returns (r: Result<(nat, seq<Name>)>)
      requires client.Valid() && Referred(client.s, client.w) && vsHandler.client == client && Distinct(list)
      modifies client
      ensures Extends(old(client.trace), client.trace)
      ensures client.Valid() && Syncing(client.s, old(client.w), client.w) && Referred(client.s, client.w)
      ensures r.Success? ==> r.value.0 + |r.value.1| <= |Mains(list)|
      ensures r.Success? && r.value.0 + |r.value.1| == |Mains(list)| ==>
        AllInFinalSync(client.w.rss, Mains(list)) && (r.value.1 == [] ==> StampedEach(client.w.rss, Mains(list)))
      ensures r.Success? && FirmEach(client.s, old(client.w).pvcs, Mains(list)) ==>
        r.value.0 + |r.value.1| == |Mains(list)| && FirmEach(client.s, client.w.pvcs, Mains(list))
      ensures client.s.calm && r.Success? && FirmEach(client.s, old(client.w).pvcs, Mains(list)) ==>
        && r.value.1 == Unfinished(Mains(list), client.w.rss)
        && UnmountedEach(client.w.pods, Mains(list)) && client.w == old(client.w).(rss := TriggeredIn(old(client.w).rss, Mains(list)))
        && SameStamps(old(client.w).rss, client.w.rss)
      ensures client.s.calm && client.s.reliable && FirmEach(client.s, old(client.w).pvcs, Mains(list)) && Startable(old(client.w), list) ==>
        r.Success?
      ensures r.Failure? ==> r.error.OfCall() || (r.error.StillInUse? && PausedFor(list, client.w.rss, r.error))
      ensures client.s.calm && FirmEach(client.s, old(client.w).pvcs, Mains(list)) && r.Failure? && r.error.StillInUse? ==>
        HeldUpThere(old(client.w), client.w, Mains(list), r.error)
      ensures client.s.calm && client.s.reliable && FirmEach(client.s, old(client.w).pvcs, Mains(list)) && HeldUp(old(client.w), Mains(list)) ==>
        r.Failure? && r.error.StillInUse?
    {
      hide Idled, Took, Extends, Rely, Inv, LegalRun, SameSources, SameDestinations, NoNewPods, Kept, Referred, SameClaims, Syncing, OtherSources, InFinalSync, Run;
      TracesExtend();
      hide FirmEach, AllInFinalSync, StampedEach, UnmountedEach, Mains, Unfinished, Distinct, Unmounted, SameStamps, Startable;
      hide TriggeredIn, HeldUp, HeldUpThere, PausedFor, Stopped, FinalSource;
      ghost var w0 := client.w;
      ghost var firm := FirmEach(client.s, w0.pvcs, Mains(list));
      ghost var skipped := false;
      var completed, inSync := 0, [];
      NothingSynced(client.s, w0);
      NothingTriggered(w0.rss);
      for i := 0 to |list|
        invariant Extends(old(client.trace), client.trace)
        invariant client.Valid() && Syncing(client.s, w0, client.w) && Referred(client.s, client.w)
        invariant firm ==> !skipped && FirmEach(client.s, client.w.pvcs, Mains(list))
        invariant if skipped then completed + |inSync| < |Mains(list[..i])| else completed + |inSync| == |Mains(list[..i])|
        invariant !skipped ==> AllInFinalSync(client.w.rss, Mains(list[..i]))
        invariant !skipped && inSync == [] ==> StampedEach(client.w.rss, Mains(list[..i]))
        invariant client.s.calm && firm ==>
          && inSync == Unfinished(Mains(list[..i]), client.w.rss)
          && UnmountedEach(client.w.pods, Mains(list[..i])) && client.w == w0.(rss := TriggeredIn(w0.rss, Mains(list[..i])))
          && SameStamps(w0.rss, client.w.rss) && forall k :: k in Mains(list[..i]) ==> k in w0.rss
      {
        ghost var w1 := client.w;
        MainsOfNext(list, i);
        var k := list[i].key;
        if k.name.App? {
          ghost var before := Mains(list[..i]);
          ListedHasStandIn(client.s, list, i, w1.pvcs);
          KeyIsNew(list, i);
          var complete := SyncOnce(k);
          SyncingIsTransitive(client.s, w0, w1, client.w);
          if complete.Failure? {
            if client.s.calm && firm && Startable(w0, list) {
              NextIsStartable(w0, w1, list, i);
            }
            ListedIsPaused(list, i, client.w.rss, complete.error);
            if client.s.calm && firm && complete.error.StillInUse? {
              HeldUpHere(w0, w1, client.w, list, i);
            }
            if client.s.calm && firm && HeldUp(w0, Mains(list)) {
              NotHeldUpYet(w0, list, i);
              TriggeredNames(w0.rss, before);
            }
            return Failure(complete.error);
          }
          SyncingKeepsStandIns(client.s, w1, client.w, Mains(list));
          if complete.value.Some? {
            if !skipped {
              OneMoreSynced(w1.rss, client.w.rss, before, k);
            }
            OneMoreUnmounted(w1.pods, before, k);
            if complete.value.value {
              completed := completed + 1;
            } else {
              inSync := inSync + [k.name];
            }
            if client.s.calm {
              OneMoreAccounted(w1.rss, client.w.rss, before, k);
              if firm {
                TriggeringKeepsStamps(w0.rss, w1.rss, k);
                TriggeredNames(w0.rss, before);
                OneMoreTriggered(w0.rss, before, k);
              }
            }
          } else {
            skipped := true;
          }
        }
      }
      assert list[..|list|] == list;
      if client.s.calm && firm {
        UnmountedIsNotHeldUp(w0, Mains(list));
      }
      return Success((completed, inSync));
    }

    /** The final sync of the listed claims; `ran` tells whether the VRG asked for one. */
    method ProcessFinalSync(list: seq<Item<PVC>>) returns (r: Result<FinalSyncResult>, ghost ran: bool)
      requires Ready() && Referred(client.s, client.w) && Distinct(list)
      modifies client
      ensures Extends(old(client.trace), client.trace)
      ensures Ready() && Syncing(client.s, old(client.w), client.w) && Referred(client.s, client.w)
      ensures ran ==> Required(old(client.w), copy.vgr)
      ensures client.s.relocating || client.s.reliable ==> ran == Required(old(client.w), copy.vgr)
      ensures !ran ==> r == Success(FinalSyncResult(true, [], 0)) && Idle(client.s, old(client.w), client.w)
      ensures ran && r.Success? ==> Accounted(list, r.value, client.w)
      ensures ran && r.Success? && NoneGoes(client.s, old(client.w).pvcs, Mains(list)) ==> FullyAccounted(list, r.value, client.w)
      ensures ran && r.Success? && client.s.calm ==> ExactlyAccounted(list, r.value, client.w)
      ensures ran && client.s.calm && client.s.reliable && Startable(old(client.w), list) && copy.vgr.status.state != SecondaryState ==>
        r.Success? && Begun(old(client.w), client.w, Mains(list))
      ensures r.Failure? && r.error.StillInUse? ==> PausedFor(list, client.w.rss, r.error)
      ensures client.s.calm && r.Failure? && r.error.StillInUse? ==>
        Stalled(old(client.w), client.w, list, r.error)
      ensures client.s.calm && r == Failure(WaitingForTermination) ==> Awaited(old(client.w), client.w, list)
      ensures client.s.calm && client.s.reliable && ran && Preparable(old(client.w), list) && copy.vgr.status.state != SecondaryState ==>
        if !AllTerminating(old(client.w).pvcs, Mains(list)) then r == Failure(WaitingForTermination)
        else HeldUp(old(client.w), Mains(list)) ==> r.Failure? && r.error.StillInUse?
    {
      hide TriggeredIn, HeldUp, HeldUpThere, PausedFor, Preparable, StoodInIfGoing, Prepared;
      hide Rely, Inv, LegalRun, SameSources, SameDestinations, NoNewPods, Kept, Referred, SameClaims, OtherSources, InFinalSync, Run;
      hide FirmEach, NoneGoes, StoodIn, AllInFinalSync, StampedEach, UnmountedEach, Mains, Unfinished, Distinct, AllTerminating, SameMains, Policy, StampsStay;
      hide Startable, StandInsAdded, SameStamps;
      ghost var w0 := client.w;
      var run := ShouldRunFinalSync();
      ran := run;
      ghost var w1 := client.w;
      SteadyIsSyncing(client.s, w0, w1);
      if !run || copy.vgr.status.state == SecondaryState {
        return Success(FinalSyncResult(true, [], 0)), ran;
      }
      KeptNoneGoes(client.s, w0, w1, Mains(list));
      CalmNoneGoes(client.s, w0.pvcs, Mains(list));
      var created := CreateStandIns(list);
      ghost var w2 := client.w;
      if client.s.calm && Startable(w1, list) {
        StartableIsPreparable(w1, list);
        StillStartable(w1, w2, list);
      }
      if client.s.calm {
        PreparationIsLocal(w1, w2);
        StillHeldUp(w1, w2, Mains(list));
      }
      OnwardIsTransitive(client.s, w0, w1, w2);
      SteadyIsSyncing(client.s, w0, w2);
      if created.Failure? {
        return Failure(created.error), ran;
      }
      var (terminating, total) := created.value;
      if terminating != total {
        return Failure(WaitingForTermination), ran;
      }
      var synced := SyncAll(list);
      SyncingIsTransitive(client.s, w0, w2, client.w);
      if synced.Failure? {
        if client.s.calm && synced.error.StillInUse? {
          HeldUpIsLocal(w2, client.w, Mains(list), synced.error);
        }
        return Failure(synced.error), ran;
      }
      var (completed, inSync) := synced.value;
      FirmIsStoodInIf(client.s, client.w.pvcs, Mains(list));
      FinishedIffAllStamped(Mains(list), client.w.rss);
      StampedEachIsAll(client.w.rss, Mains(list));
      MainsAreListed(list);
      TerminatingStays(w1.pvcs, w2.pvcs, Mains(list));
      return Success(FinalSyncResult(completed == total, inSync, total)), ran;
    }

    /** Lets the reconcile go on or come back later; `list` are the claims that `result` is about, in state `w`. */
    method UpdateFinalSyncStatus(result: FinalSyncResult, ghost list: seq<Item<PVC>>, ghost w: World) returns (o: Outcome)
      ensures o.Success? && Accounted(list, result, w) ==> StampedEach(w.rss, Mains(list))
      ensures ExactlyAccounted(list, result, w) ==> (o.Success? <==> StampedEach(w.rss, Mains(list)))
      ensures o.Failure? ==> o.error == FinalSyncInProgress
    {
      hide Mains, StampedEach, AllInFinalSync, AllTerminating, UnmountedEach, Unfinished;
      return if result.allComplete then OK else Failure(FinalSyncInProgress);
    }
  }

  /** The result is complete only if every listed claim runs the final sync and every source has recorded it. */
  ghost predicate Accounted(list: seq<Item<PVC>>, result: FinalSyncResult, w: World) {
    && result.total == |Mains(list)| && |result.inSync| <= result.total
    && (result.allComplete ==> result.inSync == [] && AllInFinalSync(w.rss, Mains(list)) && StampedEach(w.rss, Mains(list)))
  }

  /**
   The account adds up: every listed claim has a stand-in and a source that runs the final sync from it, and the
   result is complete exactly when nothing is left in sync.
   */
  ghost predicate FullyAccounted(list: seq<Item<PVC>>, result: FinalSyncResult, w: World) {
    && Accounted(list, result, w)
    && (result.allComplete <==> result.inSync == [])
    && StoodIn(w.pvcs, Mains(list)) && AllInFinalSync(w.rss, Mains(list))
  }

  /** Without interference the names are exactly the claims whose source has not recorded the final sync yet. */
  ghost predicate ExactlyAccounted(list: seq<Item<PVC>>, result: FinalSyncResult, w: World) {
    && result.inSync == Unfinished(Mains(list), w.rss)
    && (result.allComplete <==> StampedEach(w.rss, Mains(list)))
    && AllTerminating(w.pvcs, Mains(list)) && UnmountedEach(w.pods, Mains(list))
  }

  /** So an accounted group claim is terminating, unused, and shares its volume with the stand-in that is synced. */
  lemma AccountedClaim(s: Setting, w: World, list: seq<Item<PVC>>, result: FinalSyncResult, k: Key)
    requires Inv(s, w) && !w.vgr.deleting && k in s.group && k in Mains(list)
    requires FullyAccounted(list, result, w) && ExactlyAccounted(list, result, w)
    ensures k in w.pvcs && w.pvcs[k].deleting && w.pvcs[k].volumeName == s.group[k]
    ensures TmpOf(k) in w.pvcs && w.pvcs[TmpOf(k)].volumeName == s.group[k]
    ensures forall p :: p in w.pods && p.ns == k.ns ==> k.name !in w.pods[p].claims
    ensures k in w.rss && !w.rss[k].paused && w.rss[k].sourcePVC == Tmp(k.name) && w.rss[k].trigger == Manual(FinalSync)
    ensures result.allComplete ==> w.rss[k].Stamped()
  {
    hide Mains, Relocating, Exclusive, Guarded, Anchored, OwnVolumes, Unfinished;
    assert NamedAt(s.group[k], w.pvcs, k);
    assert Unmounted(w.pods, k) && InFinalSync(w.rss, k);
  }
}
