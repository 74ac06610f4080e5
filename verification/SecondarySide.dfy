/** The reconcile of a VGR as secondary: final sync, restore, destinations, status. */
module SecondarySide {

  import opened Names
  import opened Objects
  import opened System
  import opened Protocol
  import opened Api
  import opened Handoff
  import opened RoundTrip
  import opened Legality
  import opened Replication
  import opened SyncSteps
  import opened Demotion
  import opened Handler
  import opened FinalSyncs
  import opened Wrappers

  class SecondaryReconciler {
    const client: Cluster
    const copy: GroupCopy
    const vsHandler: VSHandler
    const secret: string

    constructor (client: Cluster, copy: GroupCopy, vsHandler: VSHandler, secret: string)
      ensures this.client == client && this.copy == copy && this.vsHandler == vsHandler && this.secret == secret
    {
      this.client := client;
      this.copy := copy;
      this.vsHandler := vsHandler;
      this.secret := secret;
    }

    ghost predicate Ready()
      reads client, copy
    {
      Attached(client, copy, vsHandler)
    }

    /** The claims of the VGR's namespace that its selector matches. */
    method GetPVCList() returns (r: Result<seq<Item<PVC>>>)
      requires Ready()
      modifies client
      ensures Extends(old(client.trace), client.trace)
      ensures Ready() && Idle(client.s, old(client.w), client.w)
      ensures r.Success? ==>
        && client.w.vgr.selector.Some?
        && Lists(r.value, Selecting(InNamespace(old(client.w).pvcs, client.w.vgr.ns), client.w.vgr.selector.value))
        && Distinct(r.value) && ShortNames(Keys(r.value)) && Listing(client.s, client.w, Keys(r.value))
      ensures r == Failure(NoSelector) <==> copy.vgr.selector.None?
      ensures copy.vgr.selector.None? ==> client.w == old(client.w)
      ensures client.s.reliable && copy.vgr.selector.Some? ==> r.Success?
      ensures r.Failure? ==> r.error.OfCall() || r.error == NoSelector
    {
      hide Rely, Inv, LegalRun, SameSources, SameDestinations, NoNewPods, Kept, Lists, Listing, Keys, Distinct, ShortNames, Relocation;
      if copy.vgr.selector.None? {
        DriftIsReflexive(client.s, client.w);
        DriftIsIdle(client.s, client.w, client.w);
        return Failure(NoSelector);
      }
      ghost var w0 := client.w;
      r := client.ListPVCs(copy.vgr.selector.value, Some(copy.vgr.ns), None);
      SteadyIsDemoting(client.s, w0, client.w);
      if r.Success? {
        ListedClaims(client.s, w0, r.value);
        ListCoversGroup(client.s, w0, r.value);
        DoneStaysDemoting(client.s, w0, client.w);
        ListingStays(client.s, w0, client.w, Keys(r.value));
      }
    }

    /**
     The final sync, if the VRG asks for one. `Success(None)` means go on with the reconcile;
     `run` tells whether the sources have to be checked once more before replication is turned around.
     */
    method HandleFinalSync(list: seq<Item<PVC>>) returns (r: Result<Option<Requeue>>, run: bool)
      requires Ready() && copy.vgr == copy.base && Distinct(list) && Listing(client.s, client.w, Keys(list))
      modifies client
      ensures Extends(old(client.trace), client.trace)
      ensures Ready() && Syncing(client.s, old(client.w), client.w)
      ensures r == Success(None) ==> AllDone(client.s, client.w) && Listing(client.s, client.w, Keys(list))
      ensures r == Success(None) && !run ==> GateOpen(client.s, client.w)
      ensures client.s.relocating || client.s.reliable ==> run == Required(old(client.w), copy.vgr)
      ensures r.Success? && r.value.Some? ==> r.value.value == After(WAITING_INTERVAL)
      ensures client.s.calm && r.Success? && r.value.Some? ==>
        Required(old(client.w), copy.vgr) && !AllStamped(old(client.w).rss, copy.vgr.ns)
      ensures client.s.calm && client.s.reliable && (!Required(old(client.w), copy.vgr) || AllStamped(old(client.w).rss, copy.vgr.ns)) ==>
        r == Success(None) && client.w == old(client.w)
      ensures client.s.calm && client.s.reliable && old(client.w).vgr == copy.base && Syncable(old(client.w), list) ==>
        r != Success(None) && SyncedAsFar(old(client.w), client.w, list, Ended(r))
      ensures r.Failure? && r.error.StillInUse? ==> PausedFor(list, client.w.rss, r.error)
      ensures client.s.calm && client.s.reliable && old(client.w).vgr == copy.base && Completing(old(client.w), list) ==>
        r == Success(None) && run && Begun(old(client.w), client.w, Mains(list))
    {
      hide PausedFor;
      hide Rely, Inv, LegalRun, SameSources, SameDestinations, NoNewPods, Kept, Lists, Listing, Keys, Distinct, Run, AllStamped;
      hide Accounted, ExactlyAccounted, AllDone, DoneStays, GateOpen, StampedEach, Mains, Referred, StampsStay, OtherSources;
      hide Begun, Startable;
      var handler := new FinalSyncHandler(client, copy, vsHandler);
      ghost var w0 := client.w;
      run := handler.ShouldRunFinalSync();
      ghost var w1 := client.w;
      SteadyIsSyncing(client.s, w0, w1);
      DoneStaysSyncing(client.s, w0, w1);
      ListingStays(client.s, w0, w1, Keys(list));
      if !run {
        NotRequiredStays(client.s, w0, copy.vgr);
        if client.s.relocating {
          NotRequiredIsOpen(client.s, w1, copy.vgr);
        }
        NotRelocatingIsOpen(client.s, w1);
        OpenGateMeansAllDone(client.s, w1);
        return Success(None), run;
      }
      var complete := handler.AreAllRSFinalSyncsComplete();
      ghost var w2 := client.w;
      SteadyIsSyncing(client.s, w1, w2);
      SyncingIsTransitive(client.s, w0, w1, w2);
      DoneStaysSyncing(client.s, w1, w2);
      ListingStays(client.s, w1, w2, Keys(list));
      if complete.Failure? {
        return Failure(complete.error), run;
      }
      if complete.value {
        OpenGateMeansAllDone(client.s, w2);
        return Success(None), run;
      }
      r := RunFinalSync(list, handler);
      SyncingIsTransitive(client.s, w0, w2, client.w);
    }

    /** Runs the final sync for the list, and ends the reconcile until it is complete. */
    method RunFinalSync(list: seq<Item<PVC>>, handler: FinalSyncHandler) returns (r: Result<Option<Requeue>>)
      requires Ready() && copy.vgr == copy.base && Distinct(list) && Listing(client.s, client.w, Keys(list))
      requires handler.client == client && handler.copy == copy && handler.vsHandler == vsHandler
      requires client.s.relocating ==> Required(client.w, copy.vgr)
      modifies client
      ensures Extends(old(client.trace), client.trace)
      ensures Ready() && Syncing(client.s, old(client.w), client.w)
      ensures r == Success(None) ==> AllDone(client.s, client.w) && Listing(client.s, client.w, Keys(list))
      ensures r.Success? && r.value.Some? ==> r.value.value == After(WAITING_INTERVAL)
      ensures client.s.calm && client.s.reliable && old(client.w).vgr == copy.base && Syncable(old(client.w), list) ==>
        r != Success(None) && SyncedAsFar(old(client.w), client.w, list, Ended(r))
      ensures r.Failure? && r.error.StillInUse? ==> PausedFor(list, client.w.rss, r.error)
      ensures client.s.calm && client.s.reliable && old(client.w).vgr == copy.base && Completing(old(client.w), list) ==>
        r == Success(None) && Begun(old(client.w), client.w, Mains(list))
    {
      hide PausedFor;
      hide Rely, Inv, LegalRun, SameSources, SameDestinations, NoNewPods, Kept, Lists, Listing, Keys, Distinct, Run;
      hide AllTerminating, UnmountedEach, Unfinished, AllInFinalSync, Startable, StandInsAdded, SameStamps, StoodIn, AllStamped;
      hide Accounted, FullyAccounted, ExactlyAccounted, AllDone, DoneStays, StampedEach, Mains, Referred, StampsStay, NoneGoes;
      ghost var w0 := client.w;
      var result;
      ghost var ran;
      result, ran := handler.ProcessFinalSync(list);
      ghost var w1 := client.w;
      DoneStaysSyncing(client.s, w0, w1);
      ListingStays(client.s, w0, w1, Keys(list));
      if result.Failure? {
        // The name compared with is empty, so a claim that is still in use ends the reconcile with an error.
        if result.error == WaitingForTermination || result.error == StillInUse(App("")) {
          return Success(Some(After(WAITING_INTERVAL)));
        }
        return Failure(result.error);
      }
      if client.s.calm && client.s.reliable && w0.vgr == copy.base && (Beginning(w0, list) || Completing(w0, list)) {
        StampsAreTheSame(w0.rss, w1.rss, Mains(list));
      }
      SyncIsOneWay(w0, list);
      var o := handler.UpdateFinalSyncStatus(result.value, list, w1);
      if o.Failure? {
        RecordedStatusIsLegal(client.s, w1, copy.base);
        var updated := client.UpdateStatus(copy.base, copy.vgr.status);
        SteadyIsSyncing(client.s, w1, client.w);
        SyncingIsTransitive(client.s, w0, w1, client.w);
        return if updated.Failure? then Failure(updated.error) else Success(Some(After(WAITING_INTERVAL)));
      }
      CompleteMeansAllDone(client.s, w1, list);
      return Success(None);
    }

    /** Restores the listed claims that have a stand-in, up to the first one that has to wait or fails. */
    method RestoreTemporaryPVCs(list: seq<Item<PVC>>) returns (o: Outcome)
      requires Ready() && ShortNames(Keys(list)) && AllDone(client.s, client.w)
      modifies client
      ensures Extends(old(client.trace), client.trace)
      ensures Ready() && Steady(client.s, old(client.w), client.w)
      ensures o.Success? && client.s.plain ==> forall k :: k in Keys(list) ==> TmpOf(MainOf(k)) !in client.w.pvcs
      ensures client.s.calm && client.s.reliable ==> (client.w, o) == RestoreAll(old(client.w), Keys(list))
      ensures o.Failure? ==> o.error.OfCall() || o.error.WaitingForDeletion?
    {
      hide Rely, Inv, LegalRun, SameSources, SameDestinations, NoNewPods, Kept, OthersKept, Keys, Run, ShortNames;
      hide AllDone, DoneStays, RestoreAll, Restored, RestoredAfter, RestoreOutcome, Relocation, NoneLeft;
      ghost var w0 := client.w;
      ghost var keys := Keys(list);
      KeysAreListed(list);
      NothingHappens(client.s, w0);
      NoneLeftOfNone(w0.pvcs, keys);
      var i := 0;
      while i < |list|
        invariant Extends(old(client.trace), client.trace)
        invariant i <= |list| && keys == Keys(list)
        invariant Ready() && Steady(client.s, w0, client.w) && AllDone(client.s, client.w)
        invariant client.s.plain ==> NoneLeft(client.w.pvcs, keys[..i])
        invariant client.s.calm && client.s.reliable ==> RestoreAll(w0, keys) == RestoreAll(client.w, keys[i..])
      {
        var k := list[i].key;
        assert keys[i] == k;
        ghost var w1 := client.w;
        ListedNameIsShort(keys, i);
        var has := vsHandler.HasTemporary(k);
        ghost var w2 := client.w;
        SteadyIsTransitive(client.s, w0, w1, w2);
        AllDoneSteady(client.s, w1, w2);
        if has.Failure? {
          return Failure(has.error);
        }
        if has.value {
          ListedIsDone(client.s, w2, MainOf(k));
          ghost var stage;
          o, stage := vsHandler.Restore(k);
          SteadyIsTransitive(client.s, w0, w2, client.w);
          AllDoneSteady(client.s, w2, client.w);
          if !client.s.reliable {
            UnreliableIsReferred(client.s, client.w);
          }
          if client.s.calm && client.s.reliable {
            NextIsRestored(w1, keys, i);
          }
          if o.Failure? {
            return;
          }
        } else if client.s.calm && client.s.reliable {
          NextIsSkipped(w1, keys, i);
        }
        if client.s.plain {
          OneMoreGone(w1.pvcs, client.w.pvcs, keys, i);
        }
        i := i + 1;
      }
      if client.s.plain {
        NoneLeftOf(client.w.pvcs, keys);
      }
      NothingLeftToRestore(client.w, keys);
      return OK;
    }

    /** A claim in phase Lost is told to bind again. */
    method HandleLostPVC(x: Item<PVC>) returns (o: Outcome)
      requires Ready()
      modifies client
      ensures Extends(old(client.trace), client.trace)
      ensures Ready() && Steady(client.s, old(client.w), client.w) && Kept(old(client.w).pvcs, client.w.pvcs)
      ensures BindCompleted !in x.value.annotations ==> o.Success? && client.w == old(client.w)
      ensures client.s.calm && o.Success? && BindCompleted in x.value.annotations ==>
        client.w == old(client.w).(pvcs := old(client.w).pvcs[x.key := x.value.(annotations := x.value.annotations - {BindCompleted})])
      ensures client.s.calm ==> Upkept(old(client.w), client.w)
      ensures client.s.reliable && x.key in old(client.w).pvcs && old(client.w).pvcs[x.key] == x.value ==> o.Success?
      ensures o.Failure? ==> o.error.OfCall()
    {
      hide Rely, Inv, LegalRun, SameSources, SameDestinations, NoNewPods, Legal, Kept, Referred;
      ghost var w0 := client.w;
      if BindCompleted !in x.value.annotations {
        NothingHappens(client.s, w0);
        return OK;
      }
      if x.key in w0.pvcs && w0.pvcs[x.key] == x.value {
        RebindingIsLegal(client.s, w0, x.key);
      }
      o := client.UpdatePVC(x.key, x.value, Rebound(x.value));
      RebindingIsOnTheSide(x.value);
      NoNewNames(client.s, w0, client.w);
    }

    /**
     Turns every listed claim into a destination. Returns the names of those that are ready, and whether all are;
     `ready` are their keys.
     */
    method ReconcileReplicationDestinations(list: seq<Item<PVC>>) returns (r: Result<(seq<Name>, bool)>, ghost ready: seq<Key>)
      requires Ready() && Distinct(list) && GateOpen(client.s, client.w)
      modifies client
      ensures Extends(old(client.trace), client.trace)
      ensures Ready() && Demoting(client.s, old(client.w), client.w)
      ensures r.Success? ==> r.value.0 == KeyNames(ready) && DemotedEach(client.w, ready) && NoneLost(list)
      ensures r.Success? ==> (r.value.1 <==> ready == Keys(list)) && (r.value.1 <==> |r.value.0| == |list|)
      ensures r.Success? ==> StoodEach(client.s, client.start, old(client.trace), client.trace, ready)
      ensures client.s.calm && r.Success? ==> StandingEach(client.w.pvcs, ready)
      ensures r.Failure? ==> r.error.OfCall() || r.error.LostClaim?
      ensures client.s.calm && r.Failure? && r.error.LostClaim? ==> LostIsTold(client.w.pvcs, list, r.error)
      ensures client.s.calm && client.s.reliable ==> ReceivedAll(old(client.w), client.w, list, ready, secret, r)
    {
      hide Rely, Inv, LegalRun, Demoting, OthersKept, Keys, Run, Distinct, GateOpen, Demoted, DemotedEach, Referred, Steady, Kept;
      hide Receivable, Addressable, AsDestination, NoneLost, KeyNames, Relocation;
      hide Extends, StoodEach, StandingEach, Unmarked, Standing, Idled, Took, LostIsTold, Upkept, ReceivedSoFar, ReceivedAll;
      TracesExtend();
      ghost var w0, t0 := client.w, client.trace;
      var names, allReady := [], true;
      ready := [];
      StartOfDestinations(client.s, w0, list, secret);
      StartOfStanding(client.s, client.start, t0, w0);
      var i := 0;
      while i < |list|
        invariant Extends(old(client.trace), client.trace)
        invariant i <= |list| && Ready() && Demoting(client.s, w0, client.w) && GateOpen(client.s, client.w)
        invariant names == KeyNames(ready) && |ready| == |names| <= i && DemotedEach(client.w, ready)
        invariant allReady <==> |names| == i
        invariant allReady <==> ready == Keys(list[..i])
        invariant forall k :: k in ready ==> k in Keys(list[..i])
        invariant NoneLost(list[..i])
        invariant StoodEach(client.s, client.start, t0, client.trace, ready)
        invariant client.s.calm ==> StandingEach(client.w.pvcs, ready)
        invariant client.s.calm && client.s.reliable ==> ReceivedSoFar(w0, client.w, list, i, ready, allReady, secret)
      {
        ghost var w1, t1 := client.w, client.trace;
        NextListed(list, i);
        if list[i].value.phase.Lost? {
          var o := HandleLostPVC(list[i]);
          if client.s.calm && o.Success? {
            ListedIsTold(client.w.pvcs, list, i);
          }
          SteadyIsDemoting(client.s, w1, client.w);
          DemotingIsTransitive(client.s, w0, w1, client.w);
          r := Failure(if o.Failure? then o.error else LostClaim(list[i].key.name));
          if client.s.calm && client.s.reliable {
            LostEndsIt(w0, w1, client.w, list, i, ready, allReady, secret, o, r);
          }
          return;
        }
        var k := list[i].key;
        var rd := vsHandler.ReconcileRD(k, secret);
        GateAcross(client.s, w1, client.w);
        DemotingIsTransitive(client.s, w0, w1, client.w);
        GroupAcross(client.s, w1, client.w);
        if client.s.calm && client.s.reliable {
          NextIsReceived(w0, w1, list, i, ready, allReady, vsHandler.owner, secret);
        }
        if rd.Failure? {
          r := Failure(rd.error);
          if client.s.calm && client.s.reliable {
            FailureEndsIt(w0, w1, client.w, list, i, ready, allReady, vsHandler.owner, secret, r);
          }
          return;
        }
        OneMoreDemoted(client.s, w1, client.w, ready, k);
        StoodEachStays(client.s, client.start, t0, t1, client.trace, ready);
        if rd.value.Some? {
          StoodBetween(client.s, client.start, t0, t1, client.trace, w1, ready, k);
          OneMoreStanding(w1.pvcs, ready, k);
        }
        if client.s.calm {
          StandingStays(w1.pvcs, client.w, if rd.value.Some? then ready + [k] else ready);
        }
        if rd.value.None? {
          allReady := false;
        } else {
          KeyNamesOfNext(ready, k);
          names, ready := names + [k.name], ready + [k];
        }
        i := i + 1;
      }
      assert list[..|list|] == list;
      KeysAreListed(list);
      r := Success((names, allReady));
      if client.s.calm && client.s.reliable {
        AllAreReceived(w0, client.w, list, ready, names, allReady, secret);
      }
    }

    /** Records the destinations in the status, and the demotion once all of them are ready. */
    method UpdateStatus(protected: seq<Name>, allReady: bool) returns (o: Outcome)
      requires Ready() && copy.vgr == copy.base
      requires allReady ==> forall st :: Justified(client.s, client.w, st)
      modifies client, copy
      ensures Extends(old(client.trace), client.trace)
      ensures Ready() && Justified(client.s, client.w, copy.vgr.status)
      ensures copy.vgr.status == Status(
        if allReady then SecondaryState else old(copy.vgr).status.state, protected, old(copy.vgr).status.lastSync)
      ensures copy.vgr == old(copy.vgr).(status := copy.vgr.status)
      ensures copy.base == if o.Success? then copy.vgr else old(copy.base)
      ensures client.s.calm ==> client.w == if o.Success? then old(client.w).(vgr := copy.vgr) else old(client.w)
      ensures client.s.reliable && old(client.w).vgr == old(copy.base) ==> o.Success?
      ensures old(client.w).vgr.deleting ==> client.w.vgr.deleting
      ensures Steady(client.s, old(client.w).(vgr := client.w.vgr), client.w) && Kept(old(client.w).pvcs, client.w.pvcs)
      ensures o.Failure? ==> o.error.OfCall()
    {
      hide Rely, Inv, LegalRun, SameSources, SameDestinations, NoNewPods, Kept, Referred, GroupDone;
      ghost var w0 := client.w;
      if !allReady {
        RecordedAgain(client.s, w0, copy.vgr.status);
      }
      var status := copy.vgr.status;
      if status.state == SecondaryState {
        copy.vgr := copy.vgr.(status := status.(protectedPVCs := protected));
      } else {
        var state := if allReady then SecondaryState else status.state;
        copy.vgr := copy.vgr.(status := status.(state := state, protectedPVCs := protected));
      }
      assert Justified(client.s, w0, copy.vgr.status);
      o := client.UpdateStatus(copy.base, copy.vgr.status);
      if o.Success? {
        copy.base := copy.vgr;
      }
      SourcesAfterStatus(client.s, w0, if o.Success? then copy.vgr else w0.vgr, client.w, copy.vgr.status);
    }

    /** The reconcile up to the gate: `Success(None)` means that replication may be turned around. */
    method ReachGate(list: seq<Item<PVC>>) returns (r: Result<Option<Requeue>>)
      requires Ready() && copy.vgr == copy.base
      requires Distinct(list) && ShortNames(Keys(list)) && Listing(client.s, client.w, Keys(list))
      modifies client
      ensures Extends(old(client.trace), client.trace)
      ensures Ready() && client.w.rss.Keys == old(client.w).rss.Keys && client.w.rds.Keys == old(client.w).rds.Keys
      ensures SameGroup(old(client.w).vgr, client.w.vgr) && DoneStays(client.s, old(client.w), client.w)
      ensures r == Success(None) ==> GateOpen(client.s, client.w) && Listing(client.s, client.w, Keys(list))
      ensures client.s.calm && client.s.reliable && Passable(old(client.w), copy.vgr) ==>
        var (v, o) := RestoreAll(old(client.w), Keys(list));
        client.w == v && r == if o.Failure? then Failure(o.error) else Success(None)
      ensures client.s.calm && client.s.reliable && old(client.w).vgr == copy.base && Concluding(old(client.w), list) ==>
        r != Success(None) && Concluded(old(client.w), client.w, list, Ended(r))
      ensures r.Failure? && r.error.StillInUse? ==> PausedFor(list, client.w.rss, r.error)
    {
      hide PausedFor;
      hide Rely, Inv, LegalRun, Kept, Listing, Keys, Distinct, Run, AllStamped, AllDone, DoneStays, GateOpen, Referred;
      hide Relocation, ShortNames, RestoreAll, StampsStay, SameSource, NoNewPods, SameClaims, Required, Syncable, SyncedAsFar, Completing, Completed, Begun;
      ghost var w0 := client.w;
      var synced, run := HandleFinalSync(list);
      DoneStaysSyncing(client.s, w0, client.w);
      if synced.Failure? || synced.value.Some? {
        return synced;
      }
      ghost var w1 := client.w;
      SyncIsOneWay(w0, list);
      var o := RestoreTemporaryPVCs(list);
      ghost var w2 := client.w;
      PassIsLocal(w1, Keys(list));
      SteadyIsDemoting(client.s, w1, w2);
      DoneStaysDemoting(client.s, w1, w2);
      DoneStaysIsTransitive(client.s, w0, w1, w2);
      if client.s.calm && client.s.reliable && w0.vgr == copy.base && Completing(w0, list) {
        CompletedThen(w0, w1, w2, list, o);
      }
      if o.Failure? {
        return Failure(o.error);
      }
      ListingStays(client.s, w1, w2, Keys(list));
      if !run {
        GateAcross(client.s, w1, w2);
        return Success(None);
      }
      var complete := IsFinalSyncComplete();
      SteadyIsDemoting(client.s, w2, client.w);
      DoneStaysDemoting(client.s, w2, client.w);
      DoneStaysIsTransitive(client.s, w0, w2, client.w);
      ListingStays(client.s, w2, client.w, Keys(list));
      if complete.Failure? {
        return Failure(complete.error);
      }
      return Success(if complete.value then None else Some(WhenSomethingChanges));
    }

    method IsFinalSyncComplete() returns (r: Result<bool>)
      requires Ready() && copy.vgr == copy.base
      modifies client
      ensures Extends(old(client.trace), client.trace)
      ensures Ready() && Idle(client.s, old(client.w), client.w)
      ensures r == Success(true) ==> GateOpen(client.s, client.w)
      ensures client.s.reliable ==> r == Success(AllStamped(old(client.w).rss, old(client.w).vgr.ns))
      ensures r.Failure? ==> r.error.OfCall()
    {
      hide Rely, Inv, LegalRun, SameSources, SameDestinations, NoNewPods, Kept, AllStamped, GateOpen;
      var handler := new FinalSyncHandler(client, copy, vsHandler);
      r := handler.AreAllRSFinalSyncsComplete();
    }

    /** Behind the open gate: turns the listed claims into destinations and records it. */
    method Demote(list: seq<Item<PVC>>) returns (r: Result<Requeue>)
      requires Ready() && copy.vgr == copy.base && Distinct(list) && list != []
      requires GateOpen(client.s, client.w) && Listing(client.s, client.w, Keys(list))
      modifies client, copy
      ensures Extends(old(client.trace), client.trace)
      ensures Ready() && Justified(client.s, client.w, copy.vgr.status) && GateOpen(client.s, client.w)
      ensures copy.vgr == old(copy.vgr).(status := copy.vgr.status) && copy.vgr.status.lastSync == old(copy.vgr).status.lastSync
      ensures copy.vgr.status.state != old(copy.vgr).status.state ==>
        && copy.vgr.status.state == SecondaryState && NoneLost(list) && DemotedEach(client.w, Keys(list))
        && copy.vgr.status.protectedPVCs == KeyNames(Keys(list))
        && StoodEach(client.s, client.start, old(client.trace), client.trace, Keys(list))
        && (client.s.calm ==> StandingEach(client.w.pvcs, Keys(list)))
      ensures copy.base == copy.vgr || (r.Failure? && copy.base == old(copy.base))
      ensures client.s.calm && client.s.reliable && old(client.w).vgr == old(copy.base) ==> client.w.vgr == copy.base && copy.base == copy.vgr
      ensures client.s.calm && client.s.reliable && old(client.w).vgr == old(copy.base) && NoneGoing(old(client.w).pvcs, Keys(list)) ==>
        TurnedAround(old(client.w), client.w, list, secret, r)
      ensures r.Failure? ==> r.error.OfCall() || r.error.LostClaim?
    {
      hide Rely, Inv, LegalRun, Kept, Listing, Keys, Distinct, Run, AllStamped, AllDone, DoneStays, GateOpen, Referred, Steady, Demoting;
      hide Relocation, ShortNames, SameSource, NoNewPods, SameClaims, Lists, DemotedEach, NoneLost, KeyNames, GroupDone, Done;
      hide Extends, StoodEach, StandingEach, NoneGoing, Servable, AllReceivable, ReceivedEach, Fewer, Grown, UpkeptClaims;
      hide ReadyOf, Unchanged, LostIsTold, Upkept;
      TracesExtend();
      ghost var w0, t0 := client.w, client.trace;
      RecordedAgain(client.s, w0, copy.vgr.status);
      ghost var ready;
      var destinations;
      destinations, ready := ReconcileReplicationDestinations(list);
      ghost var w1, t1 := client.w, client.trace;
      GateAcross(client.s, w0, w1);
      DemotionAcross(client.s, w0, w1, Keys(list), copy.vgr.status);
      if destinations.Failure? {
        r := Failure(destinations.error);
        return;
      }
      var (protected, allReady) := destinations.value;
      if allReady {
        forall st
          ensures Justified(client.s, w1, st)
        {
          DemotionIsJustified(client.s, w1, Keys(list), st);
        }
      }
      var o := UpdateStatus(protected, allReady);
      GateAfterStatus(client.s, w1, client.w);
      if allReady {
        DemotedAcross(client.s, w1, client.w, ready);
        StoodEachStays(client.s, client.start, t0, t1, client.trace, ready);
      }
      assert client.s.calm && w1.vgr == w0.vgr ==> client.w.(vgr := w0.vgr) == w1;
      if client.s.calm && w1.vgr == w0.vgr {
        StatusKeepsReceived(w0, w1, client.w, Keys(list), secret);
      }
      r := if o.Failure? then Failure(o.error) else Success(After(if allReady then REQUEUE_INTERVAL else WAITING_INTERVAL));
    }

    /** `listed` are the claims that this reconcile is about. */
    method Reconcile() returns (r: Result<Requeue>, ghost listed: seq<Item<PVC>>)
      requires Ready() && copy.vgr == copy.base
      modifies client, copy
      ensures Extends(old(client.trace), client.trace)
      ensures Ready() && Justified(client.s, client.w, copy.vgr.status)
      ensures copy.vgr == old(copy.vgr).(status := copy.vgr.status) && copy.vgr.status.lastSync == old(copy.vgr).status.lastSync
      ensures copy.vgr.status.state != old(copy.vgr).status.state ==>
        && copy.vgr.status.state == SecondaryState
        && copy.vgr.selector.Some?
        && Lists(listed, Selecting(InNamespace(old(client.w).pvcs, copy.vgr.ns), copy.vgr.selector.value))
        && NoneLost(listed) && DemotedEach(client.w, Keys(listed))
        && copy.vgr.status.protectedPVCs == KeyNames(Keys(listed))
      ensures copy.base == copy.vgr || copy.base == old(copy.base)
      ensures !GateOpen(client.s, client.w) ==>
        client.w.rss.Keys == old(client.w).rss.Keys && client.w.rds.Keys == old(client.w).rds.Keys
      ensures copy.vgr.status.state != old(copy.vgr).status.state ==>
        StoodEach(client.s, client.start, old(client.trace), client.trace, Keys(listed))
      ensures client.s.calm && copy.vgr.status.state != old(copy.vgr).status.state ==> StandingEach(client.w.pvcs, Keys(listed))
      ensures client.s.calm && client.s.reliable && copy.vgr.selector.Some? && MayPass(old(client.w), old(copy.vgr), old(copy.base)) ==>
        && Lists(listed, Selecting(InNamespace(old(client.w).pvcs, copy.vgr.ns), copy.vgr.selector.value))
        && Passed(old(client.w), client.w, listed, secret, r)
        && client.w.vgr == copy.base && copy.base == copy.vgr
      ensures client.s.calm && client.s.reliable && copy.vgr.selector.Some? && old(client.w).vgr == old(copy.base) ==>
        && Lists(listed, Selecting(InNamespace(old(client.w).pvcs, copy.vgr.ns), copy.vgr.selector.value))
        && (Concluding(old(client.w), listed) ==>
              && Concluded(old(client.w), client.w, listed, r)
              && copy.vgr == old(copy.vgr) && copy.base == old(copy.base))
      ensures r.Failure? && r.error.StillInUse? ==> PausedFor(listed, client.w.rss, r.error)
      ensures copy.vgr.selector.None? ==> r == Failure(NoSelector) && client.w == old(client.w) && copy.vgr == old(copy.vgr)
    {
      hide PausedFor;
      hide Rely, Inv, LegalRun, Kept, Listing, Keys, Distinct, Run, AllStamped, AllDone, DoneStays, GateOpen, Referred;
      hide Relocation, ShortNames, SameSource, NoNewPods, SameClaims, Lists, DemotedEach, NoneLost, KeyNames, GroupDone, Done;
      hide Extends, StoodEach, StandingEach, RestoreAll, NoneGoing, TurnedAround, Required, Concluding, Concluded;
      TracesExtend();
      listed := [];
      ghost var w0 := client.w;
      RecordedAgain(client.s, w0, copy.vgr.status);
      var list := GetPVCList();
      ghost var w1 := client.w;
      StatusAcross(client.s, w0, w1, copy.vgr.status);
      if list.Failure? {
        return Failure(list.error), listed;
      }
      listed := list.value;
      if list.value == [] {
        NothingPassed(w0, secret, Success(After(REQUEUE_INTERVAL)));
        NothingBegins(w0);
        return Success(After(REQUEUE_INTERVAL)), listed;
      }
      var gate := ReachGate(list.value);
      ghost var w2, t2 := client.w, client.trace;
      PassIsLocal(w1, Keys(list.value));
      JustificationStays(client.s, w1, w2, copy.vgr.status);
      if gate.Failure? || gate.value.Some? {
        return if gate.Failure? then Failure(gate.error) else Success(gate.value.value), listed;
      }
      r := Demote(list.value);
      StoodEachBefore(client.s, client.start, old(client.trace), t2, client.trace, Keys(list.value));
    }
  }

  lemma CompleteMeansAllDone(s: Setting, w: World, list: seq<Item<PVC>>)
    requires Inv(s, w) && Listing(s, w, Keys(list)) && (s.relocating ==> StampedEach(w.rss, Mains(list)))
    ensures AllDone(s, w)
  {
    hide Inv, Listing, StampedEach, Mains;
    if s.relocating {
      StampedListMeansAllDone(s, w, list);
    }
  }

  /** A reconcile that finds the final sync complete, or not asked for. */
  ghost predicate Passable(w: World, vgr: VGR) {
    !Required(w, vgr) || AllStamped(w.rss, vgr.ns)
  }

  /** The same, with a copy of the VGR that is up to date. */
  ghost predicate MayPass(w: World, vgr: VGR, base: VGR) {
    Passable(w, vgr) && w.vgr == base
  }

  /**
   From `u`, where no listed claim is being deleted, to `v` the listed claims were turned into destinations: claims,
   volumes and the VGR are kept up to the status. It succeeds if no claim was lost and the secret exists, every claim
   that can be a destination is one then, and the demotion is recorded if all of them are addressed. A recorded demotion
   stays recorded.
   */
  ghost predicate TurnedAround(u: World, v: World, listed: seq<Item<PVC>>, secret: string, r: Result<Requeue>) {
    && Upkept(u, v.(vgr := u.vgr)) && v.vgr == u.vgr.(status := v.vgr.status)
    && (Servable(u, Keys(listed), secret) && NoneLost(listed) ==> r.Success?)
    && (Servable(u, Keys(listed), secret) && !NoneLost(listed) && Unchanged(u.pvcs, listed) ==> r.Failure? && r.error.LostClaim?)
    && (r.Failure? && r.error.LostClaim? ==> LostIsTold(v.pvcs, listed, r.error))
    && (r.Success? ==> ReceivedEach(u, v, Keys(listed), secret))
    && (listed != [] && NoneLost(listed) && AllReceivable(u, Keys(listed), secret) ==>
          r.Success? && v.vgr.status.state == SecondaryState && DemotedEach(v, Keys(listed)))
    && (u.vgr.status.state == SecondaryState ==> v.vgr.status.state == SecondaryState)
    && Recorded(u, v, listed, secret, r)
  }

  /**
   A success records the names of the destinations that are ready, and the demotion if all are, and comes back later. An
   empty list is left alone, and a failure leaves the status as it was.
   */
  ghost predicate Recorded(u: World, v: World, listed: seq<Item<PVC>>, secret: string, r: Result<Requeue>) {
    var all := AllReceivable(u, Keys(listed), secret);
    && (r.Failure? ==> v.vgr.status == u.vgr.status)
    && (listed == [] ==> r == Success(After(REQUEUE_INTERVAL)) && v == u)
    && (listed != [] && r.Success? ==>
          && r.value == After(if all then REQUEUE_INTERVAL else WAITING_INTERVAL)
          && v.vgr.status == Status(if all then SecondaryState else u.vgr.status.state, KeyNames(ReadyOf(u, Keys(listed), secret)), u.vgr.status.lastSync))
  }

  /**
   A reconcile from `w` to `v` restored the listed claims in one pass: it ended where the pass ended if a claim had to
   wait, and otherwise went on to turn them around.
   */
  ghost predicate Passed(w: World, v: World, listed: seq<Item<PVC>>, secret: string, r: Result<Requeue>) {
    var (u, o) := RestoreAll(w, Keys(listed));
    && (o.Failure? ==> v == u && r == Failure(o.error))
    && (o.Success? && NoneGoing(u.pvcs, Keys(listed)) ==> TurnedAround(u, v, listed, secret, r))
  }

  /** The end of a reconcile that does not go on. */
  function Ended(r: Result<Option<Requeue>>): Result<Requeue> {
    match r
    case Failure(e) => Failure(e)
    case Success(None) => Success(AtOnce)
    case Success(Some(requeue)) => Success(requeue)
  }

  /** What a completing reconcile comes to: the listed claims are restored, and if none has to wait it waits for a change of the other sources. */
  ghost predicate Completed(w: World, v: World, list: seq<Item<PVC>>, r: Result<Requeue>) {
    exists u: World :: Begun(w, u, Mains(list)) &&
      var (x, o) := RestoreAll(u, Keys(list));
      v == x && r == if o.Failure? then Failure(o.error) else Success(WhenSomethingChanges)
  }

  /** A reconcile that is about the final sync and no more. */
  ghost predicate Concluding(w: World, list: seq<Item<PVC>>) {
    list != [] && (Syncable(w, list) || Completing(w, list))
  }

  ghost predicate Concluded(w: World, v: World, list: seq<Item<PVC>>, r: Result<Requeue>) {
    (Syncable(w, list) ==> SyncedAsFar(w, v, list, r)) && (Completing(w, list) ==> Completed(w, v, list, r))
  }

  lemma CompletedThen(w: World, u: World, v: World, list: seq<Item<PVC>>, o: Outcome)
    requires Begun(w, u, Mains(list)) && (v, o) == RestoreAll(u, Keys(list)) && !AllStamped(w.rss, w.vgr.ns)
    ensures Completed(w, v, list, if o.Failure? then Failure(o.error) else Success(WhenSomethingChanges))
    ensures !AllStamped(v.rss, v.vgr.ns) && v.vgr == w.vgr
  {
    PassIsLocal(u, Keys(list));
    StampsAreTheSameThroughout(w.rss, u.rss, w.vgr.ns);
    hide RestoreAll, Keys, Mains, AllStamped, StandInsAdded, SameStamps, StoodIn, AllInFinalSync, TriggeredIn;
    assert u.vgr == w.vgr;
    hide Begun;
  }

  lemma ConcludedIsLocal(w: World, v: World, list: seq<Item<PVC>>, r: Result<Requeue>)
    requires Concluding(w, list) && Concluded(w, v, list, r)
    ensures v.vgr == w.vgr
  {
    hide Syncable, SyncedAsFar, Completing, RestoreAll, Keys, Mains;
    if Syncable(w, list) {
      SyncIsLocal(w, v, list, r);
    } else {
      var u: World :| Begun(w, u, Mains(list)) && v == RestoreAll(u, Keys(list)).0;
      PassIsLocal(u, Keys(list));
      hide StandInsAdded, SameStamps, StoodIn, AllInFinalSync, TriggeredIn;
    }
  }

  lemma NothingBegins(w: World)
    ensures !Concluding(w, [])
  {
  }

  lemma NothingPassed(w: World, secret: string, r: Result<Requeue>)
    requires r == Success(After(REQUEUE_INTERVAL))
    ensures Passed(w, w, [], secret, r) && RestoreAll(w, Keys<PVC>([])).1 == OK
  {
  }

  /** Each of the claims existed and was not being deleted in some state between the two traces. */
  ghost predicate StoodEach(s: Setting, start: World, t: seq<Step>, u: seq<Step>, keys: seq<Key>) {
    forall k :: k in keys ==> Stood(s, start, t, u, k)
  }

  lemma StartOfStanding(s: Setting, start: World, t: seq<Step>, w: World)
    ensures StoodEach(s, start, t, t, []) && StandingEach(w.pvcs, []) && Upkept(w, w)
    ensures forall secret :: ReceivedEach(w, w, [], secret)
  {
  }

  lemma StoodEachStays(s: Setting, start: World, t: seq<Step>, u: seq<Step>, v: seq<Step>, keys: seq<Key>)
    requires StoodEach(s, start, t, u, keys) && Extends(u, v)
    ensures StoodEach(s, start, t, v, keys)
  {
    hide Stood, Extends;
    forall k | k in keys
      ensures Stood(s, start, t, v, k)
    {
      StoodStays(s, start, t, u, v, k);
    }
  }

  lemma StoodEachBefore(s: Setting, start: World, t: seq<Step>, u: seq<Step>, v: seq<Step>, keys: seq<Key>)
    requires Extends(t, u)
    ensures StoodEach(s, start, u, v, keys) ==> StoodEach(s, start, t, v, keys)
  {
  }

  lemma StoodBetween(s: Setting, start: World, t: seq<Step>, u: seq<Step>, v: seq<Step>, w: World, keys: seq<Key>, k: Key)
    requires StoodEach(s, start, t, v, keys) && Extends(t, u) && Extends(u, v) && w == Run(s, start, u) && Standing(w.pvcs, k)
    ensures StoodEach(s, start, t, v, keys + [k])
  {
    assert v[..|u|] == u;
    hide Run, Standing;
    assert Stood(s, start, t, v, k);
  }

  lemma OneMoreStanding(pvcs: ClaimMap, keys: seq<Key>, k: Key)
    requires Standing(pvcs, k)
    ensures StandingEach(pvcs, keys) ==> StandingEach(pvcs, keys + [k])
  {
  }

  lemma {:induction false} NextIsUpkept(w: World, v: World, list: seq<Item<PVC>>, i: nat, owner: VGR, secret: string)
    requires i < |list| && NoneGoing(w.pvcs, Keys(list)) && Upkept(w, v) && owner.name == w.vgr.name && owner.ns == w.vgr.ns
    ensures var u := AsDestination(v, owner, list[i].key, secret);
      && Upkept(w, u)
      && (ReceivedEach(w, v, Keys(list[..i]), secret) ==> ReceivedEach(w, u, Keys(list[..i]) + [list[i].key], secret))
  {
    KeysAreListed(list);
    var k, u := list[i].key, AsDestination(v, owner, list[i].key, secret);
    assert k == Keys(list)[i] && Keys(list)[i] in Keys(list);
    hide Keys;
    UpkeptIsReceivable(w, v, k, secret);
    hide AsDestination, Receivable, Going, NoneGoing;
    DestinationIsUpkept(w, v, owner, k, secret);
    TurnedStay(v, owner, k, secret);
    hide Turned, Upkept;
  }

  lemma UpkeptIsReceivable(w: World, v: World, k: Key, secret: string)
    requires Upkept(w, v)
    ensures Receivable(v, k, secret) == Receivable(w, k, secret) && Going(v.pvcs, k) == Going(w.pvcs, k)
  {
    hide Fewer, Grown;
  }

  lemma TurnedStay(w: World, owner: VGR, k: Key, secret: string)
    requires !Going(w.pvcs, k) && owner.name == w.vgr.name && owner.ns == w.vgr.ns
    ensures var v := AsDestination(w, owner, k, secret);
      (forall j :: Turned(w, j) && j != k ==> Turned(v, j)) && (Receivable(w, k, secret) || Turned(w, k) ==> Turned(v, k))
  {
    DestinationLeavesClaims(w, owner, k, secret);
    var v := AsDestination(w, owner, k, secret);
    hide AsDestination, Receivable, Going;
    forall j | Turned(w, j) && j != k
      ensures Turned(v, j)
    {
      ProtectionKeepsOthers(w.pvcs, k, j);
      hide Destination, Protected, Writes;
    }
    if Turned(w, k) {
      DestinationWrites(Found(w.rds, k), owner, k);
      ClaimIsProtected(w.pvcs, k);
      hide Destination, Protected, Writes;
    }
  }

  lemma ProtectionKeepsOthers(pvcs: ClaimMap, k: Key, j: Key)
    requires j != k && j in pvcs
    ensures j in Protected(pvcs, k) && Protected(pvcs, k)[j] == pvcs[j]
  {
  }

  ghost predicate NoneLost(list: seq<Item<PVC>>) {
    forall x :: x in list ==> !x.value.phase.Lost?
  }

  /** The listed claims in phase Lost are as they were when they were listed. */
  ghost predicate Unchanged(pvcs: ClaimMap, list: seq<Item<PVC>>) {
    forall x :: x in list && x.value.phase.Lost? ==> x.key in pvcs && pvcs[x.key] == x.value
  }

  /** The error names a listed claim in phase Lost that has been told to bind again. */
  ghost predicate LostIsTold(pvcs: ClaimMap, list: seq<Item<PVC>>, error: Error) {
    exists x :: x in list && x.value.phase.Lost? && error == LostClaim(x.key.name) &&
      (BindCompleted in x.value.annotations ==> x.key in pvcs && BindCompleted !in pvcs[x.key].annotations)
  }

  lemma ListedIsTold(pvcs: ClaimMap, list: seq<Item<PVC>>, i: nat)
    requires i < |list| && list[i].value.phase.Lost?
    requires BindCompleted in list[i].value.annotations ==> list[i].key in pvcs && BindCompleted !in pvcs[list[i].key].annotations
    ensures LostIsTold(pvcs, list, LostClaim(list[i].key.name))
  {
    assert list[i] in list;
  }

  lemma NextIsUnchanged(pvcs: ClaimMap, list: seq<Item<PVC>>, i: nat)
    requires i < |list|
    ensures Unchanged(pvcs, list[i..]) && list[i].value.phase.Lost? ==> list[i].key in pvcs && pvcs[list[i].key] == list[i].value
  {
    assert list[i..][0] == list[i];
  }

  lemma {:induction false} RestIsUnchanged(w: World, v: World, list: seq<Item<PVC>>, i: nat, owner: VGR, secret: string)
    requires i < |list| && Distinct(list) && NoneGoing(w.pvcs, Keys(list)) && Upkept(w, v) && Unchanged(v.pvcs, list[i..])
    ensures Unchanged(AsDestination(v, owner, list[i].key, secret).pvcs, list[i + 1..])
  {
    KeysAreListed(list);
    assert Keys(list)[i] == list[i].key && Keys(list)[i] in Keys(list);
    hide Keys;
    assert !Going(w.pvcs, list[i].key) && !Going(v.pvcs, list[i].key);
    DestinationLeavesClaims(v, owner, list[i].key, secret);
    LaterKeysDiffer(list, i);
    hide AsDestination, Going, Distinct;
    assert forall x :: x in list[i + 1..] ==> x in list[i..];
    forall x | x in list[i + 1..] && x.value.phase.Lost?
      ensures x.key in Protected(v.pvcs, list[i].key) && Protected(v.pvcs, list[i].key)[x.key] == x.value
    {
      ProtectionKeepsOthers(v.pvcs, list[i].key, x.key);
    }
    hide Protected;
  }

  /** The claims still to be handled are as receivable as they were. */
  ghost predicate Independent(w: World, v: World, list: seq<Item<PVC>>, secret: string) {
    forall x :: x in list ==>
      Receivable(v, x.key, secret) == Receivable(w, x.key, secret) &&
      (x.key.name.App? ==> Addressable(v, x.key) == Addressable(w, x.key))
  }

  lemma StartOfDestinations(s: Setting, w: World, list: seq<Item<PVC>>, secret: string)
    ensures Demoting(s, w, w) && KeyNames([]) == [] && DemotedEach(w, []) && Keys(list[..0]) == [] && NoneLost(list[..0])
    ensures ReceivedSoFar(w, w, list, 0, [], true, secret)
  {
    assert list[0..] == list && Keys(list[..0]) == [];
    StartOfStanding(s, w, [], w);
    hide Receivable, Addressable, Turned, Upkept;
  }

  lemma NextListed(list: seq<Item<PVC>>, i: nat)
    requires i < |list| && Distinct(list)
    ensures Keys(list[..i + 1]) == Keys(list[..i]) + [list[i].key] && list[i].key !in Keys(list[..i])
    ensures |Keys(list[..i])| == i
    ensures NoneLost(list[..i]) && !list[i].value.phase.Lost? ==> NoneLost(list[..i + 1])
  {
    assert list[..i + 1][..i] == list[..i] && list[..i + 1] == list[..i] + [list[i]];
    KeysAreListed(list[..i]);
  }

  lemma NextListedKey(list: seq<Item<PVC>>, i: nat)
    requires i < |list|
    ensures |Keys(list)| == |list| && Keys(list)[i] == list[i].key
  {
    KeysAreListed(list);
  }

  /** The first `i` claims of the list were received, without interference or faults. */
  ghost predicate ReceivedSoFar(w: World, v: World, list: seq<Item<PVC>>, i: nat, ready: seq<Key>, allReady: bool, secret: string)
    requires i <= |list|
  {
    && v.vgr == w.vgr && ready == ReadyOf(w, Keys(list[..i]), secret) && Independent(w, v, list[i..], secret)
    && (allReady <==> AllReceivable(w, Keys(list[..i]), secret))
    && (NoneGoing(w.pvcs, Keys(list)) ==>
          && Upkept(w, v) && ReceivedEach(w, v, Keys(list[..i]), secret)
          && (Unchanged(w.pvcs, list) ==> Unchanged(v.pvcs, list[i..])))
  }

  /**
   What the reception of the listed claims comes to without interference or faults: who is ready, and if none of them is
   being deleted what is kept, that every claim that can be received is, and when it succeeds.
   */
  ghost predicate ReceivedAll(w: World, v: World, list: seq<Item<PVC>>, ready: seq<Key>, secret: string, r: Result<(seq<Name>, bool)>) {
    && v.vgr == w.vgr
    && (r.Success? && r.value.1 <==> AllReceivable(w, Keys(list), secret) && NoneLost(list))
    && (r.Success? ==> ready == ReadyOf(w, Keys(list), secret))
    && (NoneGoing(w.pvcs, Keys(list)) ==>
          && Upkept(w, v) && (r.Success? ==> ReceivedEach(w, v, Keys(list), secret))
          && (Servable(w, Keys(list), secret) ==>
                if NoneLost(list) then r.Success? else Unchanged(w.pvcs, list) ==> r.Failure? && r.error.LostClaim?))
  }

  lemma NextIsReceived(w: World, v: World, list: seq<Item<PVC>>, i: nat, ready: seq<Key>, allReady: bool, owner: VGR, secret: string)
    requires i < |list| && Distinct(list) && ReceivedSoFar(w, v, list, i, ready, allReady, secret)
    requires owner.name == w.vgr.name && owner.ns == w.vgr.ns
    ensures var k := list[i].key;
      var ok := Receivable(v, k, secret) && Addressable(v, k);
      ReceivedSoFar(w, AsDestination(v, owner, k, secret), list, i + 1, if ok then ready + [k] else ready, allReady && ok, secret)
  {
    var k := list[i].key;
    NextListed(list, i);
    NextIsIndependent(w, v, list, i, owner, secret);
    NextReady(w, Keys(list[..i]), k, secret);
    DestinationKeepsGroup(v, owner, k, secret);
    if NoneGoing(w.pvcs, Keys(list)) {
      NextIsUpkept(w, v, list, i, owner, secret);
      if Unchanged(v.pvcs, list[i..]) {
        RestIsUnchanged(w, v, list, i, owner, secret);
      }
    }
    hide AsDestination, Receivable, Addressable, Upkept, ReceivedEach, Unchanged, NoneGoing, Independent, ReadyOf, AllReceivable, Keys, Distinct, NoneLost;
  }

  lemma FailureEndsIt(w: World, v: World, x: World, list: seq<Item<PVC>>, i: nat, ready: seq<Key>, allReady: bool, owner: VGR, secret: string, r: Result<(seq<Name>, bool)>)
    requires i < |list| && Distinct(list) && ReceivedSoFar(w, v, list, i, ready, allReady, secret) && !list[i].value.phase.Lost? && NoneLost(list[..i])
    requires owner.name == w.vgr.name && owner.ns == w.vgr.ns
    requires var k := list[i].key;
      x == AsDestination(v, owner, k, secret) && r.Failure? && !Receivable(v, k, secret) && k.name.App? &&
      !(Standing(v.pvcs, k) && (k.ns, secret) in v.secrets)
    ensures ReceivedAll(w, x, list, ready, secret, r)
  {
    NextIsReceived(w, v, list, i, ready, allReady, owner, secret);
    NextIsIndependent(w, v, list, i, owner, secret);
    NextListedKey(list, i);
    hide AsDestination, Receivable, Addressable, ReceivedEach, Unchanged, Independent, ReadyOf, AllReceivable, Keys, Distinct;
    if NoneGoing(w.pvcs, Keys(list)) && Servable(w, Keys(list), secret) {
      ServedNext(w, v, Keys(list), i, secret);
    }
    hide Upkept, Standing, Going, NoneGoing, Servable, NoneLost;
  }

  lemma LostEndsIt(w: World, v: World, x: World, list: seq<Item<PVC>>, i: nat, ready: seq<Key>, allReady: bool, secret: string, o: Outcome, r: Result<(seq<Name>, bool)>)
    requires i < |list| && ReceivedSoFar(w, v, list, i, ready, allReady, secret) && list[i].value.phase.Lost? && Upkept(v, x)
    requires list[i].key in v.pvcs && v.pvcs[list[i].key] == list[i].value ==> o.Success?
    requires r == Failure(if o.Failure? then o.error else LostClaim(list[i].key.name))
    ensures ReceivedAll(w, x, list, ready, secret, r)
  {
    LostIsLost(list, i);
    NextIsUnchanged(v.pvcs, list, i);
    assert x.vgr == v.vgr;
    hide Receivable, Addressable, ReceivedEach, Unchanged, Independent, ReadyOf, AllReceivable, Keys, NoneLost, Servable;
    if NoneGoing(w.pvcs, Keys(list)) {
      UpkeptIsTransitive(w, v, x);
    }
    hide Upkept, NoneGoing;
  }

  lemma AllAreReceived(w: World, v: World, list: seq<Item<PVC>>, ready: seq<Key>, names: seq<Name>, allReady: bool, secret: string)
    requires ReceivedSoFar(w, v, list, |list|, ready, allReady, secret) && NoneLost(list)
    ensures ReceivedAll(w, v, list, ready, secret, Success((names, allReady)))
  {
    assert list[..|list|] == list;
    hide Upkept, Receivable, Addressable, ReceivedEach, Unchanged, Independent, ReadyOf, AllReceivable, Keys, NoneLost, Servable, NoneGoing;
  }

  lemma LostIsLost(list: seq<Item<PVC>>, i: nat)
    requires i < |list| && list[i].value.phase.Lost?
    ensures !NoneLost(list)
  {
    assert list[i] in list;
  }

  lemma GroupAcross(s: Setting, w: World, v: World)
    requires Demoting(s, w, v)
    ensures SameGroup(w.vgr, v.vgr) && (s.relocating ==> v.vrgs == w.vrgs)
  {
  }

  lemma StillIndependent(w: World, v: World, list: seq<Item<PVC>>, i: nat, owner: VGR, secret: string)
    requires i < |list| && Distinct(list) && Independent(w, v, list[i..], secret)
    ensures Independent(w, AsDestination(v, owner, list[i].key, secret), list[i + 1..], secret)
  {
    hide AsDestination, Receivable, Addressable;
    var k := list[i].key;
    forall x | x in list[i + 1..]
      ensures Receivable(AsDestination(v, owner, k, secret), x.key, secret) == Receivable(w, x.key, secret)
      ensures x.key.name.App? ==> Addressable(AsDestination(v, owner, k, secret), x.key) == Addressable(w, x.key)
    {
      var j :| i + 1 <= j < |list| && list[j] == x;
      assert list[i..][j - i] == x;
      if x.key.name.App? {
        OthersAreIndependent(v, owner, x.key, k, secret);
      } else {
        StandInsAreNotReceivable(v, w, AsDestination(v, owner, k, secret), x.key, secret);
      }
    }
  }

  lemma StandInsAreNotReceivable(u: World, v: World, w: World, k: Key, secret: string)
    requires k.name.Tmp?
    ensures !Receivable(u, k, secret) && !Receivable(v, k, secret) && !Receivable(w, k, secret)
  {
  }

  lemma NextIsIndependent(w: World, v: World, list: seq<Item<PVC>>, i: nat, owner: VGR, secret: string)
    requires i < |list| && Distinct(list) && Independent(w, v, list[i..], secret)
    ensures var k := list[i].key;
      && Independent(w, AsDestination(v, owner, k, secret), list[i + 1..], secret)
      && (Receivable(v, k, secret) ==> (Addressable(v, k) <==> Addressable(w, k)))
      && (Receivable(v, k, secret) <==> Receivable(w, k, secret))
      && (AllReceivable(w, Keys(list[..i]) + [k], secret) <==>
            AllReceivable(w, Keys(list[..i]), secret) && Receivable(v, k, secret) && Addressable(v, k))
    ensures !Receivable(v, list[i].key, secret) ==> !AllReceivable(w, Keys(list), secret)
  {
    hide AsDestination, Distinct, Addressable;
    StillIndependent(w, v, list, i, owner, secret);
    assert list[i..][0] == list[i];
    assert Receivable(v, list[i].key, secret) == Receivable(w, list[i].key, secret);
    KeysAreListed(list);
    assert Keys(list)[i] == list[i].key;
    OneMoreReceivable(w, Keys(list[..i]), list[i].key, secret);
  }

  lemma OneMoreReceivable(w: World, keys: seq<Key>, k: Key, secret: string)
    ensures AllReceivable(w, keys + [k], secret) <==>
      AllReceivable(w, keys, secret) && Receivable(w, k, secret) && Addressable(w, k)
  {
    hide Receivable, Addressable;
    assert forall j :: j in keys + [k] <==> j in keys || j == k;
  }

  lemma SourcesAfterStatus(s: Setting, w: World, g: VGR, v: World, status: Status)
    requires Inv(s, w) && Steady(s, w.(vgr := g), v) && (w.vgr.deleting ==> g.deleting)
    ensures Justified(s, w, status) ==> Justified(s, v, status)
    ensures Steady(s, w.(vgr := v.vgr), v)
  {
    if Justified(s, w, status) {
      DoneStaysAcrossStatus(s, w, g, v);
    }
    hide NoNewPods, SameSource;
  }

  lemma DoneStaysAcrossStatus(s: Setting, w: World, g: VGR, v: World)
    requires Inv(s, w) && Steady(s, w.(vgr := g), v) && (w.vgr.deleting ==> g.deleting)
    ensures DoneStays(s, w, v)
  {
    hide Exclusive, Guarded, Claims, Lossless, Frozen, KeptUntilDone, Selected, AppPods, Relocation, StoreWellFormed, NoNewPods, PlainStandIns;
  }

  lemma StatusAcross(s: Setting, w: World, v: World, status: Status)
    requires Inv(s, w) && Steady(s, w, v)
    ensures Justified(s, w, status) ==> Justified(s, v, status)
  {
    hide Inv, Justified, DoneStays;
    SteadyIsDemoting(s, w, v);
    DoneStaysDemoting(s, w, v);
    JustificationStays(s, w, v, status);
  }

  lemma DemotionAcross(s: Setting, w: World, v: World, keys: seq<Key>, status: Status)
    requires Inv(s, w) && Demoting(s, w, v) && Listing(s, w, keys)
    ensures Listing(s, v, keys) && (Justified(s, w, status) ==> Justified(s, v, status))
  {
    hide Inv, Listing, DoneStays, Justified;
    DoneStaysDemoting(s, w, v);
    ListingStays(s, w, v, keys);
    JustificationStays(s, w, v, status);
  }

  lemma GateAfterStatus(s: Setting, w: World, v: World)
    requires Inv(s, w) && GateOpen(s, w) && Steady(s, w.(vgr := v.vgr), v)
    requires v.vgr.ns == w.vgr.ns && (w.vgr.deleting ==> v.vgr.deleting)
    requires w.vgr.status.state == SecondaryState ==> v.vgr.status.state == SecondaryState
    ensures GateOpen(s, v)
  {
    hide Exclusive, Guarded, Claims, Lossless, Frozen, KeptUntilDone, Selected, AppPods, Relocation, StoreWellFormed;
  }
}
