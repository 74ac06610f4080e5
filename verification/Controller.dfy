/** The reconcile of a VGR, and the operator at work in its environment. */
module Controller {

  import opened Names
  import opened Objects
  import opened System
  import opened Protocol
  import opened Api
  import opened RoundTrip
  import opened Demotion
  import opened Cleanup
  import opened SyncSteps
  import opened Handler
  import opened SecondarySide
  import opened Convergence
  import opened Progress
  import opened Replication
  import opened PrimarySide
  import opened DeletionSide
  import opened Wrappers

  /** What the VGR's class configures. */
  datatype Config = Config(secret: string, interval: string)

  class VGRReconciler {
    const client: Cluster
    const config: Config

    constructor (client: Cluster, config: Config)
      ensures this.client == client && this.config == config
    {
      this.client := client;
      this.config := config;
    }

    /** Cleans up behind a VGR that is being deleted, keeps the finalizer on any other, and reconciles it by its role. */
    method Reconcile() returns (r: Result<Requeue>, ghost listed: seq<Item<PVC>>, ghost protected: seq<Key>)
      requires client.Valid() && Referred(client.s, client.w)
      modifies client
      ensures client.Valid() && Referred(client.s, client.w)
      // the finalizer comes first
      ensures !old(client.w).vgr.deleting && !old(client.w).vgr.finalizer && r.Success? ==>
        r.value == AtOnce && client.w.vgr.finalizer
      ensures client.s.calm && client.s.reliable && !old(client.w).vgr.deleting && !old(client.w).vgr.finalizer ==>
        r == Success(AtOnce) && client.w == old(client.w).(vgr := old(client.w).vgr.(finalizer := true))
      // deletion
      ensures old(client.w).vgr.deleting && r.Success? ==>
        !client.w.vgr.finalizer && NothingOwned(client.w.vgr, client.w.rss, client.w.rds)
      ensures old(client.w).vgr.deleting ==>
        WroteByRole(old(client.w).vgr, old(client.trace), client.trace, listed) && forall x :: x in listed ==> OwnedBy(old(client.w).vgr.name, x.value.labels)
      ensures client.s.calm && old(client.w).vgr.deleting ==> CleanedUpOnly(old(client.w), client.w, listed)
      ensures client.s.calm && old(client.w).vgr.deleting && old(client.w).vgr.finalizer && r.Success? ==>
        WoundUp(old(client.w).vgr, old(client.w), client.w, listed)
      ensures old(client.w).vgr.deleting ==> OwnedSourcesLeft(old(client.w).vgr, old(client.w).rss, client.w.rss)
      ensures client.s.calm && client.s.reliable && old(client.w).vgr.deleting ==>
        && r == Success(WhenSomethingChanges)
        && if old(client.w).vgr.finalizer then Finished(old(client.w).vgr, old(client.w), client.w, listed) else client.w == old(client.w)
      // as secondary
      ensures client.s.calm && client.s.reliable && ActsAsSecondary(old(client.w).vgr) ==>
        && Lists(listed, Selecting(InNamespace(old(client.w).pvcs, old(client.w).vgr.ns), old(client.w).vgr.selector.value))
        && (Passable(old(client.w), old(client.w).vgr) ==> Passed(old(client.w), client.w, listed, config.secret, r))
        && (Concluding(old(client.w), listed) ==> Concluded(old(client.w), client.w, listed, r))
      ensures ActsAsSecondary(old(client.w).vgr) && r.Failure? && r.error.StillInUse? ==> PausedFor(listed, client.w.rss, r.error)
      ensures client.s.calm && client.s.reliable && ActsWithoutSelector(old(client.w).vgr) ==> r == Failure(NoSelector) && client.w == old(client.w)
      // as primary
      ensures ActsAsPrimary(old(client.w).vgr) ==>
        PromotedInTime(client.s, client.start, old(client.trace), client.trace, old(client.w), client.w, old(client.w).vgr, listed, protected, config.secret, config.interval, r)
      // as neither
      ensures client.s.calm && client.s.reliable && ActsAsNeither(old(client.w).vgr) ==>
        r == Success(WhenSomethingChanges) && client.w == old(client.w)
    {
      hide PausedFor;
      hide Inv, LegalRun, Run, Rely, SameSources, SameDestinations, NoNewPods, Kept, Referred, Relocation, Legal, NothingOwned, Lists, Passed, Passable, Concluding, Concluded;
      hide Idled, Took, Extends, WroteByRole, CleanedUp, WoundUp, OwnedSourcesLeft, OwnedDestinationsLeft, Finished, Halted, Replicated, Promoted, AllSendable, AllPaused, SecondaryVRG, PromotedInTime;
      TracesExtend();
      listed, protected := [], [];
      ghost var w0, t0 := client.w, client.trace;
      NothingWithoutFinalizer(client.s, w0);
      NothingIsCleanedUp(w0);
      var got := client.GetVGR();
      ghost var w1, t1 := client.w, client.trace;
      NothingOwnedSteady(client.s, w0, w1);
      ReadingWroteByRole(w0.vgr, t0, t1);
      ReadingLeavesSources(client.s, w0, w1);
      if got.Failure? {
        if !client.s.reliable {
          FailedToPromote(client.s, client.start, t0, t1, w0, w1, w0.vgr, config.secret, config.interval, got.error);
        }
        return if got.error == NotFound then Success(WhenSomethingChanges) else Failure(got.error), listed, protected;
      }
      var vgr := got.value;
      var vsHandler := new VSHandler(client, vgr, config.interval);
      if vgr.deleting {
        var reconciler := new DeleteReconciler(client, vgr, vsHandler);
        var o;
        o, listed := reconciler.Reconcile();
        RoleWroteMore(vgr, t0, t1, listed);
        RoleWroteBoth(vgr, t0, t1, client.trace, listed);
        SourcesLeftIsTransitive(vgr, w0.rss, w1.rss, client.w.rss);
        return if o.Failure? then Failure(o.error) else Success(WhenSomethingChanges), listed, protected;
      }
      if !vgr.finalizer {
        MayAddFinalizer(client.s, w1, vgr);
        var o := client.UpdateFinalizer(vgr, true);
        FinalizerStays(client.s, vgr, client.w, o.Success?);
        return if o.Failure? then Failure(o.error) else Success(AtOnce), listed, protected;
      }
      RelocationIsKnown(client.s, w0, w1, vgr);
      r, listed, protected := ReconcileByRole(vgr, vsHandler);
      if vgr.role.Primary? {
        PromotedEarlier(client.s, client.start, t0, t1, client.trace, w0, w1, client.w, vgr, listed, protected, config.secret, config.interval, r);
      }
    }

    /**
     Reconciles by role. The recorded state changes only to that of the role, and to secondary only with every listed
     claim demoted.
     */
    method ReconcileByRole(vgr: VGR, vsHandler: VSHandler) returns (r: Result<Requeue>, ghost listed: seq<Item<PVC>>, ghost protected: seq<Key>)
      requires client.Valid() && Referred(client.s, client.w)
      requires SameGroup(vgr, client.w.vgr) && !vgr.deleting && vgr.finalizer
      requires vsHandler.client == client && vsHandler.owner == vgr && vsHandler.interval == config.interval
      requires client.s.relocating ==> Relocation(vgr, client.w.vrgs)
      modifies client
      ensures Extends(old(client.trace), client.trace)
      ensures client.Valid() && Referred(client.s, client.w)
      ensures client.w.vgr.status.state != vgr.status.state ==>
        (vgr.role.Primary? && client.w.vgr.status.state == PrimaryState) || (vgr.role.Secondary? && DemotionRecorded(client.s, client.w, listed))
      ensures client.s.calm && client.s.reliable && old(client.w).vgr == vgr && ActsAsSecondary(vgr) ==>
        && Lists(listed, Selecting(InNamespace(old(client.w).pvcs, vgr.ns), vgr.selector.value))
        && (Passable(old(client.w), vgr) ==> Passed(old(client.w), client.w, listed, config.secret, r))
        && (Concluding(old(client.w), listed) ==> Concluded(old(client.w), client.w, listed, r))
      ensures vgr.role.Primary? ==>
        PromotedInTime(client.s, client.start, old(client.trace), client.trace, old(client.w), client.w, vgr, listed, protected, config.secret, config.interval, r)
      ensures vgr.role.UnknownRole? ==> r == Success(WhenSomethingChanges) && client.w == old(client.w)
      ensures vgr.role.Secondary? && r.Failure? && r.error.StillInUse? ==> PausedFor(listed, client.w.rss, r.error)
      ensures client.s.calm && client.s.reliable && old(client.w).vgr == vgr && vgr.selector.None? && vgr.role.Secondary? ==>
        r == Failure(NoSelector) && client.w == old(client.w)
    {
      hide PausedFor;
      hide Inv, LegalRun, Run, Rely, SameSources, SameDestinations, NoNewPods, Kept, Referred, Relocation, Lists, Passed, Passable, Concluding, Concluded;
      hide PromotedInTime, DemotionRecorded, Extends;
      TracesExtend();
      listed, protected := [], [];
      match vgr.role {
        case Primary =>
          r, listed, protected := ReconcileAsPrimary(vgr, vsHandler);
        case Secondary =>
          r, listed := ReconcileAsSecondary(vgr, vsHandler);
        case UnknownRole =>
          r := Success(WhenSomethingChanges);
      }
    }

    /** Writes the status that a reconcile has left in memory. */
    method WriteStatus(copy: GroupCopy) returns (o: Outcome)
      requires client.Valid() && LegalStatus(client.s, client.w, copy.vgr.status)
      modifies client
      ensures Extends(old(client.trace), client.trace)
      ensures client.Valid() && (Referred(client.s, old(client.w)) ==> Referred(client.s, client.w))
      ensures Steady(client.s, old(client.w).(vgr := client.w.vgr), client.w) && Kept(old(client.w).pvcs, client.w.pvcs)
      ensures client.w.vgr.name == old(client.w).vgr.name && client.w.vgr.ns == old(client.w).vgr.ns
      ensures client.w.vgr.status == if o.Success? then copy.vgr.status else old(client.w).vgr.status
      ensures client.s.calm ==>
        client.w == if o.Success? then old(client.w).(vgr := old(client.w).vgr.(status := copy.vgr.status)) else old(client.w)
      ensures o.Success? ==> old(client.w).vgr == copy.base
      ensures client.s.reliable && old(client.w).vgr == copy.base ==> o.Success?
      ensures client.s.calm && client.s.reliable && old(client.w).vgr == copy.base && copy.base == copy.vgr ==> client.w == old(client.w)
      ensures o.Failure? ==> o.error.OfCall()
    {
      hide Inv, LegalRun, Run, Rely, SameSources, SameDestinations, NoNewPods, Kept, Referred, LegalStatus;
      ghost var w0 := client.w;
      o := client.UpdateStatus(copy.base, copy.vgr.status);
      assert w0.(vgr := w0.vgr) == w0;
    }

    /** As primary, and then writes the status that the reconcile has left in memory. */
    method ReconcileAsPrimary(vgr: VGR, vsHandler: VSHandler) returns (r: Result<Requeue>, ghost listed: seq<Item<PVC>>, ghost protected: seq<Key>)
      requires client.Valid() && Referred(client.s, client.w)
      requires SameGroup(vgr, client.w.vgr) && !vgr.deleting && vgr.finalizer
      requires vsHandler.client == client && vsHandler.owner == vgr && vsHandler.interval == config.interval
      requires client.s.relocating ==> Relocation(vgr, client.w.vrgs)
      modifies client
      ensures Extends(old(client.trace), client.trace)
      ensures client.Valid() && Referred(client.s, client.w)
      ensures client.w.vgr.status.state != vgr.status.state ==> client.w.vgr.status.state == PrimaryState
      ensures PromotedInTime(client.s, client.start, old(client.trace), client.trace, old(client.w), client.w, vgr, listed, protected, config.secret, config.interval, r)
    {
      hide Inv, LegalRun, Run, Rely, SameSources, NoNewPods, Kept, Referred, Relocation, PausesStay, KeyNames;
      hide PromotedInTime, AllPaused, SecondaryVRG, Extends, Took;
      TracesExtend();
      ghost var w0, t0 := client.w, client.trace;
      var copy := new GroupCopy(client, vgr);
      var reconciler := new PrimaryReconciler(client, copy, vsHandler, config.secret);
      r, listed, protected := reconciler.Reconcile();
      ghost var w1, t1, q := client.w, client.trace, r;
      JustifiedIsLegal(client.s, client.w, copy.vgr.status);
      var o := WriteStatus(copy);
      if o.Failure? {
        r := Failure(o.error);
      }
      PromotedAcrossStatus(client.s, client.start, t0, t1, client.trace, w0, w1, client.w, vgr, listed, protected, config.secret, config.interval, q, r);
    }

    /** As secondary, and then writes the status that the reconcile has left in memory. */
    method ReconcileAsSecondary(vgr: VGR, vsHandler: VSHandler) returns (r: Result<Requeue>, ghost listed: seq<Item<PVC>>)
      requires client.Valid() && Referred(client.s, client.w)
      requires SameGroup(vgr, client.w.vgr) && !vgr.deleting && vgr.finalizer
      requires vsHandler.client == client && vsHandler.owner == vgr
      requires client.s.relocating ==> Relocation(vgr, client.w.vrgs)
      modifies client
      ensures Extends(old(client.trace), client.trace)
      ensures client.Valid() && Referred(client.s, client.w)
      ensures client.w.vgr.status.state != vgr.status.state ==> DemotionRecorded(client.s, client.w, listed)
      ensures client.s.calm && client.s.reliable && old(client.w).vgr == vgr && ActsAsSecondary(vgr) ==>
        && Lists(listed, Selecting(InNamespace(old(client.w).pvcs, vgr.ns), vgr.selector.value))
        && (Passable(old(client.w), vgr) ==> Passed(old(client.w), client.w, listed, config.secret, r))
        && (Concluding(old(client.w), listed) ==> Concluded(old(client.w), client.w, listed, r))
      ensures r.Failure? && r.error.StillInUse? ==> PausedFor(listed, client.w.rss, r.error)
      ensures client.s.calm && client.s.reliable && old(client.w).vgr == vgr && vgr.selector.None? ==>
        r == Failure(NoSelector) && client.w == old(client.w)
    {
      hide PausedFor;
      hide Inv, LegalRun, Run, Rely, SameSources, SameDestinations, NoNewPods, Kept, Referred, Relocation, DemotedEach, Lists, AllPaused, PausesStay;
      hide Concluding, Concluded;
      hide Passed, Passable, NoneLost, StandingEach, StoodEach, RestoreAll, KeyNames, Keys, Extends, Selecting, InNamespace, Took;
      hide Steady, Justified, LegalStatus, GateOpen, GroupDone;
      TracesExtend();
      ghost var w0 := client.w;
      var copy := new GroupCopy(client, vgr);
      var reconciler := new SecondaryReconciler(client, copy, vsHandler, config.secret);
      r, listed := reconciler.Reconcile();
      ghost var w1, q := client.w, r;
      if client.s.calm && client.s.reliable && w0.vgr == vgr && ActsAsSecondary(vgr) && Concluding(w0, listed) {
        ConcludedIsLocal(w0, w1, listed, q);
      }
      JustifiedIsLegal(client.s, client.w, copy.vgr.status);
      var o := WriteStatus(copy);
      if o.Failure? {
        r := Failure(o.error);
      }
      DemotionStaysRecorded(client.s, w1, client.w, Keys(listed));
      if q.Failure? {
        PausedAcrossStatus(client.s, w1, client.w, listed, q.error);
      }
    }

    /**
     The operator called again and again while nothing else happens. With K claims of the set terminating, K reconciles
     end with an error that a claim has to wait; the one after them leaves no stand-in and every claim that had one back
     with its volume.
     */
    method ReconcileUntilRestored(ghost all: set<Key>, rounds: nat) returns (results: seq<Result<Requeue>>)
      requires client.Valid() && Referred(client.s, client.w) && client.s.calm && client.s.reliable
      requires Restoring(all, client.w) && rounds == |WaitingOf(all, client.w.pvcs)| + 1
      modifies client
      ensures client.Valid() && Referred(client.s, client.w)
      ensures |results| == rounds
      ensures forall i :: 0 <= i < rounds - 1 ==> results[i].Failure? && results[i].error.WaitingForDeletion?
      ensures Fit(old(client.w), config.secret) ==> results[rounds - 1].Success?
      ensures NoneStandsIn(all, client.w.pvcs)
      ensures forall k :: k in all && TmpOf(k) in old(client.w).pvcs ==>
        Back(client.w, k, old(client.w).pvcs[TmpOf(k)].volumeName)
      ensures StillRestoring(all, old(client.w), client.w, config.secret) && WaitingOf(all, client.w.pvcs) == {}
    {
      hide CleanedUpOnly, WoundUp, Finished, WroteByRole, PromotedInTime, OwnedSourcesLeft, PausedFor, Extends;
      hide Inv, LegalRun, Run, Rely, Referred, NothingOwned, Restoring, Fit, Tidy, WaitingOf, Forward, Lists, Passed, Back, NoneStandsIn;
      ghost var w0 := client.w;
      NothingGoesBack(all, w0);
      results := [];
      ghost var listed;
      ghost var protected;
      var r;
      while |results| < rounds - 1
        invariant |results| < rounds
        invariant client.Valid() && Referred(client.s, client.w) && Forward(all, w0, client.w)
        invariant StillRestoring(all, w0, client.w, config.secret)
        invariant |WaitingOf(all, client.w.pvcs)| == rounds - 1 - |results|
        invariant forall i :: 0 <= i < |results| ==> results[i].Failure? && results[i].error.WaitingForDeletion?
      {
        ghost var w1 := client.w;
        RestoringIsServing(all, w1);
        r, listed, protected := Reconcile();
        WaitingReconcile(all, w1, client.w, listed, config.secret, r);
        ForwardIsTransitive(all, w0, w1, client.w);
        results := results + [r];
      }
      ghost var w1 := client.w;
      RestoringIsServing(all, w1);
      r, listed, protected := Reconcile();
      LastReconcile(all, w1, client.w, listed, config.secret, r);
      LastKeepsRestoring(all, w1, client.w, listed, config.secret, r);
      BackInTheEnd(all, w0, w1, client.w);
      results := results + [r];
    }

    /** VolSync runs the final sync of every group claim. */
    method SyncSources(time: int)
      requires client.Valid() && Referred(client.s, client.w) && InRelocation(client.s)
      requires HandedOver(client.s, client.w, config.secret)
      modifies client
      ensures client.Valid() && Referred(client.s, client.w) && HandedOver(client.s, client.w, config.secret)
      ensures forall k :: k in client.s.group ==> k in client.w.rss && client.w.rss[k].Stamped()
    {
      hide Inv, LegalRun, Run, Rely, Referred, Occur, HandedOver;
      var rest := client.s.group.Keys;
      while rest != {}
        invariant client.Valid() && Referred(client.s, client.w) && HandedOver(client.s, client.w, config.secret)
        invariant rest <= client.s.group.Keys
        invariant forall k :: k in client.s.group && k !in rest ==> k in client.w.rss && client.w.rss[k].Stamped()
      {
        ghost var w1 := client.w;
        var k :| k in rest;
        SyncStamps(client.s, w1, config.secret, k, time);
        client.Event(SourceSyncs(k, time));
        EventKeepsReferred(client.s, w1, client.w);
        rest := rest - {k};
      }
    }

    /** An address is assigned to the destination of every group claim. */
    method AssignAddresses(address: string)
      requires client.Valid() && Referred(client.s, client.w)
      requires forall k :: k in client.s.group ==> Turned(client.w, k)
      modifies client
      ensures client.Valid() && Referred(client.s, client.w)
      ensures client.w == old(client.w).(rds := client.w.rds) && forall k :: k in client.s.group ==> Addressable(client.w, k)
    {
      hide Inv, LegalRun, Run, Rely, Referred, Occur, Addressable;
      ghost var w0 := client.w;
      assert forall k :: k in client.s.group ==> k in w0.rds;
      hide Turned;
      var rest := client.s.group.Keys;
      while rest != {}
        invariant client.Valid() && Referred(client.s, client.w) && client.w == w0.(rds := client.w.rds)
        invariant rest <= client.s.group.Keys && client.w.rds.Keys == w0.rds.Keys
        invariant forall k :: k in client.s.group && k !in rest ==> Addressable(client.w, k)
      {
        ghost var w1 := client.w;
        var k :| k in rest;
        AddressIsAssigned(client.s, w1, k, address);
        client.Event(AddressAssigned(k, address));
        EventKeepsReferred(client.s, w1, client.w);
        rest := rest - {k};
      }
    }

    /**
     A whole relocation, from the time when the N claims of the group are being deleted and no pod mounts them, while
     VolSync does its part: one reconcile starts the final sync, N let the claims go, one brings them all back, one
     makes them destinations, and one records the demotion.
     */
    method Relocate(time: int, address: string) returns (results: seq<Result<Requeue>>)
      requires client.Valid() && Referred(client.s, client.w) && InRelocation(client.s)
      requires Leaving(client.s, client.w, config.secret)
      modifies client
      ensures client.Valid() && Referred(client.s, client.w)
      ensures var n := |client.s.group|;
        && |results| == n + 4 && results[0] == Success(After(WAITING_INTERVAL))
        && (forall i :: 1 <= i <= n ==> results[i].Failure? && results[i].error.WaitingForDeletion?)
        && (forall i :: n < i < n + 4 ==> results[i].Success?)
      ensures client.w.vgr.status.state == SecondaryState && AllBack(client.s, client.w)
      ensures forall k :: k in client.s.group ==> Demoted(client.w, k)
    {
      hide CleanedUpOnly, WoundUp, Finished, WroteByRole, PromotedInTime, OwnedSourcesLeft, PausedFor, Extends;
      hide Inv, LegalRun, Run, Rely, Referred, NothingOwned, Restoring, WaitingOf, Lists, Passed, Back, NoneStandsIn, Demoted, Turned;
      hide Awaiting, Stalling, Awaited, Stalled, Completing, Completed;
      hide Leaving, Beginning, Begun, HandedOver, AllReturned, AllBack, StillRestoring, ActsAsSecondary, Passable, Fit, Addressable;
      ghost var w0 := client.w;
      ghost var listed;
      ghost var protected;
      var r;
      LeavingActs(client.s, w0, config.secret);
      r, listed, protected := Reconcile();
      LeavingBegins(client.s, w0, config.secret, listed);
      BegunIsHandedOver(client.s, w0, client.w, config.secret, listed);
      results := [r];
      SyncSources(time);
      ghost var w1 := client.w;
      SyncedIsRestoring(client.s, w1, config.secret);
      var restored := ReconcileUntilRestored(client.s.group.Keys, |client.s.group| + 1);
      RestoredIsReturned(client.s, w1, client.w, config.secret);
      results := results + restored;
      r := ReconcileReturned();
      results := results + [r];
      ghost var w2 := client.w;
      AssignAddresses(address);
      ReturnedStays(client.s, w2, client.w, config.secret);
      r := ReconcileReturned();
      results := results + [r];
    }

    /** One reconcile after all claims are back. It records the demotion if their destinations have addresses. */
    method ReconcileReturned() returns (r: Result<Requeue>)
      requires client.Valid() && Referred(client.s, client.w) && InRelocation(client.s)
      requires AllReturned(client.s, client.w, config.secret)
      modifies client
      ensures client.Valid() && Referred(client.s, client.w) && AllReturned(client.s, client.w, config.secret) && r.Success?
      ensures AllBack(client.s, client.w) && forall k :: k in client.s.group ==> Turned(client.w, k)
      ensures (forall k :: k in client.s.group ==> Addressable(old(client.w), k)) ==>
        client.w.vgr.status.state == SecondaryState && forall k :: k in client.s.group ==> Demoted(client.w, k)
    {
      hide CleanedUpOnly, WoundUp, Finished, WroteByRole, PromotedInTime, OwnedSourcesLeft, PausedFor, Extends;
      hide Inv, LegalRun, Run, Rely, Referred, NothingOwned, Lists, Passed, Passable, Demoted, Addressable, AllReturned, AllBack, Concluding, Concluded;
      ghost var w0 := client.w;
      ghost var listed;
      ghost var protected;
      ReturnedActs(client.s, w0, config.secret);
      r, listed, protected := Reconcile();
      ReturnedReconcile(client.s, w0, client.w, listed, config.secret, r);
    }

    /** The operator in its environment: any reconciles and any events, in any order. */
    method Operate(rounds: nat)
      requires client.Valid() && Referred(client.s, client.w)
      modifies client
      ensures client.Valid() && Referred(client.s, client.w)
    {
      hide CleanedUpOnly, WoundUp, Finished, WroteByRole, PromotedInTime, OwnedSourcesLeft, PausedFor, Extends;
      hide Inv, LegalRun, Run, Rely, Referred, NothingOwned;
      for i := 0 to rounds
        invariant client.Valid() && Referred(client.s, client.w)
      {
        ghost var w0 := client.w;
        var reconcile: bool := *;
        if reconcile {
          var r;
          ghost var listed;
          ghost var protected;
          r, listed, protected := Reconcile();
        } else {
          var e: Event := *;
          client.Event(e);
          EventKeepsReferred(client.s, w0, client.w);
        }
      }
    }
  }

  predicate ActsAsPrimary(vgr: VGR) {
    vgr.role.Primary? && vgr.finalizer && !vgr.deleting
  }

  predicate ActsWithoutSelector(vgr: VGR) {
    vgr.role.Secondary? && vgr.finalizer && !vgr.deleting && vgr.selector.None?
  }

  predicate ActsAsNeither(vgr: VGR) {
    vgr.role.UnknownRole? && vgr.finalizer && !vgr.deleting
  }

  /** Without interference a deletion has touched no object without the VGR's label. */
  ghost predicate CleanedUpOnly(w: World, v: World, listed: seq<Item<PVC>>) {
    CleanedUp(w.vgr, w, v, listed) && OwnedSourcesLeft(w.vgr, w.rss, v.rss) && OwnedDestinationsLeft(w.vgr, w.rds, v.rds)
  }

  lemma PausedAcrossStatus(s: Setting, w: World, v: World, listed: seq<Item<PVC>>, error: Error)
    requires exists u: VGR :: Steady(s, w.(vgr := u), v)
    ensures PausedFor(listed, w.rss, error) ==> PausedFor(listed, v.rss, error)
  {
    hide NoNewPods;
  }

  lemma NothingIsCleanedUp(w: World)
    ensures CleanedUpOnly(w, w, [])
  {
    NothingCleanedUp(w.vgr, w);
    hide CleanedUp;
  }

  lemma ReadingLeavesSources(s: Setting, w: World, v: World)
    requires Steady(s, w, v)
    ensures OwnedSourcesLeft(w.vgr, w.rss, v.rss)
  {
    SourcesSteady(w.vgr, w.rss, v.rss);
    hide NoNewPods, OwnedSourcesLeft;
  }

  lemma ReadingWroteByRole(vgr: VGR, t: seq<Step>, u: seq<Step>)
    requires Idled(t, u)
    ensures WroteByRole(vgr, t, u, [])
  {
    WroteNothing(t, u, [], [], false);
    CleanupWroteByRole(vgr, t, u);
  }

  /** The status records the demotion, and every listed claim is a protected, addressed destination. */
  ghost predicate DemotionRecorded(s: Setting, w: World, listed: seq<Item<PVC>>) {
    && w.vgr.status.state == SecondaryState && w.vgr.status.protectedPVCs == KeyNames(Keys(listed))
    && NoneLost(listed) && DemotedEach(w, Keys(listed)) && (s.calm ==> StandingEach(w.pvcs, Keys(listed)))
  }

  lemma DemotionStaysRecorded(s: Setting, w: World, v: World, keys: seq<Key>)
    requires exists u: VGR :: Steady(s, w.(vgr := u), v) && u.name == w.vgr.name && u.ns == w.vgr.ns
    requires Kept(w.pvcs, v.pvcs) && (s.calm ==> v.pvcs == w.pvcs)
    ensures DemotedEach(w, keys) ==> DemotedEach(v, keys)
    ensures s.calm && StandingEach(w.pvcs, keys) ==> StandingEach(v.pvcs, keys)
  {
    if DemotedEach(w, keys) {
      var u: VGR :| Steady(s, w.(vgr := u), v) && u.name == w.vgr.name && u.ns == w.vgr.ns;
      SteadyFromHere(s, w, u, v);
      DemotedAcross(s, w, v, keys);
    }
  }

  lemma SteadyFromHere(s: Setting, w: World, u: VGR, v: World)
    requires Steady(s, w.(vgr := u), v)
    ensures Steady(s, w.(vgr := v.vgr), v)
  {
    hide SameSource, NoNewPods;
  }

  lemma NothingWithoutFinalizer(s: Setting, w: World)
    requires Inv(s, w)
    ensures !w.vgr.finalizer ==> NothingOwned(w.vgr, w.rss, w.rds)
  {
    hide Claims, Relocating, Exclusive, NothingOwned;
  }

  lemma NothingOwnedSteady(s: Setting, w: World, v: World)
    requires Steady(s, w, v)
    ensures NothingOwned(w.vgr, w.rss, w.rds) ==> NothingOwned(v.vgr, v.rss, v.rds)
  {
    hide NoNewPods;
  }

  lemma MayAddFinalizer(s: Setting, w: World, vgr: VGR)
    requires !vgr.deleting
    ensures w.vgr == vgr ==> Legal(s, w, SetFinalizer(true))
  {
  }

  lemma FinalizerStays(s: Setting, vgr: VGR, v: World, done: bool)
    requires done ==> exists u: World :: Steady(s, u.(vgr := vgr.(finalizer := true)), v)
    ensures done ==> v.vgr.finalizer
  {
  }

  lemma RelocationIsKnown(s: Setting, w: World, v: World, vgr: VGR)
    requires Inv(s, w) && Steady(s, w, v) && w.vgr == vgr && !vgr.deleting
    ensures s.relocating ==> Relocation(vgr, v.vrgs)
    ensures SameGroup(vgr, v.vgr)
  {
    hide Exclusive, Guarded, Claims, Lossless, Frozen, KeptUntilDone, Selected, AppPods, StoreWellFormed, StampsAreFinal, NoNewPods, SameSources;
  }

  lemma JustifiedIsLegal(s: Setting, w: World, status: Status)
    requires Justified(s, w, status)
    ensures LegalStatus(s, w, status)
  {
  }

  lemma EventKeepsReferred(s: Setting, w: World, v: World)
    requires Rely(s, w, v) && Referred(s, w)
    ensures Referred(s, v)
  {
    RelyIsSteady(s, w, v);
    ReferredStays(s, w, v, Key("", App("")));
  }
}
