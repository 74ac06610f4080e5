/** The operator's VolSync handler: claims, volumes, sources and destinations of one VGR. */
module Handler {

  import opened Names
  import opened Objects
  import opened System
  import opened Protocol
  import opened Api
  import opened Handoff
  import opened Legality
  import opened Replication
  import opened SyncSteps
  import opened Demotion
  import opened Cleanup
  import Schedule
  import opened Wrappers

  class VSHandler {
    const client: Cluster
    const owner: VGR
    const interval: string

    constructor (client: Cluster, owner: VGR, interval: string)
      ensures this.client == client && this.owner == owner && this.interval == interval
    {
      this.client := client;
      this.owner := owner;
      this.interval := interval;
    }

    /** Creates the stand-in of claim `k` unless it exists. */
    method EnsureStandIn(k: Key, main: PVC) returns (o: Outcome)
      requires client.Valid() && k.name.App?
      requires !client.w.vgr.deleting ==> Known(client.s, client.w.vgr.selector, k, main)
      modifies client
      ensures Extends(old(client.trace), client.trace)
      ensures client.Valid() && Steady(client.s, old(client.w), client.w) && client.w.pvs == old(client.w).pvs
      ensures Kept(old(client.w).pvcs, client.w.pvcs) && client.w.pvcs.Keys <= old(client.w).pvcs.Keys + {TmpOf(k)}
      ensures o.Success? && !Going(old(client.w).pvcs, TmpOf(k)) ==> Standing(client.w.pvcs, TmpOf(k))
      ensures o.Failure? ==> !client.s.reliable
      ensures client.s.calm ==> client.w == if o.Success? then WithStandIn(old(client.w), k, main) else old(client.w)
      ensures o.Failure? ==> o.error.OfCall()
    {
      hide Idled, Took, Extends;
      TracesExtend();
      ghost var w0 := client.w;
      var r := client.GetPVC(TmpOf(k));
      if r.Success? {
        return OK;
      }
      if r.error != NotFound {
        return Failure(r.error);
      }
      ghost var w1 := client.w;
      assert client.Valid() ==> GroupWellFormed(client.s.group, client.w.vgr.ns);
      hide Inv, LegalRun, Legal, Rely, Kept, Known, TemporaryClaim, GroupWellFormed;
      StandInIsLegal(client.s, client.w, k, main);
      o := client.CreatePVC(TmpOf(k), TemporaryClaim(main, main.volumeName));
      hide SameSources, SameDestinations, NoNewPods;
      SteadyIsTransitive(client.s, w0, w1, client.w);
      KeptIsTransitive(w0.pvcs, w1.pvcs, client.w.pvcs);
    }

    /** Makes volume `name` refer to claim `k`. */
    method PointVolume(name: string, pv: PV, k: Key) returns (o: Outcome)
      requires client.Valid() && Legal(client.s, client.w, UpdatePV(name, pv.(claimRef := Some(k))))
      modifies client
      ensures Extends(old(client.trace), client.trace)
      ensures client.Valid() && Steady(client.s, old(client.w), client.w)
      ensures Kept(old(client.w).pvcs, client.w.pvcs) && client.w.pvcs.Keys <= old(client.w).pvcs.Keys
      ensures o.Success? ==> name in old(client.w).pvs && old(client.w).pvs[name] == pv
      ensures o.Success? ==> client.w.pvs == old(client.w).pvs[name := pv.(claimRef := Some(k))]
      ensures o.Failure? ==> client.w.pvs == old(client.w).pvs
      ensures o.Failure? ==> !client.s.reliable || name !in old(client.w).pvs || old(client.w).pvs[name] != pv
      ensures client.s.calm ==>
        client.w == if o.Success? then old(client.w).(pvs := old(client.w).pvs[name := pv.(claimRef := Some(k))]) else old(client.w)
      ensures o.Failure? ==> o.error.OfCall()
    {
      hide Inv, LegalRun, Legal, Rely, Kept, Steady;
      o := client.UpdatePV(name, pv, pv.(claimRef := Some(k)));
    }

    /** Removes the operator's finalizer from claim `k`. */
    method RemoveFinalizer(k: Key) returns (o: Outcome)
      requires client.Valid() && Releasable(client.s, client.w, k)
      modifies client
      ensures Extends(old(client.trace), client.trace) && Wrote(old(client.trace), client.trace, [k], [], false)
      ensures client.Valid() && Steady(client.s, old(client.w), client.w)
      ensures client.w.pvs == old(client.w).pvs && client.w.pvcs.Keys <= old(client.w).pvcs.Keys
      ensures forall j :: k == j || k == TmpOf(j) ==> OthersKept(old(client.w).pvcs, client.w.pvcs, j)
      ensures o.Success? && k in client.w.pvcs ==> Protection !in client.w.pvcs[k].finalizers
      ensures client.s.calm ==> client.w == if o.Success? then Unprotected(old(client.w), k) else old(client.w)
      ensures client.s.calm && client.s.reliable ==> o.Success?
      ensures (k in old(client.w).pvcs ==> Protection !in old(client.w).pvcs[k].finalizers) && client.s.reliable ==> o.Success?
      ensures o.Failure? ==> o.error.OfCall()
    {
      hide Idled, Took, Extends, Wrote, CleanupStep;
      TracesExtend();
      ghost var w0, t0 := client.w, client.trace;
      var r := client.GetPVC(k);
      ghost var t1 := client.trace;
      WroteNothing(t0, t1, [k], [], false);
      if r.Failure? {
        hide Inv, LegalRun, Rely, Kept;
        KeptKeepsOthers(w0.pvcs, client.w.pvcs);
        return if r.error == NotFound then OK else Failure(r.error);
      }
      var pvc := r.value;
      if Protection !in pvc.finalizers {
        hide Inv, LegalRun, Kept;
        KeptKeepsOthers(w0.pvcs, client.w.pvcs);
        return OK;
      }
      ghost var w1 := client.w;
      var q := pvc.(finalizers := pvc.finalizers - {Protection});
      hide Inv, LegalRun, Legal, Rely, Kept, MayLetGo, SameClaims, SameSources, SameDestinations, NoNewPods;
      ReleasableIsStable(client.s, w0, w1, k);
      if k in client.w.pvcs && client.w.pvcs[k] == pvc {
        ReleaseIsLegal(client.s, client.w, k);
      }
      o := client.UpdatePVC(k, pvc, q);
      WroteOne(t1, client.trace, UpdatePVC(k, q), [k], [], false);
      WroteBoth(t0, t1, client.trace, [k], [], false);
      SteadyIsTransitive(client.s, w0, w1, client.w);
      KeptKeepsOthers(w0.pvcs, w1.pvcs);
      OthersKeptIsTransitiveForAll(w0.pvcs, w1.pvcs, client.w.pvcs, k);
    }

    /** The volume behind claim `k`. */
    method GetVolume(k: Key) returns (r: Result<(string, PV)>)
      requires client.Valid()
      modifies client
      ensures Extends(old(client.trace), client.trace)
      ensures client.Valid() && Drift(client.s, old(client.w), client.w) && Steady(client.s, old(client.w), client.w)
      ensures Kept(old(client.w).pvcs, client.w.pvcs) && client.w.pvcs.Keys <= old(client.w).pvcs.Keys
      ensures client.w.pvs == old(client.w).pvs
      ensures Referred(client.s, old(client.w)) ==> Referred(client.s, client.w)
      ensures k in old(client.w).pvcs && k in client.w.pvcs ==> SameClaim(old(client.w).pvcs[k], client.w.pvcs[k])
      ensures r.Success? ==>
        && HasVolume(old(client.w), k)
        && r.value == (old(client.w).pvcs[k].volumeName, old(client.w).pvs[old(client.w).pvcs[k].volumeName])
      ensures r.Failure? && client.s.reliable ==> !HasVolume(old(client.w), k)
      ensures r.Failure? && client.s.reliable && k in old(client.w).pvcs ==>
        r.error == if old(client.w).pvcs[k].volumeName == "" then NotBound else NotFound
      ensures r.Failure? ==> r.error.OfCall()
    {
      ghost var w0 := client.w;
      hide LegalRun, Steady, Kept, Claims, Relocating, Exclusive, Guarded;
      var pvc :- client.GetPVC(k);
      ghost var w1 := client.w;
      if pvc.volumeName == "" {
        return Failure(NotBound);
      }
      var pv := client.GetPV(pvc.volumeName);
      hide Rely, Inv;
      DriftIsTransitive(client.s, w0, w1, client.w);
      OnwardIsTransitive(client.s, w0, w1, client.w);
      if pv.Failure? {
        return Failure(pv.error);
      }
      return Success((pvc.volumeName, pv.value));
    }

    /** Creates the stand-in of a terminating claim and turns the volume to it. */
    method TurnToStandIn(k: Key) returns (o: Outcome, ghost stage: nat)
      requires client.Valid() && k.name.App? && Referred(client.s, client.w)
      modifies client
      ensures Extends(old(client.trace), client.trace)
      ensures client.Valid() && Steady(client.s, old(client.w), client.w) && Referred(client.s, client.w)
      ensures Kept(old(client.w).pvcs, client.w.pvcs) && client.w.pvcs.Keys <= old(client.w).pvcs.Keys + {TmpOf(k)}
      ensures o.Success? ==> ReleasableVolume(client.s, client.w, k)
      ensures o.Success? && !Going(old(client.w).pvcs, TmpOf(k)) ==> Standing(client.w.pvcs, TmpOf(k))
      ensures client.s.plain && o.Success? ==> Standing(client.w.pvcs, TmpOf(k))
      ensures client.s.calm ==> stage <= 2 && client.w == HandOffAfter(old(client.w), k, false, stage)
      ensures client.s.calm && o.Success? ==> stage == 2 && HasVolume(old(client.w), k)
      ensures client.s.calm && client.s.reliable ==> client.w == HandOffAfter(old(client.w), k, false, 2)
      ensures client.s.calm && client.s.reliable ==> (o.Success? <==> HasVolume(old(client.w), k))
      ensures o.Failure? ==> o.error.OfCall()
    {
      hide Idled, Took, Extends, Inv, LegalRun, Legal, Rely, SameSources, SameDestinations, NoNewPods, Kept, Known, GroupWellFormed, Referred, ReferredExcept;
      TracesExtend();
      hide ReleasableVolume, WithStandIn, Pointed, Run, SameClaims, SameClaim, Standing;
      stage := 0;
      ghost var w0 := client.w;
      var pvc :- client.GetPVC(k);
      ghost var w1 := client.w;
      var bound := GetVolume(k);
      ghost var w2 := client.w;
      OnwardIsTransitive(client.s, w0, w1, w2);
      if bound.Failure? {
        return Failure(bound.error), 0;
      }
      var (name, pv) := bound.value;
      KnownAfterRead(client.s, w0, w2, k);
      StandInDoesNotGo(client.s, w0, w2.pvcs, TmpOf(k));
      hide Going;
      o := EnsureStandIn(k, pvc);
      ghost var w3 := client.w;
      OnwardIsTransitive(client.s, w0, w2, w3);
      ReferredStays(client.s, w2, w3, k);
      if o.Failure? {
        UnreliableIsReferred(client.s, w3);
        return;
      }
      stage := 1;
      if client.s.calm {
        PointedVolume(w3, name, pv, TmpOf(k));
      }
      if pv.claimRef != Some(TmpOf(k)) {
        PointingToStandInIsLegal(client.s, w3, k, pvc, pv);
        o := PointVolume(name, pv, TmpOf(k));
        OnwardIsTransitive(client.s, w0, w3, client.w);
        if Standing(w3.pvcs, TmpOf(k)) {
          StandInStays(client.s, w3, client.w.pvcs, TmpOf(k));
        }
        if o.Failure? {
          UnreliableIsReferred(client.s, client.w);
          return;
        }
      }
      stage := 2;
      StandInIsReferred(client.s, w3, client.w, k, pvc);
    }

    /** Turns the volume of a terminating claim to a stand-in and may then let the claim go. */
    method CreateTemporary(k: Key, rmFinalizer: bool) returns (o: Outcome, ghost stage: nat)
      requires client.Valid() && k.name.App? && Referred(client.s, client.w)
      requires rmFinalizer && client.s.relocating && !client.w.vgr.deleting && k in client.s.group ==> Done(client.w.rss, k)
      modifies client
      ensures Extends(old(client.trace), client.trace)
      ensures client.Valid() && Steady(client.s, old(client.w), client.w) && Referred(client.s, client.w)
      ensures OthersKept(old(client.w).pvcs, client.w.pvcs, k) && client.w.pvcs.Keys <= old(client.w).pvcs.Keys + {TmpOf(k)}
      ensures !rmFinalizer ==> Kept(old(client.w).pvcs, client.w.pvcs)
      ensures o.Success? && !rmFinalizer && !Going(old(client.w).pvcs, TmpOf(k)) ==> Standing(client.w.pvcs, TmpOf(k))
      ensures o.Success? && rmFinalizer && k in client.w.pvcs ==> Protection !in client.w.pvcs[k].finalizers
      ensures client.s.calm ==> stage <= 3 && client.w == HandOffAfter(old(client.w), k, rmFinalizer, stage)
      ensures client.s.calm && o.Success? ==> stage == 3 && HasVolume(old(client.w), k)
      ensures client.s.calm && client.s.reliable ==>
        client.w == HandOffAfter(old(client.w), k, rmFinalizer, 3) && (o.Success? <==> HasVolume(old(client.w), k))
      ensures o.Failure? ==> o.error.OfCall()
      ensures client.s.calm && o.Success? && TmpOf(k) !in old(client.w).pvcs ==>
        TmpOf(k) in client.w.pvcs && StandsInFor(client.w.pvcs[TmpOf(k)], old(client.w).pvcs[k])
    {
      hide Inv, LegalRun, Legal, Rely, SameSources, SameDestinations, NoNewPods, Kept, OthersKept, ReleasableVolume, Referred;
      ghost var w0 := client.w;
      o, stage := TurnToStandIn(k);
      HandOffStandsIn(w0, k, rmFinalizer);
      hide StandsInFor;
      ghost var w1 := client.w;
      KeptKeepsOthers(w0.pvcs, w1.pvcs);
      if o.Failure? {
        return;
      }
      if !rmFinalizer {
        stage := 3;
        return;
      }
      HandedOffIsReleasable(client.s, w0, w1, k);
      o := RemoveFinalizer(k);
      SteadyIsTransitive(client.s, w0, w1, client.w);
      OthersKeptIsTransitive(w0.pvcs, w1.pvcs, client.w.pvcs, k);
      ReferredStays(client.s, w1, client.w, k);
      if o.Success? {
        stage := 3;
      }
    }

    /** Strips a terminating claim of all finalizers. */
    method Strip(k: Key, main: PVC) returns (o: Outcome)
      requires client.Valid() && k.name.App? && Referred(client.s, client.w)
      requires k in client.w.pvcs && client.w.pvcs[k] == main ==> Legal(client.s, client.w, UpdatePVC(k, main.(finalizers := {})))
      modifies client
      ensures Extends(old(client.trace), client.trace)
      ensures client.Valid() && Steady(client.s, old(client.w), client.w) && Referred(client.s, client.w)
      ensures OthersKept(old(client.w).pvcs, client.w.pvcs, k) && client.w.pvcs.Keys <= old(client.w).pvcs.Keys
      ensures client.s.calm ==> client.w == if o.Success? then Stripped(old(client.w), k, main) else old(client.w)
      ensures client.s.reliable && k in old(client.w).pvcs && old(client.w).pvcs[k] == main ==> o.Success?
      ensures o.Failure? ==> o.error.OfCall()
    {
      hide Idled, Took, Extends, Inv, LegalRun, Run, Rely, SameSources, SameDestinations, NoNewPods, Kept, OthersKept, Referred, Legal;
      ghost var w0 := client.w;
      o := client.UpdatePVC(k, main, main.(finalizers := {}));
      ReferredStays(client.s, w0, client.w, k);
    }

    /** Hands the labels of a terminating claim to its stand-in. */
    method HandLabels(k: Key, tmp: PVC, main: PVC) returns (o: Outcome)
      requires client.Valid() && k.name.App? && Referred(client.s, client.w)
      requires !client.w.vgr.deleting ==> Known(client.s, client.w.vgr.selector, k, main)
      modifies client
      ensures Extends(old(client.trace), client.trace)
      ensures client.Valid() && Steady(client.s, old(client.w), client.w) && Referred(client.s, client.w)
      ensures OthersKept(old(client.w).pvcs, client.w.pvcs, k) && client.w.pvcs.Keys <= old(client.w).pvcs.Keys
      ensures k in client.w.pvcs ==> k in old(client.w).pvcs
      ensures o.Success? && client.s.plain && Standing(old(client.w).pvcs, TmpOf(k)) ==> TmpOf(k) in client.w.pvcs
      ensures client.s.calm ==>
        client.w == if o.Success? then Relabelled(old(client.w), k, tmp, main) else old(client.w)
      ensures client.s.reliable && TmpOf(k) in old(client.w).pvcs && old(client.w).pvcs[TmpOf(k)] == tmp ==> o.Success?
      ensures o.Failure? ==> o.error.OfCall()
    {
      hide Inv, LegalRun, Run, Rely, SameSources, SameDestinations, NoNewPods, Kept, OthersKept, Referred, Legal, Known, SameClaim, SameClaims;
      ghost var w0 := client.w;
      if TmpOf(k) in w0.pvcs && w0.pvcs[TmpOf(k)] == tmp {
        LabelHandoverIsLegal(client.s, w0, k, main);
      }
      hide StoreClaim;
      o := client.UpdatePVC(TmpOf(k), tmp, tmp.(labels := main.labels));
      ReferredStays(client.s, w0, client.w, k);
      if o.Failure? {
        KeptKeepsOthers(w0.pvcs, client.w.pvcs);
      }
    }

    /** Hands the labels of a terminating claim to its stand-in and strips the claim of all finalizers. */
    method LetGo(k: Key, tmp: PVC, main: PVC) returns (o: Outcome, ghost stage: nat)
      requires client.Valid() && k.name.App? && Referred(client.s, client.w)
      requires main.deleting && (client.s.plain ==> Standing(client.w.pvcs, TmpOf(k)))
      requires !client.w.vgr.deleting ==> Known(client.s, client.w.vgr.selector, k, main)
      requires client.s.relocating && !client.w.vgr.deleting && k in client.s.group ==> Done(client.w.rss, k)
      modifies client
      ensures Extends(old(client.trace), client.trace)
      ensures client.Valid() && Steady(client.s, old(client.w), client.w) && Referred(client.s, client.w)
      ensures OthersKept(old(client.w).pvcs, client.w.pvcs, k) && client.w.pvcs.Keys <= old(client.w).pvcs.Keys
      ensures client.s.calm && TmpOf(k) in old(client.w).pvcs && old(client.w).pvcs[TmpOf(k)] == tmp && k in old(client.w).pvcs && old(client.w).pvcs[k] == main ==>
        && stage <= 2 && client.w == LetGoAfter(old(client.w), k, stage)
        && (client.s.reliable ==> stage == 2 && o == Failure(WaitingForDeletion(k.name)))
      ensures o.Failure? && (o.error.OfCall() || o.error.WaitingForDeletion?)
    {
      hide Idled, Took, Extends, Inv, LegalRun, Run, Rely, SameSources, SameDestinations, NoNewPods, Kept, OthersKept, Referred, Legal, Known;
      TracesExtend();
      stage := 0;
      ghost var w0 := client.w;
      if TmpOf(k) in w0.pvcs && w0.pvcs[TmpOf(k)] == tmp && k in w0.pvcs && w0.pvcs[k] == main {
        LetGoWrites(w0, k, tmp, main);
      }
      hide LetGoAfter, SameClaim, Relabelled, Stripped;
      o := HandLabels(k, tmp, main);
      ghost var w1 := client.w;
      if o.Failure? {
        return;
      }
      stage := 1;
      if main.finalizers == {} {
        return Failure(WaitingForDeletion(k.name)), 2;
      }
      if k in client.w.pvcs && client.w.pvcs[k] == main {
        LettingGoIsLegal(client.s, w0, w1, k);
      }
      o := Strip(k, main);
      SteadyIsTransitive(client.s, w0, w1, client.w);
      OthersKeptIsTransitive(w0.pvcs, w1.pvcs, client.w.pvcs, k);
      if o.Failure? {
        return;
      }
      return Failure(WaitingForDeletion(k.name)), 2;
    }

    /** Recreates the claim from its stand-in, unless it exists. */
    method EnsureClaim(k: Key, tmp: PVC) returns (o: Outcome)
      requires client.Valid() && k.name.App? && Referred(client.s, client.w)
      requires k in client.w.pvcs ==> client.w.pvcs[k].Held()
      requires !client.w.vgr.deleting ==> Known(client.s, client.w.vgr.selector, TmpOf(k), tmp)
      requires client.s.relocating && !client.w.vgr.deleting && k in client.s.group ==> Done(client.w.rss, k)
      modifies client
      ensures Extends(old(client.trace), client.trace)
      ensures client.Valid() && Steady(client.s, old(client.w), client.w) && Referred(client.s, client.w)
      ensures Kept(old(client.w).pvcs, client.w.pvcs) && client.w.pvcs.Keys <= old(client.w).pvcs.Keys + {k}
      ensures client.w.pvs == old(client.w).pvs
      ensures o.Success? ==> k in client.w.pvcs && client.w.pvcs[k].Held()
      ensures o.Failure? ==> !client.s.reliable
      ensures client.s.calm ==> client.w == if o.Success? then WithClaim(old(client.w), k, tmp) else old(client.w)
      ensures o.Failure? ==> o.error.OfCall()
    {
      hide LegalRun, Rely, Steady, Kept, Referred, Known;
      ghost var w0 := client.w;
      SelectorIsStable(client.s, w0);
      hide Inv, Legal, StableSelector, GroupWellFormed;
      if k !in w0.pvcs {
        RecreationIsLegal(client.s, w0, k, tmp);
      }
      o := client.CreatePVC(k, RestoredClaim(tmp, tmp.volumeName));
      ReferredStaysAcross(client.s, w0, client.w, k);
      if o == Failure(AlreadyExists) {
        KeptIsHeld(w0.pvcs, client.w.pvcs, k);
        o := OK;
      }
    }

    /** Turns the volume of claim `k` back to it. */
    method PointBack(k: Key, tmp: PVC, pv: PV) returns (o: Outcome)
      requires client.Valid() && k.name.App? && Referred(client.s, client.w)
      requires k in client.w.pvcs && client.w.pvcs[k].Held()
      requires !client.w.vgr.deleting ==> Known(client.s, client.w.vgr.selector, TmpOf(k), tmp)
      requires tmp.volumeName in client.w.pvs && client.w.pvs[tmp.volumeName] == pv
      modifies client
      ensures Extends(old(client.trace), client.trace)
      ensures client.Valid() && Steady(client.s, old(client.w), client.w) && ReferredExcept(client.s, client.w, k)
      ensures Kept(old(client.w).pvcs, client.w.pvcs) && client.w.pvcs.Keys <= old(client.w).pvcs.Keys
      ensures k in client.w.pvcs && client.w.pvcs[k].Held()
      ensures o.Success? ==> Legal(client.s, client.w, DeletePVC(TmpOf(k)))
      ensures o.Failure? ==> !client.s.reliable
      ensures client.s.calm ==> client.w == if o.Success? then Pointed(old(client.w), tmp.volumeName, k) else old(client.w)
      ensures o.Failure? ==> o.error.OfCall()
    {
      hide Inv, LegalRun, Run, Rely, SameSources, SameDestinations, NoNewPods, Kept, Referred, ReferredExcept, Known;
      hide Legal, StableSelector, GroupWellFormed, SameClaim;
      ghost var w0 := client.w;
      SelectorIsStable(client.s, w0);
      ReferredExceptFollows(client.s, w0, k);
      PointingBackIsLegal(client.s, w0, k, tmp, pv);
      PointedVolume(w0, tmp.volumeName, pv, k);
      hide Pointed;
      o := PointVolume(tmp.volumeName, pv, k);
      KeptIsHeld(w0.pvcs, client.w.pvcs, k);
      if o.Failure? {
        ReferredExceptFollows(client.s, client.w, k);
      } else {
        PointingKeepsOthersReferred(client.s, w0, client.w, k, tmp, pv);
        HandedBackIsDeletable(client.s, w0, client.w, k, tmp);
      }
    }

    /** Deletes the stand-in of claim `k`. */
    method DropStandIn(k: Key) returns (o: Outcome, ghost stage: nat)
      requires client.Valid() && k.name.App? && ReferredExcept(client.s, client.w, k)
      requires Legal(client.s, client.w, DeletePVC(TmpOf(k)))
      requires k in client.w.pvcs && client.w.pvcs[k].Held()
      modifies client
      ensures Extends(old(client.trace), client.trace)
      ensures client.Valid() && Steady(client.s, old(client.w), client.w) && Referred(client.s, client.w)
      ensures OthersKept(old(client.w).pvcs, client.w.pvcs, k) && client.w.pvcs.Keys <= old(client.w).pvcs.Keys
      ensures o.Success? ==> (client.s.plain ==> TmpOf(k) !in client.w.pvcs) && k in client.w.pvcs && client.w.pvcs[k].Held()
      ensures o.Failure? ==> !client.s.reliable
      ensures client.s.calm ==> stage <= 1 && (o.Success? ==> stage == 1)
      ensures client.s.calm && TmpOf(k) in old(client.w).pvcs ==>
        client.w == if stage == 0 then old(client.w) else old(client.w).(pvcs := RequestDeletion(old(client.w).pvcs, TmpOf(k)))
      ensures o.Failure? ==> o.error.OfCall()
    {
      hide Inv, LegalRun, Run, Rely, SameSources, SameDestinations, NoNewPods, Kept, Referred, ReferredExcept;
      hide Claims, Relocating, Exclusive, Guarded, GroupWellFormed, Legal, OthersKept;
      stage := 0;
      ghost var w0 := client.w;
      StandInIsUnprotected(client.s, w0, k);
      o := client.DeletePVC(TmpOf(k));
      ghost var w1 := client.w;
      if o.Failure? && o.error != NotFound {
        UnreliableIsReferred(client.s, w1);
        return;
      }
      stage := 1;
      OthersStayHeld(w0.pvcs, w1.pvcs, k);
      ReferredAgain(client.s, w0, w1, k);
      StandInIsReleasable(client.s, w1, k);
      StandInIsUnprotected(client.s, w1, k);
      o := RemoveFinalizer(TmpOf(k));
      OthersStayHeld(w1.pvcs, client.w.pvcs, k);
      ReferredAgain(client.s, w0, client.w, k);
      SteadyIsTransitive(client.s, w0, w1, client.w);
      OthersKeptIsTransitive(w0.pvcs, w1.pvcs, client.w.pvcs, k);
    }

    /** Recreates the claim from its stand-in, turns the volume back to it, and deletes the stand-in. */
    method Recreate(k: Key, tmp: PVC, pv: PV) returns (o: Outcome, ghost stage: nat)
      requires client.Valid() && k.name.App? && Referred(client.s, client.w)
      requires k in client.w.pvcs ==> client.w.pvcs[k].Held()
      requires !client.w.vgr.deleting ==> Known(client.s, client.w.vgr.selector, TmpOf(k), tmp)
      requires client.s.relocating && !client.w.vgr.deleting && k in client.s.group ==> Done(client.w.rss, k)
      requires tmp.volumeName in client.w.pvs && client.w.pvs[tmp.volumeName] == pv
      modifies client
      ensures Extends(old(client.trace), client.trace)
      ensures client.Valid() && Steady(client.s, old(client.w), client.w)
      ensures client.s.reliable ==> o.Success? && Referred(client.s, client.w)
      ensures OthersKept(old(client.w).pvcs, client.w.pvcs, k) && client.w.pvcs.Keys <= old(client.w).pvcs.Keys + {k}
      ensures o.Success? ==> (client.s.plain ==> TmpOf(k) !in client.w.pvcs) && k in client.w.pvcs && client.w.pvcs[k].Held()
      ensures client.s.calm && TmpOf(k) in old(client.w).pvcs && old(client.w).pvcs[TmpOf(k)] == tmp ==>
        stage <= 3 && client.w == RecreatedAfter(old(client.w), k, stage) && (o.Success? ==> stage == 3)
      ensures o.Failure? ==> o.error.OfCall()
    {
      hide Idled, Took, Extends, Inv, LegalRun, Run, Rely, Steady, Kept, OthersKept, Referred, ReferredExcept, Known, Legal, RestoredClaim;
      TracesExtend();
      stage := 0;
      ghost var w0 := client.w;
      o := EnsureClaim(k, tmp);
      ghost var w1 := client.w;
      KeptKeepsOthers(w0.pvcs, w1.pvcs);
      if o.Failure? {
        return;
      }
      stage := 1;
      KnownAcross(client.s, w0, w1, TmpOf(k), tmp);
      o := PointBack(k, tmp, pv);
      ghost var w2 := client.w;
      OnwardIsTransitive(client.s, w0, w1, w2);
      KeptKeepsOthers(w0.pvcs, w2.pvcs);
      if o.Failure? {
        return;
      }
      stage := 2;
      o, stage := DropStandIn(k);
      stage := stage + 2;
      SteadyIsTransitive(client.s, w0, w2, client.w);
      OthersKeptIsTransitive(w0.pvcs, w2.pvcs, client.w.pvcs, k);
    }

    /** The stand-in of claim `k` and its volume, if there is a stand-in. */
    method ReadStandIn(k: Key) returns (r: Result<Option<(PVC, PV)>>)
      requires client.Valid()
      modifies client
      ensures Extends(old(client.trace), client.trace)
      ensures client.Valid() && Steady(client.s, old(client.w), client.w) && Kept(old(client.w).pvcs, client.w.pvcs)
      ensures client.w.pvs == old(client.w).pvs && client.w.pvcs.Keys <= old(client.w).pvcs.Keys
      ensures Referred(client.s, old(client.w)) ==> Referred(client.s, client.w)
      ensures client.s.calm ==> client.w == old(client.w)
      ensures r == Success(None) ==> TmpOf(k) !in old(client.w).pvcs
      ensures r.Success? && r.value.Some? ==>
        && TmpOf(k) in old(client.w).pvcs && r.value.value.0 == old(client.w).pvcs[TmpOf(k)]
        && var name := r.value.value.0.volumeName; name != "" && name in old(client.w).pvs && r.value.value.1 == old(client.w).pvs[name]
      ensures client.s.calm && client.s.reliable && r.Failure? ==>
        && TmpOf(k) in old(client.w).pvcs && !HasVolume(old(client.w), TmpOf(k))
        && r.error == if old(client.w).pvcs[TmpOf(k)].volumeName == "" then NotBound else NotFound
      ensures r.Failure? ==> r.error.OfCall()
    {
      hide Idled, Took, Extends, Inv, LegalRun, Run, Rely, SameSources, SameDestinations, NoNewPods, Kept, Referred;
      TracesExtend();
      ghost var w0 := client.w;
      var t := client.GetPVC(TmpOf(k));
      ghost var w1 := client.w;
      if t.Failure? {
        return if t.error == NotFound then Success(None) else Failure(t.error);
      }
      var bound := GetVolume(TmpOf(k));
      OnwardIsTransitive(client.s, w0, w1, client.w);
      return if bound.Failure? then Failure(bound.error) else Success(Some((t.value, bound.value.1)));
    }

    /**
     Restores the claim that `listed` is, or stands in for, when a stand-in exists. A terminating claim is first
     let go, and the caller has to come back.
     */
    method Restore(listed: Key) returns (o: Outcome, ghost stage: nat)
      requires client.Valid() && Referred(client.s, client.w) && (listed.name.Tmp? ==> listed.name.of.App?)
      requires client.s.relocating && !client.w.vgr.deleting && MainOf(listed) in client.s.group ==>
        Done(client.w.rss, MainOf(listed))
      modifies client
      ensures Extends(old(client.trace), client.trace)
      ensures client.Valid() && Steady(client.s, old(client.w), client.w)
      ensures client.s.reliable ==> Referred(client.s, client.w)
      ensures OthersKept(old(client.w).pvcs, client.w.pvcs, MainOf(listed))
      ensures client.w.pvcs.Keys <= old(client.w).pvcs.Keys + {MainOf(listed)}
      ensures o.Success? && client.s.plain ==> TmpOf(MainOf(listed)) !in client.w.pvcs
      ensures o.Success? && TmpOf(MainOf(listed)) in old(client.w).pvcs ==>
        MainOf(listed) in client.w.pvcs && client.w.pvcs[MainOf(listed)].Held()
      ensures client.s.calm ==> client.w == RestoredAfter(old(client.w), MainOf(listed), stage)
      ensures client.s.calm && client.s.reliable ==>
        && client.w == Restored(old(client.w), MainOf(listed))
        && o == RestoreOutcome(old(client.w), MainOf(listed))
      ensures client.s.calm && client.s.reliable && HasVolume(old(client.w), TmpOf(MainOf(listed))) && MainOf(listed) !in old(client.w).pvcs ==>
        MainOf(listed) in client.w.pvcs && ComesBackFrom(client.w.pvcs[MainOf(listed)], old(client.w).pvcs[TmpOf(MainOf(listed))])
      ensures o.Failure? ==> o.error.OfCall() || o.error.WaitingForDeletion?
    {
      hide Idled, Took, Extends, Inv, LegalRun, Run, Rely, SameSources, SameDestinations, NoNewPods, Kept, OthersKept, Referred, Legal, Known;
      TracesExtend();
      hide StoreClaim, WithClaim, Pointed, SameClaim, SameClaims, Done, RequestDeletion, RestoredClaim;
      stage := 0;
      var k := MainOf(listed);
      ghost var w0 := client.w;
      RestoredComesBack(w0, k);
      hide ComesBackFrom;
      var read := ReadStandIn(k);
      ghost var w1 := client.w;
      KeptKeepsOthers(w0.pvcs, w1.pvcs);
      if read.Failure? || read.value.None? {
        return if read.Failure? then Failure(read.error) else OK, 0;
      }
      var (tmp, pv) := read.value.value;
      var m := client.GetPVC(k);
      ghost var w2 := client.w;
      OnwardIsTransitive(client.s, w0, w1, w2);
      KeptKeepsOthers(w0.pvcs, w2.pvcs);
      if m.Failure? && m.error != NotFound {
        return Failure(m.error), 0;
      }
      KnownBeforeRestore(client.s, w0, w1, w2, k);
      if m.Success? && m.value.deleting {
        o, stage := LetGo(k, tmp, m.value);
      } else {
        o, stage := Recreate(k, tmp, pv);
        o := if o.Success? then OK else o;
      }
      SteadyIsTransitive(client.s, w0, w2, client.w);
      OthersKeptIsTransitive(w0.pvcs, w2.pvcs, client.w.pvcs, k);
    }

    // ---------- sources and destinations ----------

    /** This handler works for the VGR of the cluster, which carries the operator's finalizer. */
    ghost predicate Serves()
      reads client
    {
      client.w.vgr.name == owner.name && client.w.vgr.ns == owner.ns && client.w.vgr.finalizer
    }

    /** Whether claim `k` has a stand-in or is one. */
    method HasTemporary(k: Key) returns (r: Result<bool>)
      requires client.Valid()
      modifies client
      ensures Extends(old(client.trace), client.trace)
      ensures client.Valid() && Idle(client.s, old(client.w), client.w)
      ensures r.Success? ==> r.value == HasStandIn(old(client.w), k)
      ensures r == Success(true) && k.name.App? && !Going(old(client.w).pvcs, TmpOf(k)) ==> Standing(client.w.pvcs, TmpOf(k))
      ensures r.Failure? ==> r.error == Fault && !client.s.reliable
    {
      if k.name.Tmp? {
        DriftIsReflexive(client.s, client.w);
        DriftIsIdle(client.s, client.w, client.w);
        return Success(true);
      }
      hide Rely, Steady, Kept, Referred;
      var t := client.GetPVC(TmpOf(k));
      if t.Failure? {
        return if t.error == NotFound then Success(false) else Failure(t.error);
      }
      return Success(true);
    }

    method IsTerminating(k: Key) returns (r: Result<bool>)
      requires client.Valid()
      modifies client
      ensures Extends(old(client.trace), client.trace)
      ensures client.Valid() && Idle(client.s, old(client.w), client.w)
      ensures r.Success? ==> r.value == Going(old(client.w).pvcs, k)
      ensures r == Success(true) && k in client.w.pvcs ==> client.w.pvcs[k].deleting
      ensures r == Success(false) && k in client.w.pvcs ==> client.w.pvcs[k].Held()
      ensures r.Failure? ==> r.error == Fault && !client.s.reliable
    {
      hide Rely, Steady, Kept, Referred;
      var t := client.GetPVC(k);
      if t.Failure? {
        return if t.error == NotFound then Success(false) else Failure(t.error);
      }
      return Success(t.value.deleting);
    }

    method DeleteSource(k: Key) returns (o: Outcome)
      requires client.Valid() && GateOpen(client.s, client.w)
      modifies client
      ensures Extends(old(client.trace), client.trace)
      ensures client.Valid() && Demoting(client.s, old(client.w), client.w) && Kept(old(client.w).pvcs, client.w.pvcs)
      ensures client.w.pvs == old(client.w).pvs && client.w.pvcs.Keys <= old(client.w).pvcs.Keys
      ensures client.w.rds.Keys == old(client.w).rds.Keys
      ensures o.Success? ==> k !in client.w.rss
      ensures client.s.calm ==> client.w == if o.Success? then old(client.w).(rss := old(client.w).rss - {k}) else old(client.w)
      ensures client.s.reliable ==> o.Success?
      ensures o.Failure? ==> o.error.OfCall()
    {
      hide Inv, LegalRun, Rely, Kept, GateOpen, NoNewPods, SameClaims, SameSource, Referred;
      ghost var w0 := client.w;
      var r := client.GetRS(k);
      ghost var w1 := client.w;
      SteadyIsDemoting(client.s, w0, w1);
      if r.Failure? {
        if r.error == NotFound {
          assert client.s.calm ==> w0.rss - {k} == w0.rss;
          return OK;
        }
        return Failure(r.error);
      }
      GateStaysOpen(client.s, w0, w1);
      o := client.DeleteRS(k);
      DemotingIsTransitive(client.s, w0, w1, client.w);
      KeptIsTransitive(w0.pvcs, w1.pvcs, client.w.pvcs);
    }

    method DeleteDestination(k: Key) returns (o: Outcome)
      requires client.Valid()
      modifies client
      ensures Extends(old(client.trace), client.trace)
      ensures client.Valid() && SameGroup(old(client.w).vgr, client.w.vgr) && Policy(client.s, old(client.w), client.w)
      ensures SameSources(old(client.w).rss, client.w.rss) && Kept(old(client.w).pvcs, client.w.pvcs)
      ensures client.w.pvs == old(client.w).pvs && client.w.pvcs.Keys <= old(client.w).pvcs.Keys
      ensures client.w.rds.Keys <= old(client.w).rds.Keys
      ensures o.Success? ==> k !in client.w.rds
      ensures client.s.calm ==> client.w == if o.Success? then old(client.w).(rds := old(client.w).rds - {k}) else old(client.w)
      ensures client.s.reliable ==> o.Success?
    {
      hide Inv, LegalRun, Rely, Kept, NoNewPods, SameSource;
      ghost var w0 := client.w;
      var r := client.GetRD(k);
      ghost var w1 := client.w;
      if r.Failure? {
        if r.error == NotFound {
          assert client.s.calm ==> w0.rds - {k} == w0.rds;
          return OK;
        }
        return Failure(r.error);
      }
      o := client.DeleteRD(k);
      PolicyIsTransitive(client.s, w0, w1, client.w);
      SameSourcesIsTransitive(w0.rss, w1.rss, client.w.rss);
      KeptIsTransitive(w0.pvcs, w1.pvcs, client.w.pvcs);
    }

    /** Stores destination `rd` of claim `k`, where `was` is the value that was read. */
    method StoreDestination(k: Key, was: Option<RD>, rd: RD) returns (o: Outcome)
      requires client.Valid() && GateOpen(client.s, client.w) && k !in client.w.rss && client.w.vgr.finalizer
      requires Writes(rd, k, client.w.vgr) && (was.Some? ==> rd.address == was.value.address)
      modifies client
      ensures Extends(old(client.trace), client.trace)
      ensures client.Valid() && Demoting(client.s, old(client.w), client.w) && Kept(old(client.w).pvcs, client.w.pvcs)
      ensures client.w.pvs == old(client.w).pvs && client.w.pvcs.Keys <= old(client.w).pvcs.Keys
      ensures o.Success? ==> Receiving(client.w, k) && (rd.address.Some? ==> Addressable(client.w, k))
      ensures client.s.calm ==> client.w == if o.Success? then old(client.w).(rds := old(client.w).rds[k := rd]) else old(client.w)
      ensures client.s.calm && o.Success? ==> Found(old(client.w).rds, k) == was
      ensures client.s.reliable && Found(old(client.w).rds, k) == was ==> o.Success?
      ensures o.Failure? ==> o.error.OfCall()
    {
      hide Inv, LegalRun, Run, Rely, Kept, NoNewPods, Shrunk, Grown, Writes, AllStamped;
      ghost var w0 := client.w;
      DestinationIsLegal(client.s, w0, k, rd);
      hide Legal, GateOpen;
      o := client.PutRD(k, was, rd);
      NoSourceAgain(client.s, w0, client.w, k);
    }

    /** Creates or updates the destination of claim `k`. */
    method PutDestination(k: Key) returns (r: Result<RD>)
      requires client.Valid() && Serves() && GateOpen(client.s, client.w) && k !in client.w.rss
      modifies client
      ensures Extends(old(client.trace), client.trace)
      ensures client.Valid() && Demoting(client.s, old(client.w), client.w) && Kept(old(client.w).pvcs, client.w.pvcs)
      ensures client.w.pvs == old(client.w).pvs && client.w.pvcs.Keys <= old(client.w).pvcs.Keys
      ensures r.Success? ==> Receiving(client.w, k) && (r.value.address.Some? ==> Addressable(client.w, k))
      ensures client.s.calm && r.Success? ==>
        && r.value == Destination(Found(old(client.w).rds, k), owner, k)
        && client.w == old(client.w).(rds := old(client.w).rds[k := r.value])
      ensures client.s.calm && r.Failure? ==> client.w == old(client.w)
      ensures client.s.calm && client.s.reliable ==> r.Success?
      ensures r.Failure? ==> r.error.OfCall()
    {
      hide Idled, Took, Extends, Inv, LegalRun, Run, Rely, Kept, NoNewPods, Destination, AllStamped, Shrunk, Grown, Writes, GateOpen, Error.OfCall;
      TracesExtend();
      ghost var w0 := client.w;
      var found := client.GetRD(k);
      ghost var w1 := client.w;
      SteadyIsDemoting(client.s, w0, w1);
      GateAcross(client.s, w0, w1);
      NoSourceAgain(client.s, w0, w1, k);
      if found.Failure? && found.error != NotFound {
        return Failure(found.error);
      }
      var was := if found.Success? then Some(found.value) else None;
      var rd := Destination(was, owner, k);
      DestinationKeepsAddress(was, owner, k);
      DestinationWrites(was, owner, k);
      if was == Some(rd) {
        assert w0.rds[k := rd] == w0.rds;
        AddressStays(client.s, w0, w1, k);
        return Success(rd);
      }
      var o := StoreDestination(k, was, rd);
      DemotingIsTransitive(client.s, w0, w1, client.w);
      KeptIsTransitive(w0.pvcs, w1.pvcs, client.w.pvcs);
      r := if o.Success? then Success(rd) else Failure(o.error);
    }

    /** Puts the operator's finalizer on claim `k`. A claim that is being deleted accepts no new finalizer. */
    method Protect(k: Key) returns (o: Outcome)
      requires client.Valid() && k.name.App?
      modifies client
      ensures Extends(old(client.trace), client.trace)
      ensures client.Valid() && Steady(client.s, old(client.w), client.w) && client.w.pvs == old(client.w).pvs
      ensures OthersKept(old(client.w).pvcs, client.w.pvcs, k) && client.w.pvcs.Keys <= old(client.w).pvcs.Keys
      ensures o.Success? && k in old(client.w).pvcs && old(client.w).pvcs[k].Held() ==>
        k in client.w.pvcs && Protection in client.w.pvcs[k].finalizers
      ensures client.s.calm && o.Success? ==> client.w == old(client.w).(pvcs := Protected(old(client.w).pvcs, k))
      ensures client.s.calm && o.Failure? ==> client.w == old(client.w)
      ensures client.s.calm && client.s.reliable && !Going(old(client.w).pvcs, k) ==> o.Success?
      ensures o.Failure? ==> o.error.OfCall()
      ensures client.s.reliable && client.s.calm && Going(old(client.w).pvcs, k) ==>
        if Protection in old(client.w).pvcs[k].finalizers then o.Success? else o == Failure(Invalid)
    {
      hide Inv, LegalRun, Rely, Kept, SameSources, SameDestinations, NoNewPods;
      ghost var w0 := client.w;
      var r := client.GetPVC(k);
      ghost var w1 := client.w;
      KeptKeepsOthers(w0.pvcs, w1.pvcs);
      if k in w0.pvcs && w0.pvcs[k].Held() {
        KeptIsHeld(w0.pvcs, w1.pvcs, k);
      }
      if r.Failure? {
        return if r.error == NotFound then OK else Failure(r.error);
      }
      if Protection in r.value.finalizers {
        return OK;
      }
      if r.value.deleting {
        return Failure(Invalid);
      }
      if k in w1.pvcs && w1.pvcs[k] == r.value {
        ProtectionIsLegal(client.s, w1, k);
      }
      hide Legal;
      o := client.UpdatePVC(k, r.value, WithFinalizer(r.value));
      SteadyIsTransitive(client.s, w0, w1, client.w);
      OthersKeptIsTransitive(w0.pvcs, w1.pvcs, client.w.pvcs, k);
    }

    /** Replaces the source of claim `k` by a destination. */
    method ReplaceSource(k: Key) returns (r: Result<RD>)
      requires client.Valid() && Serves() && GateOpen(client.s, client.w)
      modifies client
      ensures Extends(old(client.trace), client.trace)
      ensures client.Valid() && Demoting(client.s, old(client.w), client.w) && Kept(old(client.w).pvcs, client.w.pvcs)
      ensures client.w.pvs == old(client.w).pvs && client.w.pvcs.Keys <= old(client.w).pvcs.Keys
      ensures r.Success? ==> Receiving(client.w, k) && (r.value.address.Some? ==> Addressable(client.w, k))
      ensures client.s.calm && r.Success? ==>
        && r.value == Destination(Found(old(client.w).rds, k), owner, k)
        && client.w == old(client.w).(rss := old(client.w).rss - {k}, rds := old(client.w).rds[k := r.value])
      ensures client.s.calm ==> client.w.pvcs == old(client.w).pvcs
      ensures client.s.calm && client.s.reliable ==> r.Success?
      ensures r.Failure? ==> r.error.OfCall()
    {
      hide Inv, LegalRun, Rely, Kept, GateOpen, Steady, Destination, Demoting, Run, Found, Addressable, SameClaims, Referred;
      ghost var w0 := client.w;
      var o := DeleteSource(k);
      ghost var w1 := client.w;
      if o.Failure? {
        return Failure(o.error);
      }
      GateAcross(client.s, w0, w1);
      r := PutDestination(k);
      DemotingIsTransitive(client.s, w0, w1, client.w);
      KeptIsTransitive(w0.pvcs, w1.pvcs, client.w.pvcs);
    }

    /** Replaces the source of claim `k` by a destination and protects the claim. */
    method TurnIntoDestination(k: Key) returns (r: Result<RD>)
      requires client.Valid() && Serves() && GateOpen(client.s, client.w)
      requires k.name.App? && k in client.w.pvcs && client.w.pvcs[k].Held()
      modifies client
      ensures Extends(old(client.trace), client.trace)
      ensures client.Valid() && Demoting(client.s, old(client.w), client.w)
      ensures OthersKept(old(client.w).pvcs, client.w.pvcs, k)
      ensures client.w.pvs == old(client.w).pvs && client.w.pvcs.Keys <= old(client.w).pvcs.Keys
      ensures r.Success? && r.value.address.Some? ==> Demoted(client.w, k)
      ensures client.s.calm && r.Success? ==>
        && r.value == Destination(Found(old(client.w).rds, k), owner, k)
        && client.w == old(client.w).(rss := old(client.w).rss - {k}, rds := old(client.w).rds[k := r.value],
                                     pvcs := Protected(old(client.w).pvcs, k))
      ensures client.s.calm ==> Unmarked(old(client.w).pvcs, client.w.pvcs)
      ensures client.s.calm && client.s.reliable && !old(client.w).pvcs[k].deleting ==> r.Success?
      ensures r.Failure? ==> r.error.OfCall()
    {
      hide Inv, LegalRun, Rely, Kept, GateOpen, Steady, OthersKept, Destination, Protected, Demoting, Run, SameClaim;
      hide Found, Addressable, Demoted, SameClaims, Referred;
      ghost var w0 := client.w;
      r := ReplaceSource(k);
      ghost var w1 := client.w;
      KeptKeepsOthers(w0.pvcs, w1.pvcs);
      KeptIsHeld(w0.pvcs, w1.pvcs, k);
      ProtectionMarksNothing(w0.pvcs, k);
      hide Unmarked;
      if r.Failure? {
        return;
      }
      var o := Protect(k);
      SteadyIsDemoting(client.s, w1, client.w);
      DemotingIsTransitive(client.s, w0, w1, client.w);
      OthersKeptIsTransitive(w0.pvcs, w1.pvcs, client.w.pvcs, k);
      if o.Failure? {
        return Failure(o.error);
      }
      if r.value.address.Some? {
        DemotionIsComplete(client.s, w1, client.w, k);
      }
    }

    /** Replication stops for a claim that is going away: its volume moves to a stand-in and it is let go. */
    method HandOffClaim(k: Key) returns (o: Outcome)
      requires client.Valid() && GateOpen(client.s, client.w) && Referred(client.s, client.w) && k.name.App?
      modifies client
      ensures Extends(old(client.trace), client.trace)
      ensures client.Valid() && Demoting(client.s, old(client.w), client.w) && Referred(client.s, client.w)
      ensures OthersKept(old(client.w).pvcs, client.w.pvcs, k) && client.w.pvcs.Keys <= old(client.w).pvcs.Keys + {TmpOf(k)}
      ensures client.s.calm ==> Unmarked(old(client.w).pvcs, client.w.pvcs)
      ensures client.s.calm && client.s.reliable ==> client.w == HandOffAfter(old(client.w), k, true, 3)
      ensures o.Failure? ==> o.error.OfCall()
      ensures client.s.calm && client.s.reliable ==> (o.Success? <==> HasVolume(old(client.w), k))
    {
      hide Inv, LegalRun, Rely, Kept, Steady, OthersKept, Referred, GateOpen, HandOffAfter;
      ghost var w0 := client.w;
      GateMeansDone(client.s, w0, k);
      ghost var stage: nat;
      o, stage := CreateTemporary(k, true);
      SteadyIsDemoting(client.s, w0, client.w);
      HandOffMarksNothing(w0, k, stage);
    }

    /** Whether claim `k` is not marked as a stand-in, provided it and, if it is not, its secret exist. */
    method MayReceive(k: Key, secret: string) returns (r: Result<bool>)
      requires client.Valid()
      modifies client
      ensures Extends(old(client.trace), client.trace)
      ensures client.Valid() && Idle(client.s, old(client.w), client.w)
      ensures r.Success? ==> k in old(client.w).pvcs && r.value == (Temporary !in old(client.w).pvcs[k].annotations)
      ensures client.s.calm && r == Success(true) ==> (k.ns, secret) in old(client.w).secrets
      ensures client.s.calm && client.s.reliable && r.Failure? ==>
        k !in old(client.w).pvcs || (k.ns, secret) !in old(client.w).secrets
      ensures r.Failure? ==> r.error.OfCall()
      ensures client.s.calm && client.s.reliable && r.Failure? ==> r.error == if k in old(client.w).pvcs then SecretMissing else NotFound
    {
      hide Idled, Took, Extends, Inv, LegalRun, Rely, Kept, Steady, Referred;
      TracesExtend();
      ghost var w0 := client.w;
      var claim := client.GetPVC(k);
      ghost var w1 := client.w;
      if claim.Failure? {
        return Failure(claim.error);
      }
      if Temporary in claim.value.annotations {
        return Success(false);
      }
      var found := client.SecretExists(k.ns, secret);
      DriftIsTransitive(client.s, w0, w1, client.w);
      OnwardIsTransitive(client.s, w0, w1, client.w);
      return if found.Failure? then Failure(found.error) else if found.value then Success(true) else Failure(SecretMissing);
    }

    /** Turns claim `k` into a destination unless it is marked as a stand-in or its secret is missing. */
    method ReceiveClaim(k: Key, secret: string) returns (r: Result<Option<RD>>)
      requires client.Valid() && Serves() && GateOpen(client.s, client.w) && Referred(client.s, client.w) && k.name.App?
      requires k in client.w.pvcs ==> client.w.pvcs[k].Held()
      modifies client
      ensures Extends(old(client.trace), client.trace)
      ensures client.Valid() && Demoting(client.s, old(client.w), client.w) && Referred(client.s, client.w)
      ensures OthersKept(old(client.w).pvcs, client.w.pvcs, k) && client.w.pvcs.Keys <= old(client.w).pvcs.Keys
      ensures r.Success? && r.value.Some? ==> Demoted(client.w, k)
      ensures client.s.calm ==> Unmarked(old(client.w).pvcs, client.w.pvcs)
      ensures client.s.calm && client.s.reliable && !Going(old(client.w).pvcs, k) ==>
        Received(old(client.w), client.w, owner, k, secret, r)
      ensures r.Failure? ==> r.error.OfCall()
      ensures client.s.calm && client.s.reliable && k !in old(client.w).pvcs ==> r == Failure(NotFound)
      ensures client.s.calm && client.s.reliable && Standing(old(client.w).pvcs, k) && Temporary !in old(client.w).pvcs[k].annotations && (k.ns, secret) !in old(client.w).secrets ==>
        r == Failure(SecretMissing)
    {
      hide Idled, Took, Extends, Inv, LegalRun, Rely, Kept, Steady, OthersKept, Referred, GateOpen, Destination, Demoting, Protected, Demoted, HandOffAfter;
      hide SameClaims, SameClaim, SameSource, SameSources, SameDestinations, NoNewPods, Run;
      TracesExtend();
      ghost var w0 := client.w;
      ghost var exact := client.s.calm && client.s.reliable && !Going(w0.pvcs, k);
      hide Found, Addressable, Received, Going;
      var may := MayReceive(k, secret);
      ghost var w1 := client.w;
      SteadyIsDemoting(client.s, w0, w1);
      KeptKeepsOthers(w0.pvcs, w1.pvcs);
      if may != Success(true) {
        r := if may.Failure? then Failure(may.error) else Success(None);
        if exact {
          NotReceived(w0, owner, k, secret, r);
        }
        return;
      }
      GateAcross(client.s, w0, w1);
      KeptIsHeld(w0.pvcs, w1.pvcs, k);
      var rd := TurnIntoDestination(k);
      DemotingIsTransitive(client.s, w0, w1, client.w);
      OthersKeptIsTransitive(w0.pvcs, w1.pvcs, client.w.pvcs, k);
      ReferredAfterDemoting(client.s, w1, client.w);
      if rd.Failure? {
        return Failure(rd.error);
      }
      if exact {
        ReceivedNow(w0, client.w, owner, k, secret, rd.value);
      }
      return Success(if rd.value.address.Some? then Some(rd.value) else None);
    }

    /** Reconciles claim `k` on the secondary; without a result it is not a ready destination yet. */
    method ReconcileRD(k: Key, secret: string) returns (r: Result<Option<RD>>)
      requires client.Valid() && Serves() && GateOpen(client.s, client.w) && Referred(client.s, client.w)
      modifies client
      ensures Extends(old(client.trace), client.trace)
      ensures client.Valid() && Demoting(client.s, old(client.w), client.w) && Referred(client.s, client.w)
      ensures OthersKept(old(client.w).pvcs, client.w.pvcs, k) && client.w.pvcs.Keys <= old(client.w).pvcs.Keys + {TmpOf(k)}
      ensures r.Success? && r.value.Some? ==> Demoted(client.w, k) && Standing(old(client.w).pvcs, k)
      ensures client.s.calm ==> Unmarked(old(client.w).pvcs, client.w.pvcs)
      ensures client.s.calm && client.s.reliable ==> client.w == AsDestination(old(client.w), owner, k, secret)
      ensures client.s.calm && client.s.reliable && r.Success? ==>
        (r.value.Some? <==> Receivable(old(client.w), k, secret) && Addressable(old(client.w), k))
      ensures client.s.calm && client.s.reliable && Receivable(old(client.w), k, secret) ==> r.Success?
      ensures client.s.calm && client.s.reliable && k.name.Tmp? ==> r.Success?
      ensures client.s.calm && client.s.reliable && Standing(old(client.w).pvcs, k) && (k.ns, secret) in old(client.w).secrets ==> r.Success?
      ensures r.Failure? ==> r.error.OfCall()
      ensures client.s.calm && client.s.reliable && Receivable(old(client.w), k, secret) ==>
        Turned(client.w, k) && DestinationKept(Found(old(client.w).rds, k), client.w.rds[k])
      ensures client.s.calm && client.s.reliable && k.name.App? && Going(old(client.w).pvcs, k) ==>
        if HasVolume(old(client.w), k) then r == Success(None) else r.Failure?
      ensures client.s.calm && client.s.reliable && k.name.App? && k !in old(client.w).pvcs ==> r == Failure(NotFound)
      ensures client.s.calm && client.s.reliable && k.name.App? && Standing(old(client.w).pvcs, k) && Temporary !in old(client.w).pvcs[k].annotations && (k.ns, secret) !in old(client.w).secrets ==>
        r == Failure(SecretMissing)
    {
      hide Inv, LegalRun, Rely, Kept, Steady, OthersKept, Referred, GateOpen, HandOffAfter, Destination, Demoting, Protected;
      ghost var w0 := client.w;
      ProtectionMarksNothing(w0.pvcs, k);
      if Receivable(w0, k, secret) {
        ReceivedMeans(w0, owner, k, secret);
      }
      hide Receivable, Turned, DestinationKept, AsDestination;
      hide Unmarked;
      if k.name.Tmp? {
        var o := DeleteSource(k);
        KeptKeepsOthers(w0.pvcs, client.w.pvcs);
        ReferredAfterDemoting(client.s, w0, client.w);
        return if o.Success? then Success(None) else Failure(o.error);
      }
      var terminating := IsTerminating(k);
      ghost var w1 := client.w;
      SteadyIsDemoting(client.s, w0, w1);
      KeptKeepsOthers(w0.pvcs, w1.pvcs);
      if terminating.Failure? {
        return Failure(terminating.error);
      }
      GateAcross(client.s, w0, w1);
      if terminating.value {
        var o := HandOffClaim(k);
        DemotingIsTransitive(client.s, w0, w1, client.w);
        OthersKeptIsTransitive(w0.pvcs, w1.pvcs, client.w.pvcs, k);
        return if o.Success? then Success(None) else Failure(o.error);
      }
      r := ReceiveClaim(k, secret);
      DemotingIsTransitive(client.s, w0, w1, client.w);
      OthersKeptIsTransitive(w0.pvcs, w1.pvcs, client.w.pvcs, k);
    }

    /** Makes sure that claim `k` carries the owner labels. */
    method EnsureLabels(k: Key) returns (o: Outcome)
      requires client.Valid() && !client.s.relocating && k.name.App?
      modifies client
      ensures Extends(old(client.trace), client.trace)
      ensures client.Valid() && Steady(client.s, old(client.w), client.w) && client.w.pvs == old(client.w).pvs
      ensures OthersKept(old(client.w).pvcs, client.w.pvcs, k) && client.w.pvcs.Keys <= old(client.w).pvcs.Keys
      ensures o.Success? && k in client.w.pvcs ==>
        LabelledFor(owner, client.w.pvcs[k].labels)
      ensures client.s.calm ==>
        client.w == if o.Success? then old(client.w).(pvcs := WithOwner(old(client.w).pvcs, owner, k)) else old(client.w)
      ensures client.s.calm && client.s.reliable ==> o.Success?
    {
      hide Inv, LegalRun, Rely, Kept, SameSources, SameDestinations, NoNewPods;
      ghost var w0 := client.w;
      var r := client.GetPVC(k);
      ghost var w1 := client.w;
      KeptKeepsOthers(w0.pvcs, w1.pvcs);
      if r.Failure? {
        return if r.error == NotFound then OK else Failure(r.error);
      }
      var pvc := r.value;
      if Labelled(pvc.labels, owner) == pvc.labels {
        LabelledClaimIsSame(pvc, owner);
        assert w0.pvcs[k := pvc] == w0.pvcs;
        return OK;
      }
      if k in w1.pvcs && w1.pvcs[k] == pvc {
        LabellingIsLegal(client.s, w1, k, Labelled(pvc.labels, owner));
      }
      LabelledIsOwned(pvc.labels, owner);
      hide Legal, Labelled;
      o := client.UpdatePVC(k, pvc, pvc.(labels := Labelled(pvc.labels, owner)));
      SteadyIsTransitive(client.s, w0, w1, client.w);
      OthersKeptIsTransitive(w0.pvcs, w1.pvcs, client.w.pvcs, k);
    }

    /** Creates or updates the source of claim `k`. Nothing here unpauses a source. */
    method PutSource(k: Key) returns (r: Result<RS>)
      requires client.Valid() && Serves() && !client.s.relocating && k !in client.w.rds
      modifies client
      ensures Extends(old(client.trace), client.trace)
      ensures client.Valid() && SameGroup(old(client.w).vgr, client.w.vgr) && client.w.rds.Keys == old(client.w).rds.Keys
      ensures Kept(old(client.w).pvcs, client.w.pvcs)
      ensures client.w.pvs == old(client.w).pvs && client.w.pvcs.Keys <= old(client.w).pvcs.Keys
      ensures SourceWritten(old(client.w).rss, client.w.rss, k)
      ensures r.Success? ==> Replicating(client.w.rss, k, owner, interval)
      ensures Schedule.Malformed(interval) ==> r.Failure?
      ensures client.s.calm && client.s.reliable && Schedule.WellFormed(interval) ==> r.Success?
      ensures client.s.calm && r.Success? ==>
        && Schedule.CronSpec(interval).Success?
        && r.value == Source(Found(old(client.w).rss, k), owner, k, Schedule.CronSpec(interval).value)
        && client.w == old(client.w).(rss := WithSource(old(client.w).rss, owner, k, Schedule.CronSpec(interval).value))
      ensures client.s.calm && r.Failure? ==> client.w == old(client.w)
      ensures client.s.calm && client.s.reliable ==> (r.Success? <==> Schedule.CronSpec(interval).Success?)
    {
      hide Idled, Took, Extends, Inv, LegalRun, Rely, Kept, NoNewPods, Source, Schedule.CronSpec, SameClaims, Referred, SourceWritten, OtherSources;
      hide Schedule.Keeps, Schedule.WellFormed, Schedule.Malformed, Reads, Replicating;
      TracesExtend();
      ghost var w0 := client.w;
      var found := client.GetRS(k);
      ghost var w1 := client.w;
      SourcesAreNotWritten(w0.rss, w1.rss, k);
      if found.Failure? && found.error != NotFound {
        return Failure(found.error);
      }
      var was := if found.Success? then Some(found.value) else None;
      Schedule.CronSpecKeeps(interval);
      var cron :- Schedule.CronSpec(interval);
      var rs := Source(was, owner, k, cron);
      SourceKeepsPause(was, owner, k, cron, interval);
      if was == Some(rs) {
        SourceIsRead(w0.rss, w1.rss, k, rs, owner, interval);
        return Success(rs);
      }
      hide Settled;
      var o := client.PutRS(k, was, rs);
      KeptIsTransitive(w0.pvcs, w1.pvcs, client.w.pvcs);
      SourceIsWritten(w0.rss, w1.rss, client.w.rss, k, rs, owner, interval);
      r := if o.Success? then Success(rs) else Failure(o.error);
    }

    /** Makes claim `k` a source: no destination any more, labelled, replicated on schedule, protected. */
    method TurnIntoSource(k: Key) returns (r: Result<RS>)
      requires client.Valid() && Serves() && !client.s.relocating && k.name.App?
      modifies client
      ensures Extends(old(client.trace), client.trace)
      ensures client.Valid() && SameGroup(old(client.w).vgr, client.w.vgr)
      ensures OthersKept(old(client.w).pvcs, client.w.pvcs, k)
      ensures client.w.pvs == old(client.w).pvs && client.w.pvcs.Keys <= old(client.w).pvcs.Keys
      ensures SourceWritten(old(client.w).rss, client.w.rss, k) && client.w.rds.Keys <= old(client.w).rds.Keys
      ensures r.Success? ==> Replicating(client.w.rss, k, owner, interval) && k !in client.w.rds
      ensures Schedule.Malformed(interval) ==> r.Failure?
      ensures client.s.calm && r.Success? ==>
        && Schedule.CronSpec(interval).Success?
        && r.value == Source(Found(old(client.w).rss, k), owner, k, Schedule.CronSpec(interval).value)
      ensures client.s.calm && r.Success? ==> client.w == TurnedIntoSource(old(client.w), owner, k, interval)
      ensures client.s.calm && client.s.reliable && !Going(old(client.w).pvcs, k) ==>
        && (r.Success? <==> Schedule.CronSpec(interval).Success?)
        && client.w == TurnedIntoSource(old(client.w), owner, k, interval)
    {
      hide Inv, LegalRun, Rely, Kept, OthersKept, Steady, Source, Schedule.CronSpec, SourceWritten, WithSource, WithOwner;
      hide Protected, SameSources, Policy, Replicating, Run, Going;
      ghost var w0 := client.w;
      var o := DeleteDestination(k);
      ghost var w1 := client.w;
      KeptKeepsOthers(w0.pvcs, w1.pvcs);
      SourcesAreNotWritten(w0.rss, w1.rss, k);
      if o.Failure? {
        return Failure(o.error);
      }
      o := EnsureLabels(k);
      ghost var w2 := client.w;
      LabelsLeaveTheRest(client.s, w1, w2, k);
      OthersKeptIsTransitive(w0.pvcs, w1.pvcs, w2.pvcs, k);
      SourceWrittenIsTransitive(w0.rss, w1.rss, w2.rss, k);
      if o.Failure? {
        return Failure(o.error);
      }
      r := PutSource(k);
      ghost var w3 := client.w;
      KeptKeepsOthers(w2.pvcs, w3.pvcs);
      OthersKeptIsTransitive(w0.pvcs, w2.pvcs, w3.pvcs, k);
      SourceWrittenIsTransitive(w0.rss, w2.rss, w3.rss, k);
      if r.Failure? {
        return;
      }
      o := Protect(k);
      LabelsLeaveTheRest(client.s, w3, client.w, k);
      OthersKeptIsTransitive(w0.pvcs, w3.pvcs, client.w.pvcs, k);
      SourceWrittenIsTransitive(w0.rss, w3.rss, client.w.rss, k);
      LabelsDoNotTerminate(w0.pvcs, owner, k);
      r := if o.Success? then r else Failure(o.error);
    }

    /** Reconciles claim `k` on the primary; without a result it is not replicated. */
    method ReconcileRS(k: Key, secret: string) returns (r: Result<Option<RS>>)
      requires client.Valid() && Serves() && !client.s.relocating
      modifies client
      ensures Extends(old(client.trace), client.trace)
      ensures client.Valid() && SameGroup(old(client.w).vgr, client.w.vgr)
      ensures OthersKept(old(client.w).pvcs, client.w.pvcs, k)
      ensures client.w.pvs == old(client.w).pvs && client.w.pvcs.Keys <= old(client.w).pvcs.Keys
      ensures SourceWritten(old(client.w).rss, client.w.rss, k)
      ensures r.Success? && r.value.Some? ==> Replicating(client.w.rss, k, owner, interval) && k !in client.w.rds
      ensures r == Success(None) ==> k.name.Tmp? || Going(old(client.w).pvcs, k)
      ensures Schedule.Malformed(interval) && r.Success? ==> r.value.None?
      ensures client.w.rds.Keys <= old(client.w).rds.Keys
      ensures client.s.calm && r.Success? && r.value.Some? ==>
        && Schedule.CronSpec(interval).Success?
        && r.value.value == Source(Found(old(client.w).rss, k), owner, k, Schedule.CronSpec(interval).value)
      ensures client.s.calm && r.Success? && r.value.Some? ==>
        BecameSource(old(client.w), client.w, owner, k, interval) && r.value.value.lastSyncTime == client.w.rss[k].lastSyncTime
      ensures client.s.calm && r == Success(None) ==> client.w == old(client.w)
      ensures client.s.calm && client.s.reliable ==> client.w == AsSource(old(client.w), owner, k, secret, interval)
      ensures r.Success? && r.value.Some? ==> k.name.App? && !Going(old(client.w).pvcs, k)
      ensures client.s.calm && r.Success? ==> (r.value.Some? <==> Sendable(old(client.w), k, secret))
      ensures client.s.calm && client.s.reliable ==>
        (r.Success? <==> k.name.Tmp? || Going(old(client.w).pvcs, k) ||
                         (Sendable(old(client.w), k, secret) && Schedule.CronSpec(interval).Success?))
      ensures client.s.calm && client.s.reliable && Standing(old(client.w).pvcs, k) && k.name.App? && (k.ns, secret) !in old(client.w).secrets ==>
        r == Failure(SecretMissing)
    {
      hide Inv, LegalRun, Rely, Kept, OthersKept, Source, Schedule.CronSpec, SourceWritten, WithSource, WithOwner;
      hide Protected, SameSources, SameDestinations, Replicating, Run, Going, TurnedIntoSource, Referred, NoNewPods;
      hide BecameSource, Schedule.Malformed;
      ghost var w0 := client.w;
      if k.name.Tmp? {
        NothingIsWritten(w0, k);
        return Success(None);
      }
      var terminating := IsTerminating(k);
      ghost var w1 := client.w;
      KeptKeepsOthers(w0.pvcs, w1.pvcs);
      SourcesAreNotWritten(w0.rss, w1.rss, k);
      DestinationNamesStay(client.s, w0, w1);
      if terminating.Failure? || terminating.value {
        return if terminating.Failure? then Failure(terminating.error) else Success(None);
      }
      var found := client.SecretExists(k.ns, secret);
      ghost var w2 := client.w;
      KeptIsTransitive(w0.pvcs, w1.pvcs, w2.pvcs);
      KeptKeepsOthers(w0.pvcs, w2.pvcs);
      SameSourcesIsTransitive(w0.rss, w1.rss, w2.rss);
      SourcesAreNotWritten(w0.rss, w2.rss, k);
      DestinationNamesStay(client.s, w1, w2);
      if found.Failure? || !found.value {
        return Failure(if found.Failure? then found.error else SecretMissing);
      }
      var rs := TurnIntoSource(k);
      OthersKeptIsTransitive(w0.pvcs, w2.pvcs, client.w.pvcs, k);
      SourceWrittenIsTransitive(w0.rss, w2.rss, client.w.rss, k);
      if client.s.calm && rs.Success? {
        TurnedIntoSourceMeans(w0, owner, k, interval);
        SourceHasSyncTime(w0, owner, k, interval, rs.value);
      }
      r := if rs.Success? then Success(Some(rs.value)) else Failure(rs.error);
    }

    // ---------- by label ----------

    /** This handler works for the VGR of the cluster, which is being deleted. */
    ghost predicate CleansUp()
      reads client
    {
      client.w.vgr.name == owner.name && client.w.vgr.ns == owner.ns && client.w.vgr.deleting
    }

    /** Deletes the sources of the VGR. */
    method DeleteRSByLabel() returns (o: Outcome)
      requires client.Valid() && CleansUp()
      modifies client
      ensures Extends(old(client.trace), client.trace) && Wrote(old(client.trace), client.trace, [], [], false)
      ensures client.Valid() && SameGroup(old(client.w).vgr, client.w.vgr)
      ensures OwnedSourcesLeft(owner, old(client.w).rss, client.w.rss) && client.w.rds.Keys == old(client.w).rds.Keys
      ensures o.Success? ==> NoSourceOwned(owner, client.w.rss)
      ensures client.s.calm ==> client.w == old(client.w).(rss := client.w.rss)
      ensures client.s.reliable ==> o.Success?
    {
      hide Inv, LegalRun, Rely, Kept, Run, SameClaims, NoNewPods, Lists, OwnedSourcesLeft, NoSourceOwned, Referred, SameSources, SameDestinations, Absent;
      hide Idled, Took, Extends, Wrote, CleanupStep;
      TracesExtend();
      ghost var w0, t0 := client.w, client.trace;
      var list := client.ListRSs(owner.ns, Some(owner.name));
      ghost var w1 := client.w;
      WroteNothing(t0, client.trace, [], [], false);
      SourcesSteady(owner, w0.rss, w1.rss);
      DestinationNamesStay(client.s, w0, w1);
      if list.Failure? {
        return Failure(list.error);
      }
      NoneAbsentYet(w1.rss, list.value);
      var i := 0;
      while i < |list.value|
        invariant Extends(t0, client.trace) && Wrote(t0, client.trace, [], [], false)
        invariant i <= |list.value| && client.Valid() && SameGroup(w0.vgr, client.w.vgr)
        invariant OwnedSourcesLeft(owner, w0.rss, client.w.rss) && client.w.rds.Keys == w0.rds.Keys
        invariant Absent(client.w.rss, list.value, i)
        invariant client.s.calm ==> client.w == w0.(rss := client.w.rss)
      {
        ghost var w2, t2 := client.w, client.trace;
        var d := client.DeleteRS(list.value[i].key);
        WroteOne(t2, client.trace, DeleteRS(list.value[i].key), [], [], false);
        WroteBoth(t0, t2, client.trace, [], [], false);
        SourceDeletionLeaves(owner, w0.rss, w2.rss, client.w.rss, list.value, i);
        if d.Failure? && d.error != NotFound {
          return d;
        }
        OneMoreAbsent(w2.rss, client.w.rss, list.value, i);
        i := i + 1;
      }
      NoSourceLeft(owner, w0.rss, client.w.rss, list.value);
      return OK;
    }

    /** Deletes the destinations of the VGR. */
    method DeleteRDByLabel() returns (o: Outcome)
      requires client.Valid() && CleansUp()
      modifies client
      ensures Extends(old(client.trace), client.trace) && Wrote(old(client.trace), client.trace, [], [], false)
      ensures client.Valid() && SameGroup(old(client.w).vgr, client.w.vgr)
      ensures OwnedDestinationsLeft(owner, old(client.w).rds, client.w.rds) && SameSources(old(client.w).rss, client.w.rss)
      ensures o.Success? ==> NoDestinationOwned(owner, client.w.rds)
      ensures client.s.calm ==> client.w == old(client.w).(rds := client.w.rds)
      ensures client.s.reliable ==> o.Success?
    {
      hide Inv, LegalRun, Rely, Kept, Run, SameClaims, NoNewPods, Lists, OwnedDestinationsLeft, NoDestinationOwned, Referred, SameSources, Absent;
      hide Idled, Took, Extends, Wrote, CleanupStep;
      TracesExtend();
      ghost var w0, t0 := client.w, client.trace;
      var list := client.ListRDs(owner.ns, Some(owner.name));
      ghost var w1 := client.w;
      WroteNothing(t0, client.trace, [], [], false);
      DestinationsSteady(owner, w0.rds, w1.rds);
      if list.Failure? {
        return Failure(list.error);
      }
      NoneAbsentYet(w1.rds, list.value);
      var i := 0;
      while i < |list.value|
        invariant Extends(t0, client.trace) && Wrote(t0, client.trace, [], [], false)
        invariant i <= |list.value| && client.Valid() && SameGroup(w0.vgr, client.w.vgr)
        invariant OwnedDestinationsLeft(owner, w0.rds, client.w.rds) && SameSources(w0.rss, client.w.rss)
        invariant Absent(client.w.rds, list.value, i)
        invariant client.s.calm ==> client.w == w0.(rds := client.w.rds)
      {
        ghost var w2, t2 := client.w, client.trace;
        var d := client.DeleteRD(list.value[i].key);
        WroteOne(t2, client.trace, DeleteRD(list.value[i].key), [], [], false);
        WroteBoth(t0, t2, client.trace, [], [], false);
        SameSourcesIsTransitive(w0.rss, w2.rss, client.w.rss);
        DestinationDeletionLeaves(owner, w0.rds, w2.rds, client.w.rds, list.value, i);
        if d.Failure? && d.error != NotFound {
          return d;
        }
        OneMoreAbsent(w2.rds, client.w.rds, list.value, i);
        i := i + 1;
      }
      NoDestinationLeft(owner, w0.rds, client.w.rds, list.value);
      return OK;
    }

    /** Lets the volume of a claim be reclaimed by deletion. */
    method ReclaimVolume(name: string) returns (o: Outcome)
      requires client.Valid() && CleansUp()
      modifies client
      ensures Extends(old(client.trace), client.trace) && Wrote(old(client.trace), client.trace, [], [name], true)
      ensures client.Valid() && Steady(client.s, old(client.w), client.w)
      ensures client.s.calm ==> client.w == old(client.w) || Confined(old(client.w), client.w, [], [name])
      ensures client.s.calm && client.s.reliable ==> o.Success? && (name in client.w.pvs ==> !client.w.pvs[name].reclaim.Retain?)
      ensures client.s.calm && o.Success? && name in client.w.pvs ==> !client.w.pvs[name].reclaim.Retain?
    {
      hide Inv, LegalRun, Rely, Kept, Run, SameSources, SameDestinations, NoNewPods, Referred, Confined;
      hide Idled, Took, Extends, Wrote, CleanupStep;
      TracesExtend();
      ghost var w0, t0 := client.w, client.trace;
      var pv := client.GetPV(name);
      ghost var w1, t1 := client.w, client.trace;
      WroteNothing(t0, t1, [], [name], true);
      if pv.Failure? && pv.error != NotFound {
        return Failure(pv.error);
      }
      if pv.Failure? || !pv.value.reclaim.Retain? {
        return OK;
      }
      if client.s.calm {
        ReclaimingIsConfined(w0, name, pv.value);
      }
      o := client.UpdatePV(name, pv.value, pv.value.(reclaim := Delete));
      WroteOne(t1, client.trace, UpdatePV(name, pv.value.(reclaim := Delete)), [], [name], true);
      WroteBoth(t0, t1, client.trace, [], [name], true);
      SteadyIsTransitive(client.s, w0, w1, client.w);
    }

    /** Deletes one claim, its finalizer first. That the finalizer could not be removed is ignored. */
    method DiscardClaim(x: Item<PVC>) returns (o: Outcome)
      requires client.Valid() && CleansUp()
      modifies client
      ensures Extends(old(client.trace), client.trace)
      ensures Wrote(old(client.trace), client.trace, [x.key], [x.value.volumeName], true)
      ensures client.Valid() && Steady(client.s, old(client.w), client.w)
      ensures client.s.calm ==> Confined(old(client.w), client.w, [x.key], [x.value.volumeName])
      ensures client.s.calm && client.s.reliable ==>
        && o.Success? && Dismissed(client.w.pvcs, x.key)
        && (x.value.volumeName in client.w.pvs && x.value.volumeName != "" ==> !client.w.pvs[x.value.volumeName].reclaim.Retain?)
      ensures client.s.calm && o.Success? ==>
        && (x.key in client.w.pvcs ==> client.w.pvcs[x.key].deleting)
        && (x.value.volumeName in client.w.pvs && x.value.volumeName != "" ==> !client.w.pvs[x.value.volumeName].reclaim.Retain?)
    {
      hide Inv, LegalRun, Rely, Kept, Run, SameSources, SameDestinations, NoNewPods, Referred, Confined, Unprotected, OthersKept;
      hide Idled, Took, Extends, Wrote, CleanupStep;
      TracesExtend();
      ghost var w0, t0 := client.w, client.trace;
      ghost var keys, volumes := [x.key], [x.value.volumeName];
      NothingWrote(t0, keys, volumes, true);
      NothingHappens(client.s, w0);
      if x.value.volumeName != "" {
        o := ReclaimVolume(x.value.volumeName);
        WroteAmong(t0, client.trace, [], volumes, true, keys, volumes);
        if o.Failure? {
          if client.s.calm {
            ConfinedSteps(w0, client.w, client.w, x.key, x.value.volumeName);
          }
          return;
        }
      }
      ghost var w1, t1 := client.w, client.trace;
      var released := RemoveFinalizer(x.key);
      ghost var w2, t2 := client.w, client.trace;
      WroteAmong(t1, t2, keys, [], false, keys, volumes);
      WroteBoth(t0, t1, t2, keys, volumes, true);
      SteadyIsTransitive(client.s, w0, w1, w2);
      UnprotectingIsConfined(w1, x.key);
      if client.s.calm {
        ConfinedSteps(w0, w1, w2, x.key, x.value.volumeName);
      }
      DeletingIsLegal(client.s, w2, x.key);
      DeletingIsConfined(w2, x.key);
      hide Legal;
      o := client.DeletePVC(x.key);
      WroteOne(t2, client.trace, DeletePVC(x.key), keys, volumes, true);
      WroteBoth(t0, t2, client.trace, keys, volumes, true);
      SteadyIsTransitive(client.s, w0, w2, client.w);
      if client.s.calm {
        ConfinedSteps(w0, w2, client.w, x.key, x.value.volumeName);
      }
      o := if o.Success? || o.error == NotFound then OK else o;
    }

    /** Deletes every claim with the owner label, in any namespace; `listed` are these claims. */
    method DeletePVCsByLabel() returns (o: Outcome, ghost listed: seq<Item<PVC>>)
      requires client.Valid() && CleansUp()
      modifies client
      ensures Extends(old(client.trace), client.trace)
      ensures listed == [] || Lists(listed, Labeled(old(client.w).pvcs, owner.name))
      ensures Wrote(old(client.trace), client.trace, Keys(listed), VolumesOf(listed), true)
      ensures client.Valid() && Steady(client.s, old(client.w), client.w)
      ensures client.s.calm ==> Confined(old(client.w), client.w, Keys(listed), VolumesOf(listed))
      ensures client.s.calm && client.s.reliable ==>
        o.Success? && Lists(listed, Labeled(old(client.w).pvcs, owner.name)) && Discharged(client.w, Keys(listed), VolumesOf(listed))
      ensures client.s.calm && o.Success? ==>
        Lists(listed, Labeled(old(client.w).pvcs, owner.name)) && GivenUp(client.w, Keys(listed), VolumesOf(listed))
    {
      hide Inv, LegalRun, Rely, Kept, Run, SameSources, SameDestinations, NoNewPods, Referred, Confined, Discharged, Dismissed, GivenUp;
      hide Lists, Keys, VolumesOf, Distinct, Labeled, Matching;
      listed := [];
      hide Idled, Took, Extends, Wrote, CleanupStep;
      TracesExtend();
      ghost var w0, t0 := client.w, client.trace;
      NothingHappens(client.s, w0);
      NothingConfined(w0);
      var list := client.ListPVCs(map[Owner := owner.name], None, None);
      LabeledIsMatching(w0.pvcs, owner.name);
      WroteNothing(t0, client.trace, Keys(if list.Success? then list.value else []), VolumesOf(if list.Success? then list.value else []), true);
      if list.Failure? {
        return Failure(list.error), listed;
      }
      listed := list.value;
      ListedOnce(listed, Labeled(w0.pvcs, owner.name));
      var i := 0;
      while i < |list.value|
        invariant Extends(t0, client.trace) && Wrote(t0, client.trace, Keys(listed), VolumesOf(listed), true)
        invariant i <= |list.value| && client.Valid() && Steady(client.s, w0, client.w) && listed == list.value
        invariant client.s.calm ==> Confined(w0, client.w, Keys(list.value[..i]), VolumesOf(list.value[..i]))
        invariant client.s.calm ==> GivenUp(client.w, Keys(list.value[..i]), VolumesOf(list.value[..i]))
        invariant client.s.calm && client.s.reliable ==> Discharged(client.w, Keys(list.value[..i]), VolumesOf(list.value[..i]))
      {
        ghost var w1, t1 := client.w, client.trace;
        var x := list.value[i];
        o := DiscardClaim(x);
        ListedIsNamed(listed, i);
        WroteAmong(t1, client.trace, [x.key], [x.value.volumeName], true, Keys(listed), VolumesOf(listed));
        WroteBoth(t0, t1, client.trace, Keys(listed), VolumesOf(listed), true);
        SteadyIsTransitive(client.s, w0, w1, client.w);
        NextVolume(list.value, i);
        if client.s.calm {
          ConfinedIsTransitive(w0, w1, client.w, Keys(list.value[..i]), VolumesOf(list.value[..i]), x.key, x.value.volumeName);
          ConfinedInList(w0, client.w, list.value, i + 1);
          if o.Success? {
            OneMoreGivenUp(w1, client.w, Keys(list.value[..i]), VolumesOf(list.value[..i]), x.key, x.value.volumeName);
          }
          if client.s.reliable {
            OneMoreDischarged(w1, client.w, Keys(list.value[..i]), VolumesOf(list.value[..i]), x.key, x.value.volumeName);
          }
        }
        if o.Failure? {
          return;
        }
        i := i + 1;
      }
      assert list.value[..|list.value|] == list.value;
      return OK, listed;
    }

    /** Takes the operator's finalizer off every claim with the owner label; `listed` are these claims. */
    method RemoveFinalizersFromPVCsByLabel() returns (o: Outcome, ghost listed: seq<Item<PVC>>)
      requires client.Valid() && CleansUp()
      modifies client
      ensures Extends(old(client.trace), client.trace)
      ensures listed == [] || Lists(listed, Labeled(old(client.w).pvcs, owner.name))
      ensures Wrote(old(client.trace), client.trace, Keys(listed), [], false)
      ensures client.Valid() && Steady(client.s, old(client.w), client.w)
      ensures client.s.calm ==> Released(old(client.w), client.w, Keys(listed))
      ensures client.s.calm && o.Success? ==>
        Lists(listed, Labeled(old(client.w).pvcs, owner.name)) && Unheld(client.w.pvcs, Keys(listed))
      ensures client.s.calm && client.s.reliable ==> o.Success?
    {
      hide Inv, LegalRun, Rely, Kept, Run, SameSources, SameDestinations, NoNewPods, Referred, Released, Unheld, OthersKept;
      hide Lists, Keys, VolumesOf, Labeled, Matching, Unprotected;
      listed := [];
      hide Idled, Took, Extends, Wrote, CleanupStep;
      TracesExtend();
      ghost var w0, t0 := client.w, client.trace;
      NothingHappens(client.s, w0);
      NothingReleased(w0);
      NothingConfined(w0);
      var list := client.ListPVCs(map[Owner := owner.name], None, None);
      LabeledIsMatching(w0.pvcs, owner.name);
      WroteNothing(t0, client.trace, Keys(if list.Success? then list.value else []), [], false);
      if list.Failure? {
        return Failure(list.error), listed;
      }
      listed := list.value;
      var i := 0;
      while i < |list.value|
        invariant Extends(t0, client.trace) && Wrote(t0, client.trace, Keys(listed), [], false)
        invariant i <= |list.value| && client.Valid() && Steady(client.s, w0, client.w) && listed == list.value
        invariant client.s.calm ==> Released(w0, client.w, Keys(list.value[..i])) && Unheld(client.w.pvcs, Keys(list.value[..i]))
      {
        ghost var w1, t1 := client.w, client.trace;
        var k := list.value[i].key;
        o := RemoveFinalizer(k);
        ListedIsNamed(listed, i);
        WroteAmong(t1, client.trace, [k], [], false, Keys(listed), []);
        WroteBoth(t0, t1, client.trace, Keys(listed), [], false);
        SteadyIsTransitive(client.s, w0, w1, client.w);
        NextVolume(list.value, i);
        UnprotectingReleases(w1, k);
        if client.s.calm {
          NothingReleasedFor(w1, k);
          ReleasedIsTransitive(w0, w1, client.w, Keys(list.value[..i]), k);
          ReleasedInList(w0, client.w, list.value, i + 1);
        }
        if o.Failure? {
          return;
        }
        i := i + 1;
      }
      assert list.value[..|list.value|] == list.value;
      return OK, listed;
    }
  }

  /** A reconcile may work: the copy of the VGR is good, and the handler works for it. */
  ghost predicate Attached(client: Cluster, copy: GroupCopy, vsHandler: VSHandler)
    reads client, copy
  {
    && client.Valid() && Referred(client.s, client.w)
    && copy.client == client && copy.Tracks() && copy.base.finalizer
    && vsHandler.client == client && vsHandler.owner.name == copy.base.name && vsHandler.owner.ns == copy.base.ns
    && (client.s.relocating ==> Relocation(copy.base, client.w.vrgs))
  }
}
