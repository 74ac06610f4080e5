/** The reconcile of a VGR that is being deleted. */
module DeletionSide {

  import opened Names
  import opened Objects
  import opened System
  import opened Protocol
  import opened Api
  import opened Demotion
  import opened Cleanup
  import opened Handler
  import opened Wrappers

  class DeleteReconciler {
    const client: Cluster
    const vgr: VGR
    const vsHandler: VSHandler

    constructor (client: Cluster, vgr: VGR, vsHandler: VSHandler)
      ensures this.client == client && this.vgr == vgr && this.vsHandler == vsHandler
    {
      this.client := client;
      this.vgr := vgr;
      this.vsHandler := vsHandler;
    }

    /** `vgr` is what was read of the VGR, which is being deleted. */
    ghost predicate Ready()
      reads client
    {
      client.Valid() && SameGroup(vgr, client.w.vgr) && vgr.deleting && vsHandler.client == client && vsHandler.owner == vgr
    }

    /** On the secondary the claims go with the VGR; on the primary they only lose the operator's finalizer. */
    method HandlePVCDeletion() returns (o: Outcome, ghost listed: seq<Item<PVC>>)
      requires Ready()
      modifies client
      ensures Ready() && Steady(client.s, old(client.w), client.w)
      ensures listed == [] || Lists(listed, Labeled(old(client.w).pvcs, vgr.name))
      ensures WroteByRole(vgr, old(client.trace), client.trace, listed)
      ensures client.s.calm ==> CleanedUp(vgr, old(client.w), client.w, listed) && client.w.vgr == old(client.w).vgr
      ensures client.s.calm && client.s.reliable ==> o.Success? && Finished(vgr, old(client.w), client.w, listed)
      ensures client.s.calm && o.Success? ==> WoundUp(vgr, old(client.w), client.w, listed)
    {
      hide Inv, LegalRun, Rely, Run, SameSources, SameDestinations, NoNewPods, Confined, Discharged, GivenUp, Released, Unheld, Lists, Keys, VolumesOf, Labeled;
      hide Wrote, Extends;
      ghost var w0 := client.w;
      if vgr.role == Secondary {
        o, listed := vsHandler.DeletePVCsByLabel();
      } else {
        o, listed := vsHandler.RemoveFinalizersFromPVCsByLabel();
      }
      if client.s.calm {
        ClaimsAreCleanedUp(vgr, w0, client.w, listed);
      }
    }

    /**
     Cleans up and then takes the operator's finalizer off the VGR. Whatever happens meanwhile, it writes only claims
     that carried the VGR's label when they were listed and, as secondary, their volumes; on the primary it deletes no
     claim and changes no volume. A run without faults completes from whatever an interrupted one has left.
     */
    method Reconcile() returns (o: Outcome, ghost listed: seq<Item<PVC>>)
      requires Ready()
      modifies client
      ensures client.Valid() && Referred(client.s, client.w)
      ensures OwnedSourcesLeft(vgr, old(client.w).rss, client.w.rss)
      ensures forall x :: x in listed ==> OwnedBy(vgr.name, x.value.labels)
      ensures WroteByRole(vgr, old(client.trace), client.trace, listed)
      ensures o.Success? ==> !client.w.vgr.finalizer && NothingOwned(client.w.vgr, client.w.rss, client.w.rds)
      ensures client.s.calm ==> CleanedUp(vgr, old(client.w), client.w, listed) && OwnedDestinationsLeft(vgr, old(client.w).rds, client.w.rds)
      ensures client.s.calm && client.s.reliable && old(client.w).vgr == vgr ==>
        o.Success? && Finished(vgr, old(client.w), client.w, listed)
      ensures client.s.calm && o.Success? ==> WoundUp(vgr, old(client.w), client.w, listed)
    {
      hide Inv, LegalRun, Rely, Run, SameSources, SameDestinations, NoNewPods, Kept, Referred, OwnedSourcesLeft, OwnedDestinationsLeft, CleanedUp, Finished, WoundUp;
      hide NoSourceOwned, NoDestinationOwned, Legal, NothingOwned, Lists, Wrote, WroteByRole, Extends, Took;
      listed := [];
      ghost var w0, t0 := client.w, client.trace;
      NothingCleanedUp(vgr, w0);
      DeletedIsReferred(client.s, w0);
      o := vsHandler.DeleteRSByLabel();
      ghost var w1, t1 := client.w, client.trace;
      CleanupWroteByRole(vgr, t0, t1);
      DeletedIsReferred(client.s, w1);
      if client.s.calm {
        DestinationsAsBefore(vgr, w0, w1);
      }
      if o.Failure? {
        return;
      }
      o := vsHandler.DeleteRDByLabel();
      ghost var w2, t2 := client.w, client.trace;
      CleanupWroteByRole(vgr, t1, t2);
      RoleWroteBoth(vgr, t0, t1, t2, []);
      DeletedIsReferred(client.s, w2);
      SourcesSteady(vgr, w1.rss, w2.rss);
      SourcesLeftIsTransitive(vgr, w0.rss, w1.rss, w2.rss);
      if client.s.calm {
        NothingCleanedUp(vgr, w2);
        CleanedUpAcross(vgr, w0, w2, w2, []);
      }
      if o.Failure? {
        return;
      }
      o, listed := HandlePVCDeletion();
      ghost var w3, t3 := client.w, client.trace;
      RoleWroteMore(vgr, t0, t2, listed);
      RoleWroteBoth(vgr, t0, t2, t3, listed);
      LabelsOfListed(listed, w2.pvcs, vgr.name);
      DeletedIsReferred(client.s, w3);
      SteadyIsOwnedSteady(client.s, vgr, w0, w2, w3);
      if client.s.calm {
        CleanedUpAcross(vgr, w0, w2, w3, listed);
      }
      if o.Failure? {
        return;
      }
      FinalizerMayGo(client.s, w3, vgr);
      o := client.UpdateFinalizer(vgr, false);
      FinalizerWroteByRole(vgr, t3, client.trace, listed);
      RoleWroteBoth(vgr, t0, t3, client.trace, listed);
      DeletedIsReferred(client.s, client.w);
      FinalizerLeavesTheRest(client.s, vgr, w0, w3, client.w, o.Success?);
      if client.s.calm {
        FinalizerKeepsCleanedUp(vgr, w0, w3, client.w, listed);
      }
    }
  }

  /**
   What a deletion has written between two traces: sources, destinations and the finalizer are taken away; only the listed
   claims are written; only a secondary deletes them, and changes their volumes.
   */
  ghost predicate WroteByRole(vgr: VGR, t: seq<Step>, u: seq<Step>, listed: seq<Item<PVC>>) {
    if vgr.role == Secondary then Wrote(t, u, Keys(listed), VolumesOf(listed), true) else Wrote(t, u, Keys(listed), [], false)
  }

  lemma CleanupWroteByRole(vgr: VGR, t: seq<Step>, u: seq<Step>)
    requires Wrote(t, u, [], [], false)
    ensures WroteByRole(vgr, t, u, [])
  {
    hide Wrote;
    WroteAmong(t, u, [], [], false, Keys<PVC>([]), VolumesOf([]));
    WroteAmong(t, u, [], [], false, Keys<PVC>([]), []);
  }

  lemma RoleWroteMore(vgr: VGR, t: seq<Step>, u: seq<Step>, listed: seq<Item<PVC>>)
    requires WroteByRole(vgr, t, u, [])
    ensures WroteByRole(vgr, t, u, listed)
  {
    hide Wrote;
    if vgr.role == Secondary {
      WroteAmong(t, u, Keys<PVC>([]), VolumesOf([]), true, Keys(listed), VolumesOf(listed));
    } else {
      WroteAmong(t, u, Keys<PVC>([]), [], false, Keys(listed), []);
    }
  }

  lemma RoleWroteBoth(vgr: VGR, t: seq<Step>, u: seq<Step>, v: seq<Step>, listed: seq<Item<PVC>>)
    requires WroteByRole(vgr, t, u, listed) && WroteByRole(vgr, u, v, listed)
    ensures WroteByRole(vgr, t, v, listed)
  {
    hide Wrote, Keys, VolumesOf;
    if vgr.role == Secondary {
      WroteBoth(t, u, v, Keys(listed), VolumesOf(listed), true);
    } else {
      WroteBoth(t, u, v, Keys(listed), [], false);
    }
  }

  lemma FinalizerWroteByRole(vgr: VGR, t: seq<Step>, u: seq<Step>, listed: seq<Item<PVC>>)
    requires Took(t, u, SetFinalizer(false))
    ensures WroteByRole(vgr, t, u, listed)
  {
    hide Wrote, Took, Keys, VolumesOf;
    WroteOne(t, u, SetFinalizer(false), Keys(listed), VolumesOf(listed), true);
    WroteOne(t, u, SetFinalizer(false), Keys(listed), [], false);
  }

  lemma LabelsOfListed(listed: seq<Item<PVC>>, pvcs: ClaimMap, owner: string)
    requires listed == [] || Lists(listed, Labeled(pvcs, owner))
    ensures forall x :: x in listed ==> OwnedBy(owner, x.value.labels)
  {
  }

  /** What the deletion may have touched so far, without interference: nothing without the label. */
  ghost predicate CleanedUp(vgr: VGR, w: World, v: World, listed: seq<Item<PVC>>) {
    && v.pods == w.pods && v.vrgs == w.vrgs && v.content == w.content && v.remote == w.remote
    && (listed == [] || Lists(listed, Labeled(w.pvcs, vgr.name)))
    && (if vgr.role == Secondary then Confined(w.(rss := v.rss, rds := v.rds, vgr := v.vgr), v, Keys(listed), VolumesOf(listed))
        else Released(w.(rss := v.rss, rds := v.rds, vgr := v.vgr), v, Keys(listed)))
  }

  /** What the deletion has done when it is complete. */
  ghost predicate Finished(vgr: VGR, w: World, v: World, listed: seq<Item<PVC>>) {
    && Lists(listed, Labeled(w.pvcs, vgr.name))
    && (if vgr.role == Secondary then Discharged(v, Keys(listed), VolumesOf(listed)) else Unheld(v.pvcs, Keys(listed)))
  }

  /** What a deletion that succeeds has done in any case; a fault may have left the operator's finalizer on a claim that is being deleted. */
  ghost predicate WoundUp(vgr: VGR, w: World, v: World, listed: seq<Item<PVC>>) {
    && Lists(listed, Labeled(w.pvcs, vgr.name))
    && (if vgr.role == Secondary then GivenUp(v, Keys(listed), VolumesOf(listed)) else Unheld(v.pvcs, Keys(listed)))
  }

  lemma NothingCleanedUp(vgr: VGR, w: World)
    ensures CleanedUp(vgr, w, w, []) && OwnedSourcesLeft(vgr, w.rss, w.rss) && OwnedDestinationsLeft(vgr, w.rds, w.rds)
  {
  }

  lemma DeletedIsReferred(s: Setting, w: World)
    ensures w.vgr.deleting ==> Referred(s, w)
  {
  }

  lemma DestinationsAsBefore(vgr: VGR, w: World, v: World)
    requires v == w.(rss := v.rss)
    ensures CleanedUp(vgr, w, v, []) && OwnedDestinationsLeft(vgr, w.rds, v.rds)
  {
  }

  lemma CleanedUpAcross(vgr: VGR, w: World, u: World, v: World, listed: seq<Item<PVC>>)
    requires u == w.(rss := u.rss, rds := u.rds) && CleanedUp(vgr, u, v, listed)
    ensures CleanedUp(vgr, w, v, listed) && (Finished(vgr, u, v, listed) ==> Finished(vgr, w, v, listed))
    ensures WoundUp(vgr, u, v, listed) ==> WoundUp(vgr, w, v, listed)
  {
    hide Confined, Released, Lists, Labeled, Keys, VolumesOf, Discharged, GivenUp, Unheld;
    assert w.(rss := v.rss, rds := v.rds, vgr := v.vgr) == u.(rss := v.rss, rds := v.rds, vgr := v.vgr);
  }

  lemma SteadyIsOwnedSteady(s: Setting, vgr: VGR, w: World, u: World, v: World)
    requires Steady(s, u, v) && OwnedSourcesLeft(vgr, w.rss, u.rss)
    ensures OwnedSourcesLeft(vgr, w.rss, v.rss)
    ensures OwnedDestinationsLeft(vgr, w.rds, u.rds) ==> OwnedDestinationsLeft(vgr, w.rds, v.rds)
    ensures NoSourceOwned(vgr, u.rss) ==> NoSourceOwned(vgr, v.rss)
    ensures NoDestinationOwned(vgr, u.rds) ==> NoDestinationOwned(vgr, v.rds)
  {
    SourcesSteady(vgr, u.rss, v.rss);
    DestinationsSteady(vgr, u.rds, v.rds);
  }

  lemma FinalizerMayGo(s: Setting, w: World, vgr: VGR)
    requires w.vgr == vgr ==> vgr.deleting
    requires SameGroup(vgr, w.vgr) && NoSourceOwned(vgr, w.rss) && NoDestinationOwned(vgr, w.rds)
    ensures w.vgr == vgr ==> Legal(s, w, SetFinalizer(false))
  {
  }

  lemma ClaimsAreCleanedUp(vgr: VGR, w: World, v: World, listed: seq<Item<PVC>>)
    requires listed == [] || Lists(listed, Labeled(w.pvcs, vgr.name))
    requires if vgr.role == Secondary then Confined(w, v, Keys(listed), VolumesOf(listed)) else Released(w, v, Keys(listed))
    ensures CleanedUp(vgr, w, v, listed) && v.vgr == w.vgr
  {
    hide Keys, VolumesOf, Lists, Labeled, ReleasedClaims;
    assert w.(rss := w.rss, rds := w.rds, vgr := w.vgr) == w;
  }

  lemma FinalizerKeepsConfined(w: World, u: World, v: World, keys: seq<Key>, volumes: seq<string>)
    requires v == u.(vgr := v.vgr) && Confined(w.(rss := u.rss, rds := u.rds, vgr := u.vgr), u, keys, volumes)
    ensures Confined(w.(rss := v.rss, rds := v.rds, vgr := v.vgr), v, keys, volumes)
  {
  }

  lemma FinalizerKeepsReleased(w: World, u: World, v: World, keys: seq<Key>)
    requires v == u.(vgr := v.vgr) && Released(w.(rss := u.rss, rds := u.rds, vgr := u.vgr), u, keys)
    ensures Released(w.(rss := v.rss, rds := v.rds, vgr := v.vgr), v, keys)
  {
    hide ReleasedClaims;
  }

  lemma FinalizerKeepsCleanedUp(vgr: VGR, w: World, u: World, v: World, listed: seq<Item<PVC>>)
    requires v == u.(vgr := v.vgr) && CleanedUp(vgr, w, u, listed)
    ensures CleanedUp(vgr, w, v, listed) && (Finished(vgr, w, u, listed) ==> Finished(vgr, w, v, listed))
    ensures WoundUp(vgr, w, u, listed) ==> WoundUp(vgr, w, v, listed)
  {
    hide Keys, VolumesOf, Lists, Labeled, Confined, Released;
    if vgr.role == Secondary {
      FinalizerKeepsConfined(w, u, v, Keys(listed), VolumesOf(listed));
    } else {
      FinalizerKeepsReleased(w, u, v, Keys(listed));
    }
  }

  lemma FinalizerLeavesTheRest(s: Setting, vgr: VGR, w: World, u: World, v: World, done: bool)
    requires Steady(s, if done then u.(vgr := vgr.(finalizer := false)) else u, v) && (done ==> u.vgr == vgr)
    requires OwnedSourcesLeft(vgr, w.rss, u.rss) && NoSourceOwned(vgr, u.rss) && NoDestinationOwned(vgr, u.rds)
    ensures OwnedSourcesLeft(vgr, w.rss, v.rss)
    ensures done ==> !v.vgr.finalizer && NothingOwned(v.vgr, v.rss, v.rds)
  {
    hide NoNewPods, OwnedSourcesLeft, SameSources;
    SourcesSteady(vgr, u.rss, v.rss);
    SourcesLeftIsTransitive(vgr, w.rss, u.rss, v.rss);
    DestinationsSteady(vgr, u.rds, v.rds);
  }
}
