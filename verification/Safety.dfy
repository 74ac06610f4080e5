/** Every event and every legal step keeps the invariant, so every state of every legal run satisfies it. */
module Safety {

  import opened Names
  import opened Objects
  import opened System
  import opened Protocol

  // ---------- the environment ----------

  lemma ClaimsStay(s: Setting, pvs: map<string, PV>, w: ClaimMap, v: ClaimMap)
    requires SameClaims(w, v) && Claims(s, w, pvs) && StoreWellFormed(w)
    ensures Claims(s, v, pvs)
  {
    assert forall c :: c in w && w[c].Held() ==> c in v && v[c].Held();
    assert forall k :: k in s.group ==> NamedAt(s.group[k], w, k);
    forall k | k in s.group
      ensures NamedAt(s.group[k], v, k)
    {
      assert Standing(w, TmpOf(k)) ==> w[TmpOf(k)].Held();
    }
  }

  lemma SelectionStays(g: Group, sel: Selector, rss: SourceMap, w: ClaimMap, v: ClaimMap)
    requires SameClaims(w, v) && Selected(g, sel, w) && KeptUntilDone(g, w, rss)
    ensures Selected(g, sel, v) && KeptUntilDone(g, v, rss)
  {
    assert forall c :: c in w && w[c].Held() ==> c in v && v[c].Held();
  }

  /** A change of claims only: the invariant is that of the claims and what relocation asks of them. */
  lemma ClaimsCompose(s: Setting, w: World, pvcs: ClaimMap)
    requires Inv(s, w) && StoreWellFormed(pvcs) && (s.plain ==> PlainStandIns(pvcs))
    requires !w.vgr.deleting ==> Claims(s, pvcs, w.pvs)
    requires !w.vgr.deleting && s.relocating ==>
      w.vgr.selector.Some? && Selected(s.group, w.vgr.selector.value, pvcs) && KeptUntilDone(s.group, pvcs, w.rss)
    ensures Inv(s, w.(pvcs := pvcs))
  {
    hide StoreWellFormed, GroupWellFormed, Exclusive, Guarded, Claims, Relocation, StableSelector, Selected, AppPods;
    hide StampsAreFinal, Frozen, Lossless, KeptUntilDone, GroupDone;
  }

  /** What the lemmas about one change of claims need of the invariant. */
  lemma ClaimParts(s: Setting, w: World)
    requires Inv(s, w)
    ensures GroupWellFormed(s.group, w.vgr.ns) && StoreWellFormed(w.pvcs) && (s.plain ==> PlainStandIns(w.pvcs))
    ensures !w.vgr.deleting ==> Claims(s, w.pvcs, w.pvs)
    ensures !w.vgr.deleting && s.relocating ==>
      w.vgr.selector.Some? && Selected(s.group, w.vgr.selector.value, w.pvcs) && KeptUntilDone(s.group, w.pvcs, w.rss)
  {
    hide StoreWellFormed, GroupWellFormed, Claims, Selected, KeptUntilDone;
  }

  /** Claims that only get marked, released or removed when nobody holds them. */
  lemma ClaimChangeKeeps(s: Setting, w: World, pvcs: ClaimMap)
    requires Inv(s, w) && SameClaims(w.pvcs, pvcs) && StoreWellFormed(pvcs) && (s.plain ==> PlainStandIns(pvcs))
    ensures Inv(s, w.(pvcs := pvcs)) && Rely(s, w, w.(pvcs := pvcs))
  {
    hide Inv, Rely, SameClaims, Claims, Selected, KeptUntilDone, StoreWellFormed, GroupWellFormed, PlainStandIns;
    ClaimParts(s, w);
    if !w.vgr.deleting {
      ClaimsStay(s, w.pvs, w.pvcs, pvcs);
      if s.relocating {
        SelectionStays(s.group, w.vgr.selector.value, w.rss, w.pvcs, pvcs);
      }
    }
    ClaimsCompose(s, w, pvcs);
    ClaimChangeIsReliable(s, w, pvcs);
  }

  lemma ClaimChangeIsReliable(s: Setting, w: World, pvcs: ClaimMap)
    requires SameClaims(w.pvcs, pvcs)
    ensures Rely(s, w, w.(pvcs := pvcs))
  {
    hide SameClaims;
  }

  lemma StoringIsClaimChange(pvcs: ClaimMap, c: Key, q: PVC)
    requires c in pvcs && SameClaim(pvcs[c], q) && StoreWellFormed(pvcs)
    ensures SameClaims(pvcs, StoreClaim(pvcs, c, q)) && StoreWellFormed(StoreClaim(pvcs, c, q))
  {
  }

  lemma SourcesStay(g: Group, ns: string, pods: PodMap, pvcs: ClaimMap, w: SourceMap, v: SourceMap)
    requires SameSources(w, v) && StampsAreFinal(w, ns) && Frozen(g, w, pods) && KeptUntilDone(g, pvcs, w)
    requires forall k :: k in g ==> k.ns == ns
    ensures Frozen(g, v, pods) && KeptUntilDone(g, pvcs, v)
    ensures forall k :: k in g && Done(w, k) ==> Done(v, k)
  {
  }

  lemma SyncKeepsStampsFinal(w: World, k: Key, time: int)
    requires StampsAreFinal(w.rss, w.vgr.ns)
    ensures StampsAreFinal(Sync(w, k, time).rss, w.vgr.ns)
  {
  }

  /** A sync that leaves group source `k` with the stamp has just copied the stand-in's volume. */
  lemma StampedSyncSaves(s: Setting, w: World, k: Key, time: int)
    requires k in s.group && k.ns == w.vgr.ns && NamedAt(s.group[k], w.pvcs, k)
    requires StampsAreFinal(w.rss, w.vgr.ns) && Frozen(s.group, w.rss, w.pods)
    requires Done(w.rss, k) ==> Safe(s.group[k], w.pods, w.content, w.remote, k)
    requires Done(Sync(w, k, time).rss, k)
    ensures var v := Sync(w, k, time); Safe(s.group[k], v.pods, v.content, v.remote, k)
  {
    hide Quiet;
  }

  lemma SyncSaves(s: Setting, w: World, k: Key, time: int)
    requires GroupWellFormed(s.group, w.vgr.ns) && Named(s.group, w.pvcs)
    requires StampsAreFinal(w.rss, w.vgr.ns) && Frozen(s.group, w.rss, w.pods)
    requires Lossless(s.group, w.rss, w.pods, w.content, w.remote)
    ensures var v := Sync(w, k, time); Lossless(s.group, v.rss, v.pods, v.content, v.remote)
  {
    var v := Sync(w, k, time);
    hide StampsAreFinal, Frozen, Quiet;
    forall l | l in s.group && Done(v.rss, l)
      ensures Safe(s.group[l], v.pods, v.content, v.remote, l)
    {
      if l == k {
        assert NamedAt(s.group[k], w.pvcs, k);
        StampedSyncSaves(s, w, k, time);
      } else {
        assert Safe(s.group[l], w.pods, w.content, w.remote, l);
      }
    }
  }

  lemma SourceChangeIsReliable(s: Setting, w: World, v: World)
    requires SameSources(w.rss, v.rss) && v == w.(rss := v.rss, content := v.content, remote := v.remote)
    ensures Rely(s, w, v)
  {
    hide SameSources;
  }

  lemma SourceNamesStay(vgr: VGR, rds: map<Key, RD>, w: SourceMap, v: SourceMap)
    requires SameSources(w, v) && Exclusive(w, rds) && Guarded(vgr, w, rds)
    ensures Exclusive(v, rds) && Guarded(vgr, v, rds)
  {
  }

  lemma SyncChangesStampsOnly(w: World, k: Key, time: int)
    ensures var v := Sync(w, k, time);
      SameSources(w.rss, v.rss) && v == w.(rss := v.rss, content := v.content, remote := v.remote)
  {
  }

  lemma SyncKeeps(s: Setting, w: World, k: Key, time: int)
    requires Inv(s, w)
    ensures Inv(s, Sync(w, k, time)) && Rely(s, w, Sync(w, k, time))
  {
    var v := Sync(w, k, time);
    SyncChangesStampsOnly(w, k, time);
    SourceChangeIsReliable(s, w, v);
    SourceNamesStay(w.vgr, w.rds, w.rss, v.rss);
    if !w.vgr.deleting && s.relocating {
      SyncSaves(s, w, k, time);
      SyncKeepsStampsFinal(w, k, time);
      SourcesStay(s.group, w.vgr.ns, w.pods, w.pvcs, w.rss, v.rss);
    }
    hide Sync, Rely, Selected, KeptUntilDone, AppPods, Claims, Lossless, Frozen, StampsAreFinal, SameSources, Exclusive, Guarded;
  }

  /** An application pod that writes a group volume mounts a claim that is not quiet, so not yet done. */
  lemma PodWriteSaves(s: Setting, w: World, p: Key, claim: Name)
    requires GroupWellFormed(s.group, w.vgr.ns) && Claims(s, w.pvcs, w.pvs) && Relocating(s.group, w)
    ensures var v := PodWrite(w, p, claim);
      Lossless(s.group, v.rss, v.pods, v.content, v.remote)
  {
    hide Selected, KeptUntilDone, Relocation, Named, Anchored, StampsAreFinal, Frozen;
    var v := PodWrite(w, p, claim);
    forall k | k in s.group && Done(v.rss, k)
      ensures Safe(s.group[k], v.pods, v.content, v.remote, k)
    {
      assert Safe(s.group[k], w.pods, w.content, w.remote, k);
    }
  }

  lemma PodWriteKeeps(s: Setting, w: World, p: Key, claim: Name)
    requires Inv(s, w)
    ensures Inv(s, PodWrite(w, p, claim)) && Rely(s, w, PodWrite(w, p, claim))
  {
    var v := PodWrite(w, p, claim);
    assert Rely(s, w, v);
    if !w.vgr.deleting && s.relocating {
      PodWriteSaves(s, w, p, claim);
      hide Lossless;
    }
  }

  lemma PodChangeKeeps(s: Setting, w: World, pods: PodMap)
    requires Inv(s, w) && (s.relocating ==> NoNewPods(w.pods, pods))
    ensures Inv(s, w.(pods := pods)) && Rely(s, w, w.(pods := pods))
  {
    hide Selected, KeptUntilDone, Claims, Exclusive, Guarded, StampsAreFinal;
  }

  lemma DestinationChangeKeeps(s: Setting, w: World, rds: map<Key, RD>)
    requires Inv(s, w) && SameDestinations(w.rds, rds)
    ensures Inv(s, w.(rds := rds)) && Rely(s, w, w.(rds := rds))
  {
    assert Exclusive(w.rss, rds) && Guarded(w.vgr, w.rss, rds);
    hide SameDestinations, Exclusive, Guarded, Claims, Selected, KeptUntilDone, AppPods, Lossless, Frozen, StampsAreFinal;
  }

  lemma GroupChangeKeeps(s: Setting, w: World, vgr: VGR)
    requires Inv(s, w) && SameGroup(w.vgr, vgr)
    ensures Inv(s, w.(vgr := vgr)) && Rely(s, w, w.(vgr := vgr))
  {
    hide Claims, Selected, KeptUntilDone, AppPods, Lossless, Frozen, StampsAreFinal, Exclusive;
  }

  lemma PolicyChangeKeeps(s: Setting, w: World, vrgs: map<Key, VRG>, secrets: set<(string, string)>)
    requires Inv(s, w) && (s.relocating ==> vrgs == w.vrgs)
    ensures Inv(s, w.(vrgs := vrgs, secrets := secrets)) && Rely(s, w, w.(vrgs := vrgs, secrets := secrets))
  {
    hide Claims, Selected, KeptUntilDone, AppPods, Lossless, Frozen, StampsAreFinal, Exclusive, Guarded;
  }

  lemma EventsKeepStandInsPlain(s: Setting, pvcs: ClaimMap, k: Key, e: Event)
    requires k in pvcs && (e.FinalizerAdded? ==> e.k == k) && StoreWellFormed(pvcs)
    ensures s.plain && PlainStandIns(pvcs) ==> PlainStandIns(StoreClaim(pvcs, k, Changed(s, pvcs[k], e)))
  {
  }

  lemma ClaimEventKeeps(s: Setting, w: World, k: Key, e: Event)
    requires Inv(s, w) && (e.FinalizerAdded? ==> e.k == k)
    ensures Inv(s, StoreChanged(s, w, k, e)) && Rely(s, w, StoreChanged(s, w, k, e))
  {
    hide Inv, Rely, StoreClaim, StoreWellFormed, PlainStandIns, SameClaims, GroupWellFormed, Claims, Selected, KeptUntilDone;
    ClaimParts(s, w);
    if k in w.pvcs {
      StoringIsClaimChange(w.pvcs, k, Changed(s, w.pvcs[k], e));
      EventsKeepStandInsPlain(s, w.pvcs, k, e);
      ClaimChangeKeeps(s, w, StoreClaim(w.pvcs, k, Changed(s, w.pvcs[k], e)));
    } else {
      NothingChanges(s, w);
    }
  }

  lemma NothingChanges(s: Setting, w: World)
    ensures Rely(s, w, w)
  {
  }

  lemma StartedPodsAreNotNew(s: Setting, pods: PodMap, k: Key, pod: Pod)
    requires s.relocating
    ensures NoNewPods(pods, Started(s, pods, k, pod)) && NoNewPods(pods, pods - {k})
  {
  }

  lemma AddressedDestinationsStay(rds: map<Key, RD>, k: Key, address: string)
    ensures SameDestinations(rds, Addressed(rds, k, address))
  {
  }

  lemma PolicyEventKeeps(s: Setting, w: World, e: Event)
    requires Inv(s, w) && (e.VrgChanges? || e.RoleChanges? || e.GroupDeleted? || e.SecretsChange?)
    ensures Inv(s, Occur(s, w, e)) && Rely(s, w, Occur(s, w, e))
  {
    hide Inv, Rely;
    var v := Occur(s, w, e);
    match e
    case VrgChanges(k, vrg) => PolicyChangeKeeps(s, w, v.vrgs, w.secrets);
    case RoleChanges(role) => GroupChangeKeeps(s, w, v.vgr);
    case GroupDeleted => GroupChangeKeeps(s, w, v.vgr);
    case SecretsChange(secrets) => PolicyChangeKeeps(s, w, w.vrgs, secrets);
  }

  lemma PodEventKeeps(s: Setting, w: World, e: Event)
    requires Inv(s, w) && (e.PodLeaves? || e.PodStarts? || e.AddressAssigned?)
    ensures Inv(s, Occur(s, w, e)) && Rely(s, w, Occur(s, w, e))
  {
    hide Inv, Rely, NoNewPods, Started, Addressed, SameDestinations;
    match e
    case PodLeaves(k) =>
      if s.relocating { StartedPodsAreNotNew(s, w.pods, k, Pod([], true)); }
      PodChangeKeeps(s, w, w.pods - {k});
    case PodStarts(k, pod) =>
      if s.relocating { StartedPodsAreNotNew(s, w.pods, k, pod); }
      PodChangeKeeps(s, w, Started(s, w.pods, k, pod));
    case AddressAssigned(k, address) =>
      AddressedDestinationsStay(w.rds, k, address);
      DestinationChangeKeeps(s, w, Addressed(w.rds, k, address));
  }

  lemma EventKeeps(s: Setting, w: World, e: Event)
    requires Inv(s, w)
    ensures Inv(s, Occur(s, w, e)) && Rely(s, w, Occur(s, w, e))
  {
    hide Inv, Rely, Sync, PodWrite, StoreChanged, Started, Addressed;
    if e.UserDeletesClaim? || e.FinalizerAdded? || e.FinalizerReleased? || e.PhaseChanges? {
      ClaimEventKeeps(s, w, e.k, e);
    } else if e.PodLeaves? || e.PodStarts? || e.AddressAssigned? {
      PodEventKeeps(s, w, e);
    } else if e.PodWrites? {
      PodWriteKeeps(s, w, e.k, e.claim);
    } else if e.SourceSyncs? {
      SyncKeeps(s, w, e.k, e.time);
    } else {
      PolicyEventKeeps(s, w, e);
    }
  }

  // ---------- the operator ----------

  lemma CreateKeepsClaims(s: Setting, w: World, c: Key, p: PVC)
    requires GroupWellFormed(s.group, w.vgr.ns) && Claims(s, w.pvcs, w.pvs) && StoreWellFormed(w.pvcs)
    requires p.finalizers == {}
    requires c !in w.pvcs && !p.deleting && LegalCreate(s, w, c, p)
    ensures Claims(s, w.pvcs[c := p], w.pvs)
  {
    var v := w.pvcs[c := p];
    forall k | k in s.group
      ensures NamedAt(s.group[k], v, k)
    {
      assert NamedAt(s.group[k], w.pvcs, k);
    }
  }

  lemma CreateKeepsSelection(s: Setting, w: World, c: Key, p: PVC)
    requires s.relocating && GroupWellFormed(s.group, w.vgr.ns) && w.vgr.selector.Some?
    requires Selected(s.group, w.vgr.selector.value, w.pvcs) && KeptUntilDone(s.group, w.pvcs, w.rss)
    requires c !in w.pvcs && LegalCreate(s, w, c, p)
    ensures Selected(s.group, w.vgr.selector.value, w.pvcs[c := p])
    ensures KeptUntilDone(s.group, w.pvcs[c := p], w.rss)
  {
  }

  lemma CreateKeeps(s: Setting, w: World, c: Key, p: PVC)
    requires Inv(s, w) && Legal(s, w, CreatePVC(c, p))
    ensures Inv(s, w.(pvcs := w.pvcs[c := p]))
  {
    hide Inv, Claims, Selected, KeptUntilDone, GroupWellFormed, LegalCreate;
    ClaimParts(s, w);
    assert StoreWellFormed(w.pvcs[c := p]);
    hide StoreWellFormed;
    if !w.vgr.deleting {
      CreateKeepsClaims(s, w, c, p);
      if s.relocating {
        CreateKeepsSelection(s, w, c, p);
      }
    }
    ClaimsCompose(s, w, w.pvcs[c := p]);
  }

  lemma UpdateKeepsNames(s: Setting, w: World, c: Key, p: PVC)
    requires GroupWellFormed(s.group, w.vgr.ns) && OwnVolumes(s.group, w.pvcs) && Named(s.group, w.pvcs)
    requires c in w.pvcs && p.volumeName == w.pvcs[c].volumeName
    ensures OwnVolumes(s.group, StoreClaim(w.pvcs, c, p)) && Named(s.group, StoreClaim(w.pvcs, c, p))
  {
    forall k | k in s.group
      ensures NamedAt(s.group[k], StoreClaim(w.pvcs, c, p), k)
    {
      assert NamedAt(s.group[k], w.pvcs, k);
    }
  }

  lemma UpdateKeepsAnchors(s: Setting, w: World, c: Key, p: PVC)
    requires GroupWellFormed(s.group, w.vgr.ns) && Anchored(s.group, w.pvcs, w.pvs)
    requires c in w.pvcs && p.deleting == w.pvcs[c].deleting && LegalUpdate(s, w, c, p) && s.reliable && s.plain
    ensures Anchored(s.group, StoreClaim(w.pvcs, c, p), w.pvs)
  {
    hide Matches;
    forall k | k in s.group
      ensures AnchoredAt(s.group[k], StoreClaim(w.pvcs, c, p), w.pvs, k)
    {
      assert AnchoredAt(s.group[k], w.pvcs, w.pvs, k);
    }
  }

  lemma UpdateKeepsClaims(s: Setting, w: World, c: Key, p: PVC)
    requires GroupWellFormed(s.group, w.vgr.ns) && Claims(s, w.pvcs, w.pvs)
    requires c in w.pvcs && p.deleting == w.pvcs[c].deleting && LegalUpdate(s, w, c, p)
    ensures Claims(s, StoreClaim(w.pvcs, c, p), w.pvs)
  {
    UpdateKeepsNames(s, w, c, p);
    if s.reliable && s.plain {
      UpdateKeepsAnchors(s, w, c, p);
    }
    hide OwnVolumes, Named, Anchored, LegalUpdate, StoreClaim;
  }

  lemma UpdateKeepsSelection(s: Setting, w: World, c: Key, p: PVC)
    requires s.relocating && GroupWellFormed(s.group, w.vgr.ns) && w.vgr.selector.Some?
    requires Selected(s.group, w.vgr.selector.value, w.pvcs) && KeptUntilDone(s.group, w.pvcs, w.rss)
    requires c in w.pvcs && p.deleting == w.pvcs[c].deleting && LegalUpdate(s, w, c, p)
    ensures Selected(s.group, w.vgr.selector.value, StoreClaim(w.pvcs, c, p))
    ensures KeptUntilDone(s.group, StoreClaim(w.pvcs, c, p), w.rss)
  {
  }

  lemma UpdateKeeps(s: Setting, w: World, c: Key, p: PVC)
    requires Inv(s, w) && Legal(s, w, UpdatePVC(c, p))
    ensures Inv(s, w.(pvcs := StoreClaim(w.pvcs, c, p)))
  {
    hide Inv, Claims, Selected, KeptUntilDone, GroupWellFormed, LegalUpdate;
    ClaimParts(s, w);
    assert StoreWellFormed(StoreClaim(w.pvcs, c, p));
    hide StoreWellFormed, StoreClaim;
    if !w.vgr.deleting {
      UpdateKeepsClaims(s, w, c, p);
      if s.relocating {
        UpdateKeepsSelection(s, w, c, p);
      }
    }
    ClaimsCompose(s, w, StoreClaim(w.pvcs, c, p));
  }

  lemma DeleteKeepsClaims(s: Setting, w: World, c: Key)
    requires GroupWellFormed(s.group, w.vgr.ns) && Claims(s, w.pvcs, w.pvs) && StoreWellFormed(w.pvcs) && LegalDelete(s, w, c)
    ensures Claims(s, RequestDeletion(w.pvcs, c), w.pvs)
  {
    var v := RequestDeletion(w.pvcs, c);
    assert OwnVolumes(s.group, v);
    forall k | k in s.group
      ensures NamedAt(s.group[k], v, k)
    {
      assert NamedAt(s.group[k], w.pvcs, k);
    }
    if s.reliable && s.plain {
      forall k | k in s.group
        ensures AnchoredAt(s.group[k], v, w.pvs, k)
      {
        assert AnchoredAt(s.group[k], w.pvcs, w.pvs, k);
      }
    }
  }

  lemma DeleteKeepsSelection(s: Setting, w: World, c: Key)
    requires s.relocating && GroupWellFormed(s.group, w.vgr.ns) && w.vgr.selector.Some?
    requires Selected(s.group, w.vgr.selector.value, w.pvcs) && KeptUntilDone(s.group, w.pvcs, w.rss)
    requires LegalDelete(s, w, c)
    ensures Selected(s.group, w.vgr.selector.value, RequestDeletion(w.pvcs, c))
    ensures KeptUntilDone(s.group, RequestDeletion(w.pvcs, c), w.rss)
  {
  }

  lemma DeleteKeeps(s: Setting, w: World, c: Key)
    requires Inv(s, w) && Legal(s, w, DeletePVC(c))
    ensures Inv(s, w.(pvcs := RequestDeletion(w.pvcs, c)))
  {
    hide Inv, Claims, Selected, KeptUntilDone, GroupWellFormed, LegalDelete;
    ClaimParts(s, w);
    assert StoreWellFormed(RequestDeletion(w.pvcs, c));
    hide StoreWellFormed, RequestDeletion;
    if !w.vgr.deleting {
      DeleteKeepsClaims(s, w, c);
      if s.relocating {
        DeleteKeepsSelection(s, w, c);
      }
    }
    ClaimsCompose(s, w, RequestDeletion(w.pvcs, c));
  }

  lemma VolumeKeeps(s: Setting, w: World, name: string, pv: PV)
    requires Inv(s, w) && Legal(s, w, UpdatePV(name, pv))
    ensures Inv(s, w.(pvs := w.pvs[name := pv]))
  {
    if !w.vgr.deleting && s.reliable && s.plain {
      forall k | k in s.group
        ensures AnchoredAt(s.group[k], w.pvcs, w.pvs[name := pv], k)
      {
        assert AnchoredAt(s.group[k], w.pvcs, w.pvs, k);
      }
    }
    hide Named, OwnVolumes, Selected, KeptUntilDone, StoreWellFormed, Exclusive, Guarded, Lossless, Frozen, StampsAreFinal, AppPods;
  }

  /** A write that keeps the stamp and either keeps trigger and source or starts the final sync. */
  lemma SourceWriteKeepsStamps(s: Setting, w: World, k: Key, rs: RS)
    requires s.relocating && !w.vgr.deleting && LegalSource(s, w, k, rs)
    requires StampsAreFinal(w.rss, w.vgr.ns) && Frozen(s.group, w.rss, w.pods) && KeptUntilDone(s.group, w.pvcs, w.rss)
    requires forall l :: l in s.group ==> l.ns == w.vgr.ns
    ensures var v := w.rss[k := Settled(rs)];
      && v.Keys == w.rss.Keys && (forall l :: l in s.group ==> Done(v, l) == Done(w.rss, l))
      && StampsAreFinal(v, w.vgr.ns) && Frozen(s.group, v, w.pods) && KeptUntilDone(s.group, w.pvcs, v)
  {
    hide Quiet;
    var v := w.rss[k := Settled(rs)];
    assert v.Keys == w.rss.Keys;
    assert k.ns == w.vgr.ns ==> v[k].Stamped() == w.rss[k].Stamped();
    assert forall l :: l in s.group ==> Done(v, l) == Done(w.rss, l);
  }

  lemma LosslessDependsOnDone(g: Group, w: SourceMap, v: SourceMap, pods: PodMap, content: map<string, nat>, remote: map<Key, nat>)
    requires Lossless(g, w, pods, content, remote)
    requires forall l :: l in g && Done(v, l) ==> Done(w, l)
    ensures Lossless(g, v, pods, content, remote)
  {
    hide Safe, Done;
  }

  lemma SourcesCompose(s: Setting, w: World, rss: SourceMap)
    requires Inv(s, w) && Exclusive(rss, w.rds) && Guarded(w.vgr, rss, w.rds)
    requires !w.vgr.deleting && s.relocating ==>
      && StampsAreFinal(rss, w.vgr.ns) && Frozen(s.group, rss, w.pods) && KeptUntilDone(s.group, w.pvcs, rss)
      && (forall k :: k in s.group && Done(rss, k) ==> Done(w.rss, k))
      && (w.vgr.status.state == SecondaryState ==> GroupDone(s.group, rss))
    ensures Inv(s, w.(rss := rss))
  {
    hide StoreWellFormed, GroupWellFormed, Exclusive, Guarded, Claims, Relocation, StableSelector, Selected, AppPods;
    hide StampsAreFinal, Frozen, Lossless, KeptUntilDone, GroupDone, Done;
    if !w.vgr.deleting && s.relocating {
      LosslessDependsOnDone(s.group, w.rss, rss, w.pods, w.content, w.remote);
    }
  }

  /** What the lemmas about one change of sources need of the invariant. */
  lemma SourceParts(s: Setting, w: World)
    requires Inv(s, w)
    ensures GroupWellFormed(s.group, w.vgr.ns) && Exclusive(w.rss, w.rds) && Guarded(w.vgr, w.rss, w.rds)
    ensures !w.vgr.deleting && s.relocating ==>
      && StampsAreFinal(w.rss, w.vgr.ns) && Frozen(s.group, w.rss, w.pods) && KeptUntilDone(s.group, w.pvcs, w.rss)
      && (w.vgr.status.state == SecondaryState ==> GroupDone(s.group, w.rss))
  {
    hide GroupWellFormed, Exclusive, Guarded, StampsAreFinal, Frozen, KeptUntilDone, GroupDone;
  }

  lemma SourceWriteKeepsNames(s: Setting, w: World, k: Key, rs: RS)
    requires Exclusive(w.rss, w.rds) && Guarded(w.vgr, w.rss, w.rds) && LegalSource(s, w, k, rs)
    ensures Exclusive(w.rss[k := Settled(rs)], w.rds) && Guarded(w.vgr, w.rss[k := Settled(rs)], w.rds)
  {
    hide FinalSyncWrite;
  }

  lemma SourceWriteKeeps(s: Setting, w: World, k: Key, rs: RS)
    requires Inv(s, w) && Legal(s, w, PutRS(k, rs))
    ensures Inv(s, w.(rss := w.rss[k := Settled(rs)]))
  {
    hide Inv, Exclusive, Guarded, LegalSource, StampsAreFinal, Frozen, KeptUntilDone, Done, Settled;
    SourceParts(s, w);
    SourceWriteKeepsNames(s, w, k, rs);
    if !w.vgr.deleting && s.relocating {
      SourceWriteKeepsStamps(s, w, k, rs);
    }
    SourcesCompose(s, w, w.rss[k := Settled(rs)]);
  }

  lemma SourceDeletionKeepsStamps(g: Group, ns: string, rss: SourceMap, pods: PodMap, pvcs: ClaimMap, k: Key)
    requires AllStamped(rss, ns) || GroupDone(g, rss)
    requires forall l :: l in g ==> l.ns == ns
    requires StampsAreFinal(rss, ns) && Frozen(g, rss, pods) && KeptUntilDone(g, pvcs, rss)
    ensures var v := rss - {k};
      && (forall l :: l in g && Done(v, l) ==> Done(rss, l))
      && StampsAreFinal(v, ns) && Frozen(g, v, pods) && KeptUntilDone(g, pvcs, v)
      && (GroupDone(g, rss) ==> GroupDone(g, v))
  {
    hide Quiet;
  }

  lemma SourceDeletionKeeps(s: Setting, w: World, k: Key)
    requires Inv(s, w) && Legal(s, w, DeleteRS(k))
    ensures Inv(s, w.(rss := w.rss - {k}))
  {
    hide Inv, StampsAreFinal, Frozen, KeptUntilDone, Done, AllStamped, GroupDone;
    var v := w.rss - {k};
    SourceParts(s, w);
    assert Exclusive(v, w.rds) && Guarded(w.vgr, v, w.rds);
    hide Exclusive, Guarded;
    if !w.vgr.deleting && s.relocating {
      SourceDeletionKeepsStamps(s.group, w.vgr.ns, w.rss, w.pods, w.pvcs, k);
    }
    SourcesCompose(s, w, v);
  }

  lemma DestinationKeeps(s: Setting, w: World, k: Key, rd: RD)
    requires Inv(s, w) && Legal(s, w, PutRD(k, rd))
    ensures Inv(s, w.(rds := w.rds[k := rd]))
  {
    assert Guarded(w.vgr, w.rss, w.rds[k := rd]) && Exclusive(w.rss, w.rds[k := rd]);
    hide Guarded, Exclusive, Claims, StoreWellFormed, Selected, AppPods, Lossless, Frozen, StampsAreFinal, KeptUntilDone;
  }

  lemma DestinationDeletionKeeps(s: Setting, w: World, k: Key)
    requires Inv(s, w)
    ensures Inv(s, w.(rds := w.rds - {k}))
  {
    assert Guarded(w.vgr, w.rss, w.rds - {k}) && Exclusive(w.rss, w.rds - {k});
    hide Guarded, Exclusive, Claims, StoreWellFormed, Selected, AppPods, Lossless, Frozen, StampsAreFinal, KeptUntilDone;
  }

  lemma StatusKeeps(s: Setting, w: World, status: Status)
    requires Inv(s, w) && Legal(s, w, SetStatus(status))
    ensures Inv(s, w.(vgr := w.vgr.(status := status)))
  {
    hide Claims, Selected, KeptUntilDone, StoreWellFormed, Exclusive, Frozen, StampsAreFinal, AppPods, Lossless;
  }

  lemma FinalizerKeeps(s: Setting, w: World, present: bool)
    requires Inv(s, w) && Legal(s, w, SetFinalizer(present))
    ensures Inv(s, w.(vgr := w.vgr.(finalizer := present)))
  {
    hide Claims, Selected, KeptUntilDone, StoreWellFormed, Exclusive, Frozen, StampsAreFinal, AppPods, Lossless;
  }

  lemma StepKeeps(s: Setting, w: World, step: Step)
    requires Inv(s, w) && Legal(s, w, step)
    ensures Inv(s, Apply(s, w, step))
  {
    hide Inv, Legal, StoreClaim, RequestDeletion, Occur;
    match step
    case CreatePVC(k, p) => CreateKeeps(s, w, k, p);
    case UpdatePVC(k, p) => UpdateKeeps(s, w, k, p);
    case DeletePVC(k) => DeleteKeeps(s, w, k);
    case UpdatePV(name, pv) => VolumeKeeps(s, w, name, pv);
    case PutRS(k, rs) => SourceWriteKeeps(s, w, k, rs);
    case DeleteRS(k) => SourceDeletionKeeps(s, w, k);
    case PutRD(k, rd) => DestinationKeeps(s, w, k, rd);
    case DeleteRD(k) => DestinationDeletionKeeps(s, w, k);
    case DeletePod(k) => EventKeeps(s, w, PodLeaves(k)); PodLeavesIsPodDeletion(s, w, k);
    case DeleteJob(k) => JobsAreIrrelevant(s, w, w.jobs - {k});
    case SetStatus(status) => StatusKeeps(s, w, status);
    case SetFinalizer(present) => FinalizerKeeps(s, w, present);
    case Environment(e) => EventKeeps(s, w, e);
  }

  lemma PodLeavesIsPodDeletion(s: Setting, w: World, k: Key)
    ensures Occur(s, w, PodLeaves(k)) == w.(pods := w.pods - {k})
  {
  }

  lemma JobsAreIrrelevant(s: Setting, w: World, jobs: set<Key>)
    requires Inv(s, w)
    ensures Inv(s, w.(jobs := jobs))
  {
    hide Claims, Selected, KeptUntilDone, StoreWellFormed, Exclusive, Guarded, Frozen, StampsAreFinal, AppPods, Lossless;
  }

  /** Safety over whole runs: whatever the environment does, a legal run never leaves the invariant. */
  lemma {:induction false} RunsAreSafe(s: Setting, start: World, trace: seq<Step>, n: nat)
    requires Inv(s, start) && LegalRun(s, start, trace) && n <= |trace|
    ensures LegalRun(s, start, trace[..n]) && Inv(s, Run(s, start, trace[..n]))
  {
    hide Inv, Legal, Apply;
    var last := |trace| - 1;
    if n == |trace| {
      assert trace[..n] == trace;
      if n > 0 {
        RunsAreSafe(s, start, trace[..last], last);
        assert trace[..last][..last] == trace[..last];
        StepKeeps(s, Run(s, start, trace[..last]), trace[last]);
      }
    } else {
      RunsAreSafe(s, start, trace[..last], n);
      assert trace[..last][..n] == trace[..n];
    }
  }
}
