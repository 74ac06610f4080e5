/** What the deletion of a VGR removes, and what it leaves alone. */
module Cleanup {

  import opened Names
  import opened Objects
  import opened System
  import opened Protocol
  import opened Api
  import opened Handoff
  import opened Demotion
  import opened Wrappers

  // ---------- what a cleanup writes ----------

  /** A step of a cleanup: claims and volumes are only written if they are named, and claims only deleted if `discard`. */
  predicate CleanupStep(step: Step, claims: seq<Key>, volumes: seq<string>, discard: bool) {
    match step
    case Environment(_) => true
    case DeleteRS(_) => true
    case DeleteRD(_) => true
    case SetFinalizer(present) => !present
    case UpdatePVC(k, _) => k in claims
    case DeletePVC(k) => discard && k in claims
    case UpdatePV(name, _) => name in volumes
    case _ => false
  }

  /** Between two traces there are only such steps. */
  ghost predicate Wrote(t: seq<Step>, u: seq<Step>, claims: seq<Key>, volumes: seq<string>, discard: bool) {
    t <= u && forall i :: |t| <= i < |u| ==> CleanupStep(u[i], claims, volumes, discard)
  }

  lemma WroteNothing(t: seq<Step>, u: seq<Step>, claims: seq<Key>, volumes: seq<string>, discard: bool)
    requires Idled(t, u)
    ensures Wrote(t, u, claims, volumes, discard)
  {
  }

  lemma NothingWrote(t: seq<Step>, claims: seq<Key>, volumes: seq<string>, discard: bool)
    ensures Wrote(t, t, claims, volumes, discard)
  {
  }

  lemma WroteOne(t: seq<Step>, u: seq<Step>, step: Step, claims: seq<Key>, volumes: seq<string>, discard: bool)
    requires Took(t, u, step) && CleanupStep(step, claims, volumes, discard)
    ensures Wrote(t, u, claims, volumes, discard)
  {
  }

  lemma WroteBoth(t: seq<Step>, u: seq<Step>, v: seq<Step>, claims: seq<Key>, volumes: seq<string>, discard: bool)
    requires Wrote(t, u, claims, volumes, discard) && Wrote(u, v, claims, volumes, discard)
    ensures Wrote(t, v, claims, volumes, discard)
  {
    hide CleanupStep;
    assert forall i :: |t| <= i < |u| ==> v[i] == u[i];
  }

  lemma WroteAmong(t: seq<Step>, u: seq<Step>, claims: seq<Key>, volumes: seq<string>, discard: bool,
                   moreClaims: seq<Key>, moreVolumes: seq<string>)
    requires Wrote(t, u, claims, volumes, discard)
    requires (forall c :: c in claims ==> c in moreClaims) && (forall v :: v in volumes ==> v in moreVolumes)
    ensures Wrote(t, u, moreClaims, moreVolumes, discard) && Wrote(t, u, moreClaims, moreVolumes, true)
  {
  }

  predicate Owned(vgr: VGR, k: Key, labels: Labels) {
    k.ns == vgr.ns && OwnedBy(vgr.name, labels)
  }

  /** Only sources of the VGR are gone. */
  ghost predicate OwnedSourcesLeft(vgr: VGR, w: SourceMap, v: SourceMap) {
    && (forall k :: k in v ==> k in w && SameSource(w[k], v[k]))
    && (forall k :: k in w && !Owned(vgr, k, w[k].labels) ==> k in v)
  }

  ghost predicate NoSourceOwned(vgr: VGR, rss: SourceMap) {
    forall k :: k in rss ==> !Owned(vgr, k, rss[k].labels)
  }

  /** Only destinations of the VGR are gone. */
  ghost predicate OwnedDestinationsLeft(vgr: VGR, w: map<Key, RD>, v: map<Key, RD>) {
    && (forall k :: k in v ==> k in w && v[k].labels == w[k].labels)
    && (forall k :: k in w && !Owned(vgr, k, w[k].labels) ==> k in v)
  }

  ghost predicate NoDestinationOwned(vgr: VGR, rds: map<Key, RD>) {
    forall k :: k in rds ==> !Owned(vgr, k, rds[k].labels)
  }

  lemma SourcesLeftIsTransitive(vgr: VGR, u: SourceMap, v: SourceMap, w: SourceMap)
    requires OwnedSourcesLeft(vgr, u, v) && OwnedSourcesLeft(vgr, v, w)
    ensures OwnedSourcesLeft(vgr, u, w)
  {
  }

  lemma SourcesSteady(vgr: VGR, w: SourceMap, v: SourceMap)
    requires SameSources(w, v)
    ensures OwnedSourcesLeft(vgr, w, v) && (NoSourceOwned(vgr, w) ==> NoSourceOwned(vgr, v))
  {
  }

  lemma DestinationsSteady(vgr: VGR, w: map<Key, RD>, v: map<Key, RD>)
    requires SameDestinations(w, v)
    ensures OwnedDestinationsLeft(vgr, w, v) && (NoDestinationOwned(vgr, w) ==> NoDestinationOwned(vgr, v))
  {
  }

  /** The listed sources up to the i-th are gone. */
  ghost predicate Absent<V, U>(m: map<Key, V>, list: seq<Item<U>>, i: nat) {
    forall j :: 0 <= j < i && j < |list| ==> list[j].key !in m
  }

  lemma NoneAbsentYet<V, U>(m: map<Key, V>, list: seq<Item<U>>)
    ensures Absent(m, list, 0)
  {
  }

  lemma DestinationNamesStay(s: Setting, w: World, v: World)
    requires Steady(s, w, v)
    ensures SameGroup(w.vgr, v.vgr) && v.rds.Keys == w.rds.Keys
  {
  }

  lemma OneMoreAbsent<V, U>(w: map<Key, V>, v: map<Key, V>, list: seq<Item<U>>, i: nat)
    requires i < |list| && Absent(w, list, i) && v.Keys <= w.Keys && list[i].key !in v
    ensures Absent(v, list, i + 1)
  {
  }

  lemma SourceDeletionLeaves(vgr: VGR, w: SourceMap, u: SourceMap, v: SourceMap, list: seq<Item<RS>>, i: nat)
    requires i < |list| && Lists(list, OwnedSources(InNamespace(w, vgr.ns), Some(vgr.name)))
    requires OwnedSourcesLeft(vgr, w, u) && Shrunk(u, v) && v.Keys >= u.Keys - {list[i].key}
    ensures OwnedSourcesLeft(vgr, w, v)
  {
    assert list[i] in list;
  }

  lemma DestinationDeletionLeaves(vgr: VGR, w: map<Key, RD>, u: map<Key, RD>, v: map<Key, RD>, list: seq<Item<RD>>, i: nat)
    requires i < |list| && Lists(list, OwnedDestinations(InNamespace(w, vgr.ns), Some(vgr.name)))
    requires OwnedDestinationsLeft(vgr, w, u) && v.Keys <= u.Keys && v.Keys >= u.Keys - {list[i].key}
    requires forall k :: k in v ==> v[k].labels == u[k].labels
    ensures OwnedDestinationsLeft(vgr, w, v)
  {
    assert list[i] in list;
  }

  lemma NoSourceLeft(vgr: VGR, w: SourceMap, v: SourceMap, list: seq<Item<RS>>)
    requires Lists(list, OwnedSources(InNamespace(w, vgr.ns), Some(vgr.name)))
    requires OwnedSourcesLeft(vgr, w, v) && Absent(v, list, |list|)
    ensures NoSourceOwned(vgr, v)
  {
    forall k | k in w && Owned(vgr, k, w[k].labels)
      ensures k !in v
    {
      assert Item(k, OwnedSources(InNamespace(w, vgr.ns), Some(vgr.name))[k]) in list;
    }
  }

  lemma NoDestinationLeft(vgr: VGR, w: map<Key, RD>, v: map<Key, RD>, list: seq<Item<RD>>)
    requires Lists(list, OwnedDestinations(InNamespace(w, vgr.ns), Some(vgr.name)))
    requires OwnedDestinationsLeft(vgr, w, v) && Absent(v, list, |list|)
    ensures NoDestinationOwned(vgr, v)
  {
    forall k | k in w && Owned(vgr, k, w[k].labels)
      ensures k !in v
    {
      assert Item(k, OwnedDestinations(InNamespace(w, vgr.ns), Some(vgr.name))[k]) in list;
    }
  }

  // ---------- claims ----------

  function VolumesOf(items: seq<Item<PVC>>): seq<string> {
    if items == [] then [] else VolumesOf(items[..|items| - 1]) + [items[|items| - 1].value.volumeName]
  }

  /** At most the named claims have changed, and at most the reclaim policy of the named volumes. */
  ghost predicate Confined(w: World, v: World, keys: seq<Key>, volumes: seq<string>) {
    && v == w.(pvcs := v.pvcs, pvs := v.pvs)
    && (forall c :: c !in keys ==> (c in v.pvcs <==> c in w.pvcs) && (c in w.pvcs ==> v.pvcs[c] == w.pvcs[c]))
    && v.pvs.Keys == w.pvs.Keys
    && (forall n :: n in w.pvs ==>
          v.pvs[n] == w.pvs[n] || (n in volumes && w.pvs[n].reclaim.Retain? && v.pvs[n] == w.pvs[n].(reclaim := Delete)))
  }

  /** The claim is gone, or being deleted without the operator holding it. */
  ghost predicate Dismissed(pvcs: ClaimMap, k: Key) {
    k in pvcs ==> pvcs[k].deleting && Protection !in pvcs[k].finalizers
  }

  /** Each claim is dismissed, and no volume is retained. */
  ghost predicate Discharged(w: World, keys: seq<Key>, volumes: seq<string>) {
    && (forall k :: k in keys ==> Dismissed(w.pvcs, k))
    && (forall n :: n in volumes && n != "" && n in w.pvs ==> !w.pvs[n].reclaim.Retain?)
  }

  /** Each claim is gone or being deleted, and no volume is retained. */
  ghost predicate GivenUp(w: World, keys: seq<Key>, volumes: seq<string>) {
    && (forall k :: k in keys && k in w.pvcs ==> w.pvcs[k].deleting)
    && (forall n :: n in volumes && n != "" && n in w.pvs ==> !w.pvs[n].reclaim.Retain?)
  }

  lemma OneMoreGivenUp(v: World, w: World, keys: seq<Key>, volumes: seq<string>, k: Key, n: string)
    requires GivenUp(v, keys, volumes) && Confined(v, w, [k], [n]) && k !in keys
    requires (k in w.pvcs ==> w.pvcs[k].deleting) && (n != "" && n in w.pvs ==> !w.pvs[n].reclaim.Retain?)
    ensures GivenUp(w, keys + [k], volumes + [n])
  {
  }

  lemma ConfinedIsTransitive(u: World, v: World, w: World, keys: seq<Key>, volumes: seq<string>, k: Key, n: string)
    requires Confined(u, v, keys, volumes) && Confined(v, w, [k], [n])
    ensures Confined(u, w, keys + [k], volumes + [n])
  {
  }

  lemma OneMoreDischarged(v: World, w: World, keys: seq<Key>, volumes: seq<string>, k: Key, n: string)
    requires Discharged(v, keys, volumes) && Confined(v, w, [k], [n]) && k !in keys
    requires Dismissed(w.pvcs, k) && (n != "" && n in w.pvs ==> !w.pvs[n].reclaim.Retain?)
    ensures Discharged(w, keys + [k], volumes + [n])
  {
  }

  lemma NextVolume(list: seq<Item<PVC>>, i: nat)
    requires i < |list|
    ensures Keys(list[..i + 1]) == Keys(list[..i]) + [list[i].key]
    ensures VolumesOf(list[..i + 1]) == VolumesOf(list[..i]) + [list[i].value.volumeName]
  {
    assert list[..i + 1][..i] == list[..i];
  }

  lemma {:induction false} ListedIsNamed(list: seq<Item<PVC>>, i: nat)
    requires i < |list|
    ensures list[i].key in Keys(list) && list[i].value.volumeName in VolumesOf(list)
    decreases |list|
  {
    if i < |list| - 1 {
      ListedIsNamed(list[..|list| - 1], i);
    }
  }

  lemma NothingConfined(w: World)
    ensures Confined(w, w, [], []) && Discharged(w, [], []) && GivenUp(w, [], [])
    ensures forall list: seq<Item<PVC>> :: Keys(list[..0]) == [] && VolumesOf(list[..0]) == []
    ensures Keys<PVC>([]) == [] && VolumesOf([]) == []
  {
  }

  lemma StoringIsConfined(w: World, k: Key, p: PVC)
    ensures Confined(w, w.(pvcs := StoreClaim(w.pvcs, k, p)), [k], [])
  {
  }

  lemma UnprotectingIsConfined(w: World, k: Key)
    ensures Confined(w, Unprotected(w, k), [k], [])
    ensures var v := Unprotected(w, k); k in v.pvcs ==> k in w.pvcs && Protection !in v.pvcs[k].finalizers
  {
    if k in w.pvcs {
      StoringIsConfined(w, k, w.pvcs[k].(finalizers := w.pvcs[k].finalizers - {Protection}));
    }
  }

  lemma DeletingIsConfined(w: World, k: Key)
    ensures Confined(w, w.(pvcs := RequestDeletion(w.pvcs, k)), [k], [])
    ensures (k in w.pvcs ==> Protection !in w.pvcs[k].finalizers) ==> Dismissed(RequestDeletion(w.pvcs, k), k)
    ensures var v := RequestDeletion(w.pvcs, k); k in v ==> v[k].deleting
  {
    if k in w.pvcs {
      StoringIsConfined(w, k, w.pvcs[k].(deleting := true));
    }
  }

  lemma ReclaimingIsConfined(w: World, n: string, pv: PV)
    requires n in w.pvs && w.pvs[n] == pv && pv.reclaim.Retain?
    ensures Confined(w, w.(pvs := w.pvs[n := pv.(reclaim := Delete)]), [], [n])
  {
  }

  lemma ConfinedSteps(u: World, v: World, w: World, k: Key, n: string)
    requires Confined(u, v, [], [n]) || Confined(u, v, [k], []) || Confined(u, v, [k], [n]) || u == v
    requires Confined(v, w, [k], []) || v == w
    ensures Confined(u, w, [k], [n])
  {
  }

  /** Finalizers were taken off the named claims, and no deletion was requested. */
  ghost predicate ReleasedClaims(w: ClaimMap, v: ClaimMap, keys: seq<Key>) {
    && (forall c :: c !in keys ==> (c in v <==> c in w) && (c in w ==> v[c] == w[c]))
    && (forall c :: c in v ==> c in w && v[c] == w[c].(finalizers := v[c].finalizers))
    && (forall c :: c in w && !w[c].deleting ==> c in v)
  }

  ghost predicate Released(w: World, v: World, keys: seq<Key>) {
    v == w.(pvcs := v.pvcs) && ReleasedClaims(w.pvcs, v.pvcs, keys)
  }

  ghost predicate Unheld(pvcs: ClaimMap, keys: seq<Key>) {
    forall k :: k in keys && k in pvcs ==> Protection !in pvcs[k].finalizers
  }

  lemma NothingReleased(w: World)
    ensures Released(w, w, []) && Unheld(w.pvcs, [])
  {
  }

  lemma StoringReleases(pvcs: ClaimMap, k: Key, finalizers: set<Finalizer>)
    requires k in pvcs && Protection !in finalizers
    ensures var v := StoreClaim(pvcs, k, pvcs[k].(finalizers := finalizers)); ReleasedClaims(pvcs, v, [k]) && Unheld(v, [k])
  {
  }

  lemma UnprotectingReleases(v: World, k: Key)
    ensures Released(v, Unprotected(v, k), [k]) && Unheld(Unprotected(v, k).pvcs, [k])
  {
    if k in v.pvcs && Protection in v.pvcs[k].finalizers {
      StoringReleases(v.pvcs, k, v.pvcs[k].finalizers - {Protection});
      hide ReleasedClaims, Unheld, StoreClaim;
    } else {
      assert Unprotected(v, k) == v;
    }
  }

  lemma ReleasedIsTransitive(u: World, v: World, w: World, keys: seq<Key>, k: Key)
    requires Released(u, v, keys) && Released(v, w, [k])
    ensures Released(u, w, keys + [k])
    ensures Unheld(v.pvcs, keys) && Unheld(w.pvcs, [k]) ==> Unheld(w.pvcs, keys + [k])
  {
  }

  lemma NothingReleasedFor(w: World, k: Key)
    ensures Released(w, w, [k])
  {
  }

  lemma ReleasedInList(w: World, v: World, list: seq<Item<PVC>>, i: nat)
    requires i <= |list| && Released(w, v, Keys(list[..i]))
    ensures Released(w, v, Keys(list))
  {
    PrefixIsListed(list, i);
    hide Keys;
  }

  lemma ConfinedInList(w: World, v: World, list: seq<Item<PVC>>, i: nat)
    requires i <= |list| && Confined(w, v, Keys(list[..i]), VolumesOf(list[..i]))
    ensures Confined(w, v, Keys(list), VolumesOf(list))
  {
    PrefixIsListed(list, i);
    hide Keys, VolumesOf;
  }

  lemma {:induction false} PrefixIsListed(list: seq<Item<PVC>>, i: nat)
    requires i <= |list|
    ensures forall k :: k in Keys(list[..i]) ==> k in Keys(list)
    ensures forall n :: n in VolumesOf(list[..i]) ==> n in VolumesOf(list)
    decreases |list|
  {
    if i < |list| {
      PrefixIsListed(list[..|list| - 1], i);
      assert list[..|list| - 1][..i] == list[..i];
    } else {
      assert list[..i] == list;
    }
  }

  /** The claims with the owner label, in all namespaces. */
  function Labeled(pvcs: ClaimMap, owner: string): ClaimMap {
    map k | k in pvcs && OwnedBy(owner, pvcs[k].labels) :: pvcs[k]
  }

  lemma LabeledIsMatching(pvcs: ClaimMap, owner: string)
    ensures Matching(pvcs, map[Owner := owner], None, None) == Labeled(pvcs, owner)
  {
  }

  /** A claim is listed once, so what is done for one leaves those before alone. */
  lemma ListedOnce(list: seq<Item<PVC>>, m: ClaimMap)
    requires Lists(list, m)
    ensures forall i :: 0 <= i < |list| ==> list[i].key !in Keys(list[..i])
  {
    forall i | 0 <= i < |list|
      ensures list[i].key !in Keys(list[..i])
    {
      KeysAreListed(list[..i]);
    }
  }

  lemma DeletingIsLegal(s: Setting, w: World, k: Key)
    requires w.vgr.deleting
    ensures Legal(s, w, DeletePVC(k))
  {
  }
}
