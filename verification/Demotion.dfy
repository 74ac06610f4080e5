/** Why a reconcile as secondary may restore, turn replication around and record that it has done so. */
module Demotion {

  import opened Names
  import opened Objects
  import opened System
  import opened Protocol
  import opened Api
  import opened Handoff
  import opened RoundTrip
  import opened Replication
  import opened SyncSteps
  import opened Wrappers

  function Keys<V>(items: seq<Item<V>>): seq<Key> {
    if items == [] then [] else Keys(items[..|items| - 1]) + [items[|items| - 1].key]
  }

  lemma {:induction false} KeysAreListed<V>(items: seq<Item<V>>)
    ensures |Keys(items)| == |items|
    ensures forall i :: 0 <= i < |items| ==> Keys(items)[i] == items[i].key
  {
    if items != [] {
      KeysAreListed(items[..|items| - 1]);
    }
  }

  // ---------- the list of claims ----------

  /** Every key is an application claim's or its stand-in's. */
  ghost predicate ShortNames(keys: seq<Key>) {
    forall c :: c in keys && c.name.Tmp? ==> c.name.of.App?
  }

  /** Every group claim is listed, or its final sync is over. */
  ghost predicate Listing(s: Setting, w: World, keys: seq<Key>) {
    s.relocating && !w.vgr.deleting ==>
      forall k :: k in s.group ==> k in keys || Done(w.rss, k)
  }

  ghost predicate AllDone(s: Setting, w: World) {
    s.relocating && !w.vgr.deleting ==> forall k :: k in s.group ==> Done(w.rss, k)
  }

  lemma ListedClaims(s: Setting, w: World, items: seq<Item<PVC>>)
    requires Inv(s, w) && w.vgr.selector.Some?
    requires Lists(items, Selecting(InNamespace(w.pvcs, w.vgr.ns), w.vgr.selector.value))
    ensures Distinct(items) && ShortNames(Keys(items))
  {
    hide Claims, Relocating, Exclusive, Guarded, Matches;
    KeysAreListed(items);
    forall c | c in Keys(items) && c.name.Tmp?
      ensures c.name.of.App?
    {
      var i :| 0 <= i < |Keys(items)| && Keys(items)[i] == c;
      assert items[i] in items;
    }
  }

  lemma ListedKey(items: seq<Item<PVC>>, m: ClaimMap, k: Key)
    requires Lists(items, m) && k in m
    ensures k in Keys(items)
  {
    KeysAreListed(items);
    var i :| 0 <= i < |items| && items[i] == Item(k, m[k]);
    assert Keys(items)[i] == k;
  }

  lemma ListCoversGroup(s: Setting, w: World, items: seq<Item<PVC>>)
    requires Inv(s, w) && w.vgr.selector.Some?
    requires Lists(items, Selecting(InNamespace(w.pvcs, w.vgr.ns), w.vgr.selector.value))
    ensures Listing(s, w, Keys(items))
  {
    hide Exclusive, Guarded, Lossless, Frozen, StampsAreFinal, AppPods, Relocation, StoreWellFormed, Anchored, OwnVolumes, Matches, Keys, Lists;
    if s.relocating && !w.vgr.deleting {
      var m := Selecting(InNamespace(w.pvcs, w.vgr.ns), w.vgr.selector.value);
      forall k | k in s.group
        ensures k in Keys(items) || Done(w.rss, k)
      {
        if k in w.pvcs {
          ListedKey(items, m, k);
        }
      }
    }
  }

  /** The group's final syncs that are over stay over. */
  ghost predicate DoneStays(s: Setting, w: World, v: World) {
    s.relocating && !v.vgr.deleting ==> !w.vgr.deleting && forall k :: k in s.group && Done(w.rss, k) ==> Done(v.rss, k)
  }

  lemma DoneStaysDemoting(s: Setting, w: World, v: World)
    requires Inv(s, w) && Demoting(s, w, v)
    ensures DoneStays(s, w, v)
  {
    hide Exclusive, Guarded, Claims, Lossless, Frozen, KeptUntilDone, Selected, AppPods, Relocation, StoreWellFormed, Grown, NoNewPods;
  }

  lemma DoneStaysSyncing(s: Setting, w: World, v: World)
    requires Inv(s, w) && Syncing(s, w, v)
    ensures DoneStays(s, w, v)
  {
    hide Exclusive, Guarded, Claims, Lossless, Frozen, KeptUntilDone, Selected, AppPods, Relocation, StoreWellFormed, Kept, NoNewPods;
  }

  lemma DoneStaysIsTransitive(s: Setting, u: World, v: World, w: World)
    requires DoneStays(s, u, v) && DoneStays(s, v, w)
    ensures DoneStays(s, u, w)
  {
    hide Done;
  }

  lemma ListingStays(s: Setting, w: World, v: World, keys: seq<Key>)
    requires DoneStays(s, w, v)
    ensures Listing(s, w, keys) ==> Listing(s, v, keys)
    ensures AllDone(s, w) ==> AllDone(s, v)
  {
    hide Done;
  }

  // ---------- the gate ----------

  /** The status already records the demotion, or the gate is open because every source is stamped. */
  lemma NotRequiredIsOpen(s: Setting, w: World, vgr: VGR)
    requires Inv(s, w) && !Required(w, vgr) && vgr.owner == w.vgr.owner && vgr.status == w.vgr.status
    ensures GateOpen(s, w)
  {
    hide Exclusive, Guarded, Claims, Lossless, Frozen, KeptUntilDone, Selected, AppPods, StoreWellFormed, StampsAreFinal;
  }

  lemma OpenGateMeansAllDone(s: Setting, w: World)
    requires Inv(s, w) && GateOpen(s, w)
    ensures AllDone(s, w)
  {
    hide Inv, GateOpen, Done;
    forall k | s.relocating && !w.vgr.deleting && k in s.group
      ensures Done(w.rss, k)
    {
      GateMeansDone(s, w, k);
    }
  }

  /** When every listed claim is stamped, every group claim is done. */
  lemma StampedListMeansAllDone(s: Setting, w: World, items: seq<Item<PVC>>)
    requires Inv(s, w) && Listing(s, w, Keys(items)) && StampedEach(w.rss, Mains(items))
    ensures AllDone(s, w)
  {
    hide Exclusive, Guarded, Claims, Relocating;
    KeysAreListed(items);
    MainsAreListed(items);
    forall k | s.relocating && !w.vgr.deleting && k in s.group
      ensures Done(w.rss, k)
    {
      if k in Keys(items) {
        var i :| 0 <= i < |items| && items[i].key == k;
        assert items[i] in items && k in Mains(items);
      }
    }
  }

  // ---------- the status ----------

  ghost predicate DemotedEach(w: World, keys: seq<Key>) {
    forall k :: k in keys ==> Demoted(w, k)
  }

  /** A status that records the demotion is justified: every group claim has had its final sync. */
  ghost predicate Justified(s: Setting, w: World, status: Status) {
    s.relocating && !w.vgr.deleting && status.state == SecondaryState ==> GroupDone(s.group, w.rss)
  }

  lemma DemotionIsJustified(s: Setting, w: World, keys: seq<Key>, status: Status)
    requires Listing(s, w, keys) && DemotedEach(w, keys)
    ensures Justified(s, w, status)
  {
  }

  lemma RecordedIsJustified(s: Setting, w: World, status: Status)
    requires Inv(s, w) && status.state == w.vgr.status.state
    ensures Justified(s, w, status)
  {
    hide Exclusive, Guarded, Claims, Lossless, Frozen, KeptUntilDone, Selected, AppPods, StoreWellFormed, StampsAreFinal, Relocation;
  }

  lemma JustificationStays(s: Setting, w: World, v: World, status: Status)
    requires DoneStays(s, w, v)
    ensures Justified(s, w, status) ==> Justified(s, v, status)
  {
  }

  lemma OneMoreDemoted(s: Setting, w: World, v: World, keys: seq<Key>, k: Key)
    requires DemotedEach(w, keys) && Demoting(s, w, v) && OthersKept(w.pvcs, v.pvcs, k) && k !in keys
    ensures DemotedEach(v, keys)
    ensures Demoted(v, k) ==> DemotedEach(v, keys + [k])
  {
    hide Demoting, OthersKept;
    forall j | j in keys
      ensures Demoted(v, j)
    {
      DemotedStays(s, w, v, j, k);
    }
    hide Demoted;
  }

  lemma DemotedAcross(s: Setting, w: World, v: World, keys: seq<Key>)
    requires DemotedEach(w, keys) && Steady(s, w.(vgr := v.vgr), v) && Kept(w.pvcs, v.pvcs)
    requires v.vgr.name == w.vgr.name && v.vgr.ns == w.vgr.ns
    ensures DemotedEach(v, keys)
  {
    var u := w.(vgr := v.vgr);
    KeptKeepsOthers(w.pvcs, v.pvcs);
    SteadyIsDemoting(s, u, v);
    hide Demoting, OthersKept, Steady, Kept;
    forall j | j in keys
      ensures Demoted(v, j)
    {
      assert Demoted(w, j) && Demoted(u, j);
      DemotedStays(s, u, v, j, Key(j.ns, Tmp(j.name)));
    }
  }

  // ---------- without interference ----------

  /** No application's claim gets marked as deleted. */
  ghost predicate Unmarked(w: ClaimMap, v: ClaimMap) {
    forall c :: c in v && c.name.App? && v[c].deleting ==> Going(w, c)
  }

  ghost predicate StandingEach(pvcs: ClaimMap, keys: seq<Key>) {
    forall k :: k in keys ==> Standing(pvcs, k)
  }

  lemma StandingStays(w: ClaimMap, v: World, keys: seq<Key>)
    requires StandingEach(w, keys) && Unmarked(w, v.pvcs) && DemotedEach(v, keys)
    ensures StandingEach(v.pvcs, keys)
  {
  }

  lemma ProtectionMarksNothing(pvcs: ClaimMap, k: Key)
    ensures Unmarked(pvcs, Protected(pvcs, k)) && Unmarked(pvcs, pvcs)
  {
  }

  lemma HandOffMarksNothing(w: World, k: Key, stage: nat)
    requires k.name.App?
    ensures Unmarked(w.pvcs, HandOffAfter(w, k, true, stage).pvcs)
  {
    if HasVolume(w, k) {
      StandInMarksNothing(w, k, w.pvcs[k]);
      var w1 := WithStandIn(w, k, w.pvcs[k]);
      StandInLeavesTheRest(w, k, w.pvcs[k]);
      hide WithStandIn, Unmarked, Unprotected;
      PointedThere(w1, w.pvcs[k].volumeName, TmpOf(k));
      var w2 := Pointed(w1, w.pvcs[k].volumeName, TmpOf(k));
      hide Pointed;
      ReleaseMarksNothing(w.pvcs, w1, k);
      ReleaseMarksNothing(w.pvcs, w2, k);
    }
  }

  lemma StandInMarksNothing(w: World, k: Key, main: PVC)
    ensures Unmarked(w.pvcs, WithStandIn(w, k, main).pvcs) && Unmarked(w.pvcs, w.pvcs)
  {
    hide TemporaryAnnotations;
  }

  lemma ReleaseMarksNothing(pvcs: ClaimMap, w: World, k: Key)
    requires Unmarked(pvcs, w.pvcs)
    ensures Unmarked(pvcs, Unprotected(w, k).pvcs)
  {
  }

  /** None of the claims is being deleted. */
  ghost predicate NoneGoing(pvcs: ClaimMap, keys: seq<Key>) {
    forall k :: k in keys ==> !Going(pvcs, k)
  }

  /** Each of the claims that could be turned into a destination has been. */
  ghost predicate ReceivedEach(w: World, v: World, keys: seq<Key>, secret: string) {
    forall k :: k in keys && Receivable(w, k, secret) ==> Turned(v, k)
  }

  lemma StatusKeepsReceived(w: World, v: World, x: World, keys: seq<Key>, secret: string)
    requires x == v.(vgr := x.vgr) && x.vgr.name == v.vgr.name && x.vgr.ns == v.vgr.ns
    ensures ReceivedEach(w, v, keys, secret) ==> ReceivedEach(w, x, keys, secret)
  {
    hide Receivable;
  }

  /** The claims that can be turned into a destination whose address is known, in list order. */
  function ReadyOf(w: World, keys: seq<Key>, secret: string): seq<Key> {
    if keys == [] then []
    else
      var last := keys[|keys| - 1];
      ReadyOf(w, keys[..|keys| - 1], secret) + if Receivable(w, last, secret) && Addressable(w, last) then [last] else []
  }

  lemma NextReady(w: World, keys: seq<Key>, k: Key, secret: string)
    ensures ReadyOf(w, keys + [k], secret) ==
      ReadyOf(w, keys, secret) + if Receivable(w, k, secret) && Addressable(w, k) then [k] else []
  {
    hide Receivable, Addressable;
    assert (keys + [k])[..|keys|] == keys;
  }

  lemma DestinationKeepsGroup(w: World, owner: VGR, k: Key, secret: string)
    ensures AsDestination(w, owner, k, secret).vgr == w.vgr
  {
    hide Receivable, Destination, Protected, Going;
    HandOffKeepsGroup(w, k);
    hide HandOffAfter;
  }

  lemma HandOffKeepsGroup(w: World, k: Key)
    ensures HandOffAfter(w, k, true, 3).vgr == w.vgr
  {
    ReleaseComesLast(w, k);
    if HasVolume(w, k) {
      StandInLeavesTheRest(w, k, w.pvcs[k]);
      PointingLeavesTheRest(WithStandIn(w, k, w.pvcs[k]), w.pvcs[k].volumeName, TmpOf(k));
      var v := HandOffAfter(w, k, false, 3);
      assert v.vgr == w.vgr;
      hide HandOffAfter, StoreClaim;
    } else {
      hide HandOffAfter;
    }
  }

  /** Each of the claims is a stand-in, or can be turned into a destination once its address is known. */
  ghost predicate Servable(w: World, keys: seq<Key>, secret: string) {
    forall k :: k in keys && k.name.App? ==> k in w.pvcs && (k.ns, secret) in w.secrets
  }

  lemma ServedNext(w: World, v: World, keys: seq<Key>, i: nat, secret: string)
    requires i < |keys| && NoneGoing(w.pvcs, keys) && Servable(w, keys, secret) && Upkept(w, v)
    ensures keys[i].name.App? ==> Standing(v.pvcs, keys[i]) && (keys[i].ns, secret) in v.secrets
  {
  }

  lemma DestinationIsUpkept(w: World, v: World, owner: VGR, k: Key, secret: string)
    requires Upkept(w, v) && !Going(w.pvcs, k) && owner.name == w.vgr.name && owner.ns == w.vgr.ns
    ensures Upkept(w, AsDestination(v, owner, k, secret))
  {
    assert !Going(v.pvcs, k);
    hide AsDestination, Going;
    DestinationLeavesClaims(v, owner, k, secret);
    var u := AsDestination(v, owner, k, secret);
    DestinationsGrow(v, owner, k);
    ProtectionIsUpkeep(v.pvcs, k);
    hide Protected, Destination, Found, UpkeptClaims, Grown, Writes;
    UpkeptClaimsAreTransitive(w.pvcs, v.pvcs, u.pvcs);
    GrownIsTransitive(w.vgr, w.rds, v.rds, u.rds);
  }

  lemma DestinationsGrow(w: World, owner: VGR, k: Key)
    requires owner.name == w.vgr.name && owner.ns == w.vgr.ns
    ensures Grown(w.vgr, w.rds, w.rds[k := Destination(Found(w.rds, k), owner, k)]) && Grown(w.vgr, w.rds, w.rds)
  {
  }

  lemma ProtectionIsUpkeep(pvcs: ClaimMap, k: Key)
    ensures UpkeptClaims(pvcs, Protected(pvcs, k)) && UpkeptClaims(pvcs, pvcs)
  {
  }

  lemma UpkeptClaimsAreTransitive(u: ClaimMap, v: ClaimMap, w: ClaimMap)
    requires UpkeptClaims(u, v) && UpkeptClaims(v, w)
    ensures UpkeptClaims(u, w)
  {
  }

  lemma GrownIsTransitive(vgr: VGR, u: map<Key, RD>, v: map<Key, RD>, w: map<Key, RD>)
    requires Grown(vgr, u, v) && Grown(vgr, v, w)
    ensures Grown(vgr, u, w)
  {
    hide Writes;
  }

  lemma DestinationLeavesClaims(w: World, owner: VGR, k: Key, secret: string)
    requires !Going(w.pvcs, k)
    ensures var v := AsDestination(w, owner, k, secret);
      && v.pvs == w.pvs && v.secrets == w.secrets && v.vrgs == w.vrgs && v.vgr == w.vgr
      && (v.pvcs == w.pvcs || v.pvcs == Protected(w.pvcs, k))
      && (v.rss == w.rss || v.rss == w.rss - {k})
      && (v.rds == w.rds || v.rds == w.rds[k := Destination(Found(w.rds, k), owner, k)])
      && (Receivable(w, k, secret) && owner.name == w.vgr.name && owner.ns == w.vgr.ns ==> Turned(v, k))
  {
    assert Receivable(w, k, secret) ==> k.name.App?;
    hide HandOffAfter, Destination, Protected, Receivable, Going, Found;
    if Receivable(w, k, secret) {
      assert AsDestination(w, owner, k, secret) ==
        w.(rss := w.rss - {k}, rds := w.rds[k := Destination(Found(w.rds, k), owner, k)], pvcs := Protected(w.pvcs, k));
      DestinationWrites(Found(w.rds, k), owner, k);
      ClaimIsProtected(w.pvcs, k);
      hide AsDestination, Writes;
    }
  }

  lemma DestinationWrites(was: Option<RD>, owner: VGR, k: Key)
    ensures forall vgr: VGR :: vgr.name == owner.name && vgr.ns == owner.ns ==> Writes(Destination(was, owner, k), k, vgr)
  {
  }

  /** A claim that was ready to be received has a destination, which has kept what it had. */
  lemma ReceivedMeans(w: World, owner: VGR, k: Key, secret: string)
    requires Receivable(w, k, secret) && owner.name == w.vgr.name && owner.ns == w.vgr.ns
    ensures var v := AsDestination(w, owner, k, secret);
      Turned(v, k) && DestinationKept(Found(w.rds, k), v.rds[k])
  {
    assert !Going(w.pvcs, k) && k.name.App?;
    DestinationLeavesClaims(w, owner, k, secret);
    DestinationMeans(Found(w.rds, k), owner, k);
    assert AsDestination(w, owner, k, secret).rds == w.rds[k := Destination(Found(w.rds, k), owner, k)];
    hide AsDestination, Destination, Turned, DestinationKept;
  }

  lemma ClaimIsProtected(pvcs: ClaimMap, k: Key)
    ensures k in pvcs ==> k in Protected(pvcs, k) && Protection in Protected(pvcs, k)[k].finalizers
  {
  }

  /** What is ready for claim `k` does not depend on the reconcile of another claim. */
  lemma OthersAreIndependent(w: World, owner: VGR, k: Key, other: Key, secret: string)
    requires k != other && k.name.App?
    ensures var v := AsDestination(w, owner, other, secret);
      Receivable(v, k, secret) == Receivable(w, k, secret) && Addressable(v, k) == Addressable(w, k)
  {
    if other.name.App? && Going(w.pvcs, other) {
      HandOffIsLocal(w, other, k);
    } else {
      hide Destination, HandOffAfter;
    }
  }

  lemma StandInLeavesTheRest(w: World, k: Key, main: PVC)
    ensures WithStandIn(w, k, main).rds == w.rds && WithStandIn(w, k, main).secrets == w.secrets
    ensures WithStandIn(w, k, main).pvs == w.pvs && WithStandIn(w, k, main).vgr == w.vgr
  {
    hide TemporaryClaim;
  }

  lemma PointingLeavesTheRest(w: World, name: string, k: Key)
    requires name in w.pvs
    ensures Pointed(w, name, k).rds == w.rds && Pointed(w, name, k).secrets == w.secrets && Pointed(w, name, k).vgr == w.vgr
  {
  }

  /** A hand-off touches claims and volumes only. */
  lemma HandOffLeavesTheRest(w: World, k: Key)
    ensures var v := HandOffAfter(w, k, false, 3); v.rds == w.rds && v.secrets == w.secrets
  {
    if HasVolume(w, k) {
      StandInLeavesTheRest(w, k, w.pvcs[k]);
      PointingLeavesTheRest(WithStandIn(w, k, w.pvcs[k]), w.pvcs[k].volumeName, TmpOf(k));
      hide WithStandIn, Pointed, Unprotected, HasVolume;
    }
  }

  lemma ReleaseComesLast(w: World, k: Key)
    ensures HandOffAfter(w, k, true, 3) ==
      if HasVolume(w, k) then Unprotected(HandOffAfter(w, k, false, 3), k) else w
  {
    hide WithStandIn, Pointed, Unprotected;
  }

  lemma StoringIsLocal(pvcs: ClaimMap, other: Key, p: PVC, k: Key)
    requires k != other
    ensures var v := StoreClaim(pvcs, other, p); (k in v <==> k in pvcs) && (k in pvcs ==> v[k] == pvcs[k])
  {
  }

  lemma ReleaseIsLocal(w: World, other: Key, k: Key)
    requires k != other
    ensures var v := Unprotected(w, other);
      && v.rds == w.rds && v.secrets == w.secrets
      && (k in v.pvcs <==> k in w.pvcs) && (k in w.pvcs ==> v.pvcs[k] == w.pvcs[k])
  {
    hide StoreClaim;
    if other in w.pvcs {
      StoringIsLocal(w.pvcs, other, w.pvcs[other].(finalizers := w.pvcs[other].finalizers - {Protection}), k);
    }
  }

  lemma HandOffIsLocal(w: World, other: Key, k: Key)
    requires k != other && k.name.App?
    ensures var v := HandOffAfter(w, other, true, 3);
      && v.rds == w.rds && v.secrets == w.secrets
      && (k in v.pvcs <==> k in w.pvcs) && (k in w.pvcs ==> v.pvcs[k] == w.pvcs[k])
  {
    hide HandOffAfter, Unprotected, HasVolume;
    HandOffLeavesTheRest(w, other);
    ReleaseComesLast(w, other);
    HandOffLeavesMains(w, other, 3);
    ReleaseIsLocal(HandOffAfter(w, other, false, 3), other, k);
  }

  /** Every listed claim can become a destination whose address is known. */
  ghost predicate AllReceivable(w: World, keys: seq<Key>, secret: string) {
    forall k :: k in keys ==> Receivable(w, k, secret) && Addressable(w, k)
  }

  // ---------- the final sync ----------

  lemma NotRequiredStays(s: Setting, w: World, vgr: VGR)
    ensures s.relocating ==> forall v: World :: v.vrgs == w.vrgs ==> Required(v, vgr) == Required(w, vgr)
  {
  }

  lemma NotRelocatingIsOpen(s: Setting, w: World)
    ensures !s.relocating ==> GateOpen(s, w)
  {
  }

  lemma RecordedStatusIsLegal(s: Setting, w: World, base: VGR)
    requires Inv(s, w)
    ensures w.vgr == base ==> LegalStatus(s, w, base.status)
  {
    hide Exclusive, Guarded, Claims, Lossless, Frozen, KeptUntilDone, Selected, AppPods, StoreWellFormed, StampsAreFinal, Relocation;
  }

  // ---------- restoring ----------

  /** No stand-in is left for any of the claims. */
  ghost predicate NoneLeft(pvcs: ClaimMap, keys: seq<Key>) {
    forall k :: k in keys ==> TmpOf(MainOf(k)) !in pvcs
  }

  lemma NoneLeftOf(pvcs: ClaimMap, keys: seq<Key>)
    requires NoneLeft(pvcs, keys[..|keys|])
    ensures forall k :: k in keys ==> TmpOf(MainOf(k)) !in pvcs
  {
    assert keys[..|keys|] == keys;
  }

  lemma NoneLeftOfNone(pvcs: ClaimMap, keys: seq<Key>)
    ensures NoneLeft(pvcs, keys[..0])
  {
  }

  lemma OneMoreGone(w: ClaimMap, v: ClaimMap, keys: seq<Key>, i: nat)
    requires i < |keys| && NoneLeft(w, keys[..i]) && MainOf(keys[i]).name.App?
    requires v.Keys <= w.Keys + {MainOf(keys[i])} && TmpOf(MainOf(keys[i])) !in v
    ensures NoneLeft(v, keys[..i + 1])
  {
    assert keys[..i + 1] == keys[..i] + [keys[i]];
  }

  lemma ListedNameIsShort(keys: seq<Key>, i: nat)
    requires i < |keys| && ShortNames(keys)
    ensures keys[i].name.Tmp? ==> keys[i].name.of.App?
    ensures MainOf(keys[i]).name.App?
  {
  }

  lemma AllDoneSteady(s: Setting, w: World, v: World)
    requires Inv(s, w) && AllDone(s, w) && Steady(s, w, v)
    ensures AllDone(s, v) && SameGroup(w.vgr, v.vgr) && (s.relocating ==> v.vrgs == w.vrgs)
  {
    hide Inv, AllDone, DoneStays;
    SteadyIsDemoting(s, w, v);
    DoneStaysDemoting(s, w, v);
    ListingStays(s, w, v, []);
  }

  lemma ListedIsDone(s: Setting, w: World, k: Key)
    requires AllDone(s, w)
    ensures s.relocating && !w.vgr.deleting && k in s.group ==> Done(w.rss, k)
  {
    hide Done;
  }

  lemma NextIsRestored(w: World, keys: seq<Key>, i: nat)
    requires i < |keys| && HasStandIn(w, keys[i])
    ensures var k := MainOf(keys[i]);
      RestoreAll(w, keys[i..]) ==
      if RestoreOutcome(w, k).Failure? then (Restored(w, k), RestoreOutcome(w, k)) else RestoreAll(Restored(w, k), keys[i + 1..])
  {
    hide Restored, RestoreOutcome;
    assert keys[i..][0] == keys[i] && keys[i..][1..] == keys[i + 1..];
  }

  lemma NextIsSkipped(w: World, keys: seq<Key>, i: nat)
    requires i < |keys| && !HasStandIn(w, keys[i])
    ensures RestoreAll(w, keys[i..]) == RestoreAll(w, keys[i + 1..])
  {
    hide Restored, RestoreOutcome;
    assert keys[i..][0] == keys[i] && keys[i..][1..] == keys[i + 1..];
  }

  lemma NothingLeftToRestore(w: World, keys: seq<Key>)
    ensures RestoreAll(w, keys[|keys|..]) == (w, OK)
  {
  }

  function KeyNames(keys: seq<Key>): seq<Name> {
    if keys == [] then [] else KeyNames(keys[..|keys| - 1]) + [keys[|keys| - 1].name]
  }

  lemma KeyNamesOfNext(keys: seq<Key>, k: Key)
    ensures KeyNames(keys + [k]) == KeyNames(keys) + [k.name]
  {
    assert (keys + [k])[..|keys|] == keys;
  }

  lemma RecordedAgain(s: Setting, w: World, status: Status)
    requires Inv(s, w) && status.state == w.vgr.status.state
    ensures forall st: Status :: st.state == status.state ==> Justified(s, w, st)
  {
    hide Inv;
    forall st: Status | st.state == status.state
      ensures Justified(s, w, st)
    {
      RecordedIsJustified(s, w, st);
    }
  }
}
