/** The final sync of a group's sources: what it writes, why it may, and what it keeps. */
module SyncSteps {

  import opened Names
  import opened Objects
  import opened System
  import opened Protocol
  import opened Api
  import opened Handoff
  import opened Legality
  import opened RoundTrip
  import opened Wrappers

  /** The source of claim `k`, turned to the stand-in and triggered once. */
  function FinalSource(rs: RS, k: Key): RS {
    rs.(paused := false, sourcePVC := Tmp(k.name), trigger := Manual(FinalSync))
  }

  /** The source of claim `k` is running, or has run, the final sync from the stand-in. */
  ghost predicate InFinalSync(rss: SourceMap, k: Key) {
    k in rss && !rss[k].paused && rss[k].sourcePVC == Tmp(k.name) && rss[k].FinalTriggered()
  }

  /** No pod at all mounts claim `k`. */
  ghost predicate Unmounted(pods: PodMap, k: Key) {
    forall p :: p in pods && p.ns == k.ns ==> k.name !in pods[p].claims
  }

  /** Pod `p` mounts claim `k`. */
  predicate Mounts(pods: PodMap, p: Key, k: Key) {
    p in pods && p.ns == k.ns && k.name in pods[p].claims
  }

  /** Nothing was done about the pods because one of another kind mounts claim `k`, or a pod of VolSync that mounts it was removed. */
  ghost predicate MadeWay(w: PodMap, v: PodMap, k: Key) {
    || (v == w && exists p :: Mounts(w, p, k) && !w[p].volsync)
    || (exists p :: Mounts(w, p, k) && w[p].volsync && v == w - {p})
  }

  /** The source of claim `k`, which a pod mounts, was paused and its job stopped unless it was paused already. */
  ghost predicate Stopped(w: World, v: World, k: Key) {
    && k in w.rss && MadeWay(w.pods, v.pods, k)
    && v == if w.rss[k].paused then w.(pods := v.pods)
            else w.(rss := w.rss[k := Settled(w.rss[k].(paused := true))], jobs := w.jobs - {k}, pods := v.pods)
  }

  lemma PausingStops(w: World, u: World, v: World, k: Key)
    requires k in w.rss && MadeWay(w.pods, u.pods, k) && u == w.(pods := u.pods)
    requires v == if u.rss[k].paused then u else u.(rss := u.rss[k := Settled(u.rss[k].(paused := true))], jobs := u.jobs - {k})
    ensures Stopped(w, v, k)
  {
    hide MadeWay, Settled;
  }

  /** The VRG asks for a final sync that the status does not record yet. */
  predicate Required(w: World, vgr: VGR) {
    && vgr.owner.Some? && vgr.owner.value in w.vrgs && w.vrgs[vgr.owner.value] == VRG(Relocate, Secondary)
    && vgr.status.state != SecondaryState
  }

  // ---------- what a final sync keeps ----------

  /** Stamps of the final sync are not lost. */
  ghost predicate StampsStay(w: SourceMap, v: SourceMap) {
    forall k :: k in w && w[k].Stamped() && w[k].FinalTriggered() ==> k in v && v[k].Stamped() && v[k].FinalTriggered()
  }

  /** No source or destination comes or goes, no stamp is lost, and claims that are held stay as they are. */
  ghost predicate Syncing(s: Setting, w: World, v: World) {
    && SameGroup(w.vgr, v.vgr) && Policy(s, w, v) && SameDestinations(w.rds, v.rds)
    && v.rss.Keys == w.rss.Keys && StampsStay(w.rss, v.rss) && Kept(w.pvcs, v.pvcs)
  }

  lemma SyncingIsTransitive(s: Setting, u: World, v: World, w: World)
    requires Syncing(s, u, v) && Syncing(s, v, w)
    ensures Syncing(s, u, w)
  {
    hide Kept;
    KeptIsTransitive(u.pvcs, v.pvcs, w.pvcs);
  }

  lemma SteadyIsSyncing(s: Setting, w: World, v: World)
    requires Steady(s, w, v) && Kept(w.pvcs, v.pvcs)
    ensures Syncing(s, w, v) && forall k :: OtherSources(w.rss, v.rss, k)
  {
    hide Kept, SameDestinations, NoNewPods;
  }

  lemma OtherSourcesIsTransitive(u: SourceMap, v: SourceMap, w: SourceMap, k: Key)
    requires OtherSources(u, v, k) && OtherSources(v, w, k)
    ensures OtherSources(u, w, k)
  {
  }

  lemma InFinalSyncStays(w: SourceMap, v: SourceMap, k: Key, other: Key)
    requires InFinalSync(w, k) && OtherSources(w, v, other) && k != other
    ensures InFinalSync(v, k) && (w[k].Stamped() ==> v[k].Stamped())
  {
  }

  lemma UnmountedIsQuiet(s: Setting, w: World, v: World, k: Key)
    requires Unmounted(w.pods, k) && Policy(s, w, v)
    ensures s.relocating ==> Quiet(v.pods, k)
  {
  }

  lemma UnwrittenIsSyncing(s: Setting, w: World, v: World)
    requires SameGroup(w.vgr, v.vgr) && Policy(s, w, v) && SameDestinations(w.rds, v.rds) && Kept(w.pvcs, v.pvcs)
    requires SameSources(w.rss, v.rss)
    ensures Syncing(s, w, v)
  {
    hide Kept, SameDestinations, NoNewPods;
  }

  lemma PauseStays(s: Setting, w: World, v: World, k: Key)
    requires Steady(s, w, v) && k in w.rss && w.rss[k].paused
    ensures k in v.rss && v.rss[k].paused
  {
  }

  lemma QuietStays(s: Setting, w: World, v: World, k: Key)
    requires Steady(s, w, v) && (s.relocating ==> Quiet(w.pods, k))
    ensures s.relocating ==> Quiet(v.pods, k)
  {
  }

  lemma AllListedAreStamped(items: seq<Item<RS>>, rss: SourceMap, ns: string)
    requires Lists(items, InNamespace(rss, ns))
    ensures (forall j :: 0 <= j < |items| ==> items[j].value.Stamped()) <==> AllStamped(rss, ns)
  {
    if forall j :: 0 <= j < |items| ==> items[j].value.Stamped() {
      forall r | r in rss && r.ns == ns
        ensures rss[r].Stamped()
      {
        assert Item(r, InNamespace(rss, ns)[r]) in items;
      }
    } else {
      var j :| 0 <= j < |items| && !items[j].value.Stamped();
      assert items[j] in items;
    }
  }

  lemma AllListedAreUnmounted(items: seq<Item<Pod>>, pods: PodMap, k: Key)
    requires Lists(items, InNamespace(pods, k.ns))
    requires forall j :: 0 <= j < |items| ==> k.name !in items[j].value.claims
    ensures Unmounted(pods, k)
  {
    forall p | p in pods && p.ns == k.ns
      ensures k.name !in pods[p].claims
    {
      assert Item(p, InNamespace(pods, k.ns)[p]) in items;
    }
  }

  // ---------- why the writes are legal ----------

  lemma PausingIsLegal(s: Setting, w: World, k: Key)
    requires Inv(s, w) && k in w.rss
    ensures Legal(s, w, PutRS(k, w.rss[k].(paused := true)))
  {
    hide Guarded, Claims, Relocating;
  }

  lemma PausingIsSyncing(s: Setting, w: World, v: World, k: Key, was: RS)
    requires SameGroup(w.vgr, v.vgr) && Policy(s, w, v) && SameDestinations(w.rds, v.rds) && Kept(w.pvcs, v.pvcs)
    requires k in w.rss && w.rss[k] == was && v.rss.Keys == w.rss.Keys && OtherSources(w.rss, v.rss, k)
    requires SameSource(Settled(was.(paused := true)), v.rss[k])
    ensures Syncing(s, w, v) && v.rss[k].paused
  {
    hide Kept, SameDestinations, NoNewPods;
  }

  lemma FinalSyncIsLegal(s: Setting, w: World, k: Key)
    requires Inv(s, w) && k in w.rss && (s.relocating ==> Quiet(w.pods, k))
    ensures Legal(s, w, PutRS(k, FinalSource(w.rss[k], k)))
  {
    hide Guarded, Claims, Relocating, Quiet;
  }

  lemma FinalSyncIsSyncing(s: Setting, w: World, v: World, k: Key, was: RS)
    requires SameGroup(w.vgr, v.vgr) && Policy(s, w, v) && SameDestinations(w.rds, v.rds) && Kept(w.pvcs, v.pvcs)
    requires k in w.rss && w.rss[k] == was && v.rss.Keys == w.rss.Keys && OtherSources(w.rss, v.rss, k)
    requires SameSource(Settled(FinalSource(was, k)), v.rss[k])
    ensures Syncing(s, w, v) && InFinalSync(v.rss, k) && (was.Stamped() ==> v.rss[k].Stamped())
  {
    hide Kept, SameDestinations, NoNewPods;
  }

  /** A claim in phase Lost is told to bind again. */
  function Rebound(p: PVC): PVC {
    p.(annotations := p.annotations - {BindCompleted})
  }

  lemma RebindingIsLegal(s: Setting, w: World, k: Key)
    requires Inv(s, w) && k in w.pvcs
    ensures Legal(s, w, UpdatePVC(k, Rebound(w.pvcs[k]))) && SameClaim(w.pvcs[k], Rebound(w.pvcs[k]))
    ensures StoreClaim(w.pvcs, k, Rebound(w.pvcs[k])) == w.pvcs[k := Rebound(w.pvcs[k])]
  {
    hide Exclusive, Guarded, Claims, Lossless, Frozen, StampsAreFinal, KeptUntilDone, AppPods, Relocation, Matches;
  }

  // ---------- the account of a final sync ----------

  /** The listed claims that are not stand-ins. */
  function Mains(items: seq<Item<PVC>>): seq<Key> {
    if items == [] then []
    else
      var last := items[|items| - 1].key;
      Mains(items[..|items| - 1]) + if last.name.Tmp? then [] else [last]
  }

  /** The names of the listed claims whose source has not recorded the final sync, in list order. */
  function Unfinished(keys: seq<Key>, rss: SourceMap): seq<Name> {
    if keys == [] then []
    else
      var last := keys[|keys| - 1];
      Unfinished(keys[..|keys| - 1], rss) + if last in rss && rss[last].Stamped() then [] else [last.name]
  }

  lemma {:induction false} MainsAreListed(items: seq<Item<PVC>>)
    ensures forall k :: k in Mains(items) <==> k.name.App? && exists x :: x in items && x.key == k
    ensures |Mains(items)| <= |items|
  {
    if items != [] {
      var front, last := items[..|items| - 1], items[|items| - 1];
      MainsAreListed(front);
      assert items == front + [last];
      forall k | k in Mains(items)
        ensures exists x :: x in items && x.key == k
      {
        if k in Mains(front) {
          var x :| x in front && x.key == k;
          assert x in items;
        } else {
          assert last in items && last.key == k;
        }
      }
    }
  }

  /** A list of claims is finished when no name is left over. */
  lemma {:induction false} FinishedIffAllStamped(keys: seq<Key>, rss: SourceMap)
    ensures Unfinished(keys, rss) == [] <==> forall k :: k in keys ==> k in rss && rss[k].Stamped()
  {
    if keys != [] {
      var front, last := keys[..|keys| - 1], keys[|keys| - 1];
      FinishedIffAllStamped(front, rss);
      assert Unfinished(keys, rss) == Unfinished(front, rss) + if last in rss && rss[last].Stamped() then [] else [last.name];
      assert forall k :: k in keys <==> k in front || k == last;
      hide Unfinished;
    }
  }

  lemma {:induction false} UnfinishedDependsOnStamps(keys: seq<Key>, w: SourceMap, v: SourceMap)
    requires forall k :: k in keys ==> (k in w && w[k].Stamped() <==> k in v && v[k].Stamped())
    ensures Unfinished(keys, w) == Unfinished(keys, v)
  {
    if keys != [] {
      assert forall k :: k in keys[..|keys| - 1] ==> k in keys;
      UnfinishedDependsOnStamps(keys[..|keys| - 1], w, v);
    }
  }

  lemma MainsOfNext(items: seq<Item<PVC>>, i: nat)
    requires i < |items|
    ensures items[i].key.name.Tmp? ==> Mains(items[..i + 1]) == Mains(items[..i])
    ensures items[i].key.name.App? ==> Mains(items[..i + 1]) == Mains(items[..i]) + [items[i].key]
  {
    assert items[..i + 1][..i] == items[..i];
  }

  // ---------- while stand-ins are created ----------

  /** Application claims are exactly as they were. */
  ghost predicate SameMains(w: ClaimMap, v: ClaimMap) {
    forall c: Key :: c.name.App? ==> (c in w <==> c in v) && (c in w ==> v[c] == w[c])
  }

  /** A hand-off only adds the stand-in. */
  lemma HandOffAddsStandIn(w: World, k: Key, stage: nat)
    ensures w.pvcs.Keys <= HandOffAfter(w, k, false, stage).pvcs.Keys
    ensures stage > 0 && HasVolume(w, k) ==> TmpOf(k) in HandOffAfter(w, k, false, stage).pvcs
  {
    if HasVolume(w, k) && stage > 0 {
      StandInIsAdded(w, k, w.pvcs[k]);
      hide WithStandIn;
    } else {
      hide WithStandIn, Pointed;
    }
  }

  lemma StandInIsAdded(w: World, k: Key, main: PVC)
    ensures w.pvcs.Keys <= WithStandIn(w, k, main).pvcs.Keys && TmpOf(k) in WithStandIn(w, k, main).pvcs
  {
    hide TemporaryClaim;
  }

  lemma HandOffLeavesMains(w: World, k: Key, stage: nat)
    ensures SameMains(w.pvcs, HandOffAfter(w, k, false, stage).pvcs)
  {
    if HasVolume(w, k) && stage > 0 {
      StandInLeavesMains(w, k, w.pvcs[k]);
      hide WithStandIn, SameMains;
    } else {
      hide WithStandIn, Pointed;
    }
  }

  lemma StandInLeavesMains(w: World, k: Key, main: PVC)
    ensures SameMains(w.pvcs, WithStandIn(w, k, main).pvcs)
  {
    hide TemporaryClaim;
  }

  lemma NothingHappens(s: Setting, w: World)
    ensures Steady(s, w, w) && Kept(w.pvcs, w.pvcs)
  {
  }

  lemma RebindingIsOnTheSide(p: PVC)
    ensures SameClaim(p, Rebound(p))
    ensures p.deleting ==> Rebound(p).finalizers == p.finalizers
  {
  }

  lemma NoNewNames(s: Setting, w: World, v: World)
    requires Steady(s, w, v) && v.pvs == w.pvs && v.pvcs.Keys <= w.pvcs.Keys
    ensures Referred(s, w) ==> Referred(s, v)
  {
    if Referred(s, w) {
      ReferredStays(s, w, v, Key("", App("")));
    }
  }

  /** Every one of the claims has a stand-in. */
  ghost predicate StoodIn(pvcs: ClaimMap, keys: seq<Key>) {
    forall k :: k in keys ==> TmpOf(k) in pvcs
  }

  /** Claim `k` has a stand-in that stays while the reconcile goes on. */
  ghost predicate Firm(s: Setting, pvcs: ClaimMap, k: Key) {
    TmpOf(k) in pvcs && (s.calm || !pvcs[TmpOf(k)].deleting)
  }

  ghost predicate FirmEach(s: Setting, pvcs: ClaimMap, keys: seq<Key>) {
    forall k :: k in keys ==> Firm(s, pvcs, k)
  }

  /** No stand-in of the claims goes away while the reconcile goes on: none is being deleted, or nothing happens meanwhile. */
  ghost predicate NoneGoes(s: Setting, pvcs: ClaimMap, keys: seq<Key>) {
    forall k :: k in keys ==> s.calm || !Going(pvcs, TmpOf(k))
  }

  ghost predicate AllTerminating(pvcs: ClaimMap, keys: seq<Key>) {
    forall k :: k in keys ==> Going(pvcs, k)
  }

  lemma NothingListed(s: Setting, pvcs: ClaimMap)
    ensures Mains([]) == [] && FirmEach(s, pvcs, []) && AllTerminating(pvcs, []) && SameMains(pvcs, pvcs)
    ensures StoodInIfGoing(pvcs, pvcs, []) && LostAreTold(pvcs, [])
  {
  }

  lemma FirmStays(s: Setting, w: World, v: World, keys: seq<Key>)
    requires Inv(s, w) && Kept(w.pvcs, v.pvcs) && (s.calm ==> w.pvcs.Keys <= v.pvcs.Keys)
    ensures FirmEach(s, w.pvcs, keys) ==> FirmEach(s, v.pvcs, keys)
  {
    hide Claims, Relocating, Exclusive, Guarded, Kept;
    if FirmEach(s, w.pvcs, keys) {
      forall k | k in keys
        ensures Firm(s, v.pvcs, k)
      {
        if !s.calm {
          StandInStays(s, w, v.pvcs, TmpOf(k));
        }
      }
    }
  }

  /** The handling of claim `k` starts the deletion of no stand-in. */
  lemma NoneStartsToGo(s: Setting, w: World, v: World, keys: seq<Key>, k: Key)
    requires Inv(s, w) && Kept(w.pvcs, v.pvcs) && v.pvcs.Keys <= w.pvcs.Keys + {TmpOf(k)}
    requires k !in keys || v.pvcs.Keys <= w.pvcs.Keys
    ensures NoneGoes(s, w.pvcs, keys) ==> NoneGoes(s, v.pvcs, keys)
  {
    hide Claims, Relocating, Exclusive, Guarded, Kept;
    if NoneGoes(s, w.pvcs, keys) {
      forall j | j in keys && !s.calm
        ensures !Going(v.pvcs, TmpOf(j))
      {
        if TmpOf(j) in v.pvcs {
          assert TmpOf(j) in w.pvcs by {
            assert j != k ==> TmpOf(j) != TmpOf(k);
          }
          StandInStays(s, w, v.pvcs, TmpOf(j));
        }
      }
    }
  }

  lemma NoneGoesAfter(s: Setting, pvcs: ClaimMap, keys: seq<Key>, rest: seq<Key>)
    requires forall k :: k in rest ==> k in keys
    ensures NoneGoes(s, pvcs, keys) ==> NoneGoes(s, pvcs, rest)
  {
    hide Going;
  }

  /** The claims of the list from the i-th on. */
  lemma {:induction false} MainsFrom(items: seq<Item<PVC>>, i: nat)
    requires i < |items| && Distinct(items)
    ensures forall k :: k in Mains(items[i + 1..]) ==> k in Mains(items[i..])
    ensures items[i].key !in Mains(items[i + 1..])
    ensures items[i].key.name.App? ==> items[i].key in Mains(items[i..])
  {
    MainsAreListed(items[i + 1..]);
    MainsAreListed(items[i..]);
    hide Mains;
    LaterKeysDiffer(items, i);
    hide Distinct;
    assert items[i..] == [items[i]] + items[i + 1..];
    assert items[i] in items[i..] && forall x :: x in items[i + 1..] ==> x in items[i..];
  }

  lemma LaterKeysDiffer(items: seq<Item<PVC>>, i: nat)
    requires i < |items| && Distinct(items)
    ensures forall x :: x in items[i + 1..] ==> x.key != items[i].key
  {
    forall x | x in items[i + 1..]
      ensures x.key != items[i].key
    {
      var j :| 0 <= j < |items[i + 1..]| && items[i + 1..][j] == x;
      assert items[i + 1 + j] == x;
    }
  }

  lemma SameMainsIsTransitive(u: ClaimMap, v: ClaimMap, w: ClaimMap, k: Key)
    ensures SameMains(u, v) && SameMains(v, w) ==> SameMains(u, w)
    ensures SameMains(u, v) && k.name.App? ==> Going(v, k) == Going(u, k)
  {
  }

  lemma OneMoreListed(s: Setting, w: ClaimMap, v: ClaimMap, keys: seq<Key>, k: Key)
    ensures FirmEach(s, v, keys) && Firm(s, v, k) ==> FirmEach(s, v, keys + [k])
    ensures AllTerminating(w, keys + [k]) <==> AllTerminating(w, keys) && Going(w, k)
  {
    assert k in keys + [k] && forall j :: j in keys ==> j in keys + [k];
  }

  // ---------- while sources are triggered ----------

  /** A list names each claim once. */
  ghost predicate Distinct(items: seq<Item<PVC>>) {
    forall i, j :: 0 <= i < j < |items| ==> items[i].key != items[j].key
  }

  ghost predicate AllInFinalSync(rss: SourceMap, keys: seq<Key>) {
    forall k :: k in keys ==> InFinalSync(rss, k)
  }

  ghost predicate StampedEach(rss: SourceMap, keys: seq<Key>) {
    forall k :: k in keys ==> k in rss && rss[k].Stamped()
  }

  ghost predicate UnmountedEach(pods: PodMap, keys: seq<Key>) {
    forall k :: k in keys ==> Unmounted(pods, k)
  }

  lemma NothingSynced(s: Setting, w: World)
    ensures SameStamps(w.rss, w.rss)
    ensures Syncing(s, w, w) && Mains([]) == [] && Unfinished([], w.rss) == []
    ensures AllInFinalSync(w.rss, []) && StampedEach(w.rss, []) && UnmountedEach(w.pods, [])
  {
  }

  lemma NoNewNamesInSync(s: Setting, w: World, v: World)
    requires Syncing(s, w, v) && v.pvs == w.pvs && v.pvcs.Keys <= w.pvcs.Keys
    ensures Referred(s, w) ==> Referred(s, v)
  {
    if Referred(s, w) {
      ReferredStays(s, w, v, Key("", App("")));
    }
  }

  lemma SyncingKeepsStandIns(s: Setting, w: World, v: World, keys: seq<Key>)
    requires Inv(s, w) && Syncing(s, w, v) && (s.calm ==> w.pvcs.Keys <= v.pvcs.Keys)
    ensures FirmEach(s, w.pvcs, keys) ==> FirmEach(s, v.pvcs, keys)
  {
    hide Inv, Kept, FirmEach;
    FirmStays(s, w, v, keys);
  }

  lemma ListedHasStandIn(s: Setting, items: seq<Item<PVC>>, i: nat, pvcs: ClaimMap)
    requires i < |items| && items[i].key.name.App?
    ensures FirmEach(s, pvcs, Mains(items)) ==> TmpOf(items[i].key) in pvcs
  {
    MainsAreListed(items);
    assert items[i] in items;
  }

  lemma KeyIsNew(items: seq<Item<PVC>>, i: nat)
    requires i < |items| && Distinct(items)
    ensures items[i].key !in Mains(items[..i])
  {
    MainsAreListed(items[..i]);
  }

  lemma OneMoreSynced(w: SourceMap, v: SourceMap, keys: seq<Key>, k: Key)
    requires k !in keys && OtherSources(w, v, k) && AllInFinalSync(w, keys) && InFinalSync(v, k)
    ensures AllInFinalSync(v, keys + [k])
    ensures StampedEach(w, keys) && v[k].Stamped() ==> StampedEach(v, keys + [k])
  {
    forall j | j in keys
      ensures InFinalSync(v, j) && (w[j].Stamped() ==> v[j].Stamped())
    {
      InFinalSyncStays(w, v, j, k);
    }
  }

  lemma OneMoreUnmounted(pods: PodMap, keys: seq<Key>, k: Key)
    ensures UnmountedEach(pods, keys) && Unmounted(pods, k) ==> UnmountedEach(pods, keys + [k])
  {
    hide Unmounted;
  }

  /** Triggering one more source changes no stamp. */
  lemma OneMoreAccounted(w: SourceMap, v: SourceMap, keys: seq<Key>, k: Key)
    requires k !in keys && k in w && v == w[k := FinalSource(w[k], k)]
    ensures Unfinished(keys + [k], v) == Unfinished(keys, w) + if w[k].Stamped() then [] else [k.name]
  {
    assert (keys + [k])[..|keys|] == keys;
    UnfinishedDependsOnStamps(keys, w, v);
  }

  lemma StampedEachIsAll(rss: SourceMap, keys: seq<Key>)
    ensures StampedEach(rss, keys) <==> forall k :: k in keys ==> k in rss && rss[k].Stamped()
  {
  }

  lemma TerminatingStays(w: ClaimMap, v: ClaimMap, keys: seq<Key>)
    requires forall k :: k in keys ==> k.name.App?
    ensures SameMains(w, v) && AllTerminating(w, keys) ==> AllTerminating(v, keys)
  {
  }

  lemma ListedDoesNotGo(s: Setting, pvcs: ClaimMap, keys: seq<Key>, k: Key)
    ensures k in keys && NoneGoes(s, pvcs, keys) ==> s.calm || !Going(pvcs, TmpOf(k))
  {
  }

  lemma KeptNoneGoes(s: Setting, w: World, v: World, keys: seq<Key>)
    requires Inv(s, w) && Kept(w.pvcs, v.pvcs) && v.pvcs.Keys <= w.pvcs.Keys
    ensures NoneGoes(s, w.pvcs, keys) ==> NoneGoes(s, v.pvcs, keys)
  {
    hide Inv, Kept, NoneGoes;
    NoneStartsToGo(s, w, v, keys, Key("", App("")));
  }

  lemma CalmNoneGoes(s: Setting, pvcs: ClaimMap, keys: seq<Key>)
    ensures s.calm ==> NoneGoes(s, pvcs, keys)
  {
  }

  lemma FirmIsStoodInIf(s: Setting, pvcs: ClaimMap, keys: seq<Key>)
    ensures FirmEach(s, pvcs, keys) ==> StoodIn(pvcs, keys)
  {
  }

  // ---------- without interference ----------

  /** Claims stay as they are, and new ones are stand-ins with the labels of their claims. */
  ghost predicate StandInsAdded(w: ClaimMap, v: ClaimMap) {
    && (forall c :: c in w ==> c in v && UpkeptClaim(w[c], v[c]))
    && (forall c :: c in v && c !in w ==>
          c.name.Tmp? && c.name.of.App? && MainOf(c) in w && v[c].labels == w[MainOf(c)].labels && !v[c].phase.Lost?)
  }

  /** Stand-ins were added, and volumes turned to them. */
  ghost predicate Prepared(w: World, v: World) {
    StandInsAdded(w.pvcs, v.pvcs) && w.pvs.Keys <= v.pvs.Keys && v == w.(pvcs := v.pvcs, pvs := v.pvs)
  }

  lemma NothingPrepared(w: World)
    ensures Prepared(w, w)
  {
  }

  lemma PreparationIsLocal(w: World, v: World)
    requires Prepared(w, v)
    ensures v == w.(pvcs := v.pvcs, pvs := v.pvs) && StandInsAdded(w.pvcs, v.pvcs)
  {
    hide StandInsAdded;
  }

  lemma PreparedIsTransitive(u: World, v: World, w: World)
    requires Prepared(u, v) && Prepared(v, w)
    ensures Prepared(u, w)
  {
    hide UpkeptClaim;
    StandInsAddedIsTransitive(u.pvcs, v.pvcs, w.pvcs);
    hide StandInsAdded;
  }

  lemma StandInsAddedIsTransitive(u: ClaimMap, v: ClaimMap, w: ClaimMap)
    requires StandInsAdded(u, v) && StandInsAdded(v, w)
    ensures StandInsAdded(u, w)
  {
  }

  lemma HandOffIsPrepared(w: World, k: Key, stage: nat)
    requires k.name.App?
    ensures Prepared(w, HandOffAfter(w, k, false, stage))
  {
    NothingPrepared(w);
    if HasVolume(w, k) && stage > 0 {
      StandInIsPrepared(w, k, w.pvcs[k]);
      var w1 := WithStandIn(w, k, w.pvcs[k]);
      StandInLeavesTheClaim(w, k, w.pvcs[k]);
      hide WithStandIn, StandInsAdded;
      PointedThere(w1, w.pvcs[k].volumeName, TmpOf(k));
    }
  }

  lemma StandInIsPrepared(w: World, k: Key, main: PVC)
    requires k.name.App? && k in w.pvcs && main == w.pvcs[k]
    ensures Prepared(w, WithStandIn(w, k, main))
  {
    var tmp := TemporaryClaim(main, main.volumeName);
    assert tmp.labels == main.labels && tmp.phase.Pending?;
    hide TemporaryClaim;
    NothingPrepared(w);
    if TmpOf(k) in w.pvcs {
      StandInThere(w, k, main);
      hide WithStandIn, Prepared;
    } else {
      assert WithStandIn(w, k, main) == w.(pvcs := w.pvcs[TmpOf(k) := tmp]);
      hide WithStandIn;
    }
  }

  lemma RebindingIsPrepared(w: World, k: Key)
    requires k in w.pvcs
    ensures Prepared(w, w.(pvcs := w.pvcs[k := Rebound(w.pvcs[k])]))
  {
  }

  /** The final sync of the listed claims can start: they are being deleted, and no pod mounts them. */
  ghost predicate Startable(w: World, list: seq<Item<PVC>>) {
    && (forall x :: x in list && x.key.name.Tmp? ==> !x.value.phase.Lost?)
    && forall k :: k in Mains(list) ==> StartableClaim(w, k)
  }

  ghost predicate StartableClaim(w: World, k: Key) {
    Going(w.pvcs, k) && HasVolume(w, k) && k in w.rss && Unmounted(w.pods, k)
  }

  /** Those of the listed claims that are being deleted can be given stand-ins: they have volumes, and no listed stand-in is lost. */
  ghost predicate Preparable(w: World, list: seq<Item<PVC>>) {
    && (forall x :: x in list && x.key.name.Tmp? ==> !x.value.phase.Lost?)
    && forall k :: k in Mains(list) && Going(w.pvcs, k) ==> HasVolume(w, k)
  }

  lemma StartableIsPreparable(w: World, list: seq<Item<PVC>>)
    requires Startable(w, list)
    ensures Preparable(w, list) && AllTerminating(w.pvcs, Mains(list))
  {
    hide Mains, Unmounted;
  }

  lemma ListedIsPreparable(w: World, v: World, list: seq<Item<PVC>>, i: nat)
    requires i < |list| && Preparable(w, list) && Prepared(w, v)
    ensures list[i].key.name.Tmp? ==> !list[i].value.phase.Lost?
    ensures list[i].key.name.App? && Going(v.pvcs, list[i].key) ==> HasVolume(v, list[i].key)
  {
    MainsAreListed(list);
    hide Mains;
    assert list[i] in list;
  }

  lemma StillHeldUp(w: World, v: World, keys: seq<Key>)
    requires v == w.(pvcs := v.pvcs, pvs := v.pvs)
    ensures HeldUp(w, keys) ==> HeldUp(v, keys)
  {
    hide Unmounted;
    if HeldUp(w, keys) {
      var m: nat :| m < |keys| && FirstMounted(w, keys, m);
      assert FirstMounted(v, keys, m);
    }
  }

  /** The listed stand-ins in phase Lost have been told to bind again. */
  ghost predicate LostAreTold(pvcs: ClaimMap, list: seq<Item<PVC>>) {
    forall x :: x in list && x.key.name.Tmp? && x.value.phase.Lost? && BindCompleted in x.value.annotations ==>
      x.key in pvcs && BindCompleted !in pvcs[x.key].annotations
  }

  lemma OneMoreTold(w: World, v: World, list: seq<Item<PVC>>, i: nat)
    requires i < |list| && LostAreTold(w.pvcs, list[..i]) && Prepared(w, v)
    requires LostAreTold(v.pvcs, [list[i]])
    ensures LostAreTold(v.pvcs, list[..i + 1])
  {
    assert list[i] in [list[i]];
    assert forall x :: x in list[..i + 1] ==> x in list[..i] || x == list[i];
  }

  lemma NoneIsTold(pvcs: ClaimMap, x: Item<PVC>)
    requires x.key.name.App?
    ensures LostAreTold(pvcs, [x])
  {
  }

  /** Those of the claims that are being deleted have stand-ins. */
  ghost predicate StoodInIfGoing(w: ClaimMap, v: ClaimMap, keys: seq<Key>) {
    forall k :: k in keys && Going(w, k) ==> TmpOf(k) in v
  }

  lemma OneMoreIfGoing(s: Setting, u: ClaimMap, w: ClaimMap, v: ClaimMap, keys: seq<Key>, k: Key)
    requires StoodInIfGoing(u, w, keys) && w.Keys <= v.Keys
    ensures StoodInIfGoing(u, v, keys) && (!Going(u, k) || Firm(s, v, k) ==> StoodInIfGoing(u, v, keys + [k]))
  {
    hide Going;
  }

  lemma StaysStartable(w: World, v: World, k: Key)
    requires StartableClaim(w, k) && Prepared(w, v)
    ensures StartableClaim(v, k)
  {
    hide Unmounted;
  }

  lemma StillStartable(w: World, v: World, list: seq<Item<PVC>>)
    requires Startable(w, list) && Prepared(w, v)
    ensures Startable(v, list)
  {
    hide Prepared, StartableClaim;
    forall k | k in Mains(list)
      ensures StartableClaim(v, k)
    {
      StaysStartable(w, v, k);
    }
  }

  lemma NextIsStartable(w: World, v: World, list: seq<Item<PVC>>, i: nat)
    requires i < |list| && list[i].key.name.App? && Startable(w, list) && v == w.(rss := v.rss) && SameStamps(w.rss, v.rss)
    ensures list[i].key in v.rss && Unmounted(v.pods, list[i].key)
  {
    hide Unmounted;
    MainsAreListed(list);
    assert list[i] in list;
  }

  /** The sources after those of the claims were turned to the stand-ins and triggered. */
  function TriggeredIn(rss: SourceMap, keys: seq<Key>): SourceMap {
    map k | k in rss ::
      if k in keys then rss[k].(paused := false, sourcePVC := Tmp(k.name), trigger := Manual(FinalSync)) else rss[k]
  }

  /** Claim `m` of the list is the first that a pod mounts, and its source and those of the claims before it exist. */
  ghost predicate FirstMounted(w: World, keys: seq<Key>, m: nat) {
    m < |keys| && !Unmounted(w.pods, keys[m]) && forall j :: 0 <= j <= m ==> keys[j] in w.rss && (j < m ==> Unmounted(w.pods, keys[j]))
  }

  /** A pod mounts one of the claims, and up to the first such claim all sources exist. */
  ghost predicate HeldUp(w: World, keys: seq<Key>) {
    exists m: nat :: m < |keys| && FirstMounted(w, keys, m)
  }

  /** The final sync has come up to the first claim that a pod mounts: the sources before it run, and its own was stopped. */
  ghost predicate HeldUpThere(w: World, v: World, keys: seq<Key>, error: Error) {
    exists m: nat :: m < |keys| && FirstMounted(w, keys, m) && error == StillInUse(keys[m].name) && Stopped(w.(rss := TriggeredIn(w.rss, keys[..m])), v, keys[m])
  }

  /** The source of the listed claim with this name is paused. */
  ghost predicate PausedFor(list: seq<Item<PVC>>, rss: SourceMap, error: Error) {
    exists x :: x in list && x.key.name.App? && error == StillInUse(x.key.name) && x.key in rss && rss[x.key].paused
  }

  lemma {:induction false} MainsBefore(items: seq<Item<PVC>>, i: nat)
    requires i <= |items|
    ensures |Mains(items[..i])| <= |Mains(items)| && Mains(items)[..|Mains(items[..i])|] == Mains(items[..i])
    decreases |items|
  {
    if i < |items| {
      MainsBefore(items[..|items| - 1], i);
      assert items[..|items| - 1][..i] == items[..i];
    } else {
      assert items[..i] == items;
    }
  }

  lemma MainIs(items: seq<Item<PVC>>, i: nat)
    requires i < |items| && items[i].key.name.App?
    ensures var n := |Mains(items[..i])|; n < |Mains(items)| && Mains(items)[..n] == Mains(items[..i]) && Mains(items)[n] == items[i].key
  {
    MainsBefore(items, i);
    MainsBefore(items, i + 1);
    MainsOfNext(items, i);
    hide Mains;
    assert Mains(items)[..|Mains(items[..i + 1])|][|Mains(items[..i])|] == items[i].key;
  }

  lemma ListedIsPaused(list: seq<Item<PVC>>, i: nat, rss: SourceMap, error: Error)
    requires i < |list| && list[i].key.name.App?
    requires error.StillInUse? ==> error == StillInUse(list[i].key.name) && list[i].key in rss && rss[list[i].key].paused
    ensures error.StillInUse? ==> PausedFor(list, rss, error)
  {
    assert list[i] in list;
  }

  /** Here the final sync is held up. */
  lemma HeldUpHere(w: World, u: World, v: World, list: seq<Item<PVC>>, i: nat)
    requires i < |list| && list[i].key.name.App?
    requires var before := Mains(list[..i]);
      u == w.(rss := TriggeredIn(w.rss, before)) && UnmountedEach(u.pods, before) && forall k :: k in before ==> k in w.rss
    requires !Unmounted(u.pods, list[i].key) && Stopped(u, v, list[i].key)
    ensures HeldUpThere(w, v, Mains(list), StillInUse(list[i].key.name))
  {
    MainIs(list, i);
    hide Mains, Unmounted, Stopped, UnmountedEach, TriggeredIn, HeldUpThere;
    HeldUpAt(w, u, v, Mains(list), |Mains(list[..i])|);
  }

  lemma HeldUpAt(w: World, u: World, v: World, keys: seq<Key>, n: nat)
    requires n < |keys| && u == w.(rss := TriggeredIn(w.rss, keys[..n])) && UnmountedEach(u.pods, keys[..n])
    requires forall k :: k in keys[..n] ==> k in w.rss
    requires !Unmounted(u.pods, keys[n]) && Stopped(u, v, keys[n])
    ensures HeldUpThere(w, v, keys, StillInUse(keys[n].name))
  {
    TriggeredNames(w.rss, keys[..n]);
    StoppedSourceIsThere(u, v, keys[n]);
    hide Unmounted, Stopped, TriggeredIn;
    forall j | 0 <= j < n
      ensures keys[j] in w.rss && Unmounted(w.pods, keys[j])
    {
      assert keys[..n][j] == keys[j];
    }
    assert FirstMounted(w, keys, n);
    hide FirstMounted;
  }

  lemma StoppedSourceIsThere(w: World, v: World, k: Key)
    requires Stopped(w, v, k)
    ensures k in w.rss && v.pvcs == w.pvcs && v.pvs == w.pvs && v.vgr == w.vgr
  {
    hide MadeWay, Settled;
  }

  lemma TriggeredNames(rss: SourceMap, keys: seq<Key>)
    ensures TriggeredIn(rss, keys).Keys == rss.Keys
  {
  }

  /** Up to the claim at which it is held up, the final sync finds all sources. */
  lemma NotHeldUpYet(w: World, list: seq<Item<PVC>>, i: nat)
    requires i < |list| && list[i].key.name.App? && HeldUp(w, Mains(list)) && UnmountedEach(w.pods, Mains(list[..i]))
    ensures list[i].key in w.rss
  {
    MainIs(list, i);
    hide Mains, Unmounted, HeldUp, UnmountedEach;
    SourceIsThere(w, Mains(list), |Mains(list[..i])|);
  }

  lemma SourceIsThere(w: World, keys: seq<Key>, n: nat)
    requires n < |keys| && HeldUp(w, keys) && UnmountedEach(w.pods, keys[..n])
    ensures keys[n] in w.rss
  {
    hide Unmounted;
    assert forall m :: 0 <= m < n ==> keys[..n][m] == keys[m];
    assert forall m :: 0 <= m < n ==> !FirstMounted(w, keys, m);
  }

  lemma UnmountedIsNotHeldUp(w: World, keys: seq<Key>)
    requires UnmountedEach(w.pods, keys)
    ensures !HeldUp(w, keys)
  {
    hide Unmounted;
    forall m: nat
      ensures !FirstMounted(w, keys, m)
    {
      assert m < |keys| ==> keys[m] in keys;
    }
  }

  lemma HeldUpIsLocal(w: World, v: World, keys: seq<Key>, error: Error)
    requires HeldUpThere(w, v, keys, error)
    ensures v.pvcs == w.pvcs && v.pvs == w.pvs && v.vgr == w.vgr
    ensures exists k :: k in keys && error == StillInUse(k.name)
  {
    hide FirstMounted, Stopped, TriggeredIn;
    var m: nat :| m < |keys| && FirstMounted(w, keys, m) && error == StillInUse(keys[m].name) && Stopped(w.(rss := TriggeredIn(w.rss, keys[..m])), v, keys[m]);
    assert keys[m] in keys;
    StoppedSourceIsThere(w.(rss := TriggeredIn(w.rss, keys[..m])), v, keys[m]);
  }

  lemma NothingTriggered(rss: SourceMap)
    ensures TriggeredIn(rss, []) == rss
  {
  }

  lemma OneMoreTriggered(rss: SourceMap, keys: seq<Key>, k: Key)
    requires k in rss && k !in keys
    ensures var u := TriggeredIn(rss, keys); k in u && u[k] == rss[k] && u.Keys == rss.Keys
    ensures var u := TriggeredIn(rss, keys); u[k := FinalSource(u[k], k)] == TriggeredIn(rss, keys + [k])
  {
  }

  /** The same sources have recorded a sync. */
  ghost predicate SameStamps(w: SourceMap, v: SourceMap) {
    v.Keys == w.Keys && forall k :: k in w ==> v[k].Stamped() == w[k].Stamped()
  }

  lemma TriggeringKeepsStamps(u: SourceMap, w: SourceMap, k: Key)
    requires SameStamps(u, w)
    ensures k in w ==> SameStamps(u, w[k := FinalSource(w[k], k)])
  {
  }

  /** The final sync of the claims runs: they have stand-ins, and their sources were triggered. */
  ghost predicate Begun(w: World, v: World, keys: seq<Key>) {
    && StandInsAdded(w.pvcs, v.pvcs) && SameStamps(w.rss, v.rss) && StoodIn(v.pvcs, keys) && AllInFinalSync(v.rss, keys)
    && v.rss == TriggeredIn(w.rss, keys)
    && v == w.(pvcs := v.pvcs, pvs := v.pvs, rss := v.rss)
  }

  /** A reconcile that starts the final sync of the listed claims: it is asked for, and not all of them have recorded it. */
  ghost predicate Beginning(w: World, list: seq<Item<PVC>>) {
    Required(w, w.vgr) && !AllStamped(w.rss, w.vgr.ns) && Startable(w, list) && !StampedEach(w.rss, Mains(list))
  }

  /** One that waits until all of the listed claims are being deleted. */
  ghost predicate Awaiting(w: World, list: seq<Item<PVC>>) {
    Required(w, w.vgr) && !AllStamped(w.rss, w.vgr.ns) && Preparable(w, list) && !AllTerminating(w.pvcs, Mains(list))
  }

  /** One that finds all of them being deleted, but a pod on one of them. */
  ghost predicate Stalling(w: World, list: seq<Item<PVC>>) {
    && Required(w, w.vgr) && !AllStamped(w.rss, w.vgr.ns) && Preparable(w, list) && AllTerminating(w.pvcs, Mains(list))
    && HeldUp(w, Mains(list)) && forall k :: k in Mains(list) ==> k.name != App("")
  }

  /** One that finds the final sync of all listed claims recorded, but not that of every source of the namespace. */
  ghost predicate Completing(w: World, list: seq<Item<PVC>>) {
    Required(w, w.vgr) && !AllStamped(w.rss, w.vgr.ns) && Startable(w, list) && StampedEach(w.rss, Mains(list))
  }

  /** Stand-ins were added, one for every listed claim that is being deleted, and volumes turned to them. */
  ghost predicate Awaited(w: World, v: World, list: seq<Item<PVC>>) {
    Prepared(w, v) && StoodInIfGoing(w.pvcs, v.pvcs, Mains(list))
  }

  /** Stand-ins were added, and the final sync has come up to the first claim that a pod mounts. */
  ghost predicate Stalled(w: World, v: World, list: seq<Item<PVC>>, error: Error) {
    var u := w.(pvcs := v.pvcs, pvs := v.pvs);
    Prepared(w, u) && HeldUpThere(u, v, Mains(list), error)
  }

  /** A reconcile that is about the final sync, in one of these ways. */
  ghost predicate Syncable(w: World, list: seq<Item<PVC>>) {
    Beginning(w, list) || Awaiting(w, list) || Stalling(w, list)
  }

  /** What such a reconcile comes to: it comes back later, or fails because a claim is in use. */
  ghost predicate SyncedAsFar(w: World, v: World, list: seq<Item<PVC>>, r: Result<Requeue>) {
    && (Beginning(w, list) ==> r == Success(After(WAITING_INTERVAL)) && Begun(w, v, Mains(list)))
    && (Awaiting(w, list) ==> r == Success(After(WAITING_INTERVAL)) && Awaited(w, v, list))
    && (Stalling(w, list) ==> r.Failure? && r.error.StillInUse? && Stalled(w, v, list, r.error))
  }

  lemma SyncIsOneWay(w: World, list: seq<Item<PVC>>)
    ensures Beginning(w, list) || Completing(w, list) ==> !Awaiting(w, list) && !Stalling(w, list)
    ensures Completing(w, list) ==> !Beginning(w, list)
    ensures Syncable(w, list) || Completing(w, list) ==> Required(w, w.vgr) && !AllStamped(w.rss, w.vgr.ns)
    ensures Stalling(w, list) ==> forall k :: k in Mains(list) ==> k.name != App("")
  {
    if Startable(w, list) {
      StartableIsPreparable(w, list);
      UnmountedIsNotHeldUp(w, Mains(list));
    }
    hide Mains, HeldUp, Preparable, AllTerminating, Required, AllStamped, StampedEach;
  }

  lemma StampsAreTheSameThroughout(w: SourceMap, v: SourceMap, ns: string)
    requires SameStamps(w, v)
    ensures AllStamped(w, ns) <==> AllStamped(v, ns)
  {
  }

  lemma SyncIsLocal(w: World, v: World, list: seq<Item<PVC>>, r: Result<Requeue>)
    requires Syncable(w, list) && SyncedAsFar(w, v, list, r)
    ensures v.vgr == w.vgr
    ensures r.Failure? || r == Success(After(WAITING_INTERVAL))
  {
    hide Mains, StandInsAdded, TriggeredIn, SameStamps, StoodIn, AllInFinalSync, StoodInIfGoing, HeldUp, Required, AllStamped, Startable, Preparable;
    if Stalling(w, list) {
      HeldUpIsLocal(w.(pvcs := v.pvcs, pvs := v.pvs), v, Mains(list), r.error);
    }
    hide HeldUpThere, Prepared;
  }

  lemma StampsAreTheSame(w: SourceMap, v: SourceMap, keys: seq<Key>)
    requires SameStamps(w, v)
    ensures StampedEach(w, keys) <==> StampedEach(v, keys)
  {
  }
}
