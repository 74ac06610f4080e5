/** How long a relocation takes: what the cluster looks like before and after each of its phases. */
module Progress {

  import opened Names
  import opened Objects
  import opened System
  import opened Protocol
  import opened Api
  import opened RoundTrip
  import opened Replication
  import opened SyncSteps
  import opened Demotion
  import opened SecondarySide
  import opened Convergence
  import opened Theorems
  import opened Wrappers

  /** A relocation without interference or faults, in which nobody else holds the stand-ins. */
  predicate InRelocation(s: Setting) {
    s.relocating && s.calm && s.reliable && s.plain
  }

  /** The set of claims that the relocation is about, as the selector of the VGR sees it, is in order. */
  ghost predicate InOrder(s: Setting, w: World, secret: string) {
    && ActsAsSecondary(w.vgr) && s.group != map[]
    && (forall r :: r in w.rss && r.ns == w.vgr.ns ==> r in s.group)
    && Fit(w, secret) && Tidy(s.group.Keys, w.vgr.selector.value, w.vgr.ns, w.pvcs)
  }

  /** A relocation can begin: the group's claims are being deleted, no pod mounts them, and their sources are there. */
  ghost predicate Leaving(s: Setting, w: World, secret: string) {
    && InOrder(s, w, secret) && w.vgr.status.state != SecondaryState && !AllStamped(w.rss, w.vgr.ns)
    && (forall k :: k in s.group ==> Going(w.pvcs, k) && k in w.rss && Unmounted(w.pods, k))
  }

  /** The final sync of every group claim runs from its stand-in. */
  ghost predicate HandedOver(s: Setting, w: World, secret: string) {
    && InOrder(s, w, secret)
    && (forall k :: k in s.group ==> Going(w.pvcs, k) && TmpOf(k) in w.pvcs && InFinalSync(w.rss, k))
  }

  /** Every group claim is back with its volume. */
  ghost predicate AllBack(s: Setting, w: World) {
    forall k :: k in s.group ==> Back(w, k, s.group[k])
  }

  /** All claims are back, and nothing is left to restore. */
  ghost predicate AllReturned(s: Setting, w: World, secret: string) {
    && AllBack(s, w) && s.group != map[] && Restoring(s.group.Keys, w) && WaitingOf(s.group.Keys, w.pvcs) == {}
    && Fit(w, secret) && Tidy(s.group.Keys, w.vgr.selector.value, w.vgr.ns, w.pvcs)
  }

  /** There are such groups. */
  lemma LeavingExists(secret: string) returns (s: Setting, w: World)
    ensures Inv(s, w) && Referred(s, w) && InRelocation(s) && Leaving(s, w, secret)
  {
    var k, owner := Key("ns", App("data")), Key("ns", App("vrg"));
    var pvc := PVC(map[Owner := "vgr"], map[], {Protection}, true, ClaimSpec([], 1, None, None), "pv", Bound);
    var vgr := VGR("ns", "vgr", Some(owner), Some(map[Owner := "vgr"]), Secondary, false, true, Status(PrimaryState, [], None));
    s := Setting(map[k := "pv"], true, true, true, true);
    w := World(
      map[k := pvc], map["pv" := PV(Some(k), Retain)],
      map[k := RS(map[], k.name, false, Trigger.Schedule("*/5 * * * *"), None, None)], map[],
      map[], {}, {("ns", secret)}, map[owner := VRG(Relocate, Secondary)], vgr, map[], map[]);
    assert NormalOperation(s, w);
    assert k in w.rss && !w.rss[k].Stamped();
    hide NormalOperation;
    NormalOperationIsGood(s, w);
    hide Inv, Referred;
  }

  lemma GroupFacts(s: Setting, w: World, k: Key)
    requires Inv(s, w) && !w.vgr.deleting && InRelocation(s) && k in s.group
    ensures w.vgr.selector.Some? && k.name.App? && k.ns == w.vgr.ns && s.group[k] != "" && Required(w, w.vgr) == (w.vgr.status.state != SecondaryState)
    ensures k in w.pvcs ==> Picked(w.vgr.selector.value, w.vgr.ns, w.pvcs, k) && w.pvcs[k].volumeName == s.group[k]
    ensures TmpOf(k) in w.pvcs ==> w.pvcs[TmpOf(k)].volumeName == s.group[k] && Standing(w.pvcs, TmpOf(k))
    ensures s.group[k] in w.pvs
  {
    hide Exclusive, Guarded, OwnVolumes, Lossless, Frozen, StampsAreFinal, KeptUntilDone, AppPods, Matches;
    assert NamedAt(s.group[k], w.pvcs, k) && AnchoredAt(s.group[k], w.pvcs, w.pvs, k);
  }

  lemma {:induction false} MainsAreKeys(listed: seq<Item<PVC>>)
    ensures forall k :: k in Mains(listed) <==> k in Keys(listed) && k.name.App?
  {
    KeysAreListed(listed);
    MainsAreListed(listed);
    hide Mains, Keys;
    forall k | k in Mains(listed)
      ensures k in Keys(listed)
    {
      var x :| x in listed && x.key == k;
      var i :| 0 <= i < |listed| && listed[i] == x;
      assert Keys(listed)[i] == k;
    }
    forall k | k in Keys(listed) && k.name.App?
      ensures k in Mains(listed)
    {
      var i :| 0 <= i < |listed| && Keys(listed)[i] == k;
      assert listed[i] in listed;
    }
  }

  lemma {:induction false} ListedMains(s: Setting, w: World, secret: string, listed: seq<Item<PVC>>)
    requires Inv(s, w) && InRelocation(s) && InOrder(s, w, secret)
    requires Lists(listed, Selecting(InNamespace(w.pvcs, w.vgr.ns), w.vgr.selector.value))
    ensures forall k :: k in Mains(listed) ==> k in s.group
    ensures forall k :: k in s.group && k in w.pvcs ==> k in Mains(listed)
    ensures forall x :: x in listed ==> !x.value.phase.Lost?
  {
    ListIsPicked(w.vgr.selector.value, w.vgr.ns, w.pvcs, listed);
    MainsAreKeys(listed);
    hide Inv, Lists, Keys, Mains, Picked;
    forall k | k in s.group && k in w.pvcs
      ensures k in Mains(listed)
    {
      GroupFacts(s, w, k);
    }
    assert forall k :: k in Mains(listed) ==> MainOf(k) == k;
  }

  lemma LeavingIsStartable(s: Setting, w: World, secret: string, k: Key)
    requires Inv(s, w) && InRelocation(s) && Leaving(s, w, secret) && k in s.group
    ensures StartableClaim(w, k)
  {
    GroupFacts(s, w, k);
    hide Inv, InOrder, Unmounted;
  }

  /** Such a relocation begins with the final sync. */
  lemma {:induction false} LeavingBegins(s: Setting, w: World, secret: string, listed: seq<Item<PVC>>)
    requires Inv(s, w) && InRelocation(s) && Leaving(s, w, secret)
    requires Lists(listed, Selecting(InNamespace(w.pvcs, w.vgr.ns), w.vgr.selector.value))
    ensures Beginning(w, listed) && listed != []
  {
    hide Inv, Lists, Mains, Tidy, Fit, Required, Unmounted, StartableClaim, Selecting, InNamespace;
    var r :| r in w.rss && r.ns == w.vgr.ns && !w.rss[r].Stamped();
    ListedMains(s, w, secret, listed);
    GroupFacts(s, w, r);
    assert r in Mains(listed);
    MainsAreListed(listed);
    forall k | k in Mains(listed)
      ensures StartableClaim(w, k)
    {
      LeavingIsStartable(s, w, secret, k);
    }
    hide InOrder;
  }

  /** After the first reconcile the final sync runs. */
  lemma {:induction false} BegunIsHandedOver(s: Setting, w: World, v: World, secret: string, listed: seq<Item<PVC>>)
    requires Inv(s, w) && InRelocation(s) && Leaving(s, w, secret)
    requires Lists(listed, Selecting(InNamespace(w.pvcs, w.vgr.ns), w.vgr.selector.value))
    requires Begun(w, v, Mains(listed))
    ensures HandedOver(s, v, secret)
  {
    NewStandInsAreInOrder(s.group.Keys, w.vgr.selector.value, w.vgr.ns, w.pvcs, v.pvcs);
    hide Inv, Lists, Mains, Selecting, InNamespace, Tidy, NoClaimLost, InFinalSync, StandInsAdded, Unmounted, AllStamped;
    ListedMains(s, w, secret, listed);
    OrderStays(s, w, v, secret);
    hide InOrder;
    forall k | k in s.group
      ensures Going(v.pvcs, k) && TmpOf(k) in v.pvcs && InFinalSync(v.rss, k)
    {
      assert k in Mains(listed);
    }
  }

  lemma OrderStays(s: Setting, w: World, v: World, secret: string)
    requires InOrder(s, w, secret) && v.vgr == w.vgr && v.secrets == w.secrets && v.rss.Keys == w.rss.Keys
    requires NoClaimLost(w.vgr.ns, v.pvcs) && Tidy(s.group.Keys, w.vgr.selector.value, w.vgr.ns, v.pvcs)
    ensures InOrder(s, v, secret)
  {
    hide NoClaimLost, Tidy;
  }

  lemma NewStandInsAreInOrder(all: set<Key>, sel: Selector, ns: string, w: ClaimMap, v: ClaimMap)
    requires StandInsAdded(w, v) && Tidy(all, sel, ns, w)
    ensures Tidy(all, sel, ns, v) && (NoClaimLost(ns, w) ==> NoClaimLost(ns, v))
    ensures forall k :: Going(w, k) ==> Going(v, k)
  {
    hide Matches;
    forall c | Picked(sel, ns, v, c)
      ensures MainOf(c) in all
    {
      if c !in w {
        assert Picked(sel, ns, w, MainOf(c)) && MainOf(MainOf(c)) == MainOf(c);
      }
    }
  }

  /** VolSync runs the final sync of claim `k`. */
  lemma SyncStamps(s: Setting, w: World, secret: string, k: Key, time: int)
    requires Inv(s, w) && InRelocation(s) && HandedOver(s, w, secret) && k in s.group
    ensures var v := Occur(s, w, SourceSyncs(k, time));
      && HandedOver(s, v, secret) && k in v.rss && v.rss[k].Stamped()
      && forall j :: j in w.rss && w.rss[j].Stamped() ==> j in v.rss && v.rss[j].Stamped()
  {
    hide Inv, Occur, Tidy, NoClaimLost;
    GroupFacts(s, w, k);
    SyncedState(s, w, k, time);
    OrderStays(s, w, Occur(s, w, SourceSyncs(k, time)), secret);
    hide InOrder;
  }

  lemma SyncedState(s: Setting, w: World, k: Key, time: int)
    requires InFinalSync(w.rss, k) && TmpOf(k) in w.pvcs && w.pvcs[TmpOf(k)].volumeName != ""
    ensures var v := Occur(s, w, SourceSyncs(k, time));
      && v == w.(rss := v.rss, content := v.content, remote := v.remote)
      && v.rss == w.rss[k := w.rss[k].(lastManualSync := Some(FinalSync), lastSyncTime := Some(time))]
  {
  }

  /** When all of them have run, the reconciles restore the group. */
  lemma SyncedIsRestoring(s: Setting, w: World, secret: string)
    requires Inv(s, w) && InRelocation(s) && HandedOver(s, w, secret)
    requires forall k :: k in s.group ==> w.rss[k].Stamped()
    ensures Restoring(s.group.Keys, w) && WaitingOf(s.group.Keys, w.pvcs) == s.group.Keys && Fit(w, secret)
  {
    var sel := w.vgr.selector.value;
    GroupIsRestorable(s, w, s.group.Keys);
    forall c | Picked(sel, w.vgr.ns, w.pvcs, c) && w.pvcs[c].deleting
      ensures c in s.group && TmpOf(c) in w.pvcs
    {
      if c.name.Tmp? {
        GroupFacts(s, w, MainOf(c));
      }
    }
    GroupIsConcerned(s, w);
    hide Inv, Restorable, Concerned, Picked, Required;
  }

  /** An address is assigned to the destination of claim `k`. */
  lemma AddressIsAssigned(s: Setting, w: World, k: Key, address: string)
    requires k in w.rds
    ensures var v := Occur(s, w, AddressAssigned(k, address));
      && v == w.(rds := v.rds) && v.rds.Keys == w.rds.Keys && Addressable(v, k)
      && forall j :: Addressable(w, j) ==> Addressable(v, j)
  {
  }

  lemma ReturnedStays(s: Setting, w: World, v: World, secret: string)
    requires AllReturned(s, w, secret) && v == w.(rds := v.rds)
    ensures AllReturned(s, v, secret)
  {
    hide Restorable, Concerned, AllStamped, WaitingOf, NoClaimLost, Tidy;
    assert forall k :: k in s.group ==> Back(w, k, s.group[k]);
  }

  lemma LeavingActs(s: Setting, w: World, secret: string)
    requires Leaving(s, w, secret)
    ensures ActsAsSecondary(w.vgr)
  {
  }

  lemma ReturnedActs(s: Setting, w: World, secret: string)
    requires AllReturned(s, w, secret)
    ensures ActsAsSecondary(w.vgr) && Passable(w, w.vgr)
  {
  }

  lemma RestoredIsReturned(s: Setting, w: World, v: World, secret: string)
    requires Inv(s, w) && InRelocation(s) && HandedOver(s, w, secret)
    requires StillRestoring(s.group.Keys, w, v, secret) && WaitingOf(s.group.Keys, v.pvcs) == {}
    requires forall k :: k in s.group && TmpOf(k) in w.pvcs ==> Back(v, k, w.pvcs[TmpOf(k)].volumeName)
    ensures AllReturned(s, v, secret)
  {
    hide Inv, Restoring, WaitingOf, Fit, Tidy, Back;
    forall k | k in s.group
      ensures Back(v, k, s.group[k])
    {
      GroupFacts(s, w, k);
    }
  }

  /** With every claim back and addressed, the selector finds the group's claims and nothing else. */
  lemma BackIsAddressed(s: Setting, w: World, secret: string)
    requires Inv(s, w) && InRelocation(s) && ActsAsSecondary(w.vgr)
    requires Tidy(s.group.Keys, w.vgr.selector.value, w.vgr.ns, w.pvcs)
    requires AllBack(s, w) && forall k :: k in s.group ==> Addressable(w, k)
    ensures AllAddressed(w, w.vgr.selector.value)
    ensures forall k :: k in s.group ==> Picked(w.vgr.selector.value, w.vgr.ns, w.pvcs, k)
  {
    hide Matches;
    forall k | k in s.group
      ensures Picked(w.vgr.selector.value, w.vgr.ns, w.pvcs, k) && TmpOf(k) !in w.pvcs
    {
      GroupFacts(s, w, k);
      assert Back(w, k, s.group[k]);
    }
    hide Inv;
    assert forall c: Key :: c.name.Tmp? ==> c == TmpOf(MainOf(c));
  }

  /** One reconcile after all claims are back. */
  lemma {:induction false} ReturnedReconcile(s: Setting, w: World, v: World, listed: seq<Item<PVC>>, secret: string, r: Result<Requeue>)
    requires Inv(s, w) && InRelocation(s) && AllReturned(s, w, secret) && Passed(w, v, listed, secret, r)
    requires Lists(listed, Selecting(InNamespace(w.pvcs, w.vgr.ns), w.vgr.selector.value))
    ensures r.Success? && AllReturned(s, v, secret) && AllBack(s, v) && forall k :: k in s.group ==> Turned(v, k)
    ensures (forall k :: k in s.group ==> Addressable(w, k)) ==>
      v.vgr.status.state == SecondaryState && forall k :: k in s.group ==> Demoted(v, k)
  {
    var all := s.group.Keys;
    hide Inv, Lists, Passed, Back, WaitingOf, Fit, Tidy, Demoted, Turned, Addressable, Picked, Selecting, InNamespace, Restoring, AllAddressed;
    LastReconcile(all, w, v, listed, secret, r);
    LastKeepsRestoring(all, w, v, listed, secret, r);
    LastTurnsAround(all, w, v, listed, secret, r);
    ReturnedIsPicked(s, w, secret, listed);
    if forall k :: k in s.group ==> Addressable(w, k) {
      BackIsAddressed(s, w, secret);
    }
  }

  lemma {:induction false} ReturnedIsPicked(s: Setting, w: World, secret: string, listed: seq<Item<PVC>>)
    requires Inv(s, w) && InRelocation(s) && AllReturned(s, w, secret)
    requires Lists(listed, Selecting(InNamespace(w.pvcs, w.vgr.ns), w.vgr.selector.value))
    ensures forall k :: k in s.group ==> k.name.App? && Picked(w.vgr.selector.value, w.vgr.ns, w.pvcs, k)
    ensures ActsAsSecondary(w.vgr) && listed != []
  {
    ListIsPicked(w.vgr.selector.value, w.vgr.ns, w.pvcs, listed);
    KeysAreListed(listed);
    hide Inv, Lists, Restorable, Concerned, Tidy, Fit, Picked, Passable;
    forall k | k in s.group
      ensures k.name.App? && Picked(w.vgr.selector.value, w.vgr.ns, w.pvcs, k)
    {
      GroupFacts(s, w, k);
      assert Back(w, k, s.group[k]);
    }
    var k :| k in s.group;
    assert k in Keys(listed);
  }
}
