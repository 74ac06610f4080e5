/** How a whole group comes back: which claims a secondary's reconciles are about, and what each reconcile does to them. */
module Convergence {

  import opened Names
  import opened Objects
  import opened System
  import opened Protocol
  import opened Api
  import opened Handoff
  import opened Replication
  import opened RoundTrip
  import opened Demotion
  import opened SecondarySide
  import opened Wrappers

  /** The selector finds claim `c` in the namespace. */
  predicate Picked(sel: Selector, ns: string, pvcs: ClaimMap, c: Key) {
    c in pvcs && c.ns == ns && Matches(sel, pvcs[c].labels)
  }

  /**
   A reconcile is about the claims of the set and their stand-ins: the selector finds every stand-in of the set or its
   claim, and no stand-in of another claim; it finds every waiting claim, and of those being deleted only waiting ones.
   */
  ghost predicate Concerned(all: set<Key>, sel: Selector, ns: string, pvcs: ClaimMap) {
    && (forall c :: Picked(sel, ns, pvcs, c) ==> MainOf(c).name.App? && (MainOf(c) in all || TmpOf(MainOf(c)) !in pvcs))
    && (forall k :: k in all && TmpOf(k) in pvcs ==> Picked(sel, ns, pvcs, k) || Picked(sel, ns, pvcs, TmpOf(k)))
    && (forall k :: k in WaitingOf(all, pvcs) ==> Picked(sel, ns, pvcs, k))
    && (forall c :: Picked(sel, ns, pvcs, c) && pvcs[c].deleting ==> c in WaitingOf(all, pvcs))
  }

  /** The VGR is reconciled as secondary. */
  predicate ActsAsSecondary(vgr: VGR) {
    vgr.selector.Some? && vgr.role.Secondary? && vgr.finalizer && !vgr.deleting
  }

  /** So it is, and the final sync is complete or not asked for. */
  ghost predicate Serving(w: World) {
    ActsAsSecondary(w.vgr) && Passable(w, w.vgr)
  }

  /** The claims of the set can be restored by reconciles of the VGR. */
  ghost predicate Restoring(all: set<Key>, w: World) {
    && Serving(w) && Restorable(all, w.pvcs, w.pvs)
    && Concerned(all, w.vgr.selector.value, w.vgr.ns, w.pvcs)
  }

  /** Nothing stands in the way of the destinations: the secret exists, and no claim of the namespace is lost. */
  ghost predicate Fit(w: World, secret: string) {
    (w.vgr.ns, secret) in w.secrets && NoClaimLost(w.vgr.ns, w.pvcs)
  }

  ghost predicate NoClaimLost(ns: string, pvcs: ClaimMap) {
    forall c :: c in pvcs && c.ns == ns ==> !pvcs[c].phase.Lost?
  }

  /** The selector finds only the claims of the set and their stand-ins, and no claim of an application bears a stand-in's mark. */
  ghost predicate Tidy(all: set<Key>, sel: Selector, ns: string, pvcs: ClaimMap) {
    && (forall c :: Picked(sel, ns, pvcs, c) ==> MainOf(c) in all)
    && (forall c :: c in pvcs && c.ns == ns && c.name.App? ==> Temporary !in pvcs[c].annotations)
  }

  // ---------- the list ----------

  lemma {:induction false} ListIsPicked(sel: Selector, ns: string, pvcs: ClaimMap, items: seq<Item<PVC>>)
    requires Lists(items, Selecting(InNamespace(pvcs, ns), sel))
    ensures forall c :: c in Keys(items) <==> Picked(sel, ns, pvcs, c)
    ensures forall x :: x in items ==> x.key in pvcs && x.key.ns == ns && pvcs[x.key] == x.value
  {
    hide Matches;
    KeysAreListed(items);
    var m := Selecting(InNamespace(pvcs, ns), sel);
    forall c | c in Keys(items)
      ensures c in m
    {
      var i :| 0 <= i < |Keys(items)| && Keys(items)[i] == c;
      assert items[i] in items;
    }
    hide Lists, Keys;
    forall c | c in m
      ensures c in Keys(items)
    {
      ListedKey(items, m, c);
    }
  }

  lemma {:induction false} ListIsConcerned(all: set<Key>, sel: Selector, ns: string, pvcs: ClaimMap, items: seq<Item<PVC>>)
    requires Lists(items, Selecting(InNamespace(pvcs, ns), sel)) && Concerned(all, sel, ns, pvcs)
    ensures Listable(all, pvcs, Keys(items)) && Covers(all, pvcs, Keys(items))
  {
    ListIsPicked(sel, ns, pvcs, items);
    hide Lists, Keys, Picked;
  }

  // ---------- one claim ----------

  /** What one restore does to each claim: nothing, or it is the claim recreated or the stand-in with new labels. */
  ghost predicate Touched(w: ClaimMap, v: ClaimMap, k: Key) {
    && (forall c :: c in w && c != k && c != TmpOf(k) ==> c in v && v[c] == w[c])
    && (forall c :: c in v && c != k && c != TmpOf(k) ==> c in w)
    && (TmpOf(k) in v ==> k in w && TmpOf(k) in w && v[TmpOf(k)] == w[TmpOf(k)].(labels := w[k].labels) && k !in v)
    && (k in v ==> !v[k].deleting && ((k in w && v[k] == w[k]) || (v[k].phase.Pending? && Temporary !in v[k].annotations)))
    && (k in w && !w[k].deleting ==> k in v)
  }

  lemma LettingGoTouches(w: World, k: Key)
    requires k in Waiting(w.pvcs) && w.pvcs[k].finalizers != {} && HasVolume(w, TmpOf(k))
    ensures Touched(w.pvcs, Restored(w, k).pvcs, k) && TmpOf(k) in Restored(w, k).pvcs
  {
    var tmp := w.pvcs[TmpOf(k)].(labels := w.pvcs[k].labels);
    assert TmpOf(k) != k;
    assert Restored(w, k).pvcs == w.pvcs[TmpOf(k) := tmp] - {k};
    hide Restored, HasVolume;
  }

  lemma RecreationTouches(w: World, k: Key)
    requires k !in Waiting(w.pvcs) && HasVolume(w, TmpOf(k)) && w.pvcs[TmpOf(k)].finalizers == {}
    ensures Touched(w.pvcs, Restored(w, k).pvcs, k) && TmpOf(k) !in Restored(w, k).pvcs
  {
    assert TmpOf(k) != k;
    OthersAreRecreated(w, k);
    var tmp := w.pvcs[TmpOf(k)];
    assert Temporary !in RestoredClaim(tmp, tmp.volumeName).annotations;
    hide Restored, HasVolume, RestoredLabels, RestoredAnnotations;
  }

  lemma RestoreTouches(all: set<Key>, w: World, k: Key)
    requires Restorable(all, w.pvcs, w.pvs) && k in all && TmpOf(k) in w.pvcs
    ensures Touched(w.pvcs, Restored(w, k).pvcs, k)
    ensures k in Waiting(w.pvcs) <==> TmpOf(k) in Restored(w, k).pvcs
  {
    assert k in Waiting(w.pvcs) ==> k in WaitingOf(all, w.pvcs);
    hide Restored, Touched, Waiting;
    if k in Waiting(w.pvcs) {
      LettingGoTouches(w, k);
    } else {
      RecreationTouches(w, k);
    }
  }

  /** Claim `k` of the set was restored, with the effect above. */
  ghost predicate RestoredOne(all: set<Key>, w: ClaimMap, v: ClaimMap, k: Key) {
    && Touched(w, v, k) && k in all && (forall j :: j in all ==> j.name.App?)
    && TmpOf(k) in w && !w[TmpOf(k)].deleting && (k in Waiting(w) <==> TmpOf(k) in v)
  }

  lemma PickedAfter(all: set<Key>, sel: Selector, ns: string, w: ClaimMap, v: ClaimMap, k: Key, c: Key)
    requires Concerned(all, sel, ns, w) && RestoredOne(all, w, v, k)
    ensures c != k && c != TmpOf(k) ==> Picked(sel, ns, v, c) == Picked(sel, ns, w, c)
    ensures TmpOf(k) in v ==> Picked(sel, ns, v, TmpOf(k))
  {
    assert k in Waiting(w) ==> k in WaitingOf(all, w);
    hide Matches;
  }

  lemma WaitingAfter(all: set<Key>, w: ClaimMap, v: ClaimMap, k: Key, c: Key)
    requires RestoredOne(all, w, v, k)
    ensures c in WaitingOf(all, v) <==> c in WaitingOf(all, w) && c != k
  {
    assert c.name.App? && c != k ==> TmpOf(c) != TmpOf(k) && TmpOf(c) != k && c != TmpOf(k);
  }

  lemma OthersAfter(all: set<Key>, sel: Selector, ns: string, w: ClaimMap, v: ClaimMap, k: Key)
    requires Concerned(all, sel, ns, w) && RestoredOne(all, w, v, k)
    ensures forall c :: c != k && c != TmpOf(k) ==> Picked(sel, ns, v, c) == Picked(sel, ns, w, c)
    ensures forall c :: c in WaitingOf(all, v) <==> c in WaitingOf(all, w) && c != k
    ensures TmpOf(k) in v ==> Picked(sel, ns, v, TmpOf(k))
  {
    forall c
      ensures c != k && c != TmpOf(k) ==> Picked(sel, ns, v, c) == Picked(sel, ns, w, c)
      ensures c in WaitingOf(all, v) <==> c in WaitingOf(all, w) && c != k
    {
      PickedAfter(all, sel, ns, w, v, k, c);
      WaitingAfter(all, w, v, k, c);
    }
    PickedAfter(all, sel, ns, w, v, k, k);
  }

  lemma RestoredOneFindsOurs(all: set<Key>, sel: Selector, ns: string, w: ClaimMap, v: ClaimMap, k: Key)
    requires Concerned(all, sel, ns, w) && RestoredOne(all, w, v, k)
    ensures forall c :: Picked(sel, ns, v, c) ==> MainOf(c).name.App? && (MainOf(c) in all || TmpOf(MainOf(c)) !in v)
    ensures forall j :: j in all && TmpOf(j) in v ==> Picked(sel, ns, v, j) || Picked(sel, ns, v, TmpOf(j))
  {
    assert MainOf(k) == k && MainOf(TmpOf(k)) == k;
    OthersAfter(all, sel, ns, w, v, k);
    assert forall c :: MainOf(c).name.App? && MainOf(c) != k ==> TmpOf(MainOf(c)) != TmpOf(k) && TmpOf(MainOf(c)) != k;
    hide Picked, WaitingOf, Waiting;
  }

  lemma RestoredOneIsConcerned(all: set<Key>, sel: Selector, ns: string, w: ClaimMap, v: ClaimMap, k: Key)
    requires Concerned(all, sel, ns, w) && RestoredOne(all, w, v, k)
    ensures Concerned(all, sel, ns, v)
  {
    RestoredOneFindsOurs(all, sel, ns, w, v, k);
    OthersAfter(all, sel, ns, w, v, k);
    assert forall c :: Picked(sel, ns, v, c) && v[c].deleting ==> c != k && c != TmpOf(k) && c in w && v[c] == w[c];
    hide Touched, Picked, WaitingOf, Waiting;
  }

  lemma NoneLostAfter(ns: string, w: ClaimMap, v: ClaimMap, k: Key)
    requires NoClaimLost(ns, w) && Touched(w, v, k)
    ensures NoClaimLost(ns, v)
  {
  }

  lemma TidyAfter(all: set<Key>, sel: Selector, ns: string, w: ClaimMap, v: ClaimMap, k: Key)
    requires Concerned(all, sel, ns, w) && RestoredOne(all, w, v, k) && Tidy(all, sel, ns, w)
    ensures Tidy(all, sel, ns, v)
  {
    OthersAfter(all, sel, ns, w, v, k);
    assert MainOf(k) == k && MainOf(TmpOf(k)) == k;
    hide Concerned, Picked, Waiting;
  }

  /** No claim of an application is gone. */
  ghost predicate AppsKept(w: ClaimMap, v: ClaimMap) {
    forall c :: c in w && c.name.App? ==> c in v
  }

  lemma AppsKeptAfter(all: set<Key>, w: ClaimMap, v: ClaimMap, k: Key)
    requires RestoredOne(all, w, v, k) && k !in Waiting(w)
    ensures AppsKept(w, v)
  {
  }

  lemma RestoreKeepsConcerned(all: set<Key>, sel: Selector, ns: string, w: World, k: Key)
    requires Restorable(all, w.pvcs, w.pvs) && (k in all || TmpOf(k) !in w.pvcs) && Concerned(all, sel, ns, w.pvcs)
    ensures var v := Restored(w, k);
      && Concerned(all, sel, ns, v.pvcs) && (NoClaimLost(ns, w.pvcs) ==> NoClaimLost(ns, v.pvcs))
      && (Tidy(all, sel, ns, w.pvcs) ==> Tidy(all, sel, ns, v.pvcs))
      && (k !in Waiting(w.pvcs) ==> AppsKept(w.pvcs, v.pvcs))
  {
    hide Concerned, Restored, Touched, NoClaimLost, Waiting, Tidy;
    if TmpOf(k) !in w.pvcs {
      NothingToRestore(w, k);
    } else {
      RestoreTouches(all, w, k);
      RestoredOneIsConcerned(all, sel, ns, w.pvcs, Restored(w, k).pvcs, k);
      if k !in Waiting(w.pvcs) {
        AppsKeptAfter(all, w.pvcs, Restored(w, k).pvcs, k);
      }
      if Tidy(all, sel, ns, w.pvcs) {
        TidyAfter(all, sel, ns, w.pvcs, Restored(w, k).pvcs, k);
      }
      if NoClaimLost(ns, w.pvcs) {
        NoneLostAfter(ns, w.pvcs, Restored(w, k).pvcs, k);
      }
    }
  }

  // ---------- one pass ----------

  lemma {:induction false} PassKeepsConcerned(all: set<Key>, sel: Selector, ns: string, w: World, listed: seq<Key>)
    requires Restorable(all, w.pvcs, w.pvs) && Listable(all, w.pvcs, listed) && Concerned(all, sel, ns, w.pvcs)
    ensures var (v, o) := RestoreAll(w, listed);
      && Concerned(all, sel, ns, v.pvcs) && (NoClaimLost(ns, w.pvcs) ==> NoClaimLost(ns, v.pvcs))
      && (Tidy(all, sel, ns, w.pvcs) ==> Tidy(all, sel, ns, v.pvcs))
      && (o.Success? ==> AppsKept(w.pvcs, v.pvcs))
    decreases |listed|
  {
    hide Restorable, Concerned, NoClaimLost, Restored, RestoreOutcome, Forward, Waiting, Tidy;
    if listed != [] {
      var k := MainOf(listed[0]);
      assert Forward(all, w, w) by {
        NothingGoesBack(all, w);
      }
      if !HasStandIn(w, listed[0]) {
        ListableLater(all, w, w, listed);
        PassKeepsConcerned(all, sel, ns, w, listed[1..]);
      } else {
        RestoreKeepsConcerned(all, sel, ns, w, k);
        HandleOne(all, w, k);
        WaitingHasToWait(w, k);
        if RestoreOutcome(w, k).Success? {
          ListableLater(all, w, Restored(w, k), listed);
          PassKeepsConcerned(all, sel, ns, Restored(w, k), listed[1..]);
        }
      }
    }
  }

  lemma WaitingHasToWait(w: World, k: Key)
    ensures k in Waiting(w.pvcs) ==> RestoreOutcome(w, k).Failure?
  {
  }

  lemma NothingGoesBack(all: set<Key>, w: World)
    ensures Forward(all, w, w)
  {
  }

  /** After a pass that has let a claim go, the rest can be restored by the next reconcile. */
  lemma {:induction false} WaitingReconcile(all: set<Key>, w: World, v: World, listed: seq<Item<PVC>>, secret: string, r: Result<Requeue>)
    requires Restoring(all, w) && Passed(w, v, listed, secret, r) && WaitingOf(all, w.pvcs) != {}
    requires Lists(listed, Selecting(InNamespace(w.pvcs, w.vgr.ns), w.vgr.selector.value))
    ensures r.Failure? && r.error.WaitingForDeletion?
    ensures Restoring(all, v) && |WaitingOf(all, v.pvcs)| == |WaitingOf(all, w.pvcs)| - 1 && Forward(all, w, v)
    ensures Fit(w, secret) ==> Fit(v, secret)
    ensures v.vgr == w.vgr && (Tidy(all, w.vgr.selector.value, w.vgr.ns, w.pvcs) ==> Tidy(all, w.vgr.selector.value, w.vgr.ns, v.pvcs))
  {
    hide Restorable, Concerned, Lists, Keys, RestoreAll, Forward, WaitingOf, Listable, Covers, NoneStandsIn, NoClaimLost, Tidy, Passable;
    hide TurnedAround;
    ListIsConcerned(all, w.vgr.selector.value, w.vgr.ns, w.pvcs, listed);
    CoveringPass(all, w, Keys(listed));
    PassKeepsConcerned(all, w.vgr.selector.value, w.vgr.ns, w, Keys(listed));
    PassIsLocal(w, Keys(listed));
    PassablyOn(w, v);
  }

  lemma PassablyOn(w: World, v: World)
    requires v == w.(pvcs := v.pvcs, pvs := v.pvs)
    ensures Passable(w, w.vgr) == Passable(v, v.vgr)
  {
  }

  lemma {:induction false} ListIsFit(w: World, u: World, sel: Selector, listed: seq<Item<PVC>>, secret: string)
    requires Fit(w, secret) && AppsKept(w.pvcs, u.pvcs) && u.secrets == w.secrets
    requires forall c :: c in Keys(listed) <==> Picked(sel, w.vgr.ns, w.pvcs, c)
    requires forall x :: x in listed ==> x.key in w.pvcs && x.key.ns == w.vgr.ns && w.pvcs[x.key] == x.value
    ensures NoneLost(listed) && Servable(u, Keys(listed), secret)
  {
    hide Keys, Matches;
  }

  lemma {:induction false} NoneGoingAfter(all: set<Key>, sel: Selector, ns: string, w: World, u: World, keys: seq<Key>)
    requires Concerned(all, sel, ns, w.pvcs) && WaitingOf(all, w.pvcs) == {} && Forward(all, w, u)
    requires forall c :: c in keys <==> Picked(sel, ns, w.pvcs, c)
    ensures NoneGoing(u.pvcs, keys)
  {
    hide Back, Matches;
  }

  /** A reconcile with no claim waiting restores the whole set, and goes on to the destinations. */
  lemma {:induction false} LastReconcile(all: set<Key>, w: World, v: World, listed: seq<Item<PVC>>, secret: string, r: Result<Requeue>)
    requires Restoring(all, w) && Passed(w, v, listed, secret, r) && WaitingOf(all, w.pvcs) == {}
    requires Lists(listed, Selecting(InNamespace(w.pvcs, w.vgr.ns), w.vgr.selector.value))
    ensures NoneStandsIn(all, v.pvcs)
    ensures forall k :: k in all && TmpOf(k) in w.pvcs ==> Back(v, k, w.pvcs[TmpOf(k)].volumeName)
    ensures forall k, name :: k in all && Back(w, k, name) ==> Back(v, k, name)
    ensures Fit(w, secret) ==> r.Success?
  {
    var sel, ns := w.vgr.selector.value, w.vgr.ns;
    var (u, o) := RestoreAll(w, Keys(listed));
    hide Restorable, Lists, Keys, RestoreAll, WaitingOf, Listable, Covers, NoneStandsIn, Upkept, Passable, Back, Picked, Serving;
    ListIsConcerned(all, sel, ns, w.pvcs, listed);
    CoveringPass(all, w, Keys(listed));
    ListIsPicked(sel, ns, w.pvcs, listed);
    NoneGoingAfter(all, sel, ns, w, u, Keys(listed));
    hide Concerned, NoneGoing, Forward;
    if Fit(w, secret) {
      PassKeepsConcerned(all, sel, ns, w, Keys(listed));
      PassIsLocal(w, Keys(listed));
      ListIsFit(w, u, sel, listed, secret);
    }
    hide Fit, NoneLost, Servable;
    BroughtBackForGood(all, w, u);
    BackIsUpkept(all, u, v);
  }

  lemma PickedIsUpkept(all: set<Key>, sel: Selector, ns: string, w: ClaimMap, v: ClaimMap)
    requires UpkeptClaims(w, v)
    ensures forall c :: Picked(sel, ns, v, c) == Picked(sel, ns, w, c)
    ensures WaitingOf(all, v) == WaitingOf(all, w)
    ensures NoClaimLost(ns, w) ==> NoClaimLost(ns, v)
    ensures Tidy(all, sel, ns, w) ==> Tidy(all, sel, ns, v)
    ensures Concerned(all, sel, ns, w) ==> Concerned(all, sel, ns, v)
  {
    assert forall c :: c in w ==> UpkeptClaim(w[c], v[c]);
    assert forall c :: Picked(sel, ns, v, c) == Picked(sel, ns, w, c);
    assert WaitingOf(all, v) == WaitingOf(all, w);
    hide Picked, Waiting, WaitingOf;
  }

  lemma NothingLeftIsRestorable(all: set<Key>, w: World)
    requires NoneStandsIn(all, w.pvcs) && forall k :: k in all ==> k.name.App?
    ensures Restorable(all, w.pvcs, w.pvs)
  {
  }

  lemma ServingOn(w: World, u: World, v: World)
    requires Serving(w) && u == w.(pvcs := u.pvcs, pvs := u.pvs) && Upkept(u, v.(vgr := u.vgr)) && v.vgr == u.vgr.(status := v.vgr.status)
    requires u.vgr.status.state == SecondaryState ==> v.vgr.status.state == SecondaryState
    ensures Serving(v)
  {
    hide UpkeptClaims, Grown;
  }

  /** What such a reconcile leaves can be reconciled again in the same way. */
  lemma {:induction false} LastKeepsRestoring(all: set<Key>, w: World, v: World, listed: seq<Item<PVC>>, secret: string, r: Result<Requeue>)
    requires Restoring(all, w) && Passed(w, v, listed, secret, r) && WaitingOf(all, w.pvcs) == {}
    requires Lists(listed, Selecting(InNamespace(w.pvcs, w.vgr.ns), w.vgr.selector.value))
    ensures Restoring(all, v) && WaitingOf(all, v.pvcs) == {} && v.vgr == w.vgr.(status := v.vgr.status)
    ensures Fit(w, secret) ==> Fit(v, secret)
    ensures Tidy(all, w.vgr.selector.value, w.vgr.ns, w.pvcs) ==> Tidy(all, w.vgr.selector.value, w.vgr.ns, v.pvcs)
  {
    var sel, ns := w.vgr.selector.value, w.vgr.ns;
    var (u, o) := RestoreAll(w, Keys(listed));
    LastReconcile(all, w, v, listed, secret, r);
    assert forall k :: k in all ==> k.name.App?;
    hide Restorable, Lists, Keys, RestoreAll, WaitingOf, Listable, Covers, NoneStandsIn, UpkeptClaims, Fewer, Grown, Back, Picked, Serving;
    ListIsConcerned(all, sel, ns, w.pvcs, listed);
    CoveringPass(all, w, Keys(listed));
    ListIsPicked(sel, ns, w.pvcs, listed);
    NoneGoingAfter(all, sel, ns, w, u, Keys(listed));
    PassKeepsConcerned(all, sel, ns, w, Keys(listed));
    PassIsLocal(w, Keys(listed));
    hide Concerned, NoneGoing, Forward, NoClaimLost, Tidy;
    PickedIsUpkept(all, sel, ns, u.pvcs, v.pvcs);
    NothingLeftIsRestorable(all, v);
    ServingOn(w, u, v);
  }

  lemma {:induction false} ListIsReceivable(w: World, u: World, sel: Selector, keys: seq<Key>, secret: string)
    requires AppsKept(w.pvcs, u.pvcs) && u.secrets == w.secrets && (w.vgr.ns, secret) in w.secrets && NoneGoing(u.pvcs, keys)
    requires forall c :: c in u.pvcs && c.ns == w.vgr.ns && c.name.App? ==> Temporary !in u.pvcs[c].annotations
    requires forall c :: c in keys <==> Picked(sel, w.vgr.ns, w.pvcs, c)
    ensures forall c :: c in keys && c.name.App? ==> Receivable(u, c, secret)
  {
    hide Matches;
  }

  /** The selector finds only claims whose destination has an address. */
  ghost predicate AllAddressed(w: World, sel: Selector) {
    forall c :: Picked(sel, w.vgr.ns, w.pvcs, c) ==> c.name.App? && Addressable(w, c)
  }

  lemma {:induction false} AllListedTurn(w: World, u: World, v: World, sel: Selector, listed: seq<Item<PVC>>, secret: string, r: Result<Requeue>)
    requires TurnedAround(u, v, listed, secret, r) && NoneLost(listed) && Servable(u, Keys(listed), secret) && u.rds == w.rds
    requires forall c :: c in Keys(listed) <==> Picked(sel, w.vgr.ns, w.pvcs, c)
    requires forall c :: c in Keys(listed) && c.name.App? ==> Receivable(u, c, secret)
    ensures r.Success? && forall c :: Picked(sel, w.vgr.ns, w.pvcs, c) && c.name.App? ==> Turned(v, c)
    ensures AllAddressed(w, sel) && listed != [] ==>
      v.vgr.status.state == SecondaryState && forall c :: Picked(sel, w.vgr.ns, w.pvcs, c) ==> Demoted(v, c)
  {
    hide Keys, Picked, Receivable, Demoted, Turned, NoneLost, Servable, Upkept;
    assert AllAddressed(w, sel) ==> AllReceivable(u, Keys(listed), secret);
  }

  /**
   Such a reconcile gives every claim that the selector finds a destination; and when all of them have an address, it
   records the demotion.
   */
  lemma {:induction false} LastTurnsAround(all: set<Key>, w: World, v: World, listed: seq<Item<PVC>>, secret: string, r: Result<Requeue>)
    requires Restoring(all, w) && Passed(w, v, listed, secret, r) && WaitingOf(all, w.pvcs) == {}
    requires Lists(listed, Selecting(InNamespace(w.pvcs, w.vgr.ns), w.vgr.selector.value))
    requires Fit(w, secret) && Tidy(all, w.vgr.selector.value, w.vgr.ns, w.pvcs)
    ensures r.Success?
    ensures forall c :: Picked(w.vgr.selector.value, w.vgr.ns, w.pvcs, c) && c.name.App? ==> Turned(v, c)
    ensures AllAddressed(w, w.vgr.selector.value) && listed != [] ==>
      && v.vgr.status.state == SecondaryState
      && forall c :: Picked(w.vgr.selector.value, w.vgr.ns, w.pvcs, c) ==> Demoted(v, c)
  {
    var sel, ns := w.vgr.selector.value, w.vgr.ns;
    var (u, o) := RestoreAll(w, Keys(listed));
    LastReconcile(all, w, v, listed, secret, r);
    hide Restorable, Lists, Keys, RestoreAll, WaitingOf, Listable, Covers, NoneStandsIn, TurnedAround, Back, Picked, Serving, Receivable, Demoted, Turned, AllAddressed;
    ListIsConcerned(all, sel, ns, w.pvcs, listed);
    CoveringPass(all, w, Keys(listed));
    ListIsPicked(sel, ns, w.pvcs, listed);
    NoneGoingAfter(all, sel, ns, w, u, Keys(listed));
    PassKeepsConcerned(all, sel, ns, w, Keys(listed));
    PassIsLocal(w, Keys(listed));
    ListIsReceivable(w, u, sel, Keys(listed), secret);
    ListIsFit(w, u, sel, listed, secret);
    hide Concerned, NoneGoing, Forward, NoClaimLost, NoneLost, Servable, Tidy, AppsKept;
    AllListedTurn(w, u, v, sel, listed, secret, r);
  }

  lemma RestoringIsServing(all: set<Key>, w: World)
    requires Restoring(all, w)
    ensures Serving(w)
  {
  }

  /** From one state of a restore to another: it goes on, and the cluster is as fit and tidy as it was. */
  ghost predicate StillRestoring(all: set<Key>, w: World, v: World, secret: string) {
    && Restoring(all, w) && Restoring(all, v) && v.vgr == w.vgr.(status := v.vgr.status)
    && (Fit(w, secret) ==> Fit(v, secret))
    && (Tidy(all, w.vgr.selector.value, w.vgr.ns, w.pvcs) ==> Tidy(all, w.vgr.selector.value, w.vgr.ns, v.pvcs))
  }

  lemma BackInTheEnd(all: set<Key>, u: World, v: World, w: World)
    requires Forward(all, u, v)
    requires forall k :: k in all && TmpOf(k) in v.pvcs ==> Back(w, k, v.pvcs[TmpOf(k)].volumeName)
    requires forall k, name :: k in all && Back(v, k, name) ==> Back(w, k, name)
    ensures forall k :: k in all && TmpOf(k) in u.pvcs ==> Back(w, k, u.pvcs[TmpOf(k)].volumeName)
  {
    hide Back;
  }

  // ---------- the group ----------

  /** The states of a run without faults in which stand-ins are plain meet the conditions for restoring any part of the group. */
  lemma GroupIsRestorable(s: Setting, w: World, all: set<Key>)
    requires Inv(s, w) && !w.vgr.deleting && s.reliable && s.plain && all <= s.group.Keys
    ensures Restorable(all, w.pvcs, w.pvs)
  {
    hide Relocating, Exclusive, Guarded;
    forall k | k in all
      ensures k.name.App? && NamedAt(s.group[k], w.pvcs, k) && AnchoredAt(s.group[k], w.pvcs, w.pvs, k)
    {
    }
  }

  /**
   In a relocation, reconciles are about the whole group as soon as the selector finds no stand-in of other claims and
   every claim being deleted that it finds is a group claim with a stand-in.
   */
  lemma GroupIsConcerned(s: Setting, w: World)
    requires Inv(s, w) && !w.vgr.deleting && s.relocating
    requires var sel := w.vgr.selector.value;
      && (forall c :: Picked(sel, w.vgr.ns, w.pvcs, c) ==> MainOf(c) in s.group || TmpOf(MainOf(c)) !in w.pvcs)
      && (forall c :: Picked(sel, w.vgr.ns, w.pvcs, c) && w.pvcs[c].deleting ==> c in s.group && TmpOf(c) in w.pvcs)
    ensures Concerned(s.group.Keys, w.vgr.selector.value, w.vgr.ns, w.pvcs)
  {
    hide Exclusive, Guarded, Claims, Lossless, Frozen, StampsAreFinal, KeptUntilDone, AppPods, Relocation, Matches;
  }
}
