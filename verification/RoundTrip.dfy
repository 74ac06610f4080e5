/**
 What hand-off and restore do together: they converge after a crash at any write, they return the claim
 up to a fixed projection, and restoring a whole list takes an exactly known number of reconciles.
 */
module RoundTrip {

  import opened Names
  import opened Objects
  import opened System
  import opened Protocol
  import opened Handoff
  import opened Wrappers

  // ---------- crash and retry ----------

  lemma StandInThere(w: World, k: Key, main: PVC)
    ensures TmpOf(k) in w.pvcs ==> WithStandIn(w, k, main) == w
    ensures TmpOf(k) in WithStandIn(w, k, main).pvcs
  {
    hide TemporaryClaim;
  }

  lemma StandInLeavesTheClaim(w: World, k: Key, main: PVC)
    requires TmpOf(k) != k
    ensures var v := WithStandIn(w, k, main); v.pvs == w.pvs && (k in w.pvcs ==> k in v.pvcs && v.pvcs[k] == w.pvcs[k])
  {
    var tmp := TemporaryClaim(main, main.volumeName);
    hide TemporaryClaim;
    if TmpOf(k) in w.pvcs {
      StandInThere(w, k, main);
    } else {
      assert WithStandIn(w, k, main) == w.(pvcs := w.pvcs[TmpOf(k) := tmp]);
      hide WithStandIn;
    }
  }

  lemma StandInAgain(w: World, k: Key, main: PVC, other: PVC)
    requires TmpOf(k) != k
    ensures var v := WithStandIn(w, k, main);
      && WithStandIn(v, k, other) == v && v.pvs == w.pvs
      && (k in w.pvcs ==> k in v.pvcs && v.pvcs[k] == w.pvcs[k])
  {
    StandInThere(w, k, main);
    StandInThere(WithStandIn(w, k, main), k, other);
    StandInLeavesTheClaim(w, k, main);
    hide WithStandIn;
  }

  lemma PointedThere(w: World, name: string, k: Key)
    requires name in w.pvs
    ensures w.pvs[name].claimRef == Some(k) ==> Pointed(w, name, k) == w
    ensures var v := Pointed(w, name, k); v.pvcs == w.pvcs && name in v.pvs && v.pvs[name].claimRef == Some(k)
  {
  }

  lemma PointedAgain(w: World, name: string, k: Key)
    requires name in w.pvs
    ensures var v := Pointed(w, name, k);
      name in v.pvs && Pointed(v, name, k) == v && v.pvcs == w.pvcs
  {
    PointedThere(w, name, k);
    hide Pointed;
    PointedThere(Pointed(w, name, k), name, k);
  }

  /** A hand-off that is cut off after any write and called again ends where one call would have ended. */
  lemma HandOffConverges(w: World, k: Key, rmFinalizer: bool, stage: nat)
    ensures HandOffAfter(HandOffAfter(w, k, rmFinalizer, stage), k, rmFinalizer, 3) == HandOffAfter(w, k, rmFinalizer, 3)
  {
    if HasVolume(w, k) && stage > 0 {
      var main := w.pvcs[k];
      var w1 := WithStandIn(w, k, main);
      StandInAgain(w, k, main, main);
      hide WithStandIn;
      if stage > 1 {
        var w2 := Pointed(w1, main.volumeName, TmpOf(k));
        PointedAgain(w1, main.volumeName, TmpOf(k));
        StandInThere(w2, k, main);
      }
    }
  }

  lemma ClaimAgain(w: World, k: Key, tmp: PVC)
    requires TmpOf(k) in w.pvcs
    ensures var v := WithClaim(w, k, tmp);
      && k in v.pvcs && TmpOf(k) in v.pvcs && v.pvcs[TmpOf(k)] == w.pvcs[TmpOf(k)] && v.pvs == w.pvs
      && (k !in w.pvcs ==> !v.pvcs[k].deleting) && (k in w.pvcs ==> v == w)
  {
    hide RestoredLabels, RestoredAnnotations;
  }

  lemma RequestingAgain(pvcs: ClaimMap, c: Key)
    ensures var v := RequestDeletion(pvcs, c);
      && RequestDeletion(v, c) == v
      && (c in v ==> c in pvcs && v[c].volumeName == pvcs[c].volumeName && v[c].labels == pvcs[c].labels)
      && forall d :: d != c ==> (d in v <==> d in pvcs) && (d in pvcs ==> v[d] == pvcs[d])
  {
  }

  /** The last write of a restore, once the others are done. */
  lemma RestoreEnds(w: World, k: Key)
    requires HasVolume(w, TmpOf(k)) && Standing(w.pvcs, k)
    requires w.pvs[w.pvcs[TmpOf(k)].volumeName].claimRef == Some(k)
    ensures Restored(w, k) == w.(pvcs := RequestDeletion(w.pvcs, TmpOf(k)))
  {
    PointedThere(w, w.pvcs[TmpOf(k)].volumeName, k);
    hide Pointed, RequestDeletion, RestoredClaim;
  }

  lemma RestoreBegins(w: World, k: Key)
    requires HasVolume(w, TmpOf(k)) && !Going(w.pvcs, k)
    ensures var tmp := w.pvcs[TmpOf(k)];
      var w2 := Pointed(WithClaim(w, k, tmp), tmp.volumeName, k);
      && HasVolume(w2, TmpOf(k)) && Standing(w2.pvcs, k) && w2.pvs[tmp.volumeName].claimRef == Some(k)
      && w2.pvcs[TmpOf(k)] == tmp && RestoredAfter(w, k, 2) == w2
      && Restored(w, k) == w2.(pvcs := RequestDeletion(w2.pvcs, TmpOf(k)))
  {
    var tmp := w.pvcs[TmpOf(k)];
    var w1 := WithClaim(w, k, tmp);
    ClaimAgain(w, k, tmp);
    assert Standing(w1.pvcs, k);
    hide WithClaim, RequestDeletion;
    PointedThere(w1, tmp.volumeName, k);
    hide Pointed;
  }

  /** So does a restore of a claim that is not terminating. */
  lemma RestoreConverges(w: World, k: Key, stage: nat)
    requires !(k in w.pvcs && w.pvcs[k].deleting)
    ensures Restored(RestoredAfter(w, k, stage), k) == Restored(w, k)
  {
    if HasVolume(w, TmpOf(k)) && 0 < stage {
      var tmp := w.pvcs[TmpOf(k)];
      var w1 := WithClaim(w, k, tmp);
      ClaimAgain(w, k, tmp);
      ClaimAgain(w1, k, tmp);
      RestoreBegins(w, k);
      if stage == 1 {
        assert RestoredAfter(w, k, 1) == w1;
        hide WithClaim, Restored;
        assert !Going(w1.pvcs, k) && HasVolume(w1, TmpOf(k));
        RestoreBegins(w1, k);
      } else {
        var w2 := Pointed(w1, tmp.volumeName, k);
        if stage == 2 {
          hide WithClaim, Pointed, Restored, RestoredAfter;
          RestoreEnds(w2, k);
        } else {
          assert RestoredAfter(w, k, stage) == Restored(w, k);
          hide WithClaim, Pointed, Restored, RestoredAfter;
          RequestingAgain(w2.pvcs, TmpOf(k));
          var w3 := w2.(pvcs := RequestDeletion(w2.pvcs, TmpOf(k)));
          if TmpOf(k) in w3.pvcs {
            RestoreEnds(w3, k);
          } else {
            NothingToRestore(w3, k);
          }
        }
      }
    }
  }

  // ---------- there and back ----------

  /** What survives a round trip of the annotations. */
  function SurvivingAnnotations(a: Annotations): Annotations {
    map x | x in a && (x.RamenRestore? || x.AppManagement?) :: a[x]
  }

  lemma AnnotationsRoundTrip(a: Annotations, bindCompleted: Option<string>)
    ensures var t := TemporaryAnnotations(a);
      RestoredAnnotations(if bindCompleted.Some? then t[BindCompleted := bindCompleted.value] else t) == SurvivingAnnotations(a)
  {
  }

  /** The claim that comes back for claim `main`. */
  function Returned(main: PVC): PVC {
    PVC(RestoredLabels(main.labels), SurvivingAnnotations(main.annotations), {}, false, main.spec, main.volumeName, Pending)
  }

  function Returns(main: PVC, n: nat): PVC {
    if n == 0 then main else Returned(Returns(main, n - 1))
  }

  /** One trip loses what further trips would lose: any number of them is one. */
  lemma {:induction false} ReturningIsIdempotent(main: PVC, n: nat)
    requires n >= 1
    ensures Returns(main, n) == Returned(main)
  {
    if n > 1 {
      ReturningIsIdempotent(main, n - 1);
      assert RestoredLabels(RestoredLabels(main.labels)) == RestoredLabels(main.labels);
      assert SurvivingAnnotations(SurvivingAnnotations(main.annotations)) == SurvivingAnnotations(main.annotations);
    }
  }

  /** A stand-in that was bound, or not, and given finalizers by other controllers. */
  function Marked(tmp: PVC, bindCompleted: Option<string>, finalizers: set<Finalizer>): PVC {
    tmp.(finalizers := finalizers,
         annotations := if bindCompleted.Some? then tmp.annotations[BindCompleted := bindCompleted.value] else tmp.annotations)
  }

  lemma HandedOff(w: World, k: Key)
    requires HasVolume(w, k) && TmpOf(k) !in w.pvcs
    ensures HandOffAfter(w, k, false, 3) ==
      w.(pvcs := w.pvcs[TmpOf(k) := TemporaryClaim(w.pvcs[k], w.pvcs[k].volumeName)],
         pvs := w.pvs[w.pvcs[k].volumeName := w.pvs[w.pvcs[k].volumeName].(claimRef := Some(TmpOf(k)))])
  {
    hide TemporaryAnnotations;
  }

  lemma LetGone(w: World, k: Key)
    requires k in w.pvcs && TmpOf(k) in w.pvcs && HasVolume(w, TmpOf(k))
    requires w.pvcs[k].deleting && w.pvcs[k].finalizers != {}
    requires w.pvcs[TmpOf(k)].labels == w.pvcs[k].labels
    ensures Restored(w, k) == w.(pvcs := w.pvcs - {k}) && RestoreOutcome(w, k) == Failure(WaitingForDeletion(k.name))
  {
    assert TmpOf(k) != k;
    assert w.pvcs[TmpOf(k) := w.pvcs[TmpOf(k)]] == w.pvcs;
  }

  /** What a stand-in leaves behind: nothing, or itself being deleted while others hold it. */
  function WithoutStandIn(pvcs: ClaimMap, c: Key, tmp: PVC): ClaimMap {
    if tmp.finalizers == {} then pvcs - {c} else pvcs[c := tmp.(deleting := true)]
  }

  lemma BroughtBack(w: World, k: Key)
    requires k !in w.pvcs && HasVolume(w, TmpOf(k))
    ensures var tmp := w.pvcs[TmpOf(k)];
      RestoreOutcome(w, k) == OK && Restored(w, k) ==
      w.(pvcs := WithoutStandIn(w.pvcs[k := RestoredClaim(tmp, tmp.volumeName)], TmpOf(k), tmp),
         pvs := w.pvs[tmp.volumeName := w.pvs[tmp.volumeName].(claimRef := Some(k))])
  {
    var tmp := w.pvcs[TmpOf(k)];
    RestoreBegins(w, k);
    var w1 := WithClaim(w, k, tmp);
    assert w1 == w.(pvcs := w.pvcs[k := RestoredClaim(tmp, tmp.volumeName)]);
    hide WithClaim, RestoredClaim, Restored;
    PointedVolumes(w1, tmp.volumeName, k);
    assert Pointed(w1, tmp.volumeName, k) == w1.(pvs := Pointed(w1, tmp.volumeName, k).pvs);
    hide Pointed;
  }

  lemma StandInReturns(main: PVC, bindCompleted: Option<string>, finalizers: set<Finalizer>)
    ensures RestoredClaim(Marked(TemporaryClaim(main, main.volumeName), bindCompleted, finalizers), main.volumeName) == Returned(main)
  {
    AnnotationsRoundTrip(main.annotations, bindCompleted);
    hide TemporaryAnnotations, RestoredAnnotations, SurvivingAnnotations, RestoredLabels;
  }

  /**
   A terminating claim is handed off, let go and brought back, with the volume possibly bound to the stand-in
   in between: the cluster is the same again, except that the claim has lost what the projection drops, and that a
   stand-in on which other controllers have put finalizers is still being deleted.
   */
  lemma ThereAndBack(w: World, k: Key, bindCompleted: Option<string>, finalizers: set<Finalizer>)
    requires HasVolume(w, k) && TmpOf(k) !in w.pvcs && w.pvcs[k].deleting && w.pvcs[k].finalizers != {}
    ensures var main := w.pvcs[k];
      var gone := Restored(HandOffAfter(w, k, false, 3), k);
      && k !in gone.pvcs && TmpOf(k) in gone.pvcs
      && var marked := Marked(gone.pvcs[TmpOf(k)], bindCompleted, finalizers);
      var back := Restored(gone.(pvcs := gone.pvcs[TmpOf(k) := marked]), k);
      var claims := w.pvcs[k := Returned(main)];
      && back.pvcs == (if finalizers == {} then claims else claims[TmpOf(k) := marked.(deleting := true)])
      && back == w.(pvcs := back.pvcs, pvs := w.pvs[main.volumeName := w.pvs[main.volumeName].(claimRef := Some(k))])
  {
    var main := w.pvcs[k];
    var tmp := TemporaryClaim(main, main.volumeName);
    var name := main.volumeName;
    assert TmpOf(k) != k && tmp.labels == main.labels && tmp.volumeName == name;
    hide TemporaryClaim, Returned, Restored, HandOffAfter, RestoredClaim, RestoreOutcome;
    HandedOff(w, k);
    var w1 := HandOffAfter(w, k, false, 3);
    LetGone(w1, k);
    var pvs := w.pvs[name := w.pvs[name].(claimRef := Some(TmpOf(k)))];
    var w2 := Restored(w1, k);
    assert w2 == w.(pvcs := w.pvcs[TmpOf(k) := tmp] - {k}, pvs := pvs);
    var marked := Marked(tmp, bindCompleted, finalizers);
    assert marked.finalizers == finalizers && marked.volumeName == name;
    hide Marked;
    var w3 := w.(pvcs := (w.pvcs[TmpOf(k) := tmp] - {k})[TmpOf(k) := marked], pvs := pvs);
    StandInReturns(main, bindCompleted, finalizers);
    BroughtBack(w3, k);
    ReplacedInMap(w.pvcs, k, TmpOf(k), tmp, marked, Returned(main), marked.(deleting := true));
    assert pvs[name := pvs[name].(claimRef := Some(k))] == w.pvs[name := w.pvs[name].(claimRef := Some(k))];
  }

  lemma ReplacedInMap<K, V>(m: map<K, V>, k: K, t: K, a: V, b: V, c: V, d: V)
    requires k != t && t !in m
    ensures (m[t := a] - {k})[t := b][k := c] - {t} == m[k := c]
    ensures (m[t := a] - {k})[t := b][k := c][t := d] == m[k := c][t := d]
  {
  }

  // ---------- restoring a list ----------

  /** The listed claims are restored in order, up to the first one that has to wait. */
  function RestoreAll(w: World, listed: seq<Key>): (World, Outcome)
    decreases |listed|
  {
    if listed == [] then (w, OK)
    else if !HasStandIn(w, listed[0]) then RestoreAll(w, listed[1..])
    else
      var k := MainOf(listed[0]);
      if RestoreOutcome(w, k).Failure? then (Restored(w, k), RestoreOutcome(w, k))
      else RestoreAll(Restored(w, k), listed[1..])
  }

  /** The claims that are terminating while their stand-in holds the volume. */
  function Waiting(pvcs: ClaimMap): set<Key> {
    set k | k in pvcs && pvcs[k].deleting && TmpOf(k) in pvcs
  }

  /** The claims of a set that are terminating while their stand-in holds the volume. */
  function WaitingOf(all: set<Key>, pvcs: ClaimMap): set<Key> {
    all * Waiting(pvcs)
  }

  /**
   The claims of the set can be restored: a stand-in is there to stay and bound to an existing volume that no other
   stand-in names, and nobody else holds it; a terminating claim is held by some finalizer.
   */
  ghost predicate Restorable(all: set<Key>, pvcs: ClaimMap, pvs: map<string, PV>) {
    && (forall k :: k in all ==> k.name.App?)
    && (forall k :: k in all && TmpOf(k) in pvcs ==>
          && pvcs[TmpOf(k)].volumeName != "" && pvcs[TmpOf(k)].volumeName in pvs
          && pvcs[TmpOf(k)].finalizers == {} && !pvcs[TmpOf(k)].deleting
          && forall d :: d in pvcs && d.name.Tmp? && pvcs[d].volumeName == pvcs[TmpOf(k)].volumeName ==> d == TmpOf(k))
    && (forall k :: k in WaitingOf(all, pvcs) ==> pvcs[k].finalizers != {})
  }

  /** Whatever the list names has no stand-in or is a claim of the set. */
  ghost predicate Listable(all: set<Key>, pvcs: ClaimMap, listed: seq<Key>) {
    forall c :: c in listed ==> MainOf(c).name.App? && (MainOf(c) in all || TmpOf(MainOf(c)) !in pvcs)
  }

  /** The list mentions every claim of the set that has a stand-in, or the stand-in. */
  ghost predicate Covers(all: set<Key>, pvcs: ClaimMap, listed: seq<Key>) {
    forall k :: k in all && TmpOf(k) in pvcs ==> k in listed || TmpOf(k) in listed
  }

  /**
   Claim `k` is back: its stand-in is gone, it is not terminating, volume `name` refers to it, and no stand-in
   holds that volume.
   */
  ghost predicate Back(w: World, k: Key, name: string) {
    && TmpOf(k) !in w.pvcs && Standing(w.pvcs, k)
    && name in w.pvs && w.pvs[name].claimRef == Some(k)
    && forall d :: d in w.pvcs && d.name.Tmp? ==> w.pvcs[d].volumeName != name
  }

  /** Stand-ins only disappear, no claim is marked as deleted, every stand-in of the set that has disappeared has brought its claim back, and nothing undoes that. */
  ghost predicate Forward(all: set<Key>, w: World, v: World) {
    && (forall c :: c in v.pvcs && c.name.Tmp? ==> c in w.pvcs && v.pvcs[c].volumeName == w.pvcs[c].volumeName)
    && (forall c :: Going(v.pvcs, c) ==> Going(w.pvcs, c))
    && (forall k :: k in all && TmpOf(k) in w.pvcs && TmpOf(k) !in v.pvcs ==> Back(v, k, w.pvcs[TmpOf(k)].volumeName))
    && (forall k, name :: k in all && Back(w, k, name) ==> Back(v, k, name))
  }

  lemma ForwardIsTransitive(all: set<Key>, u: World, v: World, w: World)
    requires Forward(all, u, v) && Forward(all, v, w)
    ensures Forward(all, u, w)
  {
    hide Back;
  }

  lemma WaitingIsLetGo(all: set<Key>, w: World, k: Key)
    requires Restorable(all, w.pvcs, w.pvs) && k in WaitingOf(all, w.pvcs)
    ensures RestoreOutcome(w, k) == Failure(WaitingForDeletion(k.name))
    ensures var v := Restored(w, k);
      && WaitingOf(all, v.pvcs) == WaitingOf(all, w.pvcs) - {k} && Restorable(all, v.pvcs, v.pvs) && Forward(all, w, v)
  {
    var v := Restored(w, k);
    var tmp := w.pvcs[TmpOf(k)].(labels := w.pvcs[k].labels);
    assert TmpOf(k) != k;
    assert v.pvcs == w.pvcs[TmpOf(k) := tmp] - {k} && v.pvs == w.pvs;
    hide Restored, RestoreOutcome;
    ClaimIsLetGo(all, w.pvcs, w.pvs, k, tmp);
    LettingGoIsForward(all, w, v, k);
  }

  lemma ClaimIsLetGo(all: set<Key>, pvcs: ClaimMap, pvs: map<string, PV>, k: Key, tmp: PVC)
    requires Restorable(all, pvcs, pvs) && k in WaitingOf(all, pvcs)
    requires tmp == pvcs[TmpOf(k)].(labels := tmp.labels)
    ensures var v := pvcs[TmpOf(k) := tmp] - {k}; WaitingOf(all, v) == WaitingOf(all, pvcs) - {k} && Restorable(all, v, pvs)
  {
    assert k.name.App?;
  }

  lemma LettingGoIsForward(all: set<Key>, w: World, v: World, k: Key)
    requires Restorable(all, w.pvcs, w.pvs) && k in WaitingOf(all, w.pvcs)
    requires TmpOf(k) in v.pvcs && v.pvcs[TmpOf(k)].volumeName == w.pvcs[TmpOf(k)].volumeName && !v.pvcs[TmpOf(k)].deleting
    requires v.pvcs == w.pvcs[TmpOf(k) := v.pvcs[TmpOf(k)]] - {k} && v.pvs == w.pvs
    ensures Forward(all, w, v)
  {
    assert k.name.App?;
    forall j, name | j in all && Back(w, j, name)
      ensures Back(v, j, name)
    {
      assert j != k && j.name.App?;
    }
  }

  /** The claims after claim `k` was brought back from a stand-in that nobody else holds. */
  function ClaimsWith(pvcs: ClaimMap, k: Key): ClaimMap
    requires TmpOf(k) in pvcs
  {
    var tmp := pvcs[TmpOf(k)];
    (if k in pvcs then pvcs else pvcs[k := RestoredClaim(tmp, tmp.volumeName)]) - {TmpOf(k)}
  }

  lemma OthersAreRecreated(w: World, k: Key)
    requires HasVolume(w, TmpOf(k)) && k !in Waiting(w.pvcs) && w.pvcs[TmpOf(k)].finalizers == {}
    ensures RestoreOutcome(w, k) == OK
    ensures Restored(w, k).pvcs == ClaimsWith(w.pvcs, k)
    ensures var tmp := w.pvcs[TmpOf(k)];
      Restored(w, k).pvs == w.pvs[tmp.volumeName := w.pvs[tmp.volumeName].(claimRef := Some(k))]
  {
    if k !in w.pvcs {
      hide Restored, RestoreOutcome, RestoredClaim;
      BroughtBack(w, k);
    } else {
      RestoreBegins(w, k);
      ClaimAgain(w, k, w.pvcs[TmpOf(k)]);
      PointedVolumes(w, w.pvcs[TmpOf(k)].volumeName, k);
      hide Pointed, WithClaim, Restored;
    }
  }

  lemma PointedVolumes(w: World, name: string, k: Key)
    requires name in w.pvs
    ensures var v := Pointed(w, name, k);
      v.pvs == w.pvs[name := w.pvs[name].(claimRef := Some(k))] && v.pvcs == w.pvcs
  {
    assert w.pvs[name := w.pvs[name]] == w.pvs;
  }

  lemma RecreationKeepsWaiting(all: set<Key>, pvcs: ClaimMap, pvs: map<string, PV>, k: Key)
    requires Restorable(all, pvcs, pvs) && k in all && k !in Waiting(pvcs) && TmpOf(k) in pvcs
    ensures var v := ClaimsWith(pvcs, k);
      && WaitingOf(all, v) == WaitingOf(all, pvcs) && Restorable(all, v, pvs)
      && v.Keys == pvcs.Keys + {k} - {TmpOf(k)} && Standing(v, k)
  {
    hide RestoredLabels, RestoredAnnotations;
    var v := ClaimsWith(pvcs, k);
    assert forall c :: c in v && c != k ==> c in pvcs && v[c] == pvcs[c];
    assert forall c :: c in pvcs && c != TmpOf(k) ==> c in v && v[c] == pvcs[c];
    assert Standing(v, k) && TmpOf(k) !in v;
    hide ClaimsWith;
    assert forall j :: j in all && j != k ==> TmpOf(j) != TmpOf(k);
  }

  lemma OthersAreBroughtBack(all: set<Key>, w: World, k: Key)
    requires Restorable(all, w.pvcs, w.pvs) && k in all && k !in Waiting(w.pvcs) && TmpOf(k) in w.pvcs
    ensures RestoreOutcome(w, k) == OK
    ensures var v := Restored(w, k);
      && WaitingOf(all, v.pvcs) == WaitingOf(all, w.pvcs) && Restorable(all, v.pvcs, v.pvs) && Forward(all, w, v)
      && TmpOf(k) !in v.pvcs
  {
    hide Restored, RestoreOutcome, ClaimsWith, WaitingOf, Waiting;
    assert HasVolume(w, TmpOf(k));
    OthersAreRecreated(w, k);
    RecreationKeepsWaiting(all, w.pvcs, w.pvs, k);
    assert Restored(w, k).pvs.Keys == w.pvs.Keys;
    hide HasVolume;
    RecreationIsForward(all, w, Restored(w, k), k);
  }

  lemma RecreationIsForward(all: set<Key>, w: World, v: World, k: Key)
    requires Restorable(all, w.pvcs, w.pvs) && k in all && k !in Waiting(w.pvcs) && TmpOf(k) in w.pvcs
    requires v.pvcs == ClaimsWith(w.pvcs, k) && w.pvcs[TmpOf(k)].volumeName in w.pvs
    requires var name := w.pvcs[TmpOf(k)].volumeName;
      v.pvs == w.pvs[name := w.pvs[name].(claimRef := Some(k))]
    ensures Forward(all, w, v)
  {
    hide RestoredLabels, RestoredAnnotations;
    assert forall c :: c in v.pvcs && c != k ==> c in w.pvcs && v.pvcs[c] == w.pvcs[c];
    assert forall c :: c in w.pvcs && c != TmpOf(k) ==> c in v.pvcs && v.pvcs[c] == w.pvcs[c];
    assert !v.pvcs[k].deleting;
    hide ClaimsWith;
    assert forall j :: j in all && j != k ==> TmpOf(j) != TmpOf(k);
  }

  lemma NothingToRestore(w: World, k: Key)
    requires TmpOf(k) !in w.pvcs
    ensures RestoreOutcome(w, k) == OK && Restored(w, k) == w && k !in Waiting(w.pvcs)
  {
  }

  /** One claim of a list is handled: it is let go and the pass ends, or it is back if it had a stand-in. */
  lemma HandleOne(all: set<Key>, w: World, k: Key)
    requires Restorable(all, w.pvcs, w.pvs) && (k in all || TmpOf(k) !in w.pvcs)
    ensures var v := Restored(w, k);
      && Restorable(all, v.pvcs, v.pvs) && Forward(all, w, v)
      && (RestoreOutcome(w, k).Success? ==> WaitingOf(all, v.pvcs) == WaitingOf(all, w.pvcs) && TmpOf(k) !in v.pvcs)
      && (RestoreOutcome(w, k).Failure? ==>
            && RestoreOutcome(w, k) == Failure(WaitingForDeletion(k.name)) && k in WaitingOf(all, w.pvcs)
            && WaitingOf(all, v.pvcs) == WaitingOf(all, w.pvcs) - {k})
  {
    assert Forward(all, w, w);
    assert k in all && k in Waiting(w.pvcs) ==> k in WaitingOf(all, w.pvcs);
    assert k in Waiting(w.pvcs) ==> TmpOf(k) in w.pvcs;
    hide Restorable, Forward, Waiting, WaitingOf, Restored, RestoreOutcome;
    if TmpOf(k) !in w.pvcs {
      NothingToRestore(w, k);
    } else if k in Waiting(w.pvcs) {
      WaitingIsLetGo(all, w, k);
    } else {
      OthersAreBroughtBack(all, w, k);
    }
  }

  lemma ListableLater(all: set<Key>, w: World, v: World, listed: seq<Key>)
    requires Listable(all, w.pvcs, listed) && Forward(all, w, v) && listed != []
    ensures Listable(all, v.pvcs, listed[1..])
  {
    hide Back;
  }

  /** A reconcile's pass over the list lets exactly one waiting claim go, or finds none and restores what is listed. */
  lemma {:induction false} PassLetsOneGo(all: set<Key>, w: World, listed: seq<Key>) returns (k: Key)
    requires Restorable(all, w.pvcs, w.pvs) && Listable(all, w.pvcs, listed)
    ensures var (v, o) := RestoreAll(w, listed);
      && Restorable(all, v.pvcs, v.pvs) && Forward(all, w, v)
      && (o.Success? ==> WaitingOf(all, v.pvcs) == WaitingOf(all, w.pvcs) && forall c :: c in listed ==> TmpOf(MainOf(c)) !in v.pvcs)
      && (o.Failure? ==>
            && o == Failure(WaitingForDeletion(k.name)) && k in WaitingOf(all, w.pvcs)
            && WaitingOf(all, v.pvcs) == WaitingOf(all, w.pvcs) - {k})
    decreases |listed|
  {
    assert Forward(all, w, w);
    hide Restorable, Waiting, WaitingOf, Restored, RestoreOutcome, Back;
    k := MainOf(if listed == [] then Key("", App("")) else listed[0]);
    if listed != [] {
      if !HasStandIn(w, listed[0]) {
        ListableLater(all, w, w, listed);
        k := PassLetsOneGo(all, w, listed[1..]);
      } else {
        HandleOne(all, w, k);
        if RestoreOutcome(w, k).Success? {
          var v := Restored(w, k);
          ListableLater(all, w, v, listed);
          k := PassLetsOneGo(all, v, listed[1..]);
          ForwardIsTransitive(all, w, v, RestoreAll(v, listed[1..]).0);
        }
      }
    }
  }

  /** The state after one pass for each list. */
  function Passes(w: World, lists: seq<seq<Key>>): World
    decreases |lists|
  {
    if lists == [] then w else Passes(RestoreAll(w, lists[0]).0, lists[1..])
  }

  function Outcomes(w: World, lists: seq<seq<Key>>): seq<Outcome>
    decreases |lists|
  {
    if lists == [] then [] else [RestoreAll(w, lists[0]).1] + Outcomes(RestoreAll(w, lists[0]).0, lists[1..])
  }

  /** Each pass gets a list, in any order, that covers the set as it is at its time. */
  ghost predicate Listings(all: set<Key>, w: World, lists: seq<seq<Key>>)
    decreases |lists|
  {
    lists == [] ||
    (&& Listable(all, w.pvcs, lists[0]) && Covers(all, w.pvcs, lists[0])
     && Listings(all, RestoreAll(w, lists[0]).0, lists[1..]))
  }

  /** No claim of the set has a stand-in. */
  ghost predicate NoneStandsIn(all: set<Key>, pvcs: ClaimMap) {
    forall k :: k in all ==> TmpOf(k) !in pvcs
  }

  /** A pass over a covering list succeeds exactly when no claim of the set is waiting, and then none has a stand-in. */
  lemma CoveringPass(all: set<Key>, w: World, listed: seq<Key>)
    requires Restorable(all, w.pvcs, w.pvs) && Listable(all, w.pvcs, listed) && Covers(all, w.pvcs, listed)
    ensures var (v, o) := RestoreAll(w, listed);
      && Restorable(all, v.pvcs, v.pvs) && Forward(all, w, v)
      && (o.Success? <==> WaitingOf(all, w.pvcs) == {})
      && (o.Success? ==> NoneStandsIn(all, v.pvcs))
      && (o.Failure? ==> o.error.WaitingForDeletion? && |WaitingOf(all, v.pvcs)| == |WaitingOf(all, w.pvcs)| - 1)
  {
    var (v, o) := RestoreAll(w, listed);
    var k := PassLetsOneGo(all, w, listed);
    hide RestoreAll, Back;
    if o.Success? {
      NoStandInLeft(all, w, v, listed);
    }
    hide Restorable, Forward, WaitingOf, Waiting, Covers, Listable, NoneStandsIn;
  }

  lemma NoStandInLeft(all: set<Key>, w: World, v: World, listed: seq<Key>)
    requires Restorable(all, w.pvcs, w.pvs) && Forward(all, w, v) && Covers(all, w.pvcs, listed)
    requires WaitingOf(all, v.pvcs) == WaitingOf(all, w.pvcs) && forall c :: c in listed ==> TmpOf(MainOf(c)) !in v.pvcs
    ensures WaitingOf(all, w.pvcs) == {} && NoneStandsIn(all, v.pvcs)
  {
    hide Back;
    forall k | k in all
      ensures TmpOf(k) !in v.pvcs
    {
      assert k.name.App? && MainOf(k) == k && MainOf(TmpOf(k)) == k;
      assert TmpOf(k) in w.pvcs ==> k in listed || TmpOf(k) in listed;
    }
    hide Forward, Restorable;
    assert forall k :: k in WaitingOf(all, v.pvcs) ==> k in all && TmpOf(k) in v.pvcs;
  }

  /**
   K terminating claims with stand-ins take exactly K waiting passes and then one that restores everything:
   no stand-in is left, and every claim that had one is back with its volume.
   */
  lemma {:induction false} RestoreTakesExactly(all: set<Key>, w: World, lists: seq<seq<Key>>)
    requires Restorable(all, w.pvcs, w.pvs) && Listings(all, w, lists) && |lists| == |WaitingOf(all, w.pvcs)| + 1
    ensures |Outcomes(w, lists)| == |lists|
    ensures forall i :: 0 <= i < |lists| - 1 ==>
      Outcomes(w, lists)[i].Failure? && Outcomes(w, lists)[i].error.WaitingForDeletion?
    ensures Outcomes(w, lists)[|lists| - 1].Success?
    ensures Forward(all, w, Passes(w, lists))
    ensures NoneStandsIn(all, Passes(w, lists).pvcs)
    ensures forall k :: k in all && TmpOf(k) in w.pvcs ==> Back(Passes(w, lists), k, w.pvcs[TmpOf(k)].volumeName)
    decreases |lists|
  {
    hide RestoreAll, Restorable, Back, Waiting, WaitingOf, Forward, NoneStandsIn;
    CoveringPass(all, w, lists[0]);
    var v := RestoreAll(w, lists[0]).0;
    assert Passes(w, lists) == Passes(v, lists[1..]);
    if WaitingOf(all, w.pvcs) == {} {
      assert lists[1..] == [] && Passes(w, lists) == v;
    } else {
      assert |WaitingOf(all, w.pvcs)| > 0;
      RestoreTakesExactly(all, v, lists[1..]);
      assert Outcomes(w, lists) == [RestoreAll(w, lists[0]).1] + Outcomes(v, lists[1..]);
      ForwardIsTransitive(all, w, v, Passes(w, lists));
    }
    BroughtBackForGood(all, w, Passes(w, lists));
  }

  /** The claim keeps its volume and labels, stays marked or not, and is in the same phase. */
  predicate UpkeptClaim(p: PVC, q: PVC) {
    && q.volumeName == p.volumeName && q.labels == p.labels && q.deleting == p.deleting && q.phase == p.phase
    && (Temporary in q.annotations <==> Temporary in p.annotations)
    && (BindCompleted in q.annotations ==> BindCompleted in p.annotations)
  }

  ghost predicate UpkeptClaims(w: ClaimMap, v: ClaimMap) {
    v.Keys == w.Keys && forall c :: c in w ==> UpkeptClaim(w[c], v[c])
  }

  /** Sources only go. */
  ghost predicate Fewer(w: SourceMap, v: SourceMap) {
    forall k :: k in v ==> k in w && v[k] == w[k]
  }

  /**
   Claims stay as they are up to finalizers and annotations, sources only go, destinations only come; volumes, secrets,
   VRGs and the VGR are not touched.
   */
  ghost predicate Upkept(w: World, v: World) {
    && UpkeptClaims(w.pvcs, v.pvcs) && Fewer(w.rss, v.rss) && Grown(w.vgr, w.rds, v.rds)
    && v.pvs == w.pvs && v.secrets == w.secrets && v.vrgs == w.vrgs && v.vgr == w.vgr
  }

  lemma UpkeptIsTransitive(u: World, v: World, w: World)
    requires Upkept(u, v) && Upkept(v, w)
    ensures Upkept(u, w)
  {
  }

  lemma BackIsUpkept(all: set<Key>, w: World, v: World)
    requires Upkept(w, v.(vgr := w.vgr))
    ensures forall k, name :: Back(w, k, name) ==> Back(v, k, name)
    ensures NoneStandsIn(all, w.pvcs) ==> NoneStandsIn(all, v.pvcs)
  {
  }

  /** A pass touches claims and volumes only. */
  lemma {:induction false} PassIsLocal(w: World, listed: seq<Key>)
    ensures var v := RestoreAll(w, listed).0; v == w.(pvcs := v.pvcs, pvs := v.pvs)
    decreases |listed|
  {
    if listed != [] {
      if !HasStandIn(w, listed[0]) {
        PassIsLocal(w, listed[1..]);
      } else {
        RestoreIsLocal(w, MainOf(listed[0]));
        hide Restored, RestoreOutcome;
        PassIsLocal(Restored(w, MainOf(listed[0])), listed[1..]);
      }
    }
  }

  lemma RecreationIsLocal(w: World, k: Key)
    requires HasVolume(w, TmpOf(k)) && !Going(w.pvcs, k)
    ensures var v := Restored(w, k); v == w.(pvcs := v.pvcs, pvs := v.pvs)
  {
    RestoreBegins(w, k);
    var tmp := w.pvcs[TmpOf(k)];
    hide Restored, RestoredAfter, RequestDeletion;
    var w1 := WithClaim(w, k, tmp);
    assert w1 == w.(pvcs := w1.pvcs);
    hide WithClaim;
    assert Pointed(w1, tmp.volumeName, k) == w1.(pvs := Pointed(w1, tmp.volumeName, k).pvs);
    hide Pointed;
  }

  lemma LettingGoIsLocal(w: World, k: Key)
    requires k in w.pvcs && TmpOf(k) in w.pvcs
    ensures var v := LetGoAfter(w, k, 3); v == w.(pvcs := v.pvcs)
  {
    hide StoreClaim;
    assert TmpOf(k) != k;
    var w1 := w.(pvcs := w.pvcs[TmpOf(k) := w.pvcs[TmpOf(k)].(labels := w.pvcs[k].labels)]);
    assert LetGoAfter(w, k, 3) ==
      if w.pvcs[k].finalizers == {} then w1 else w1.(pvcs := StoreClaim(w1.pvcs, k, w1.pvcs[k].(finalizers := {})));
    hide LetGoAfter;
  }

  lemma RestoreIsLocal(w: World, k: Key)
    ensures var v := Restored(w, k); v == w.(pvcs := v.pvcs, pvs := v.pvs)
  {
    if HasVolume(w, TmpOf(k)) && !Going(w.pvcs, k) {
      RecreationIsLocal(w, k);
      hide Restored;
    } else {
      if HasVolume(w, TmpOf(k)) {
        LettingGoIsLocal(w, k);
      }
      hide LetGoAfter;
    }
  }

  lemma BroughtBackForGood(all: set<Key>, w: World, v: World)
    requires Forward(all, w, v) && NoneStandsIn(all, v.pvcs)
    ensures forall k :: k in all && TmpOf(k) in w.pvcs ==> Back(v, k, w.pvcs[TmpOf(k)].volumeName)
  {
    hide Back;
  }
}
