/**
 The hand-off of a volume to a stand-in claim and back: what each write produces,
 and why the operator may take it given what it has read before.
 */
module Handoff {

  import opened Names
  import opened Objects
  import opened System
  import opened Protocol
  import opened Wrappers

  // ---------- the claims that are created ----------

  const TEMPORARY_TEXT := "not reconcilable; used only to hold the main PVC info for restore"

  /** The stand-in keeps the annotations that application management reads, and a mark. */
  function TemporaryAnnotations(a: Annotations): Annotations {
    (map x | x in a && (x.RamenRestore? || x.AppManagement?) :: a[x])[Temporary := TEMPORARY_TEXT]
  }

  function TemporaryClaim(main: PVC, volume: string): PVC {
    PVC(main.labels, TemporaryAnnotations(main.annotations), {}, false, main.spec, volume, Pending)
  }

  function RestoredAnnotations(a: Annotations): Annotations {
    map x | x in a && x != Temporary && x != BindCompleted :: a[x]
  }

  function RestoredLabels(l: Labels): Labels {
    map x | x in l && (x.Owner? || x.OwnerNamespace? || x.ConsistencyGroup?) :: l[x]
  }

  function RestoredClaim(tmp: PVC, volume: string): PVC {
    PVC(RestoredLabels(tmp.labels), RestoredAnnotations(tmp.annotations), {}, false, tmp.spec, volume, Pending)
  }

  /** A stand-in has all that claim `main` had and that a restore needs, and is marked as one. */
  ghost predicate StandsInFor(tmp: PVC, main: PVC) {
    && tmp == PVC(main.labels, tmp.annotations, {}, false, main.spec, main.volumeName, Pending)
    && Temporary in tmp.annotations
    && forall x :: x != Temporary ==>
         && (x in tmp.annotations <==> x in main.annotations && (x.RamenRestore? || x.AppManagement?))
         && (x in tmp.annotations ==> tmp.annotations[x] == main.annotations[x])
  }

  /** A claim comes back with what its stand-in has kept for it, and without the marks of the stand-in. */
  ghost predicate ComesBackFrom(main: PVC, tmp: PVC) {
    && main == PVC(main.labels, main.annotations, {}, false, tmp.spec, tmp.volumeName, Pending)
    && (forall x :: x in main.labels <==> x in tmp.labels && x in {Owner, OwnerNamespace, ConsistencyGroup})
    && (forall x :: x in main.labels ==> main.labels[x] == tmp.labels[x])
    && (forall x :: x in main.annotations <==> x in tmp.annotations && x != Temporary && x != BindCompleted)
    && (forall x :: x in main.annotations ==> main.annotations[x] == tmp.annotations[x])
  }

  // ---------- the cluster after each write ----------

  /** Claim `k` names a volume that exists. */
  predicate HasVolume(w: World, k: Key) {
    k in w.pvcs && w.pvcs[k].volumeName != "" && w.pvcs[k].volumeName in w.pvs
  }

  /** The cluster with a stand-in for claim `k`, where `main` is the value of `k` that was read. */
  function WithStandIn(w: World, k: Key, main: PVC): World {
    if TmpOf(k) in w.pvcs then w
    else w.(pvcs := w.pvcs[TmpOf(k) := TemporaryClaim(main, main.volumeName)])
  }

  /** The cluster with volume `name` referring to claim `k`. */
  function Pointed(w: World, name: string, k: Key): World
    requires name in w.pvs
  {
    if w.pvs[name].claimRef == Some(k) then w else w.(pvs := w.pvs[name := w.pvs[name].(claimRef := Some(k))])
  }

  /** The cluster without the operator's finalizer on claim `k`. */
  function Unprotected(w: World, k: Key): World {
    if k in w.pvcs && Protection in w.pvcs[k].finalizers
    then w.(pvcs := StoreClaim(w.pvcs, k, w.pvcs[k].(finalizers := w.pvcs[k].finalizers - {Protection})))
    else w
  }

  /** The cluster after the first `stage` writes of a hand-off of claim `k`. */
  function HandOffAfter(w: World, k: Key, rmFinalizer: bool, stage: nat): World {
    if !HasVolume(w, k) || stage == 0 then w
    else
      var w1 := WithStandIn(w, k, w.pvcs[k]);
      var w2 := if stage == 1 then w1 else Pointed(w1, w.pvcs[k].volumeName, TmpOf(k));
      if stage <= 2 || !rmFinalizer then w2 else Unprotected(w2, k)
  }

  /** The cluster with claim `k`, where `tmp` is the value of the stand-in that was read. */
  function WithClaim(w: World, k: Key, tmp: PVC): World {
    if k in w.pvcs then w else w.(pvcs := w.pvcs[k := RestoredClaim(tmp, tmp.volumeName)])
  }

  /** The cluster after the first `stage` writes that let a terminating claim go. */
  function LetGoAfter(w: World, k: Key, stage: nat): World
    requires k in w.pvcs && TmpOf(k) in w.pvcs
  {
    if stage == 0 then w
    else
      var w1 := w.(pvcs := w.pvcs[TmpOf(k) := w.pvcs[TmpOf(k)].(labels := w.pvcs[k].labels)]);
      if stage == 1 || w.pvcs[k].finalizers == {} then w1
      else w1.(pvcs := StoreClaim(w1.pvcs, k, w1.pvcs[k].(finalizers := {})))
  }

  /** The cluster after the first `stage` writes that recreate a claim from its stand-in. */
  function RecreatedAfter(w: World, k: Key, stage: nat): World
    requires TmpOf(k) in w.pvcs && w.pvcs[TmpOf(k)].volumeName in w.pvs
  {
    var tmp := w.pvcs[TmpOf(k)];
    if stage == 0 then w
    else
      var w1 := WithClaim(w, k, tmp);
      var w2 := if stage == 1 then w1 else Pointed(w1, tmp.volumeName, k);
      if stage <= 2 then w2 else w2.(pvcs := RequestDeletion(w2.pvcs, TmpOf(k)))
  }

  /** The cluster after the first `stage` writes of a restore of claim `k`. */
  function RestoredAfter(w: World, k: Key, stage: nat): World {
    if stage == 0 || !HasVolume(w, TmpOf(k)) then w
    else if k in w.pvcs && w.pvcs[k].deleting then LetGoAfter(w, k, stage)
    else RecreatedAfter(w, k, stage)
  }

  function Restored(w: World, k: Key): World {
    RestoredAfter(w, k, 3)
  }

  function RestoreOutcome(w: World, k: Key): Outcome {
    if TmpOf(k) !in w.pvcs then OK
    else if w.pvcs[TmpOf(k)].volumeName == "" then Failure(NotBound)
    else if w.pvcs[TmpOf(k)].volumeName !in w.pvs then Failure(NotFound)
    else if k in w.pvcs && w.pvcs[k].deleting then Failure(WaitingForDeletion(k.name))
    else OK
  }

  lemma TemporaryClaimStandsIn(main: PVC)
    ensures StandsInFor(TemporaryClaim(main, main.volumeName), main)
  {
  }

  lemma RestoredClaimComesBack(tmp: PVC)
    ensures ComesBackFrom(RestoredClaim(tmp, tmp.volumeName), tmp)
  {
  }

  /** After a hand-off the stand-in holds what a restore needs. */
  lemma HandOffStandsIn(w: World, k: Key, rmFinalizer: bool)
    ensures var v := HandOffAfter(w, k, rmFinalizer, 3);
      HasVolume(w, k) && TmpOf(k) !in w.pvcs ==> TmpOf(k) in v.pvcs && StandsInFor(v.pvcs[TmpOf(k)], w.pvcs[k])
  {
    if HasVolume(w, k) && TmpOf(k) !in w.pvcs {
      var w1 := w.(pvcs := w.pvcs[TmpOf(k) := TemporaryClaim(w.pvcs[k], w.pvcs[k].volumeName)]);
      assert TmpOf(k) != k && WithStandIn(w, k, w.pvcs[k]) == w1;
      TemporaryClaimStandsIn(w.pvcs[k]);
      hide TemporaryClaim, StandsInFor, WithStandIn;
      PointingLeavesClaims(w1, w.pvcs[k].volumeName, TmpOf(k));
      hide Pointed, StoreClaim;
      if Protection in w.pvcs[k].finalizers {
        StoringLeavesOthers(w1.pvcs, k, w.pvcs[k].(finalizers := w.pvcs[k].finalizers - {Protection}), TmpOf(k));
      }
    }
  }

  /** After a restore the claim has what its stand-in has kept. */
  lemma RestoredComesBack(w: World, k: Key)
    ensures HasVolume(w, TmpOf(k)) && k !in w.pvcs ==> k in Restored(w, k).pvcs && ComesBackFrom(Restored(w, k).pvcs[k], w.pvcs[TmpOf(k)])
  {
    if HasVolume(w, TmpOf(k)) && k !in w.pvcs {
      var tmp := w.pvcs[TmpOf(k)];
      var w1 := w.(pvcs := w.pvcs[k := RestoredClaim(tmp, tmp.volumeName)]);
      assert TmpOf(k) != k && WithClaim(w, k, tmp) == w1;
      RestoredClaimComesBack(tmp);
      hide RestoredClaim, ComesBackFrom, WithClaim;
      PointingLeavesClaims(w1, tmp.volumeName, k);
      hide Pointed;
      DeletionLeavesOthers(w1.pvcs, TmpOf(k), k);
      hide RequestDeletion;
    }
  }

  lemma StoringLeavesOthers(pvcs: ClaimMap, c: Key, p: PVC, k: Key)
    requires c != k && k in pvcs
    ensures k in StoreClaim(pvcs, c, p) && StoreClaim(pvcs, c, p)[k] == pvcs[k]
  {
  }

  lemma PointingLeavesClaims(w: World, name: string, k: Key)
    requires name in w.pvs
    ensures Pointed(w, name, k).pvcs == w.pvcs
  {
  }

  lemma DeletionLeavesOthers(pvcs: ClaimMap, c: Key, k: Key)
    requires c != k && k in pvcs
    ensures k in RequestDeletion(pvcs, c) && RequestDeletion(pvcs, c)[k] == pvcs[k]
  {
  }

  /** A listed claim has a stand-in, or is one. */
  predicate HasStandIn(w: World, listed: Key) {
    listed.name.Tmp? || TmpOf(listed) in w.pvcs
  }

  // ---------- why the writes are legal ----------

  /** What the invariant says about a claim the operator has read, and stays true of that value. */
  ghost predicate Known(s: Setting, sel: Option<Selector>, k: Key, p: PVC) {
    && (forall j :: j in s.group && p.volumeName == s.group[j] ==> k == j || k == TmpOf(j))
    && (forall j :: j in s.group && (k == j || k == TmpOf(j)) ==>
          p.volumeName == s.group[j] && (s.relocating ==> sel.Some? && Matches(sel.value, p.labels)))
  }

  lemma ReadClaimIsKnown(s: Setting, w: World, k: Key)
    requires Inv(s, w) && !w.vgr.deleting && k in w.pvcs
    ensures Known(s, w.vgr.selector, k, w.pvcs[k])
    ensures k.name.Tmp? && s.plain ==> w.pvcs[k].finalizers == {} && !w.pvcs[k].deleting
  {
    hide Exclusive, Guarded, Anchored, Lossless, Frozen, StampsAreFinal, KeptUntilDone, Relocation, Matches;
    forall j | j in s.group && (k == j || k == TmpOf(j))
      ensures w.pvcs[k].volumeName == s.group[j]
    {
      assert NamedAt(s.group[j], w.pvcs, j);
    }
  }

  /** A stand-in for claim `k`, copied from a value of `k` that was read before. */
  lemma StandInIsLegal(s: Setting, w: World, k: Key, main: PVC)
    requires k.name.App? && TmpOf(k) !in w.pvcs && GroupWellFormed(s.group, w.vgr.ns)
    requires !w.vgr.deleting ==> Known(s, w.vgr.selector, k, main)
    ensures Legal(s, w, CreatePVC(TmpOf(k), TemporaryClaim(main, main.volumeName)))
  {
    hide TemporaryAnnotations, Matches;
  }

  /** A volume may refer to the stand-in as soon as the stand-in exists. */
  lemma PointingToStandInIsLegal(s: Setting, w: World, k: Key, main: PVC, pv: PV)
    requires k.name.App? && (s.plain ==> Standing(w.pvcs, TmpOf(k))) && GroupWellFormed(s.group, w.vgr.ns)
    requires !w.vgr.deleting ==> Known(s, w.vgr.selector, k, main)
    ensures Legal(s, w, UpdatePV(main.volumeName, pv.(claimRef := Some(TmpOf(k)))))
  {
  }

  /** The main claim may go: its stand-in exists, its data is safe, and its volume refers to the stand-in. */
  ghost predicate Releasable(s: Setting, w: World, k: Key) {
    !w.vgr.deleting && k in s.group ==> MayLetGo(s, w, k)
  }

  lemma ReleasableIsStable(s: Setting, w: World, v: World, k: Key)
    requires Inv(s, w) && Releasable(s, w, k) && Rely(s, w, v)
    ensures Releasable(s, v, k)
  {
    hide Exclusive, Guarded, Claims, Lossless, Frozen, KeptUntilDone, Selected, AppPods, Relocation, SameDestinations, NoNewPods;
    if !v.vgr.deleting && k in s.group {
      assert s.plain ==> w.pvcs[TmpOf(k)].Held();
    }
  }
}
