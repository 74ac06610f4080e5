/** Why the writes of a hand-off and a restore are legal, given what the operator has read on the way. */
module Legality {

  import opened Names
  import opened Objects
  import opened System
  import opened Protocol
  import opened Handoff
  import opened Replication
  import Schedule
  import opened Wrappers

  /** What the two halves of a restore need to know about the claims that were read on the way. */
  lemma KnownBeforeRestore(s: Setting, w: World, u: World, v: World, k: Key)
    requires Inv(s, w) && Inv(s, u) && Steady(s, w, u) && Steady(s, u, v) && Steady(s, w, v)
    requires Kept(w.pvcs, v.pvcs) && Kept(u.pvcs, v.pvcs) && TmpOf(k) in w.pvcs && k.name.App?
    requires k in v.pvcs ==> k in u.pvcs && SameClaim(u.pvcs[k], v.pvcs[k])
    ensures Standing(w.pvcs, TmpOf(k)) ==> Standing(v.pvcs, TmpOf(k))
    ensures s.plain ==> Standing(v.pvcs, TmpOf(k))
    ensures !v.vgr.deleting ==> Known(s, v.vgr.selector, TmpOf(k), w.pvcs[TmpOf(k)])
    ensures !v.vgr.deleting && k in u.pvcs ==> Known(s, v.vgr.selector, k, u.pvcs[k])
    ensures k in u.pvcs && !u.pvcs[k].deleting ==> k in v.pvcs && v.pvcs[k].Held()
    ensures s.relocating && !w.vgr.deleting && k in s.group && Done(w.rss, k) ==> Done(v.rss, k)
  {
    hide Claims, Exclusive, Guarded, Lossless, Frozen, KeptUntilDone, AppPods, Relocation, SameDestinations, NoNewPods, Known, Selected;
    if Standing(w.pvcs, TmpOf(k)) {
      StandInStays(s, w, v.pvcs, TmpOf(k));
    }
    if !v.vgr.deleting {
      ReadClaimIsKnown(s, w, TmpOf(k));
      if k in u.pvcs {
        ReadClaimIsKnown(s, u, k);
      }
    }
  }

  lemma HandedOffIsReleasable(s: Setting, w: World, v: World, k: Key)
    requires Inv(s, w) && Steady(s, w, v) && (s.plain ==> TmpOf(k) in v.pvcs) && ReleasableVolume(s, v, k)
    requires s.relocating && !w.vgr.deleting && k in s.group ==> Done(w.rss, k)
    ensures Releasable(s, v, k)
  {
    hide Claims, Exclusive, Guarded, Lossless, Frozen, KeptUntilDone, Selected, AppPods, Relocation, SameDestinations, NoNewPods;
  }

  lemma KeptIsHeld(w: ClaimMap, v: ClaimMap, k: Key)
    requires Kept(w, v) && k in w && w[k].Held()
    ensures k in v && v[k].Held()
  {
  }

  lemma LabelHandoverIsLegal(s: Setting, w: World, k: Key, main: PVC)
    requires Inv(s, w) && k.name.App? && TmpOf(k) in w.pvcs
    requires !w.vgr.deleting ==> Known(s, w.vgr.selector, k, main)
    ensures var p := w.pvcs[TmpOf(k)].(labels := main.labels);
      Legal(s, w, UpdatePVC(TmpOf(k), p)) && StoreClaim(w.pvcs, TmpOf(k), p) == w.pvcs[TmpOf(k) := p]
  {
    hide Claims, Exclusive, Guarded, Relocating, Matches;
  }

  lemma LettingGoIsLegal(s: Setting, w: World, v: World, k: Key)
    requires Inv(s, w) && Inv(s, v) && Steady(s, w, v) && Referred(s, v) && (s.plain ==> TmpOf(k) in v.pvcs)
    requires s.relocating && !w.vgr.deleting && k in s.group ==> Done(w.rss, k)
    requires k in v.pvcs && k.name.App?
    ensures Legal(s, v, UpdatePVC(k, v.pvcs[k].(finalizers := {})))
  {
    hide Claims, Exclusive, Guarded, Lossless, Frozen, KeptUntilDone, AppPods, Relocation, SameDestinations, NoNewPods, Matches;
    assert s.reliable && s.plain && !v.vgr.deleting && k in s.group ==> ReferredAt(s.group[k], v.pvcs, v.pvs, k);
  }

  lemma RestoredLabelsMatch(vgr: VGR, labels: Labels)
    requires StableSelector(vgr) && Matches(vgr.selector.value, labels)
    ensures Matches(vgr.selector.value, RestoredLabels(labels))
  {
  }

  lemma RecreationIsLegal(s: Setting, w: World, k: Key, tmp: PVC)
    requires k.name.App? && k !in w.pvcs && GroupWellFormed(s.group, w.vgr.ns)
    requires !w.vgr.deleting ==> Known(s, w.vgr.selector, TmpOf(k), tmp)
    requires s.relocating && !w.vgr.deleting ==> StableSelector(w.vgr)
    requires s.relocating && !w.vgr.deleting && k in s.group ==> Done(w.rss, k)
    ensures Legal(s, w, CreatePVC(k, RestoredClaim(tmp, tmp.volumeName)))
  {
    hide RestoredAnnotations, RestoredLabels, Matches, StableSelector;
    if s.relocating && !w.vgr.deleting && k in s.group {
      RestoredLabelsMatch(w.vgr, tmp.labels);
    }
  }

  lemma PointingBackIsLegal(s: Setting, w: World, k: Key, tmp: PVC, pv: PV)
    requires k.name.App? && k in w.pvcs && w.pvcs[k].Held() && GroupWellFormed(s.group, w.vgr.ns)
    requires !w.vgr.deleting ==> Known(s, w.vgr.selector, TmpOf(k), tmp)
    ensures Legal(s, w, UpdatePV(tmp.volumeName, pv.(claimRef := Some(k))))
  {
  }

  lemma HandedBackIsDeletable(s: Setting, w: World, v: World, k: Key, tmp: PVC)
    requires SameGroup(w.vgr, v.vgr) && k in v.pvcs && v.pvcs[k].Held() && k.name.App?
    requires GroupWellFormed(s.group, w.vgr.ns)
    requires !w.vgr.deleting ==> Known(s, w.vgr.selector, TmpOf(k), tmp)
    requires tmp.volumeName in v.pvs && v.pvs[tmp.volumeName].claimRef == Some(k)
    ensures Legal(s, v, DeletePVC(TmpOf(k)))
  {
  }

  lemma SelectorIsStable(s: Setting, w: World)
    requires Inv(s, w)
    ensures GroupWellFormed(s.group, w.vgr.ns)
    ensures s.relocating && !w.vgr.deleting ==> StableSelector(w.vgr)
  {
    hide Claims, Exclusive, Guarded, Lossless, Frozen, StampsAreFinal, KeptUntilDone, AppPods, Relocation, StoreWellFormed, Selected;
  }

  lemma PointingKeepsOthersReferred(s: Setting, w: World, v: World, k: Key, tmp: PVC, pv: PV)
    requires ReferredExcept(s, w, k) && SameGroup(w.vgr, v.vgr) && v.pvcs.Keys <= w.pvcs.Keys
    requires !w.vgr.deleting ==> Known(s, w.vgr.selector, TmpOf(k), tmp)
    requires k.name.App? && GroupWellFormed(s.group, w.vgr.ns)
    requires v.pvs == w.pvs[tmp.volumeName := pv.(claimRef := Some(k))]
    ensures ReferredExcept(s, v, k)
  {
    if s.reliable && s.plain && !v.vgr.deleting {
      forall j | j in s.group && j != k
        ensures ReferredAt(s.group[j], v.pvcs, v.pvs, j)
      {
        assert ReferredAt(s.group[j], w.pvcs, w.pvs, j);
      }
    }
  }

  lemma StandInStays(s: Setting, w: World, v: ClaimMap, c: Key)
    requires Inv(s, w) && Kept(w.pvcs, v) && Standing(w.pvcs, c) && c.name.Tmp?
    ensures Standing(v, c) && SameClaim(w.pvcs[c], v[c])
  {
    hide Claims, Relocating, Exclusive, Guarded;
    assert w.pvcs[c].Held();
  }

  /** A stand-in that is not being deleted is not by the environment either; plain ones never are. */
  lemma StandInDoesNotGo(s: Setting, w: World, v: ClaimMap, c: Key)
    requires Inv(s, w) && Kept(w.pvcs, v) && v.Keys <= w.pvcs.Keys && c.name.Tmp?
    ensures !Going(w.pvcs, c) ==> !Going(v, c)
    ensures s.plain ==> !Going(w.pvcs, c)
  {
    if Standing(w.pvcs, c) {
      StandInStays(s, w, v, c);
    }
    hide Claims, Relocating, Exclusive, Guarded, Kept;
  }

  lemma UnreliableIsReferred(s: Setting, w: World)
    requires !s.reliable
    ensures Referred(s, w)
  {
  }

  lemma ReferredExceptFollows(s: Setting, w: World, k: Key)
    requires !s.reliable || Referred(s, w)
    ensures ReferredExcept(s, w, k)
  {
  }

  lemma ReferredStaysAcross(s: Setting, w: World, v: World, k: Key)
    requires Referred(s, w) && Steady(s, w, v) && v.pvs == w.pvs
    requires k.name.App? && v.pvcs.Keys <= w.pvcs.Keys + {k}
    ensures Referred(s, v)
  {
    hide SameSources, SameDestinations, NoNewPods;
    ReferredStays(s, w, v, k);
  }

  lemma ReferredAgain(s: Setting, w: World, v: World, k: Key)
    requires ReferredExcept(s, w, k) && SameGroup(w.vgr, v.vgr) && v.pvs == w.pvs
    requires v.pvcs.Keys <= w.pvcs.Keys && (s.plain ==> TmpOf(k) !in v.pvcs)
    ensures Referred(s, v)
  {
    assert s.reliable && s.plain && !v.vgr.deleting ==>
      forall j :: j in s.group && j != k ==> ReferredAt(s.group[j], w.pvcs, w.pvs, j);
  }

  /** The operator never puts its finalizer on a stand-in. */
  lemma StandInIsUnprotected(s: Setting, w: World, k: Key)
    requires Inv(s, w)
    ensures TmpOf(k) in w.pvcs ==> Protection !in w.pvcs[TmpOf(k)].finalizers
    ensures Unprotected(w, TmpOf(k)) == w && Unprotected(w.(pvcs := RequestDeletion(w.pvcs, TmpOf(k))), TmpOf(k)) == w.(pvcs := RequestDeletion(w.pvcs, TmpOf(k)))
  {
    hide Claims, Exclusive, Guarded, Relocating, PlainStandIns;
  }

  lemma OthersStayHeld(w: ClaimMap, v: ClaimMap, k: Key)
    requires k in w && w[k].Held() && k.name.App?
    requires OthersKept(w, v, TmpOf(k))
    ensures k in v && v[k].Held()
  {
  }

  lemma KnownAcross(s: Setting, w: World, v: World, k: Key, p: PVC)
    requires Steady(s, w, v) && (!w.vgr.deleting ==> Known(s, w.vgr.selector, k, p))
    ensures !v.vgr.deleting ==> Known(s, v.vgr.selector, k, p)
  {
    hide Known, SameSources, SameDestinations, NoNewPods;
  }

  lemma StandInIsReleasable(s: Setting, w: World, k: Key)
    requires Inv(s, w)
    ensures Releasable(s, w, TmpOf(k))
  {
    hide Claims, Exclusive, Guarded, Relocating, StoreWellFormed;
  }

  lemma StandInIsReferred(s: Setting, w: World, v: World, k: Key, main: PVC)
    requires ReferredExcept(s, w, k) && SameGroup(w.vgr, v.vgr) && v.pvcs.Keys <= w.pvcs.Keys
    requires !w.vgr.deleting ==> Known(s, w.vgr.selector, k, main)
    requires k.name.App? && GroupWellFormed(s.group, w.vgr.ns)
    requires main.volumeName in v.pvs && v.pvs[main.volumeName].claimRef == Some(TmpOf(k))
    requires v.pvs == w.pvs || (main.volumeName in w.pvs && v.pvs == w.pvs[main.volumeName := v.pvs[main.volumeName]])
    ensures Referred(s, v) && ReleasableVolume(s, v, k)
  {
    if s.reliable && s.plain && !v.vgr.deleting {
      forall j | j in s.group
        ensures ReferredAt(s.group[j], v.pvcs, v.pvs, j)
      {
        assert j != k ==> ReferredAt(s.group[j], w.pvcs, w.pvs, j);
      }
    }
  }

  /** The volume of group claim `k` refers to the stand-in. */
  ghost predicate ReleasableVolume(s: Setting, w: World, k: Key) {
    s.reliable && s.plain && !w.vgr.deleting && k in s.group ==>
      s.group[k] in w.pvs && w.pvs[s.group[k]].claimRef == Some(TmpOf(k))
  }

  lemma KnownAfterRead(s: Setting, w: World, v: World, k: Key)
    requires Inv(s, w) && k in w.pvcs && SameGroup(w.vgr, v.vgr)
    ensures !v.vgr.deleting ==> Known(s, v.vgr.selector, k, w.pvcs[k])
    ensures GroupWellFormed(s.group, v.vgr.ns)
  {
    hide Known, Claims, Relocating, Exclusive, Guarded;
    if !w.vgr.deleting {
      ReadClaimIsKnown(s, w, k);
    }
  }

  lemma OthersKeptIsTransitiveForAll(u: ClaimMap, v: ClaimMap, w: ClaimMap, k: Key)
    requires forall j :: k == j || k == TmpOf(j) ==> OthersKept(u, v, j) && OthersKept(v, w, j)
    ensures forall j :: k == j || k == TmpOf(j) ==> OthersKept(u, w, j)
  {
    forall j | k == j || k == TmpOf(j)
      ensures OthersKept(u, w, j)
    {
      hide OthersKept;
      OthersKeptIsTransitive(u, v, w, j);
    }
  }

  lemma ReleaseIsLegal(s: Setting, w: World, k: Key)
    requires Inv(s, w) && Releasable(s, w, k) && k in w.pvcs
    ensures var p := w.pvcs[k]; Legal(s, w, UpdatePVC(k, p.(finalizers := p.finalizers - {Protection})))
  {
    hide Exclusive, Guarded, Claims, Lossless, Frozen, StampsAreFinal, KeptUntilDone, AppPods, Relocation, Matches;
  }

  lemma DestinationKeepsAddress(was: Option<RD>, owner: VGR, k: Key)
    ensures var rd := Destination(was, owner, k);
      rd.address == (if was.Some? then was.value.address else None) && OwnedBy(owner.name, rd.labels) && Writes(rd, k, owner)
  {
  }

  lemma FoundAddress(w: World, k: Key)
    ensures Addressable(w, k) <==> Found(w.rds, k).Some? && Found(w.rds, k).value.address.Some?
  {
  }

  /** The cluster after the labels of claim `main` were handed to its stand-in `tmp`. */
  function Relabelled(w: World, k: Key, tmp: PVC, main: PVC): World {
    w.(pvcs := w.pvcs[TmpOf(k) := tmp.(labels := main.labels)])
  }

  /** The cluster after claim `main` was stripped of all finalizers. */
  function Stripped(w: World, k: Key, main: PVC): World {
    w.(pvcs := StoreClaim(w.pvcs, k, main.(finalizers := {})))
  }

  /** The writes that let a claim go, one by one. */
  lemma LetGoWrites(w: World, k: Key, tmp: PVC, main: PVC)
    requires k in w.pvcs && TmpOf(k) in w.pvcs && w.pvcs[k] == main && w.pvcs[TmpOf(k)] == tmp
    ensures var v := Relabelled(w, k, tmp, main);
      && k in v.pvcs && v.pvcs[k] == main
      && LetGoAfter(w, k, 0) == w && LetGoAfter(w, k, 1) == v
      && LetGoAfter(w, k, 2) == if main.finalizers == {} then v else Stripped(v, k, main)
  {
    hide StoreClaim;
    assert TmpOf(k) != k;
  }

  /** The destination of claim `k` was reconciled, with result `r`, without interference or faults. */
  ghost predicate Received(w: World, v: World, owner: VGR, k: Key, secret: string, r: Result<Option<RD>>) {
    && v == AsDestination(w, owner, k, secret)
    && (r.Success? ==> (r.value.Some? <==> Receivable(w, k, secret) && Addressable(w, k)))
    && (Receivable(w, k, secret) ==> r.Success?)
    && (k in w.pvcs && (k.ns, secret) in w.secrets ==> r.Success?)
  }

  lemma NotReceived(w: World, owner: VGR, k: Key, secret: string, r: Result<Option<RD>>)
    requires k.name.App? && !Going(w.pvcs, k)
    requires if r.Success? then r.value.None? && k in w.pvcs && Temporary in w.pvcs[k].annotations
             else k !in w.pvcs || (k.ns, secret) !in w.secrets
    ensures Received(w, w, owner, k, secret, r)
  {
    hide HandOffAfter, Destination, Protected, Found, Addressable;
  }

  lemma ReceivedNow(w: World, v: World, owner: VGR, k: Key, secret: string, rd: RD)
    requires k.name.App? && !Going(w.pvcs, k)
    requires k in w.pvcs && Temporary !in w.pvcs[k].annotations && (k.ns, secret) in w.secrets
    requires rd == Destination(Found(w.rds, k), owner, k)
    requires v == w.(rss := w.rss - {k}, rds := w.rds[k := rd], pvcs := Protected(w.pvcs, k))
    ensures Received(w, v, owner, k, secret, Success(if rd.address.Some? then Some(rd) else None))
  {
    FoundAddress(w, k);
    DestinationKeepsAddress(Found(w.rds, k), owner, k);
    hide HandOffAfter, Destination, Protected, Found, Addressable;
  }

  lemma AddressStays(s: Setting, w: World, v: World, k: Key)
    requires Demoting(s, w, v) && k in w.rds
    ensures k in v.rds && (w.rds[k].address.Some? ==> Addressable(v, k)) && (Writes(w.rds[k], k, w.vgr) ==> Writes(v.rds[k], k, v.vgr))
  {
  }

  lemma ProtectionIsLegal(s: Setting, w: World, k: Key)
    requires Inv(s, w) && k in w.pvcs && k.name.App? && !w.pvcs[k].deleting
    ensures Legal(s, w, UpdatePVC(k, WithFinalizer(w.pvcs[k])))
  {
    hide Exclusive, Guarded, Claims, Lossless, Frozen, StampsAreFinal, KeptUntilDone, AppPods, Relocation, Matches;
  }

  lemma ReferredAfterDemoting(s: Setting, w: World, v: World)
    requires Referred(s, w) && Demoting(s, w, v) && v.pvs == w.pvs && v.pvcs.Keys <= w.pvcs.Keys
    ensures Referred(s, v)
  {
    ReferredStays(s, w, v, Key("", App("")));
  }

  lemma GateAcross(s: Setting, w: World, v: World)
    requires Inv(s, w) && GateOpen(s, w) && Demoting(s, w, v)
    ensures GateOpen(s, v)
    ensures v.vgr.name == w.vgr.name && v.vgr.ns == w.vgr.ns && v.vgr.finalizer == w.vgr.finalizer
  {
    hide Inv, GateOpen, Shrunk;
    GateStaysOpen(s, w, v);
  }

  lemma DestinationIsLegal(s: Setting, w: World, k: Key, rd: RD)
    requires k !in w.rss && GateOpen(s, w) && w.vgr.finalizer
    ensures Legal(s, w, PutRD(k, rd))
  {
  }

  lemma NoSourceAgain(s: Setting, w: World, v: World, k: Key)
    requires Demoting(s, w, v) && k !in w.rss
    ensures k !in v.rss
  {
  }

  /** The source was replaced by a destination, then the claim protected. */
  lemma DemotionIsComplete(s: Setting, v: World, w: World, k: Key)
    requires Receiving(v, k) && Addressable(v, k) && Demoting(s, v, w)
    requires k.name.App? && k in w.pvcs && Protection in w.pvcs[k].finalizers
    ensures Demoted(w, k)
  {
  }

  lemma LabelledIsOwned(labels: Labels, owner: VGR)
    ensures LabelledFor(owner, Labelled(labels, owner))
  {
  }

  lemma LabelledClaimIsSame(p: PVC, owner: VGR)
    requires Labelled(p.labels, owner) == p.labels
    ensures p.(labels := Labelled(p.labels, owner)) == p
    ensures LabelledFor(owner, p.labels)
  {
    LabelledIsOwned(p.labels, owner);
  }

  lemma LabellingIsLegal(s: Setting, w: World, k: Key, labels: Labels)
    requires Inv(s, w) && !s.relocating && k in w.pvcs && k.name.App?
    ensures var p := w.pvcs[k].(labels := labels);
      Legal(s, w, UpdatePVC(k, p)) && StoreClaim(w.pvcs, k, p) == w.pvcs[k := p]
  {
    hide Exclusive, Guarded, Claims, Relocating;
  }

  /** A reconcile as primary writes only source `k`, deletes none, and leaves `paused` alone. */
  ghost predicate SourceWritten(w: SourceMap, v: SourceMap, k: Key) {
    && OtherSources(w, v, k) && w.Keys <= v.Keys && v.Keys <= w.Keys + {k}
    && (k in w ==> v[k].paused == w[k].paused)
  }

  /** Source `k` reads the claim of its name for the VGR, on a schedule that keeps the interval. */
  ghost predicate Replicating(rss: SourceMap, k: Key, vgr: VGR, interval: string) {
    k in rss && Reads(rss[k], k, vgr, interval)
  }

  lemma SourcesAreNotWritten(w: SourceMap, v: SourceMap, k: Key)
    requires SameSources(w, v)
    ensures SourceWritten(w, v, k)
  {
  }

  lemma SourceKeepsPause(was: Option<RS>, owner: VGR, k: Key, cron: string, interval: string)
    requires Schedule.Keeps(interval, cron)
    ensures var rs := Source(was, owner, k, cron);
      && Reads(rs, k, owner, interval) && OwnedBy(owner.name, rs.labels)
      && rs.paused == (was.Some? && was.value.paused)
  {
    SourceMeans(was, owner, k, cron, interval);
    hide Source, Schedule.Keeps;
  }

  lemma SourceIsRead(w: SourceMap, v: SourceMap, k: Key, rs: RS, owner: VGR, interval: string)
    requires SameSources(w, v) && k in w && w[k] == rs && Reads(rs, k, owner, interval)
    ensures Replicating(v, k, owner, interval)
  {
    hide Schedule.Keeps;
  }

  lemma SourceIsWritten(u: SourceMap, v: SourceMap, w: SourceMap, k: Key, rs: RS, owner: VGR, interval: string)
    requires SameSources(u, v) && OtherSources(v, w, k)
    requires SameSources(v, w) || (k in w && SameSource(Settled(rs), w[k]) && w.Keys == v.Keys + {k})
    requires k in v ==> v[k].paused == rs.paused
    ensures SourceWritten(u, w, k)
    ensures Reads(rs, k, owner, interval) && k in w && SameSource(Settled(rs), w[k]) ==> Replicating(w, k, owner, interval)
  {
    hide Schedule.Keeps;
  }

  lemma SourceWrittenIsTransitive(u: SourceMap, v: SourceMap, w: SourceMap, k: Key)
    requires SourceWritten(u, v, k) && SourceWritten(v, w, k)
    ensures SourceWritten(u, w, k)
  {
  }

  lemma NothingIsWritten(w: World, k: Key)
    ensures SourceWritten(w.rss, w.rss, k) && OthersKept(w.pvcs, w.pvcs, k)
  {
  }

  /** A write to a claim leaves sources and destinations as they are. */
  lemma LabelsLeaveTheRest(s: Setting, w: World, v: World, k: Key)
    requires Steady(s, w, v)
    ensures SameGroup(w.vgr, v.vgr) && v.rds.Keys == w.rds.Keys && SourceWritten(w.rss, v.rss, k)
    ensures forall j, vgr, interval :: Replicating(w.rss, j, vgr, interval) ==> Replicating(v.rss, j, vgr, interval)
  {
    hide Schedule.Keeps;
    SourcesAreNotWritten(w.rss, v.rss, k);
  }

  lemma LabelsDoNotTerminate(pvcs: ClaimMap, owner: VGR, k: Key)
    ensures Going(WithOwner(pvcs, owner, k), k) == Going(pvcs, k)
  {
  }

  lemma PointedVolume(w: World, name: string, pv: PV, k: Key)
    requires name in w.pvs && w.pvs[name] == pv
    ensures w.(pvs := w.pvs[name := pv.(claimRef := Some(k))]) == Pointed(w, name, k)
    ensures pv.claimRef == Some(k) ==> Pointed(w, name, k) == w
  {
    assert pv.claimRef == Some(k) ==> w.pvs[name := pv.(claimRef := Some(k))] == w.pvs;
  }
}
