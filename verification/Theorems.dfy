/**
 What holds over whole runs. A run is any sequence of environment events and legal writes, so every run of the
 operator is one, whatever fails, whatever is retried, and wherever a reconcile is cut off.
 */
module Theorems {

  import opened Names
  import opened Objects
  import opened System
  import opened Protocol
  import opened Safety
  import opened Api
  import opened Wrappers

  // ---------- where runs start ----------

  /** A group in normal operation: every claim is bound, held and not yet stamped, and nothing has been handed off. */
  ghost predicate NormalOperation(s: Setting, w: World) {
    && GroupWellFormed(s.group, w.vgr.ns) && w.vgr.finalizer && !w.vgr.deleting && w.vgr.status.state != SecondaryState
    && (forall c :: c in w.pvcs ==> c.name.App? && (w.pvcs[c].deleting ==> w.pvcs[c].finalizers != {}))
    && (forall k :: k in s.group ==>
          && k in w.pvcs && w.pvcs[k].Held() && w.pvcs[k].volumeName == s.group[k]
          && s.group[k] in w.pvs && w.pvs[s.group[k]].claimRef == Some(k)
          && k in w.rss)
    && (forall c, k :: c in w.pvcs && k in s.group && w.pvcs[c].volumeName == s.group[k] ==> c == k)
    && (forall k :: k in w.rss ==> w.rss[k].trigger.Schedule? && !w.rss[k].Stamped())
    && w.rds == map[]
    && AppPods(w.pods)
    && (s.relocating ==>
          && Relocation(w.vgr, w.vrgs) && StableSelector(w.vgr)
          && forall k :: k in s.group ==> Matches(w.vgr.selector.value, w.pvcs[k].labels))
  }

  lemma ClaimsInNormalOperation(s: Setting, w: World)
    requires NormalOperation(s, w)
    ensures StoreWellFormed(w.pvcs) && PlainStandIns(w.pvcs) && Claims(s, w.pvcs, w.pvs) && Referred(s, w)
    ensures forall k :: k in s.group ==> PreservedAt(w.pvcs, k) && AnchoredAt(s.group[k], w.pvcs, w.pvs, k)
  {
    hide Matches, Relocation, StableSelector, AppPods;
    forall k | k in s.group
      ensures NamedAt(s.group[k], w.pvcs, k) && AnchoredAt(s.group[k], w.pvcs, w.pvs, k) && ReferredAt(s.group[k], w.pvcs, w.pvs, k)
    {
    }
  }

  lemma SourcesInNormalOperation(s: Setting, w: World)
    requires NormalOperation(s, w)
    ensures StampsAreFinal(w.rss, w.vgr.ns) && Frozen(s.group, w.rss, w.pods) && KeptUntilDone(s.group, w.pvcs, w.rss)
    ensures Lossless(s.group, w.rss, w.pods, w.content, w.remote)
  {
    hide Matches, Relocation, StableSelector, AppPods, Quiet, GroupWellFormed;
  }

  lemma NormalOperationIsGood(s: Setting, w: World)
    requires NormalOperation(s, w)
    ensures Inv(s, w) && Referred(s, w)
    ensures forall k :: k in s.group ==> PreservedAt(w.pvcs, k) && AnchoredAt(s.group[k], w.pvcs, w.pvs, k)
  {
    ClaimsInNormalOperation(s, w);
    SourcesInNormalOperation(s, w);
    hide Claims, StoreWellFormed, Lossless, Frozen, StampsAreFinal, KeptUntilDone, Relocation, StableSelector, AppPods, Matches, GroupWellFormed, Referred, PlainStandIns, PreservedAt, AnchoredAt;
  }

  /** There are such groups, under relocation too. */
  lemma NormalOperationExists() returns (s: Setting, w: World)
    ensures NormalOperation(s, w) && s.relocating && s.reliable && s.plain && s.group != map[]
    ensures forall k :: k in s.group ==> Protection in w.pvcs[k].finalizers
  {
    var k, owner := Key("ns", App("data")), Key("ns", App("vrg"));
    var pvc := PVC(map[Owner := "vgr"], map[], {Protection}, false, ClaimSpec([], 1, None, None), "pv", Bound);
    var vgr := VGR("ns", "vgr", Some(owner), Some(map[Owner := "vgr"]), Secondary, false, true, Status(PrimaryState, [], None));
    s := Setting(map[k := "pv"], true, true, false, true);
    w := World(
      map[k := pvc], map["pv" := PV(Some(k), Retain)],
      map[k := RS(map[], k.name, false, Trigger.Schedule("*/5 * * * *"), None, None)], map[],
      map[], {}, {}, map[owner := VRG(Relocate, Secondary)], vgr, map[], map[]);
  }

  /** Whatever a cluster has gone through is a legal run, so the theorems below are about its every state. */
  lemma EveryStateIsGood(c: Cluster, n: nat)
    requires c.Valid() && n <= |c.trace|
    ensures LegalRun(c.s, c.start, c.trace[..n]) && Inv(c.s, Run(c.s, c.start, c.trace[..n]))
  {
    hide Inv, LegalRun, Run;
    RunsAreSafe(c.s, c.start, c.trace, n);
  }

  /** The state after the first `n` steps. */
  ghost function At(s: Setting, start: World, trace: seq<Step>, n: nat): World
    requires n <= |trace|
  {
    Run(s, start, trace[..n])
  }

  ghost predicate GoodRun(s: Setting, start: World, trace: seq<Step>) {
    Inv(s, start) && LegalRun(s, start, trace)
  }

  lemma StateOfRun(s: Setting, start: World, trace: seq<Step>, n: nat)
    requires GoodRun(s, start, trace) && n <= |trace|
    ensures Inv(s, At(s, start, trace, n))
    ensures n < |trace| ==>
      Legal(s, At(s, start, trace, n), trace[n]) && At(s, start, trace, n + 1) == Apply(s, At(s, start, trace, n), trace[n])
  {
    hide Inv, Legal, Apply;
    RunsAreSafe(s, start, trace, n);
    if n < |trace| {
      RunsAreSafe(s, start, trace, n + 1);
      assert trace[..n + 1][..n] == trace[..n];
    }
  }

  // ---------- volumes ----------

  /** In every state a group claim and its stand-in name the claim's volume, whichever of them exist. */
  lemma VolumesAreNamed(s: Setting, start: World, trace: seq<Step>, n: nat, k: Key)
    requires GoodRun(s, start, trace) && n <= |trace| && k in s.group
    ensures var w := At(s, start, trace, n); !w.vgr.deleting ==>
      && (k in w.pvcs ==> w.pvcs[k].volumeName == s.group[k])
      && (TmpOf(k) in w.pvcs ==> w.pvcs[TmpOf(k)].volumeName == s.group[k])
  {
    StateOfRun(s, start, trace, n);
    hide At, GoodRun, Anchored, Relocating, Exclusive, Guarded, OwnVolumes;
    var w := At(s, start, trace, n);
    assert !w.vgr.deleting ==> NamedAt(s.group[k], w.pvcs, k);
  }

  /** No claim ever names a volume of another group claim. */
  lemma VolumesAreNotShared(s: Setting, start: World, trace: seq<Step>, n: nat, c: Key, k: Key)
    requires GoodRun(s, start, trace) && n <= |trace| && k in s.group
    ensures var w := At(s, start, trace, n);
      !w.vgr.deleting && c in w.pvcs && w.pvcs[c].volumeName == s.group[k] ==> c == k || c == TmpOf(k)
  {
    StateOfRun(s, start, trace, n);
    hide At, GoodRun, Anchored, Named, Relocating, Exclusive, Guarded;
  }

  /** Without faults, and when stand-ins are plain, every volume refers to a claim of its own group that is there to stay. */
  lemma NoClaimDangles(s: Setting, start: World, trace: seq<Step>, n: nat, k: Key)
    requires GoodRun(s, start, trace) && n <= |trace| && k in s.group && s.reliable && s.plain
    ensures var w := At(s, start, trace, n); !w.vgr.deleting ==>
      && s.group[k] in w.pvs && w.pvs[s.group[k]].claimRef.Some?
      && w.pvs[s.group[k]].claimRef.value in {k, TmpOf(k)} && w.pvs[s.group[k]].claimRef.value in w.pvcs
  {
    StateOfRun(s, start, trace, n);
    hide At, GoodRun, Named, OwnVolumes, Relocating, Exclusive, Guarded;
    var w := At(s, start, trace, n);
    assert !w.vgr.deleting ==> AnchoredAt(s.group[k], w.pvcs, w.pvs, k);
  }

  // ---------- relocation ----------

  lemma EventKeepsDeletion(s: Setting, w: World, e: Event)
    ensures w.vgr.deleting ==> Occur(s, w, e).vgr.deleting
  {
    assert e.SourceSyncs? ==> Sync(w, e.k, e.time).vgr == w.vgr;
    assert e.PodWrites? ==> PodWrite(w, e.k, e.claim).vgr == w.vgr;
    hide Sync, PodWrite, StoreClaim, Changed, Started, Addressed;
  }

  lemma DeletionIsFinal(s: Setting, w: World, step: Step)
    ensures w.vgr.deleting ==> Apply(s, w, step).vgr.deleting
  {
    hide StoreClaim, RequestDeletion, Settled, Occur;
    if step.Environment? {
      EventKeepsDeletion(s, w, step.event);
    }
  }

  lemma SourcesUntouched(s: Setting, w: World, step: Step)
    requires !step.Environment? && !step.PutRS? && !step.DeleteRS?
    ensures Apply(s, w, step).rss == w.rss
  {
    hide StoreClaim, RequestDeletion;
  }

  lemma StampedStays(w: SourceMap, v: SourceMap, ns: string, k: Key)
    requires SameSources(w, v) && StampsAreFinal(w, ns) && k.ns == ns
    ensures Done(w, k) ==> Done(v, k)
  {
  }

  lemma RelocationParts(s: Setting, w: World)
    requires Inv(s, w) && s.relocating && !w.vgr.deleting
    ensures StampsAreFinal(w.rss, w.vgr.ns) && Lossless(s.group, w.rss, w.pods, w.content, w.remote)
    ensures GroupWellFormed(s.group, w.vgr.ns) && (w.vgr.status.state == SecondaryState ==> GroupDone(s.group, w.rss))
  {
    hide Claims, Exclusive, Guarded, StampsAreFinal, Lossless, Frozen, KeptUntilDone, Selected, AppPods, Relocation, StoreWellFormed, GroupWellFormed;
  }

  lemma EventKeepsDone(s: Setting, w: World, e: Event, k: Key)
    requires Inv(s, w) && StampsAreFinal(w.rss, w.vgr.ns) && k.ns == w.vgr.ns && Done(w.rss, k)
    ensures Done(Occur(s, w, e).rss, k)
  {
    hide Inv, Occur, Done, StampsAreFinal, SameSources, SameClaims, SameDestinations;
    EventKeeps(s, w, e);
    StampedStays(w.rss, Occur(s, w, e).rss, w.vgr.ns, k);
  }

  lemma WriteKeepsDone(s: Setting, w: World, r: Key, rs: RS, k: Key)
    requires LegalSource(s, w, r, rs) && s.relocating && !w.vgr.deleting
    requires StampsAreFinal(w.rss, w.vgr.ns) && k.ns == w.vgr.ns && Done(w.rss, k)
    ensures Done(w.rss[r := Settled(rs)], k)
  {
    hide Quiet;
  }

  /** In a relocation no step unmakes a final sync: a source of the namespace that is gone or stamped stays so. */
  lemma StepKeepsDone(s: Setting, w: World, step: Step, k: Key)
    requires Inv(s, w) && Legal(s, w, step) && s.relocating && k.ns == w.vgr.ns && Done(w.rss, k)
    ensures !Apply(s, w, step).vgr.deleting ==> Done(Apply(s, w, step).rss, k)
  {
    hide Inv, StampsAreFinal, Lossless, LegalSource, Settled, Occur, GroupDone, GroupWellFormed;
    DeletionIsFinal(s, w, step);
    if !w.vgr.deleting {
      RelocationParts(s, w);
      if step.Environment? {
        EventKeepsDone(s, w, step.event, k);
      } else if step.PutRS? {
        WriteKeepsDone(s, w, step.k, step.rs, k);
      } else if !step.DeleteRS? {
        SourcesUntouched(s, w, step);
        hide Apply, Legal;
      }
    }
  }

  /** So a final sync that is over at one point of a relocation is over ever after. */
  lemma {:induction false} FinalSyncStaysDone(s: Setting, start: World, trace: seq<Step>, m: nat, n: nat, k: Key)
    requires GoodRun(s, start, trace) && m <= n <= |trace| && s.relocating
    requires k.ns == At(s, start, trace, m).vgr.ns && Done(At(s, start, trace, m).rss, k)
    ensures !At(s, start, trace, n).vgr.deleting ==> Done(At(s, start, trace, n).rss, k)
    ensures At(s, start, trace, n).vgr.ns == At(s, start, trace, m).vgr.ns
    ensures At(s, start, trace, m).vgr.deleting ==> At(s, start, trace, n).vgr.deleting
    decreases n
  {
    hide At, GoodRun, Done, Apply, Legal, Inv;
    if m < n {
      FinalSyncStaysDone(s, start, trace, m, n - 1, k);
      StateOfRun(s, start, trace, n - 1);
      var w := At(s, start, trace, n - 1);
      DeletionIsFinal(s, w, trace[n - 1]);
      NamespaceStays(s, w, trace[n - 1]);
      if !w.vgr.deleting {
        StepKeepsDone(s, w, trace[n - 1], k);
      }
    }
  }

  /** The step restores group claim `k` from its stand-in, or deletes its source. */
  predicate GivesUp(step: Step, k: Key) {
    (step.CreatePVC? && step.k == k) || (step.DeleteRS? && step.k == k)
  }

  lemma GivingUpIsDone(s: Setting, w: World, step: Step, k: Key)
    requires Inv(s, w) && Legal(s, w, step) && s.relocating && !w.vgr.deleting && k in s.group && GivesUp(step, k)
    ensures Done(w.rss, k) && k.ns == w.vgr.ns
  {
    RelocationParts(s, w);
    hide Inv, StampsAreFinal, Lossless;
  }

  /**
   Relocation loses nothing. When a group claim is restored or its source is deleted, the remote copy holds every
   write that the volume has seen, and from then on nothing writes the volume any more.
   */
  lemma RelocationLosesNothing(s: Setting, start: World, trace: seq<Step>, m: nat, n: nat, k: Key)
    requires GoodRun(s, start, trace) && m < |trace| && m <= n <= |trace| && s.relocating && k in s.group
    requires GivesUp(trace[m], k) && !At(s, start, trace, m).vgr.deleting
    ensures var w := At(s, start, trace, n); !w.vgr.deleting ==>
      Version(w.remote, k) == Version(w.content, s.group[k]) && Quiet(w.pods, k)
  {
    hide At, GoodRun, Done, Apply, Legal, Inv, Quiet;
    StateOfRun(s, start, trace, m);
    GivingUpIsDone(s, At(s, start, trace, m), trace[m], k);
    FinalSyncStaysDone(s, start, trace, m, n, k);
    StateOfRun(s, start, trace, n);
    if !At(s, start, trace, n).vgr.deleting {
      RelocationParts(s, At(s, start, trace, n));
      assert Safe(s.group[k], At(s, start, trace, n).pods, At(s, start, trace, n).content, At(s, start, trace, n).remote, k);
    }
  }

  // ---------- the gate ----------

  /** The step deletes a source or writes a destination. */
  predicate TurnsAround(step: Step) {
    step.DeleteRS? || step.PutRD?
  }

  /**
   While the relocation is not recorded, replication is turned around only after every source of the namespace has
   recorded the final sync; and from the first such step on, every source that is left has.
   */
  lemma GateHolds(s: Setting, start: World, trace: seq<Step>, m: nat, n: nat)
    requires GoodRun(s, start, trace) && m < |trace| && m <= n <= |trace| && s.relocating && TurnsAround(trace[m])
    requires var w := At(s, start, trace, m); !w.vgr.deleting && w.vgr.status.state != SecondaryState
    ensures AllStamped(At(s, start, trace, m).rss, At(s, start, trace, m).vgr.ns)
    ensures var v := At(s, start, trace, n); !v.vgr.deleting ==> AllStamped(v.rss, v.vgr.ns)
  {
    hide At, GoodRun, Apply, Inv;
    StateOfRun(s, start, trace, m);
    var w, v := At(s, start, trace, m), At(s, start, trace, n);
    assert AllStamped(w.rss, w.vgr.ns);
    FinalSyncStaysDone(s, start, trace, m, n, Key(w.vgr.ns, App("")));
    forall r | !v.vgr.deleting && r in v.rss && r.ns == v.vgr.ns
      ensures v.rss[r].Stamped()
    {
      FinalSyncStaysDone(s, start, trace, m, n, r);
    }
  }

  // ---------- exclusion, pauses, the finalizer ----------

  /** No claim is ever a source and a destination at once. */
  lemma SourceAndDestinationExclude(s: Setting, start: World, trace: seq<Step>, n: nat, k: Key)
    requires GoodRun(s, start, trace) && n <= |trace|
    ensures !(k in At(s, start, trace, n).rss && k in At(s, start, trace, n).rds)
  {
    StateOfRun(s, start, trace, n);
    hide At, GoodRun, Claims, Relocating, Guarded;
  }

  lemma EventsDoNotUnpause(s: Setting, w: World, e: Event, k: Key)
    requires Inv(s, w) && k in w.rss && w.rss[k].paused
    ensures k in Occur(s, w, e).rss && Occur(s, w, e).rss[k].paused
  {
    hide Inv, Occur;
    EventKeeps(s, w, e);
  }

  lemma WritesDoNotUnpause(s: Setting, w: World, step: Step, k: Key)
    requires Legal(s, w, step) && step.PutRS? && k in w.rss && w.rss[k].paused && !Apply(s, w, step).rss[k].paused
    ensures step.k == k && FinalSyncWrite(s, w, k, step.rs)
  {
    hide GateOpen, Quiet;
  }

  lemma OtherStepsDoNotUnpause(s: Setting, w: World, step: Step, k: Key)
    requires Inv(s, w) && !step.PutRS? && k in w.rss && w.rss[k].paused
    ensures k in Apply(s, w, step).rss ==> Apply(s, w, step).rss[k].paused
  {
    hide Inv, Occur;
    if step.Environment? {
      EventsDoNotUnpause(s, w, step.event, k);
    } else if !step.DeleteRS? {
      SourcesUntouched(s, w, step);
      hide Apply;
    }
  }

  /**
   A paused source is unpaused by one kind of write only: the one that turns it to the stand-in and triggers the
   final sync. Under relocation no application pod mounts the claim then.
   */
  lemma OnlyTheFinalSyncUnpauses(s: Setting, start: World, trace: seq<Step>, n: nat, k: Key)
    requires GoodRun(s, start, trace) && n < |trace|
    requires k in At(s, start, trace, n).rss && At(s, start, trace, n).rss[k].paused
    requires k in At(s, start, trace, n + 1).rss && !At(s, start, trace, n + 1).rss[k].paused
    ensures trace[n].PutRS? && trace[n].k == k
    ensures trace[n].rs.sourcePVC == Tmp(k.name) && trace[n].rs.trigger == Manual(FinalSync)
    ensures s.relocating ==> Quiet(At(s, start, trace, n).pods, k)
  {
    StateOfRun(s, start, trace, n);
    hide At, GoodRun, Inv, Apply, Legal, Quiet;
    var w := At(s, start, trace, n);
    if !trace[n].PutRS? {
      OtherStepsDoNotUnpause(s, w, trace[n], k);
    } else {
      WritesDoNotUnpause(s, w, trace[n], k);
    }
  }

  /** A VGR without the operator's finalizer has no source and no destination left. */
  lemma FinalizerGuards(s: Setting, start: World, trace: seq<Step>, n: nat, k: Key)
    requires GoodRun(s, start, trace) && n <= |trace|
    ensures var w := At(s, start, trace, n);
      !w.vgr.finalizer && k.ns == w.vgr.ns ==>
        && (k in w.rss ==> !OwnedBy(w.vgr.name, w.rss[k].labels))
        && (k in w.rds ==> !OwnedBy(w.vgr.name, w.rds[k].labels))
  {
    StateOfRun(s, start, trace, n);
    hide At, GoodRun, Claims, Relocating, Exclusive;
  }

  lemma EventsKeepNamespace(s: Setting, w: World, e: Event)
    ensures Occur(s, w, e).vgr.ns == w.vgr.ns
  {
    assert e.SourceSyncs? ==> Sync(w, e.k, e.time).vgr == w.vgr;
    assert e.PodWrites? ==> PodWrite(w, e.k, e.claim).vgr == w.vgr;
    hide Sync, PodWrite, StoreClaim, Changed, Started, Addressed;
  }

  lemma NamespaceStays(s: Setting, w: World, step: Step)
    ensures Apply(s, w, step).vgr.ns == w.vgr.ns
  {
    hide StoreClaim, RequestDeletion, Settled, Occur;
    if step.Environment? {
      EventsKeepNamespace(s, w, step.event);
    }
  }
}
