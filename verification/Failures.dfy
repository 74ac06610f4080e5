/**
 Where volumes can be lost sight of, exactly: which writes give up the last claim of a volume or leave a volume
 referring to a claim that is gone, when the hand-off and the restore make such writes, and runs in which they do.
 */
module Failures {

  import opened Names
  import opened Objects
  import opened System
  import opened Protocol
  import opened Safety
  import opened Handoff
  import opened Legality
  import opened RoundTrip
  import opened Replication
  import opened Theorems
  import opened Wrappers

  // ---------- what the environment can do ----------

  /** The state after some events. */
  ghost function After(s: Setting, w: World, events: seq<Event>): World
    decreases |events|
  {
    if events == [] then w else After(s, Occur(s, w, events[0]), events[1..])
  }

  /** Claim `k` or its stand-in exists. */
  predicate Exists(pvcs: ClaimMap, k: Key) {
    k in pvcs || TmpOf(k) in pvcs
  }

  /** The volume refers to claim `k` or its stand-in, and that claim exists. */
  predicate Refers(w: World, volume: string, k: Key) {
    && volume in w.pvs && w.pvs[volume].claimRef.Some?
    && w.pvs[volume].claimRef.value in {k, TmpOf(k)} && w.pvs[volume].claimRef.value in w.pvcs
  }

  lemma EventKeepsPreserved(s: Setting, w: World, e: Event, k: Key)
    requires Inv(s, w)
    ensures PreservedAt(w.pvcs, k) ==> PreservedAt(Occur(s, w, e).pvcs, k)
    ensures forall volume :: AnchoredAt(volume, w.pvcs, w.pvs, k) ==> AnchoredAt(volume, Occur(s, w, e).pvcs, Occur(s, w, e).pvs, k)
  {
    hide Occur;
    EventKeeps(s, w, e);
    assert StoreWellFormed(w.pvcs);
    hide Inv, SameSources, SameDestinations, NoNewPods;
  }

  lemma {:induction false} EventsKeepPreserved(s: Setting, w: World, events: seq<Event>, k: Key, volume: string)
    requires Inv(s, w)
    ensures PreservedAt(w.pvcs, k) ==> Exists(After(s, w, events).pvcs, k)
    ensures AnchoredAt(volume, w.pvcs, w.pvs, k) ==> Refers(After(s, w, events), volume, k)
    decreases |events|
  {
    if events != [] {
      EventKeeps(s, w, events[0]);
      EventKeepsPreserved(s, w, events[0], k);
      hide Inv, Occur, PreservedAt, AnchoredAt;
      EventsKeepPreserved(s, Occur(s, w, events[0]), events[1..], k, volume);
    }
  }

  lemma AfterFirst(s: Setting, w: World, e: Event, rest: seq<Event>)
    ensures After(s, w, [e] + rest) == After(s, Occur(s, w, e), rest)
    ensures rest == [] ==> After(s, w, [e]) == Occur(s, w, e)
  {
    hide Occur;
    assert ([e] + rest)[1..] == rest && (rest == [] ==> [e] + rest == [e]);
  }

  lemma ReleaseState(s: Setting, w: World, c: Key, text: string)
    requires c in w.pvcs
    ensures var p := w.pvcs[c];
      Occur(s, w, FinalizerReleased(c, text)) == w.(pvcs := StoreClaim(w.pvcs, c, p.(finalizers := p.finalizers - {Foreign(text)})))
  {
    hide StoreClaim;
  }

  /** A claim that is being deleted and that the operator does not hold can go at any time. */
  lemma {:induction false} ClaimMayGo(s: Setting, w: World, c: Key) returns (events: seq<Event>)
    requires c in w.pvcs && w.pvcs[c].deleting && Protection !in w.pvcs[c].finalizers && w.pvcs[c].finalizers != {}
    ensures After(s, w, events) == w.(pvcs := w.pvcs - {c})
    decreases |w.pvcs[c].finalizers|
  {
    var p := w.pvcs[c];
    var f :| f in p.finalizers;
    var e := FinalizerReleased(c, f.text);
    var q := p.(finalizers := p.finalizers - {f});
    ReleaseState(s, w, c, f.text);
    hide Occur;
    var v := Occur(s, w, e);
    if q.finalizers == {} {
      events := [e];
      AfterFirst(s, w, e, []);
    } else {
      assert v == w.(pvcs := w.pvcs[c := q]);
      var rest := ClaimMayGo(s, v, c);
      events := [e] + rest;
      AfterFirst(s, w, e, rest);
      hide After;
      assert w.pvcs[c := q] - {c} == w.pvcs - {c};
    }
  }

  lemma {:induction false} AfterBoth(s: Setting, w: World, first: seq<Event>, second: seq<Event>)
    ensures After(s, w, first + second) == After(s, After(s, w, first), second)
    decreases |first|
  {
    hide Occur;
    if first == [] {
      assert first + second == second;
    } else {
      assert (first + second)[0] == first[0] && (first + second)[1..] == first[1..] + second;
      AfterBoth(s, Occur(s, w, first[0]), first[1..], second);
    }
  }

  /** Both claims can go when neither is there to stay. */
  lemma BothMayGo(s: Setting, w: World, k: Key) returns (events: seq<Event>)
    requires StoreWellFormed(w.pvcs) && !PreservedAt(w.pvcs, k)
    ensures !Exists(After(s, w, events).pvcs, k)
  {
    var first: seq<Event> := [];
    if k in w.pvcs {
      first := ClaimMayGo(s, w, k);
    }
    var v := After(s, w, first);
    assert v == w.(pvcs := w.pvcs - {k});
    var second: seq<Event> := [];
    if TmpOf(k) in v.pvcs {
      second := ClaimMayGo(s, v, TmpOf(k));
    }
    events := first + second;
    AfterBoth(s, w, first, second);
  }

  /** A volume's claims are there to stay exactly when no events can take both away. */
  lemma PreservedIffNoEventsLose(s: Setting, w: World, k: Key)
    requires Inv(s, w)
    ensures PreservedAt(w.pvcs, k) <==> forall events :: Exists(After(s, w, events).pvcs, k)
  {
    if PreservedAt(w.pvcs, k) {
      forall events
        ensures Exists(After(s, w, events).pvcs, k)
      {
        EventsKeepPreserved(s, w, events, k, "");
      }
    } else {
      assert StoreWellFormed(w.pvcs);
      hide Inv;
      var events := BothMayGo(s, w, k);
    }
  }

  /** A volume's reference is good for ever exactly when no events can take away the claim that it names. */
  lemma AnchoredIffNoEventsLose(s: Setting, w: World, volume: string, k: Key)
    requires Inv(s, w)
    ensures AnchoredAt(volume, w.pvcs, w.pvs, k) <==> forall events :: Refers(After(s, w, events), volume, k)
  {
    if AnchoredAt(volume, w.pvcs, w.pvs, k) {
      forall events
        ensures Refers(After(s, w, events), volume, k)
      {
        EventsKeepPreserved(s, w, events, k, volume);
      }
    } else {
      assert StoreWellFormed(w.pvcs);
      hide Inv;
      assert After(s, w, []) == w;
      if Refers(w, volume, k) {
        var c := w.pvs[volume].claimRef.value;
        var events := ClaimMayGo(s, w, c);
        assert !Refers(After(s, w, events), volume, k);
      }
    }
  }

  // ---------- which writes do it ----------

  /** The write gives up claim `k`, which the operator held, while its stand-in is missing or being deleted. */
  ghost predicate Abandons(w: World, step: Step, k: Key) {
    && step.UpdatePVC? && step.k == k && k in w.pvcs && w.pvcs[k].Held() && !step.pvc.Held()
    && !Standing(w.pvcs, TmpOf(k))
  }

  /** What a write does to claims and volumes. */
  lemma OtherWrites(s: Setting, w: World, step: Step)
    requires !step.Environment?
    ensures !step.CreatePVC? && !step.UpdatePVC? && !step.DeletePVC? ==> Apply(s, w, step).pvcs == w.pvcs
    ensures !step.UpdatePV? ==> Apply(s, w, step).pvs == w.pvs
    ensures step.UpdatePV? ==> Apply(s, w, step).pvs == w.pvs[step.name := step.pv]
  {
    hide StoreClaim, RequestDeletion, Settled;
  }

  lemma ClaimWritePreservesIff(s: Setting, w: World, step: Step, k: Key)
    requires Legal(s, w, step) && k in s.group && k.name.App? && !w.vgr.deleting && PreservedAt(w.pvcs, k)
    requires step.CreatePVC? || step.UpdatePVC? || step.DeletePVC?
    ensures PreservedAt(Apply(s, w, step).pvcs, k) <==> !Abandons(w, step, k)
  {
    hide LegalSource, LegalVolume, GateOpen, LegalStatus, NothingOwned, LegalCreate, LegalUpdate;
    match step {
      case CreatePVC(c, p) =>
      case UpdatePVC(c, p) => hide Legal;
      case DeletePVC(c) =>
    }
  }

  /** A step keeps the claims of a volume there to stay exactly when it does not abandon them. */
  lemma StepPreservesIff(s: Setting, w: World, step: Step, k: Key)
    requires Inv(s, w) && Legal(s, w, step) && k in s.group && !w.vgr.deleting && PreservedAt(w.pvcs, k)
    ensures PreservedAt(Apply(s, w, step).pvcs, k) <==> !Abandons(w, step, k)
  {
    assert GroupWellFormed(s.group, w.vgr.ns);
    hide Inv, Occur;
    if step.Environment? {
      EventKeepsPreserved(s, w, step.event, k);
    } else if step.CreatePVC? || step.UpdatePVC? || step.DeletePVC? {
      ClaimWritePreservesIff(s, w, step, k);
    } else {
      OtherWrites(s, w, step);
      hide Apply;
    }
  }

  /** Until its first abandoning write, and only until then, a run keeps the claims of a volume there to stay. */
  lemma {:induction false} ConservedIffNeverAbandoned(s: Setting, start: World, trace: seq<Step>, n: nat, k: Key)
    requires GoodRun(s, start, trace) && n <= |trace| && k in s.group && PreservedAt(start.pvcs, k)
    requires !At(s, start, trace, n).vgr.deleting
    ensures (forall m :: 0 <= m <= n ==> PreservedAt(At(s, start, trace, m).pvcs, k)) <==>
            (forall m :: 0 <= m < n ==> !Abandons(At(s, start, trace, m), trace[m], k))
  {
    hide GoodRun, Legal, Inv, Apply, PreservedAt, Abandons;
    if n == 0 {
      assert trace[..0] == [] && At(s, start, trace, 0) == start;
      hide At;
    } else {
      hide At;
      StateOfRun(s, start, trace, n - 1);
      DeletionIsFinal(s, At(s, start, trace, n - 1), trace[n - 1]);
      ConservedIffNeverAbandoned(s, start, trace, n - 1, k);
      if PreservedAt(At(s, start, trace, n - 1).pvcs, k) {
        StepPreservesIff(s, At(s, start, trace, n - 1), trace[n - 1], k);
      }
    }
  }

  /** When stand-ins are plain nothing is ever abandoned: the operator creates the stand-in first. */
  lemma PlainIsNeverAbandoned(s: Setting, w: World, step: Step, k: Key)
    requires Inv(s, w) && Legal(s, w, step) && k in s.group && !w.vgr.deleting && s.plain
    ensures !Abandons(w, step, k)
  {
    assert StoreWellFormed(w.pvcs) && PlainStandIns(w.pvcs);
    hide Inv, Matches;
  }

  /**
   Volumes are conserved: as long as no held claim is given up while its stand-in is missing or being deleted, the
   claim or its stand-in exists in every state. When stand-ins are plain that is in every run.
   */
  lemma VolumesAreConserved(s: Setting, start: World, trace: seq<Step>, n: nat, k: Key)
    requires GoodRun(s, start, trace) && n <= |trace| && k in s.group && PreservedAt(start.pvcs, k)
    requires !At(s, start, trace, n).vgr.deleting
    requires s.plain || forall m :: 0 <= m < n ==> !Abandons(At(s, start, trace, m), trace[m], k)
    ensures Exists(At(s, start, trace, n).pvcs, k)
  {
    hide GoodRun, Legal, Inv, Apply, Abandons, At;
    forall m | 0 <= m < n
      ensures !Abandons(At(s, start, trace, m), trace[m], k)
    {
      StateOfRun(s, start, trace, m);
      if s.plain {
        NotDeletedBefore(s, start, trace, m, n);
        PlainIsNeverAbandoned(s, At(s, start, trace, m), trace[m], k);
      }
    }
    ConservedIffNeverAbandoned(s, start, trace, n, k);
    assert PreservedAt(At(s, start, trace, n).pvcs, k);
  }

  lemma {:induction false} NotDeletedBefore(s: Setting, start: World, trace: seq<Step>, m: nat, n: nat)
    requires GoodRun(s, start, trace) && m <= n <= |trace| && !At(s, start, trace, n).vgr.deleting
    ensures !At(s, start, trace, m).vgr.deleting
    decreases n
  {
    hide GoodRun, At, Apply, Legal, Inv;
    if m < n {
      StateOfRun(s, start, trace, n - 1);
      DeletionIsFinal(s, At(s, start, trace, n - 1), trace[n - 1]);
      NotDeletedBefore(s, start, trace, m, n - 1);
    }
  }

  /** The claim, an application's or a stand-in, is there to stay. */
  predicate ThereToStay(pvcs: ClaimMap, c: Key) {
    if c.name.App? then c in pvcs && pvcs[c].Held() else Standing(pvcs, c)
  }

  /**
   The write takes away the claim that volume `volume` refers to, or writes a claimRef for it that names neither claim
   `k` nor its stand-in, or the one of them that is not there to stay.
   */
  ghost predicate Unanchors(w: World, step: Step, volume: string, k: Key) {
    match step
    case UpdatePVC(c, p) => c == k && k in w.pvcs && !p.Held() && volume in w.pvs && w.pvs[volume].claimRef == Some(k)
    case DeletePVC(c) => c == TmpOf(k) && volume in w.pvs && w.pvs[volume].claimRef == Some(TmpOf(k))
    case UpdatePV(name, pv) =>
      name == volume && (pv.claimRef in {Some(k), Some(TmpOf(k))} ==> !ThereToStay(w.pvcs, pv.claimRef.value))
    case _ => false
  }

  lemma ClaimWriteAnchorsIff(s: Setting, w: World, step: Step, k: Key)
    requires Legal(s, w, step) && k in s.group && k.name.App? && !w.vgr.deleting && StoreWellFormed(w.pvcs)
    requires AnchoredAt(s.group[k], w.pvcs, w.pvs, k)
    requires step.CreatePVC? || step.UpdatePVC? || step.DeletePVC?
    ensures AnchoredAt(s.group[k], Apply(s, w, step).pvcs, w.pvs, k) <==> !Unanchors(w, step, s.group[k], k)
  {
    hide LegalSource, LegalVolume, GateOpen, LegalStatus, NothingOwned, LegalCreate, LegalUpdate;
    match step {
      case CreatePVC(c, p) =>
      case UpdatePVC(c, p) =>
      case DeletePVC(c) =>
    }
  }

  lemma OtherWriteAnchorsIff(w: World, step: Step, volume: string, k: Key)
    requires !step.CreatePVC? && !step.UpdatePVC? && !step.DeletePVC? && AnchoredAt(volume, w.pvcs, w.pvs, k) && k.name.App?
    ensures AnchoredAt(volume, w.pvcs, if step.UpdatePV? then w.pvs[step.name := step.pv] else w.pvs, k) <==> !Unanchors(w, step, volume, k)
  {
  }

  /** A step keeps a volume's reference good exactly when it does not do that. */
  lemma StepAnchorsIff(s: Setting, w: World, step: Step, k: Key)
    requires Inv(s, w) && Legal(s, w, step) && k in s.group && !w.vgr.deleting && AnchoredAt(s.group[k], w.pvcs, w.pvs, k)
    ensures AnchoredAt(s.group[k], Apply(s, w, step).pvcs, Apply(s, w, step).pvs, k) <==> !Unanchors(w, step, s.group[k], k)
  {
    assert GroupWellFormed(s.group, w.vgr.ns) && StoreWellFormed(w.pvcs);
    hide Inv, Occur, GroupWellFormed, StoreWellFormed;
    if step.Environment? {
      EventKeepsPreserved(s, w, step.event, k);
      hide AnchoredAt;
    } else {
      OtherWrites(s, w, step);
      if step.CreatePVC? || step.UpdatePVC? || step.DeletePVC? {
        ClaimWriteAnchorsIff(s, w, step, k);
      } else {
        OtherWriteAnchorsIff(w, step, s.group[k], k);
      }
      hide Apply, Legal, AnchoredAt, Unanchors;
    }
  }

  /** Until the first such write, and only until then, a run keeps a volume's reference good. */
  lemma {:induction false} AnchoredIffNeverUnanchored(s: Setting, start: World, trace: seq<Step>, n: nat, k: Key)
    requires GoodRun(s, start, trace) && n <= |trace| && k in s.group && AnchoredAt(s.group[k], start.pvcs, start.pvs, k)
    requires !At(s, start, trace, n).vgr.deleting
    ensures (forall m :: 0 <= m <= n ==> AnchoredAt(s.group[k], At(s, start, trace, m).pvcs, At(s, start, trace, m).pvs, k)) <==>
            (forall m :: 0 <= m < n ==> !Unanchors(At(s, start, trace, m), trace[m], s.group[k], k))
  {
    hide GoodRun, Legal, Inv, Apply, AnchoredAt, Unanchors;
    if n == 0 {
      assert trace[..0] == [] && At(s, start, trace, 0) == start;
      hide At;
    } else {
      hide At;
      StateOfRun(s, start, trace, n - 1);
      DeletionIsFinal(s, At(s, start, trace, n - 1), trace[n - 1]);
      AnchoredIffNeverUnanchored(s, start, trace, n - 1, k);
      if AnchoredAt(s.group[k], At(s, start, trace, n - 1).pvcs, At(s, start, trace, n - 1).pvs, k) {
        StepAnchorsIff(s, At(s, start, trace, n - 1), trace[n - 1], k);
      }
    }
  }

  // ---------- how it comes about ----------

  /** The claim has a stand-in while the volume refers to the claim. */
  predicate HalfWay(w: World, volume: string, k: Key) {
    TmpOf(k) in w.pvcs && volume in w.pvs && w.pvs[volume].claimRef == Some(k)
  }

  /** The first write of a hand-off, or the second of a restore: the stand-in is created, or the volume turned back. */
  predicate BeginsHalfWay(w: World, step: Step, volume: string, k: Key) {
    || (step.CreatePVC? && step.k == TmpOf(k) && volume in w.pvs && w.pvs[volume].claimRef == Some(k))
    || (step.UpdatePV? && step.name == volume && step.pv.claimRef == Some(k) && TmpOf(k) in w.pvcs)
  }

  lemma ClaimWritesRemove(s: Setting, w: World, step: Step)
    requires Legal(s, w, step) && (step.UpdatePVC? || step.DeletePVC?)
    ensures Apply(s, w, step).pvcs.Keys <= w.pvcs.Keys
  {
  }

  lemma StepBeginsHalfWay(s: Setting, w: World, step: Step, volume: string, k: Key)
    requires Inv(s, w) && Legal(s, w, step) && !HalfWay(w, volume, k) && HalfWay(Apply(s, w, step), volume, k)
    ensures BeginsHalfWay(w, step, volume, k)
  {
    if step.Environment? {
      hide Inv, Occur;
      EventKeeps(s, w, step.event);
      hide SameSources, SameDestinations, NoNewPods;
    } else {
      OtherWrites(s, w, step);
      if step.UpdatePVC? || step.DeletePVC? {
        ClaimWritesRemove(s, w, step);
        hide Apply;
      } else if !step.CreatePVC? {
        hide Apply;
      }
      hide Inv, Legal;
    }
  }

  /** A half-way state goes back to one of the two writes, with half-way states since. */
  lemma {:induction false} HalfWayBegan(s: Setting, start: World, trace: seq<Step>, n: nat, volume: string, k: Key) returns (m: nat)
    requires GoodRun(s, start, trace) && n <= |trace|
    requires !HalfWay(start, volume, k) && HalfWay(At(s, start, trace, n), volume, k)
    ensures m < n && BeginsHalfWay(At(s, start, trace, m), trace[m], volume, k)
    ensures forall i :: m < i <= n ==> HalfWay(At(s, start, trace, i), volume, k)
  {
    hide GoodRun, Legal, Inv, Apply, HalfWay, BeginsHalfWay;
    assert trace[..0] == [] && n != 0;
    hide At;
    StateOfRun(s, start, trace, n - 1);
    if HalfWay(At(s, start, trace, n - 1), volume, k) {
      m := HalfWayBegan(s, start, trace, n - 1, volume, k);
    } else {
      StepBeginsHalfWay(s, At(s, start, trace, n - 1), trace[n - 1], volume, k);
      m := n - 1;
    }
  }

  lemma UnanchorsHalfWay(s: Setting, w: World, step: Step, k: Key)
    requires Inv(s, w) && Legal(s, w, step) && k in s.group && !w.vgr.deleting && s.plain
    requires Unanchors(w, step, s.group[k], k) && AnchoredAt(s.group[k], w.pvcs, w.pvs, k)
    ensures step.UpdatePVC? && step.k == k && !step.pvc.Held() && HalfWay(w, s.group[k], k)
  {
    assert StoreWellFormed(w.pvcs);
    hide Inv, Matches;
  }

  lemma FirstUnanchoring(s: Setting, start: World, trace: seq<Step>, n: nat, k: Key) returns (j: nat)
    requires GoodRun(s, start, trace) && n <= |trace| && k in s.group && AnchoredAt(s.group[k], start.pvcs, start.pvs, k)
    requires !At(s, start, trace, n).vgr.deleting && !AnchoredAt(s.group[k], At(s, start, trace, n).pvcs, At(s, start, trace, n).pvs, k)
    ensures j < n && Unanchors(At(s, start, trace, j), trace[j], s.group[k], k)
    ensures AnchoredAt(s.group[k], At(s, start, trace, j).pvcs, At(s, start, trace, j).pvs, k)
    decreases n
  {
    hide GoodRun, Legal, Inv, Apply, AnchoredAt, Unanchors;
    assert trace[..0] == [] && n != 0;
    hide At;
    StateOfRun(s, start, trace, n - 1);
    DeletionIsFinal(s, At(s, start, trace, n - 1), trace[n - 1]);
    if AnchoredAt(s.group[k], At(s, start, trace, n - 1).pvcs, At(s, start, trace, n - 1).pvs, k) {
      StepAnchorsIff(s, At(s, start, trace, n - 1), trace[n - 1], k);
      j := n - 1;
    } else {
      j := FirstUnanchoring(s, start, trace, n - 1, k);
    }
  }

  /**
   When stand-ins are plain, a volume's reference goes bad in one way only, in any run with any faults: a hand-off was
   left after its first write or a restore after its second, and a later restore lets the claim go before either
   protocol is taken up again.
   */
  lemma ReferencesGoBadHalfWay(s: Setting, start: World, trace: seq<Step>, n: nat, k: Key) returns (m: nat, j: nat)
    requires GoodRun(s, start, trace) && n <= |trace| && k in s.group && s.plain
    requires AnchoredAt(s.group[k], start.pvcs, start.pvs, k) && !HalfWay(start, s.group[k], k)
    requires !At(s, start, trace, n).vgr.deleting && !AnchoredAt(s.group[k], At(s, start, trace, n).pvcs, At(s, start, trace, n).pvs, k)
    ensures m < j < n && BeginsHalfWay(At(s, start, trace, m), trace[m], s.group[k], k)
    ensures forall i :: m < i <= j ==> HalfWay(At(s, start, trace, i), s.group[k], k)
    ensures trace[j].UpdatePVC? && trace[j].k == k && !trace[j].pvc.Held()
  {
    hide GoodRun, Legal, Inv, Apply, AnchoredAt, Unanchors, At, HalfWay, BeginsHalfWay;
    j := FirstUnanchoring(s, start, trace, n, k);
    StateOfRun(s, start, trace, j);
    NotDeletedBefore(s, start, trace, j, n);
    UnanchorsHalfWay(s, At(s, start, trace, j), trace[j], k);
    m := HalfWayBegan(s, start, trace, j, s.group[k], k);
  }

  // ---------- when hand-off and restore do it ----------

  /** The volume refers to a claim that does not exist. */
  predicate Dangling(w: World, name: string) {
    name in w.pvs && w.pvs[name].claimRef.Some? && w.pvs[name].claimRef.value !in w.pvcs
  }

  /** Claim `k` is terminating and held by some finalizer while a stand-in is bound to an existing volume. */
  predicate ToBeLetGo(w: World, k: Key) {
    Going(w.pvcs, k) && w.pvcs[k].finalizers != {} && HasVolume(w, TmpOf(k))
  }

  lemma LetGoState(w: World, k: Key)
    requires ToBeLetGo(w, k)
    ensures var v := Restored(w, k);
      v == w.(pvcs := w.pvcs[TmpOf(k) := w.pvcs[TmpOf(k)].(labels := w.pvcs[k].labels)] - {k})
  {
    assert TmpOf(k) != k;
  }

  /**
   In every state, a restore that lets a claim go leaves the volume of the stand-in referring to a claim that is gone
   if and only if the volume refers to that very claim before.
   */
  lemma LettingGoDanglesIffReferredTo(w: World, k: Key)
    requires ToBeLetGo(w, k)
    ensures var name := w.pvcs[TmpOf(k)].volumeName;
      !Dangling(w, name) ==> (Dangling(Restored(w, k), name) <==> w.pvs[name].claimRef == Some(k))
  {
    LetGoState(w, k);
    hide Restored, HasVolume;
    assert HasVolume(w, TmpOf(k)) ==> w.pvcs[TmpOf(k)].volumeName in w.pvs by {
      VolumeExists(w, TmpOf(k));
    }
  }

  lemma VolumeExists(w: World, c: Key)
    requires HasVolume(w, c)
    ensures c in w.pvcs && w.pvcs[c].volumeName in w.pvs
  {
  }

  /** And it leaves the volume a claim that is there to stay if and only if the stand-in is not being deleted. */
  lemma LettingGoPreservesIffStandInStands(w: World, k: Key)
    requires ToBeLetGo(w, k)
    ensures PreservedAt(Restored(w, k).pvcs, k) <==> !w.pvcs[TmpOf(k)].deleting
  {
    LetGoState(w, k);
    hide Restored;
    assert TmpOf(k) != k;
  }

  lemma HandOffStage(w: World, k: Key, stage: nat)
    requires HasVolume(w, k) && TmpOf(k) !in w.pvcs && 1 <= stage <= 3
    ensures var name := w.pvcs[k].volumeName;
      var tmp := TemporaryClaim(w.pvcs[k], name);
      HandOffAfter(w, k, false, stage) ==
        if stage == 1 then w.(pvcs := w.pvcs[TmpOf(k) := tmp])
        else w.(pvcs := w.pvcs[TmpOf(k) := tmp], pvs := w.pvs[name := w.pvs[name].(claimRef := Some(TmpOf(k)))])
  {
    hide TemporaryAnnotations;
  }

  lemma ZeroStages(w: World, k: Key)
    ensures HandOffAfter(w, k, false, 0) == w
  {
  }

  lemma HandOffClaims(w: World, k: Key, rmFinalizer: bool)
    requires HasVolume(w, k)
    ensures var w1 := WithStandIn(w, k, w.pvcs[k]);
      HandOffAfter(w, k, rmFinalizer, 3).pvcs == if rmFinalizer then Unprotected(w1, k).pvcs else w1.pvcs
  {
    StandInLeavesTheClaim(w, k, w.pvcs[k]);
    hide WithStandIn;
  }

  /** So does a complete hand-off that takes the operator's finalizer off a terminating claim; one that does not always does. */
  lemma HandingOffPreservesIffStandInStands(w: World, k: Key, rmFinalizer: bool)
    requires HasVolume(w, k) && w.pvcs[k].deleting && w.pvcs[k].Held()
    ensures PreservedAt(HandOffAfter(w, k, rmFinalizer, 3).pvcs, k) <==> !(rmFinalizer && Going(w.pvcs, TmpOf(k)))
  {
    assert TmpOf(k) != k;
    var w1 := WithStandIn(w, k, w.pvcs[k]);
    StandInLeavesTheClaim(w, k, w.pvcs[k]);
    assert TmpOf(k) in w1.pvcs && (Going(w1.pvcs, TmpOf(k)) <==> Going(w.pvcs, TmpOf(k)));
    HandOffClaims(w, k, rmFinalizer);
    hide WithStandIn, HandOffAfter, HasVolume;
  }

  /** After a hand-off was cut off, the volume refers to the claim while its stand-in exists after the first write only. */
  lemma InterruptedHandOff(w: World, k: Key, stage: nat)
    requires HasVolume(w, k) && TmpOf(k) !in w.pvcs && w.pvs[w.pvcs[k].volumeName].claimRef == Some(k) && stage <= 3
    ensures var v := HandOffAfter(w, k, false, stage);
      var name := w.pvcs[k].volumeName;
      name in v.pvs && (TmpOf(k) in v.pvcs && v.pvs[name].claimRef == Some(k) <==> stage == 1)
  {
    if stage == 0 {
      ZeroStages(w, k);
    } else {
      HandOffStage(w, k, stage);
      hide HandOffAfter, TemporaryClaim;
    }
  }

  /**
   After a restore was cut off, it does so after the second write; and after the last one if other controllers hold
   the stand-in.
   */
  lemma InterruptedRestore(w: World, k: Key, stage: nat)
    requires HasVolume(w, TmpOf(k)) && k !in w.pvcs && w.pvs[w.pvcs[TmpOf(k)].volumeName].claimRef == Some(TmpOf(k)) && stage <= 3
    ensures var v := RestoredAfter(w, k, stage);
      var tmp := w.pvcs[TmpOf(k)];
      && tmp.volumeName in v.pvs
      && (TmpOf(k) in v.pvcs && v.pvs[tmp.volumeName].claimRef == Some(k) <==> stage == 2 || (stage == 3 && tmp.finalizers != {}))
  {
    if stage == 1 {
      ClaimAgain(w, k, w.pvcs[TmpOf(k)]);
      hide WithClaim;
    } else if stage >= 2 {
      RestoreBegins(w, k);
      if stage == 2 {
        hide RestoredAfter, Restored, WithClaim, Pointed;
      } else {
        BroughtBack(w, k);
        hide RestoredAfter, RestoredClaim, WithClaim, Pointed;
      }
    }
  }

  // ---------- runs in which it happens ----------

  /** Some legal run leads from `start` to `w`. */
  ghost predicate Reachable(s: Setting, start: World, w: World) {
    exists trace :: GoodRun(s, start, trace) && Run(s, start, trace) == w
  }

  lemma ReachedIsGood(s: Setting, start: World, w: World)
    requires Reachable(s, start, w)
    ensures Inv(s, w)
  {
    var trace :| GoodRun(s, start, trace) && Run(s, start, trace) == w;
    assert trace[..|trace|] == trace;
    hide Inv, LegalRun, Run;
    RunsAreSafe(s, start, trace, |trace|);
  }

  lemma ReachStep(s: Setting, start: World, w: World, step: Step)
    requires Reachable(s, start, w) && Legal(s, w, step)
    ensures Reachable(s, start, Apply(s, w, step))
  {
    hide Inv, Legal, Apply;
    var trace :| GoodRun(s, start, trace) && Run(s, start, trace) == w;
    var longer := trace + [step];
    assert longer[..|longer| - 1] == trace;
    assert GoodRun(s, start, longer) && Run(s, start, longer) == Apply(s, w, step);
  }

  lemma StartIsReached(s: Setting, start: World)
    requires Inv(s, start)
    ensures Reachable(s, start, start)
  {
    assert GoodRun(s, start, []) && Run(s, start, []) == start;
  }

  /** Calls may fail or others may hold stand-ins, outside of a relocation; the VGR is not being deleted. */
  ghost predicate Exposed(s: Setting, w: World) {
    !(s.reliable && s.plain) && !s.relocating && !w.vgr.deleting
  }

  lemma ExposedIsReferred(s: Setting, w: World)
    requires Exposed(s, w)
    ensures Referred(s, w)
  {
  }

  lemma ReachUserDelete(s: Setting, start: World, w: World, k: Key)
    requires Reachable(s, start, w) && k in w.pvcs && Protection in w.pvcs[k].finalizers
    ensures Reachable(s, start, w.(pvcs := w.pvcs[k := w.pvcs[k].(deleting := true)]))
  {
    hide Reachable;
    ReachStep(s, start, w, Environment(UserDeletesClaim(k)));
  }

  lemma ReachFinalizer(s: Setting, start: World, w: World, c: Key, text: string)
    requires Reachable(s, start, w) && Standing(w.pvcs, c) && !s.plain
    ensures var p := w.pvcs[c]; Reachable(s, start, w.(pvcs := w.pvcs[c := p.(finalizers := p.finalizers + {Foreign(text)})]))
  {
    hide Reachable;
    ReachStep(s, start, w, Environment(FinalizerAdded(c, text)));
  }

  lemma ReachRelease(s: Setting, start: World, w: World, c: Key, text: string)
    requires Reachable(s, start, w) && Going(w.pvcs, c) && w.pvcs[c].finalizers == {Foreign(text)}
    ensures Reachable(s, start, w.(pvcs := w.pvcs - {c}))
  {
    hide Reachable;
    assert w.pvcs[c].finalizers - {Foreign(text)} == {};
    ReachStep(s, start, w, Environment(FinalizerReleased(c, text)));
  }

  /** The operator protects a claim, as every reconcile of a source or destination does. */
  lemma ReachProtect(s: Setting, start: World, w: World, k: Key)
    requires Reachable(s, start, w) && Standing(w.pvcs, k) && k.name.App?
    ensures Reachable(s, start, w.(pvcs := w.pvcs[k := WithFinalizer(w.pvcs[k])]))
  {
    ReachedIsGood(s, start, w);
    ProtectionIsLegal(s, w, k);
    hide Reachable, Inv, Legal;
    ReachStep(s, start, w, UpdatePVC(k, WithFinalizer(w.pvcs[k])));
  }

  /** A hand-off, cut off after its first or second write. */
  lemma ReachHandOff(s: Setting, start: World, w: World, k: Key, stage: nat)
    requires Reachable(s, start, w) && Exposed(s, w) && k.name.App? && HasVolume(w, k) && TmpOf(k) !in w.pvcs && 1 <= stage <= 2
    ensures Reachable(s, start, HandOffAfter(w, k, false, stage))
  {
    ReachedIsGood(s, start, w);
    var main := w.pvcs[k];
    var tmp := TemporaryClaim(main, main.volumeName);
    ReadClaimIsKnown(s, w, k);
    assert GroupWellFormed(s.group, w.vgr.ns);
    HandOffStage(w, k, stage);
    assert Standing(w.pvcs[TmpOf(k) := tmp], TmpOf(k));
    hide Reachable, Inv, Legal, HandOffAfter, TemporaryClaim, Known, GroupWellFormed;
    StandInIsLegal(s, w, k, main);
    ReachStep(s, start, w, CreatePVC(TmpOf(k), tmp));
    if stage == 2 {
      var v := w.(pvcs := w.pvcs[TmpOf(k) := tmp]);
      PointingToStandInIsLegal(s, v, k, main, w.pvs[main.volumeName]);
      ReachStep(s, start, v, UpdatePV(main.volumeName, w.pvs[main.volumeName].(claimRef := Some(TmpOf(k)))));
    }
  }

  /** A restore that lets a terminating claim go. */
  lemma ReachLetGo(s: Setting, start: World, w: World, k: Key)
    requires Reachable(s, start, w) && Exposed(s, w) && k.name.App? && ToBeLetGo(w, k)
    ensures Reachable(s, start, Restored(w, k))
  {
    ReachedIsGood(s, start, w);
    LetGoState(w, k);
    ReadClaimIsKnown(s, w, k);
    LabelHandoverIsLegal(s, w, k, w.pvcs[k]);
    var tmp := w.pvcs[TmpOf(k)].(labels := w.pvcs[k].labels);
    var v := w.(pvcs := w.pvcs[TmpOf(k) := tmp]);
    assert TmpOf(k) != k && TmpOf(k) in w.pvcs;
    hide Reachable, Inv, Legal, Restored, HasVolume;
    ReachStep(s, start, w, UpdatePVC(TmpOf(k), tmp));
    ReachedIsGood(s, start, v);
    ExposedIsReferred(s, v);
    SteadySelf(s, v);
    LettingGoIsLegal(s, v, v, k);
    ReachStep(s, start, v, UpdatePVC(k, v.pvcs[k].(finalizers := {})));
  }

  lemma SteadySelf(s: Setting, w: World)
    ensures Steady(s, w, w)
  {
  }

  /** A restore of a claim that is gone, cut off after its second write or complete. */
  lemma ReachRestore(s: Setting, start: World, w: World, k: Key, stage: nat)
    requires Reachable(s, start, w) && Exposed(s, w) && k.name.App? && k !in w.pvcs && HasVolume(w, TmpOf(k)) && 2 <= stage <= 3
    ensures Reachable(s, start, RestoredAfter(w, k, stage))
  {
    ReachedIsGood(s, start, w);
    var tmp := w.pvcs[TmpOf(k)];
    var main := RestoredClaim(tmp, tmp.volumeName);
    var v := w.(pvcs := w.pvcs[k := main]);
    var pv := w.pvs[tmp.volumeName];
    var u := v.(pvs := v.pvs[tmp.volumeName := pv.(claimRef := Some(k))]);
    ReadClaimIsKnown(s, w, TmpOf(k));
    assert GroupWellFormed(s.group, w.vgr.ns) && main.Held();
    RestoreBegins(w, k);
    assert WithClaim(w, k, tmp) == v;
    PointedVolume(v, tmp.volumeName, pv, k);
    hide Reachable, Inv, Legal, RestoredAfter, Restored, RestoredClaim, Known, GroupWellFormed, WithClaim, Pointed, StableSelector;
    RecreationIsLegal(s, w, k, tmp);
    ReachStep(s, start, w, CreatePVC(k, main));
    PointingBackIsLegal(s, v, k, tmp, pv);
    ReachStep(s, start, v, UpdatePV(tmp.volumeName, pv.(claimRef := Some(k))));
    if stage == 3 {
      HandedBackIsDeletable(s, v, u, k, tmp);
      ReachStep(s, start, u, DeletePVC(TmpOf(k)));
      assert RestoredAfter(w, k, 3) == Restored(w, k) by {
        CompleteRestore(w, k);
      }
    }
  }

  lemma CompleteRestore(w: World, k: Key)
    ensures RestoredAfter(w, k, 3) == Restored(w, k)
  {
  }

  /** Claim `k` of a group in normal operation, which a user may delete. */
  ghost predicate Deletable(s: Setting, start: World, k: Key) {
    NormalOperation(s, start) && Exposed(s, start) && k in s.group && Protection in start.pvcs[k].finalizers
  }

  /** There are such claims, with calls that may fail and stand-ins that others may hold. */
  lemma DeletableExists() returns (s: Setting, start: World, k: Key)
    ensures Deletable(s, start, k) && !s.reliable && !s.plain
  {
    var safe;
    safe, start := NormalOperationExists();
    s := safe.(relocating := false, reliable := false, plain := false);
    k :| k in s.group;
  }

  /** The claim after a user has deleted it. */
  function Deleted(w: World, k: Key): World
    requires k in w.pvcs
  {
    w.(pvcs := w.pvcs[k := w.pvcs[k].(deleting := true)])
  }

  lemma DeletionBegins(s: Setting, start: World, k: Key)
    requires Deletable(s, start, k)
    ensures var w := Deleted(start, k);
      && Reachable(s, start, w) && Exposed(s, w) && k.name.App? && HasVolume(w, k) && TmpOf(k) !in w.pvcs
      && Going(w.pvcs, k) && w.pvcs[k].finalizers != {} && w.pvs[w.pvcs[k].volumeName].claimRef == Some(k)
      && w.pvcs[k].volumeName == s.group[k]
  {
    NormalOperationIsGood(s, start);
    StartIsReached(s, start);
    hide Reachable, Inv, Referred;
    ReachUserDelete(s, start, start, k);
  }

  /** From every group in normal operation: a hand-off cut off after its first write, and the next restore. */
  lemma CutHandOffDangles(s: Setting, start: World, k: Key) returns (w: World)
    requires Deletable(s, start, k) && !s.reliable
    ensures Reachable(s, start, w) && Dangling(w, s.group[k])
  {
    DeletionBegins(s, start, k);
    var w0 := Deleted(start, k);
    hide Reachable, NormalOperation, Deleted;
    ReachHandOff(s, start, w0, k, 1);
    var w1 := HandOffAfter(w0, k, false, 1);
    InterruptedHandOff(w0, k, 1);
    CutHandOffState(w0, k);
    hide HandOffAfter, HasVolume;
    ReachLetGo(s, start, w1, k);
    LettingGoDanglesIffReferredTo(w1, k);
    w := Restored(w1, k);
  }

  lemma CutHandOffState(w: World, k: Key)
    requires HasVolume(w, k) && TmpOf(k) !in w.pvcs && Going(w.pvcs, k) && w.pvcs[k].finalizers != {}
    requires w.pvs[w.pvcs[k].volumeName].claimRef == Some(k)
    ensures var v := HandOffAfter(w, k, false, 1);
      ToBeLetGo(v, k) && v.vgr == w.vgr && v.pvcs[TmpOf(k)].volumeName == w.pvcs[k].volumeName
      && v.pvs == w.pvs && !Dangling(v, w.pvcs[k].volumeName)
  {
    HandOffStage(w, k, 1);
    assert TmpOf(k) != k;
    hide HandOffAfter, TemporaryAnnotations;
  }

  /** The claim and its stand-in after hand-off, letting go and the first writes of a restore. */
  lemma ThereAndHalfBack(w: World, k: Key)
    requires HasVolume(w, k) && TmpOf(k) !in w.pvcs && Going(w.pvcs, k) && w.pvcs[k].finalizers != {}
    ensures var u := HandOffAfter(w, k, false, 2);
      var v := Restored(u, k);
      && ToBeLetGo(u, k) && u.vgr == w.vgr && v.vgr == w.vgr
      && k !in v.pvcs && HasVolume(v, TmpOf(k)) && v.pvcs[TmpOf(k)].volumeName == w.pvcs[k].volumeName
      && v.pvs[w.pvcs[k].volumeName].claimRef == Some(TmpOf(k)) && v.pvcs[TmpOf(k)].finalizers == {} && Standing(v.pvcs, TmpOf(k))
  {
    HandOffStage(w, k, 2);
    var u := HandOffAfter(w, k, false, 2);
    assert TmpOf(k) != k;
    hide HandOffAfter, TemporaryAnnotations;
    assert ToBeLetGo(u, k);
    LetGoState(u, k);
    hide Restored;
  }

  lemma HalfBackState(w: World, k: Key)
    requires k !in w.pvcs && HasVolume(w, TmpOf(k))
    ensures var tmp := w.pvcs[TmpOf(k)];
      var v := RestoredAfter(w, k, 2);
      && v.vgr == w.vgr && Standing(v.pvcs, k) && v.pvcs[k].finalizers == {} && TmpOf(k) in v.pvcs && v.pvcs[TmpOf(k)] == tmp
      && tmp.volumeName in v.pvs && v.pvs[tmp.volumeName].claimRef == Some(k)
  {
    RestoreBegins(w, k);
    var tmp := w.pvcs[TmpOf(k)];
    assert WithClaim(w, k, tmp) == w.(pvcs := w.pvcs[k := RestoredClaim(tmp, tmp.volumeName)]);
    PointedVolumes(WithClaim(w, k, tmp), tmp.volumeName, k);
    assert RestoredClaim(tmp, tmp.volumeName).finalizers == {};
    hide RestoredAfter, Restored, WithClaim, RestoredClaim;
  }

  /** A claim was handed off and let go: its stand-in holds the volume alone. */
  lemma StandInIsAlone(s: Setting, start: World, k: Key) returns (w: World)
    requires Deletable(s, start, k)
    ensures Reachable(s, start, w) && Exposed(s, w) && k.name.App? && k !in w.pvcs && HasVolume(w, TmpOf(k))
    ensures w.pvcs[TmpOf(k)].volumeName == s.group[k] && w.pvcs[TmpOf(k)].finalizers == {} && Standing(w.pvcs, TmpOf(k))
  {
    DeletionBegins(s, start, k);
    var w0 := Deleted(start, k);
    hide Reachable, NormalOperation, Deleted;
    ReachHandOff(s, start, w0, k, 2);
    ThereAndHalfBack(w0, k);
    hide HandOffAfter;
    ReachLetGo(s, start, HandOffAfter(w0, k, false, 2), k);
    w := Restored(HandOffAfter(w0, k, false, 2), k);
  }

  /**
   From every group in normal operation, with no hand-off cut off: a restore cut off after its second write; the claim
   is protected and deleted again before the next restore.
   */
  lemma CutRestoreDangles(s: Setting, start: World, k: Key) returns (w: World)
    requires Deletable(s, start, k) && !s.reliable
    ensures Reachable(s, start, w) && Dangling(w, s.group[k])
  {
    var w2 := StandInIsAlone(s, start, k);
    hide Reachable, Deletable, Deleted, Restored;
    ReachRestore(s, start, w2, k, 2);
    var w3 := RestoredAfter(w2, k, 2);
    HalfBackState(w2, k);
    hide RestoredAfter, HasVolume;
    ReachProtect(s, start, w3, k);
    var w4 := w3.(pvcs := w3.pvcs[k := WithFinalizer(w3.pvcs[k])]);
    ReachUserDelete(s, start, w4, k);
    var w5 := Deleted(w4, k);
    DeletedAgain(w3, k);
    assert w5 == AgainDeleted(w3, k);
    ReachLetGo(s, start, w5, k);
    LettingGoDanglesIffReferredTo(w5, k);
    w := Restored(w5, k);
  }

  /** A restored claim that was protected and deleted again. */
  function AgainDeleted(w: World, k: Key): World
    requires k in w.pvcs
  {
    w.(pvcs := w.pvcs[k := WithFinalizer(w.pvcs[k]).(deleting := true)])
  }

  lemma DeletedAgain(w: World, k: Key)
    requires Standing(w.pvcs, k) && TmpOf(k) in w.pvcs && w.pvcs[TmpOf(k)].volumeName != "" && w.pvcs[TmpOf(k)].volumeName in w.pvs
    requires w.pvs[w.pvcs[TmpOf(k)].volumeName].claimRef == Some(k)
    ensures var v := AgainDeleted(w, k);
      && ToBeLetGo(v, k) && v.vgr == w.vgr && v.pvcs[TmpOf(k)] == w.pvcs[TmpOf(k)] && v.pvs == w.pvs
      && !Dangling(v, w.pvcs[TmpOf(k)].volumeName)
      && Deleted(w.(pvcs := w.pvcs[k := WithFinalizer(w.pvcs[k])]), k) == v
  {
    assert TmpOf(k) != k;
  }

  lemma HeldStandInState(w: World, k: Key, text: string)
    requires k !in w.pvcs && HasVolume(w, TmpOf(k)) && w.pvcs[TmpOf(k)].finalizers == {Foreign(text)}
    ensures var v := Restored(w, k);
      && v.vgr == w.vgr && Standing(v.pvcs, k) && Going(v.pvcs, TmpOf(k)) && v.pvcs[TmpOf(k)].finalizers == {Foreign(text)}
      && HasVolume(v, TmpOf(k)) && v.pvcs[TmpOf(k)].volumeName == w.pvcs[TmpOf(k)].volumeName
      && v.pvs[w.pvcs[TmpOf(k)].volumeName].claimRef == Some(k)
  {
    BroughtBack(w, k);
    assert TmpOf(k) != k;
    hide Restored, RestoreOutcome;
    hide RestoredLabels, RestoredAnnotations;
  }

  /** Another controller puts a finalizer on the stand-in of a claim that was let go. */
  lemma StandInIsHeld(s: Setting, start: World, k: Key, text: string) returns (w: World)
    requires Deletable(s, start, k) && !s.plain
    ensures Reachable(s, start, w) && Exposed(s, w) && k.name.App? && k !in w.pvcs && HasVolume(w, TmpOf(k))
    ensures w.pvcs[TmpOf(k)].finalizers == {Foreign(text)}
  {
    var v := StandInIsAlone(s, start, k);
    hide Reachable, Deletable;
    ReachFinalizer(s, start, v, TmpOf(k), text);
    assert {} + {Foreign(text)} == {Foreign(text)};
    w := v.(pvcs := v.pvcs[TmpOf(k) := v.pvcs[TmpOf(k)].(finalizers := {Foreign(text)})]);
  }

  /**
   From every group in normal operation, with every hand-off and every restore complete, when others may hold stand-ins:
   the stand-in that the first restore has deleted is still there when the claim is deleted again. The second restore
   gives up the claim to a stand-in that is going too, and no claim of the volume is left.
   */
  lemma HeldStandInLosesVolume(s: Setting, start: World, k: Key, text: string) returns (w: World)
    requires Deletable(s, start, k) && !s.plain
    ensures Reachable(s, start, w) && !Exists(w.pvcs, k)
  {
    w := StandInIsHeld(s, start, k, text);
    hide Reachable, Deletable;
    ReachRestore(s, start, w, k, 3);
    CompleteRestore(w, k);
    HeldStandInState(w, k, text);
    hide RestoredAfter, Restored;
    w := HeldStandInIsLost(s, start, Restored(w, k), k, text);
  }

  lemma HeldStandInIsLost(s: Setting, start: World, v: World, k: Key, text: string) returns (w: World)
    requires Reachable(s, start, v) && Exposed(s, v) && k.name.App? && Standing(v.pvcs, k)
    requires HasVolume(v, TmpOf(k)) && Going(v.pvcs, TmpOf(k)) && v.pvcs[TmpOf(k)].finalizers == {Foreign(text)}
    requires v.pvs[v.pvcs[TmpOf(k)].volumeName].claimRef == Some(k)
    ensures Reachable(s, start, w) && !Exists(w.pvcs, k)
  {
    hide Reachable;
    ReachProtect(s, start, v, k);
    var w1 := v.(pvcs := v.pvcs[k := WithFinalizer(v.pvcs[k])]);
    ReachUserDelete(s, start, w1, k);
    DeletedAgain(v, k);
    var w2 := AgainDeleted(v, k);
    ReachLetGo(s, start, w2, k);
    LetGoState(w2, k);
    hide Restored;
    var w3 := Restored(w2, k);
    assert TmpOf(k) != k;
    ReachRelease(s, start, w3, TmpOf(k), text);
    w := w3.(pvcs := w3.pvcs - {TmpOf(k)});
  }
}
