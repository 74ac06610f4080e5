/**
 The API server as the operator's client sees it. Each call is atomic; between two calls the environment acts,
 and any call may fail. A write is allowed only when it is legal, and every write and event is recorded.
 */
module Api {

  import opened Names
  import opened Objects
  import opened System
  import opened Protocol
  import opened Safety
  import opened Wrappers

  /** What may have happened to the cluster since it was `w`, by the environment alone. */
  ghost predicate Drift(s: Setting, w: World, v: World) {
    Rely(s, w, v) && (s.calm ==> v == w)
  }

  lemma DriftIsTransitive(s: Setting, u: World, v: World, w: World)
    requires Drift(s, u, v) && Drift(s, v, w)
    ensures Drift(s, u, w)
  {
    hide Rely;
    RelyIsTransitive(s, u, v, w);
  }

  lemma DriftIsReflexive(s: Setting, w: World)
    ensures Drift(s, w, w)
  {
  }

  /** A get: the value at the time of the call, or the reason why there is none. */
  ghost predicate Got<K, V>(s: Setting, r: Result<V>, m: map<K, V>, k: K) {
    match r
    case Success(v) => k in m && v == m[k]
    case Failure(e) => (e == NotFound && k !in m) || (e == Fault && !s.reliable)
  }

  /** A write with optimistic concurrency: it replaces exactly the value that the caller has read. */
  ghost predicate Replaced<K, V>(s: Setting, o: Outcome, m: map<K, V>, k: K, was: V) {
    match o
    case Success(_) => k in m && m[k] == was
    case Failure(e) => (e == NotFound && k !in m) || (e == Conflict && k in m && m[k] != was) || (e == Fault && !s.reliable)
  }

  datatype Item<+V> = Item(key: Key, value: V)

  /** A list result: the entries of `m`, each once, in any order. */
  ghost predicate Lists<V>(items: seq<Item<V>>, m: map<Key, V>) {
    && (forall x :: x in items ==> x.key in m && m[x.key] == x.value)
    && (forall k :: k in m ==> Item(k, m[k]) in items)
    && (forall i, j :: 0 <= i < j < |items| ==> items[i].key != items[j].key)
  }

  function InNamespace<V>(m: map<Key, V>, ns: string): map<Key, V> {
    map k | k in m && k.ns == ns :: m[k]
  }

  function Selecting(pvcs: ClaimMap, sel: Selector): ClaimMap {
    map k | k in pvcs && Matches(sel, pvcs[k].labels) :: pvcs[k]
  }

  function OwnedClaims(pvcs: ClaimMap, owner: Option<string>): ClaimMap {
    if owner.None? then pvcs else map k | k in pvcs && OwnedBy(owner.value, pvcs[k].labels) :: pvcs[k]
  }

  /** The claims that match a selector, of one namespace or all, carrying the owner label if one is asked for. */
  function Matching(pvcs: ClaimMap, sel: Selector, ns: Option<string>, owner: Option<string>): ClaimMap {
    OwnedClaims(Selecting(if ns.Some? then InNamespace(pvcs, ns.value) else pvcs, sel), owner)
  }

  function OwnedSources(rss: SourceMap, owner: Option<string>): SourceMap {
    if owner.None? then rss else map k | k in rss && OwnedBy(owner.value, rss[k].labels) :: rss[k]
  }

  function OwnedDestinations(rds: map<Key, RD>, owner: Option<string>): map<Key, RD> {
    if owner.None? then rds else map k | k in rds && OwnedBy(owner.value, rds[k].labels) :: rds[k]
  }

  method ItemsOf<V>(m: map<Key, V>) returns (items: seq<Item<V>>)
    ensures Lists(items, m)
  {
    items := [];
    var rest := m.Keys;
    while rest != {}
      invariant rest <= m.Keys
      invariant forall x :: x in items ==> x.key in m && x.key !in rest && m[x.key] == x.value
      invariant forall k :: k in m && k !in rest ==> Item(k, m[k]) in items
      invariant forall i, j :: 0 <= i < j < |items| ==> items[i].key != items[j].key
    {
      var k :| k in rest;
      items := items + [Item(k, m[k])];
      rest := rest - {k};
    }
  }

  /** Only the environment has acted: everything the operator relies on is still so. */
  ghost predicate Idle(s: Setting, w: World, v: World) {
    && Drift(s, w, v) && Steady(s, w, v) && Kept(w.pvcs, v.pvcs) && v.pvs == w.pvs && v.pvcs.Keys <= w.pvcs.Keys
    && (Referred(s, w) ==> Referred(s, v))
  }

  lemma DriftIsIdle(s: Setting, w: World, v: World)
    requires Drift(s, w, v)
    ensures Idle(s, w, v)
  {
    RelyIsSteady(s, w, v);
    if Referred(s, w) {
      ReferredStays(s, w, v, Key("", App("")));
    }
    hide Rely, Steady, Kept, Referred;
  }

  /** The second trace goes on from the first. */
  ghost predicate Extends(t: seq<Step>, u: seq<Step>) {
    t <= u
  }

  lemma TracesExtend()
    ensures forall t, u, v :: Extends(t, u) && Extends(u, v) ==> Extends(t, v)
    ensures forall t :: Extends(t, t)
  {
  }

  /** Claim `k` existed and was not being deleted in some state between two traces from `start`. */
  ghost predicate Stood(s: Setting, start: World, t: seq<Step>, u: seq<Step>, k: Key) {
    exists n :: |t| <= n <= |u| && Standing(Run(s, start, u[..n]).pvcs, k)
  }

  lemma StoodStays(s: Setting, start: World, t: seq<Step>, u: seq<Step>, v: seq<Step>, k: Key)
    requires Stood(s, start, t, u, k) && Extends(u, v)
    ensures Stood(s, start, t, v, k)
  {
    var n :| |t| <= n <= |u| && Standing(Run(s, start, u[..n]).pvcs, k);
    assert v[..n] == u[..n];
  }

  /** Between two traces the environment alone has acted. */
  ghost predicate Idled(t: seq<Step>, u: seq<Step>) {
    t <= u && forall i :: |t| <= i < |u| ==> u[i].Environment?
  }

  /** Between two traces the operator has taken `step` at most. */
  ghost predicate Took(t: seq<Step>, u: seq<Step>, step: Step) {
    t <= u && forall i :: |t| <= i < |u| ==> u[i].Environment? || u[i] == step
  }

  class Cluster {
    const s: Setting
    ghost const start: World
    var w: World
    ghost var trace: seq<Step>

    /** The cluster is in the state that a legal run from a good start has reached. */
    ghost predicate Valid()
      reads this
    {
      && Inv(s, start) && LegalRun(s, start, trace) && w == Run(s, start, trace)
      && Inv(s, w)
    }

    constructor (s: Setting, w: World)
      requires Inv(s, w)
      ensures Valid() && this.s == s && this.w == w && trace == [] && start == w
    {
      this.s := s;
      this.start := w;
      this.w := w;
      this.trace := [];
    }

    method Take(step: Step)
      requires Valid() && Legal(s, w, step)
      modifies this
      ensures Valid() && w == Apply(s, old(w), step) && trace == old(trace) + [step]
    {
      hide Inv, Legal, Apply;
      StepKeeps(s, w, step);
      w := Apply(s, w, step);
      trace := trace + [step];
      assert trace[..|trace| - 1] == old(trace);
    }

    method Event(e: Event)
      requires Valid()
      modifies this
      ensures Valid() && Rely(s, old(w), w) && trace == old(trace) + [Environment(e)]
      ensures w == Occur(s, old(w), e)
    {
      assert Legal(s, w, Environment(e)) && Apply(s, w, Environment(e)) == Occur(s, w, e);
      hide Inv, Legal, Apply, Rely, Occur;
      EventKeeps(s, w, e);
      Take(Environment(e));
    }

    /** Any number of events, unless the setting keeps the environment calm during a reconcile. */
    method Interfere()
      requires Valid()
      modifies this
      ensures Valid() && Drift(s, old(w), w) && Idled(old(trace), trace)
      ensures Extends(old(trace), trace)
    {
      var n: nat := *;
      assert Rely(s, w, w);
      hide Inv, Rely, LegalRun;
      while !s.calm && n > 0
        invariant Valid() && Rely(s, old(w), w) && Idled(old(trace), trace)
        invariant s.calm ==> w == old(w)
      {
        var e: Event := *;
        label before:
        Event(e);
        RelyIsTransitive(s, old(w), old@before(w), w);
        n := n - 1;
      }
    }

    /** One call that changes nothing; it may fail unless the setting is reliable. */
    method Read() returns (failed: bool)
      requires Valid()
      modifies this
      ensures Valid() && Drift(s, old(w), w) && Idled(old(trace), trace)
      ensures Extends(old(trace), trace)
      ensures failed ==> !s.reliable
    {
      failed := *;
      failed := failed && !s.reliable;
      Interfere();
    }

    /** One write. A failed call has no effect. */
    method Write(step: Step) returns (failed: bool)
      requires Valid() && Legal(s, w, step)
      modifies this
      ensures Valid() && Took(old(trace), trace, step)
      ensures Extends(old(trace), trace)
      ensures failed ==> !s.reliable && Drift(s, old(w), w)
      ensures !failed ==> Drift(s, Apply(s, old(w), step), w)
    {
      hide Inv, Rely, LegalRun, Legal, Apply;
      failed := *;
      failed := failed && !s.reliable;
      if !failed {
        Take(step);
      }
      Interfere();
    }

    // ---------- claims ----------

    method GetPVC(k: Key) returns (r: Result<PVC>)
      requires Valid()
      modifies this
      ensures Idled(old(trace), trace)
      ensures Extends(old(trace), trace)
      ensures Valid() && Drift(s, old(w), w) && Got(s, r, old(w).pvcs, k)
      ensures Steady(s, old(w), w) && Kept(old(w).pvcs, w.pvcs) && w.pvs == old(w).pvs && w.pvcs.Keys <= old(w).pvcs.Keys
      ensures k in w.pvcs ==> SameClaim(old(w).pvcs[k], w.pvcs[k])
      ensures Referred(s, old(w)) ==> Referred(s, w)
      ensures r.Success? && k.name.Tmp? && !r.value.deleting ==> Standing(w.pvcs, k)
    {
      r := if k in w.pvcs then Success(w.pvcs[k]) else Failure(NotFound);
      ghost var w0 := w;
      var failed := Read();
      GetFacts(s, w0, w, k);
      if failed {
        r := Failure(Fault);
      }
    }

    method CreatePVC(k: Key, p: PVC) returns (o: Outcome)
      requires Valid()
      requires k !in w.pvcs ==> Legal(s, w, Step.CreatePVC(k, p))
      modifies this
      ensures Took(old(trace), trace, Step.CreatePVC(k, p))
      ensures Extends(old(trace), trace)
      ensures Valid() && Steady(s, old(w), w) && Kept(old(w).pvcs, w.pvcs) && w.pvs == old(w).pvs
      ensures w.pvcs.Keys <= old(w).pvcs.Keys + if o.Success? then {k} else {}
      ensures o.Success? ==> k !in old(w).pvcs && k in w.pvcs && SameClaim(p, w.pvcs[k])
      ensures o.Failure? ==> (o.error == AlreadyExists && k in old(w).pvcs) || (o.error == Fault && !s.reliable)
      ensures s.calm ==> w == if o.Success? then old(w).(pvcs := old(w).pvcs[k := p]) else old(w)
    {
      hide Inv, LegalRun, Rely, Steady, Kept;
      var failed;
      ghost var w0 := w;
      if k in w.pvcs {
        failed := Read();
        RelyIsSteady(s, w0, w);
        return Failure(if failed then Fault else AlreadyExists);
      }
      failed := Write(Step.CreatePVC(k, p));
      if failed {
        RelyIsSteady(s, w0, w);
        return Failure(Fault);
      }
      CreationIsSteady(s, w0, k, p, w);
      return OK;
    }

    method UpdatePVC(k: Key, was: PVC, p: PVC) returns (o: Outcome)
      requires Valid()
      requires k in w.pvcs && w.pvcs[k] == was ==> Legal(s, w, Step.UpdatePVC(k, p))
      modifies this
      ensures Took(old(trace), trace, Step.UpdatePVC(k, p))
      ensures Extends(old(trace), trace)
      ensures Valid() && Steady(s, old(w), w) && w.pvs == old(w).pvs && w.pvcs.Keys <= old(w).pvcs.Keys
      ensures Replaced(s, o, old(w).pvcs, k, was)
      ensures forall j :: k == j || k == TmpOf(j) ==> OthersKept(old(w).pvcs, w.pvcs, j)
      ensures o.Success? && k in w.pvcs ==> SameClaim(p, w.pvcs[k])
      ensures o.Success? && p.Held() ==> k in w.pvcs
      ensures o.Success? && SameClaim(was, p) ==> Kept(old(w).pvcs, w.pvcs)
      ensures o.Failure? ==> Kept(old(w).pvcs, w.pvcs)
      ensures s.calm ==> w == if o.Success? then old(w).(pvcs := StoreClaim(old(w).pvcs, k, p)) else old(w)
      ensures o.Failure? ==> o.error.OfCall()
    {
      hide Inv, LegalRun, Rely, Steady, Kept, SameClaim;
      var failed;
      ghost var w0 := w;
      if k !in w.pvcs || w.pvcs[k] != was {
        o := Failure(if k in w.pvcs then Conflict else NotFound);
        failed := Read();
        RelyIsSteady(s, w0, w);
        KeptKeepsOthers(w0.pvcs, w.pvcs);
        return if failed then Failure(Fault) else o;
      }
      failed := Write(Step.UpdatePVC(k, p));
      if failed {
        RelyIsSteady(s, w0, w);
        KeptKeepsOthers(w0.pvcs, w.pvcs);
        return Failure(Fault);
      }
      UpdateIsSteady(s, w0, k, p, w);
      return OK;
    }

    method DeletePVC(k: Key) returns (o: Outcome)
      requires Valid()
      requires k in w.pvcs ==> Legal(s, w, Step.DeletePVC(k))
      modifies this
      ensures Took(old(trace), trace, Step.DeletePVC(k))
      ensures Extends(old(trace), trace)
      ensures Valid() && Steady(s, old(w), w) && w.pvs == old(w).pvs && w.pvcs.Keys <= old(w).pvcs.Keys
      ensures forall j :: k == j || k == TmpOf(j) ==> OthersKept(old(w).pvcs, w.pvcs, j)
      ensures o.Success? ==> k in old(w).pvcs && (k.name.Tmp? && s.plain ==> k !in w.pvcs)
      ensures o.Failure? ==> (o.error == NotFound && k !in old(w).pvcs) || (o.error == Fault && !s.reliable)
      ensures o == Failure(NotFound) ==> k !in w.pvcs
      ensures s.calm ==> w == if o.Success? then old(w).(pvcs := RequestDeletion(old(w).pvcs, k)) else old(w)
    {
      hide LegalRun, Rely, Steady, Kept, SameClaim, Claims, Relocating;
      var failed;
      ghost var w0 := w;
      if k !in w.pvcs {
        failed := Read();
        RelyIsSteady(s, w0, w);
        GetFacts(s, w0, w, k);
        KeptKeepsOthers(w0.pvcs, w.pvcs);
        return Failure(if failed then Fault else NotFound);
      }
      assert k.name.Tmp? && s.plain ==> w.pvcs[k].finalizers == {};
      hide Inv;
      failed := Write(Step.DeletePVC(k));
      if failed {
        RelyIsSteady(s, w0, w);
        KeptKeepsOthers(w0.pvcs, w.pvcs);
        return Failure(Fault);
      }
      DeletionIsSteady(s, w0, k, w);
      return OK;
    }

    // ---------- volumes ----------

    method GetPV(name: string) returns (r: Result<PV>)
      requires Valid()
      modifies this
      ensures Idled(old(trace), trace)
      ensures Extends(old(trace), trace)
      ensures Valid() && Drift(s, old(w), w) && Got(s, r, old(w).pvs, name)
      ensures Steady(s, old(w), w) && Kept(old(w).pvcs, w.pvcs) && w.pvs == old(w).pvs && w.pvcs.Keys <= old(w).pvcs.Keys
      ensures Referred(s, old(w)) ==> Referred(s, w)
    {
      r := if name in w.pvs then Success(w.pvs[name]) else Failure(NotFound);
      ghost var w0 := w;
      var failed := Read();
      GetFacts(s, w0, w, Key("", App("")));
      if failed {
        r := Failure(Fault);
      }
    }

    method UpdatePV(name: string, was: PV, pv: PV) returns (o: Outcome)
      requires Valid()
      requires name in w.pvs && w.pvs[name] == was ==> Legal(s, w, Step.UpdatePV(name, pv))
      modifies this
      ensures Took(old(trace), trace, Step.UpdatePV(name, pv))
      ensures Extends(old(trace), trace)
      ensures Valid() && Steady(s, old(w), w) && Kept(old(w).pvcs, w.pvcs) && Replaced(s, o, old(w).pvs, name, was)
      ensures w.pvs == (if o.Success? then old(w).pvs[name := pv] else old(w).pvs) && w.pvcs.Keys <= old(w).pvcs.Keys
      ensures s.calm ==> w == if o.Success? then old(w).(pvs := old(w).pvs[name := pv]) else old(w)
    {
      hide Inv, LegalRun, Steady, Kept, SameClaims, SameSources, SameDestinations, NoNewPods;
      var failed;
      ghost var w0 := w;
      if name !in w.pvs || w.pvs[name] != was {
        o := Failure(if name in w.pvs then Conflict else NotFound);
        failed := Read();
        RelyIsSteady(s, w0, w);
        return if failed then Failure(Fault) else o;
      }
      failed := Write(Step.UpdatePV(name, pv));
      if failed {
        RelyIsSteady(s, w0, w);
        return Failure(Fault);
      }
      VolumeUpdateIsSteady(s, w0, name, pv, w);
      return OK;
    }

    // ---------- sources and destinations ----------

    method GetRS(k: Key) returns (r: Result<RS>)
      requires Valid()
      modifies this
      ensures Idled(old(trace), trace)
      ensures Extends(old(trace), trace)
      ensures Valid() && Idle(s, old(w), w) && Got(s, r, old(w).rss, k)
      ensures r.Success? ==> k in w.rss && SameSource(r.value, w.rss[k])
    {
      r := if k in w.rss then Success(w.rss[k]) else Failure(NotFound);
      ghost var w0 := w;
      hide Inv, LegalRun, SameClaims, SameDestinations, NoNewPods, SameSource;
      var failed := Read();
      DriftIsIdle(s, w0, w);
      if failed {
        r := Failure(Fault);
      }
    }

    method DeleteRS(k: Key) returns (o: Outcome)
      requires Valid()
      requires k in w.rss ==> GateOpen(s, w)
      modifies this
      ensures Took(old(trace), trace, Step.DeleteRS(k))
      ensures Extends(old(trace), trace)
      ensures Valid() && Demoting(s, old(w), w)
      ensures Kept(old(w).pvcs, w.pvcs) && w.pvs == old(w).pvs && w.pvcs.Keys <= old(w).pvcs.Keys
      ensures w.rss.Keys == old(w).rss.Keys - (if o.Success? then {k} else {}) && w.rds.Keys == old(w).rds.Keys
      ensures o.Success? ==> k in old(w).rss
      ensures o.Failure? ==> (o.error == NotFound && k !in old(w).rss) || (o.error == Fault && !s.reliable)
      ensures s.calm ==> w == if o.Success? then old(w).(rss := old(w).rss - {k}) else old(w)
    {
      hide Inv, LegalRun, Rely, Demoting, Kept;
      ghost var w0 := w;
      var present := k in w.rss;
      var failed;
      if present {
        failed := Write(Step.DeleteRS(k));
      } else {
        failed := Read();
      }
      if !present || failed {
        NothingWritten(s, w0, w);
        return Failure(if failed then Fault else NotFound);
      }
      SourceDeletionIsDemoting(s, w0, k, w);
      return OK;
    }

    /** Creates source `k`, or replaces the value `was` that was read. */
    method PutRS(k: Key, was: Option<RS>, rs: RS) returns (o: Outcome)
      requires Valid()
      requires (k in w.rss <==> was.Some?) && (was.Some? ==> w.rss[k] == was.value) ==> Legal(s, w, Step.PutRS(k, rs))
      modifies this
      ensures Took(old(trace), trace, Step.PutRS(k, rs))
      ensures Extends(old(trace), trace)
      ensures Valid() && SameGroup(old(w).vgr, w.vgr) && Policy(s, old(w), w) && SameDestinations(old(w).rds, w.rds)
      ensures Kept(old(w).pvcs, w.pvcs) && w.pvs == old(w).pvs && w.pvcs.Keys <= old(w).pvcs.Keys
      ensures OtherSources(old(w).rss, w.rss, k) && w.rss.Keys == old(w).rss.Keys + if o.Success? then {k} else {}
      ensures o.Success? ==> (k in old(w).rss <==> was.Some?) && (was.Some? ==> old(w).rss[k] == was.value)
      ensures o.Success? ==> k in w.rss && SameSource(Settled(rs), w.rss[k])
      ensures o.Failure? ==> SameSources(old(w).rss, w.rss) && o.error.OfCall()
      ensures o.Failure? && s.reliable ==> !((k in old(w).rss <==> was.Some?) && (was.Some? ==> old(w).rss[k] == was.value))
      ensures s.calm ==> w == if o.Success? then old(w).(rss := old(w).rss[k := Settled(rs)]) else old(w)
    {
      hide Inv, LegalRun, Rely, Kept, Policy, SameDestinations, Settled;
      ghost var w0 := w;
      var present := k in w.rss;
      if present != was.Some? || (present && w.rss[k] != was.value) {
        var failed := Read();
        NothingWritten(s, w0, w);
        return Failure(if failed then Fault else if was.None? then AlreadyExists else if present then Conflict else NotFound);
      }
      var failed := Write(Step.PutRS(k, rs));
      if failed {
        NothingWritten(s, w0, w);
        return Failure(Fault);
      }
      SourceWriteIsLocal(s, w0, k, rs, w);
      return OK;
    }

    method GetRD(k: Key) returns (r: Result<RD>)
      requires Valid()
      modifies this
      ensures Idled(old(trace), trace)
      ensures Extends(old(trace), trace)
      ensures Valid() && Idle(s, old(w), w) && Got(s, r, old(w).rds, k)
      ensures r.Failure? ==> r.error.OfCall()
    {
      r := if k in w.rds then Success(w.rds[k]) else Failure(NotFound);
      ghost var w0 := w;
      hide Inv, LegalRun, Rely;
      var failed := Read();
      DriftIsIdle(s, w0, w);
      if failed {
        r := Failure(Fault);
      }
    }

    method DeleteRD(k: Key) returns (o: Outcome)
      requires Valid()
      modifies this
      ensures Took(old(trace), trace, Step.DeleteRD(k))
      ensures Extends(old(trace), trace)
      ensures Valid() && SameGroup(old(w).vgr, w.vgr) && Policy(s, old(w), w) && SameSources(old(w).rss, w.rss)
      ensures Kept(old(w).pvcs, w.pvcs) && w.pvs == old(w).pvs && w.pvcs.Keys <= old(w).pvcs.Keys
      ensures w.rds.Keys == old(w).rds.Keys - if o.Success? then {k} else {}
      ensures forall j :: j in w.rds ==> w.rds[j].labels == old(w).rds[j].labels
      ensures o.Success? ==> k in old(w).rds
      ensures o.Failure? ==> (o.error == NotFound && k !in old(w).rds) || (o.error == Fault && !s.reliable)
      ensures s.calm ==> w == if o.Success? then old(w).(rds := old(w).rds - {k}) else old(w)
    {
      hide Inv, LegalRun, Rely, Kept;
      ghost var w0 := w;
      var present := k in w.rds;
      var failed;
      if present {
        failed := Write(Step.DeleteRD(k));
      } else {
        failed := Read();
      }
      if !present || failed {
        NothingWritten(s, w0, w);
        return Failure(if failed then Fault else NotFound);
      }
      NothingWritten(s, w0.(rds := w0.rds - {k}), w);
      return OK;
    }

    /** Creates destination `k`, or replaces the value `was` that was read. */
    method PutRD(k: Key, was: Option<RD>, rd: RD) returns (o: Outcome)
      requires Valid()
      requires (k in w.rds <==> was.Some?) && (was.Some? ==> w.rds[k] == was.value) ==>
        && Legal(s, w, Step.PutRD(k, rd))
        && (was.Some? ==> rd.address == was.value.address && (Writes(was.value, k, w.vgr) ==> Writes(rd, k, w.vgr)))
      modifies this
      ensures Took(old(trace), trace, Step.PutRD(k, rd))
      ensures Extends(old(trace), trace)
      ensures Valid() && Demoting(s, old(w), w) && w.rss.Keys == old(w).rss.Keys
      ensures Kept(old(w).pvcs, w.pvcs) && w.pvs == old(w).pvs && w.pvcs.Keys <= old(w).pvcs.Keys
      ensures o.Success? ==> k in w.rds && (rd.address.Some? ==> w.rds[k].address.Some?)
      ensures o.Success? && Writes(rd, k, old(w).vgr) ==> Writes(w.rds[k], k, w.vgr)
      ensures o.Success? ==> (k in old(w).rds <==> was.Some?) && (was.Some? ==> old(w).rds[k] == was.value)
      ensures o.Failure? ==> o.error.OfCall()
      ensures o.Failure? && s.reliable ==> !((k in old(w).rds <==> was.Some?) && (was.Some? ==> old(w).rds[k] == was.value))
      ensures s.calm ==> w == if o.Success? then old(w).(rds := old(w).rds[k := rd]) else old(w)
    {
      hide Inv, LegalRun, Rely, Kept, Demoting;
      ghost var w0 := w;
      var present := k in w.rds;
      if present != was.Some? || (present && w.rds[k] != was.value) {
        var failed := Read();
        NothingWritten(s, w0, w);
        return Failure(if failed then Fault else if was.None? then AlreadyExists else if present then Conflict else NotFound);
      }
      var failed := Write(Step.PutRD(k, rd));
      if failed {
        NothingWritten(s, w0, w);
        return Failure(Fault);
      }
      DestinationWriteIsDemoting(s, w0, k, rd, w);
      return OK;
    }

    // ---------- lists ----------

    method ListPVCs(sel: Selector, ns: Option<string>, owner: Option<string>) returns (r: Result<seq<Item<PVC>>>)
      requires Valid()
      modifies this
      ensures Idled(old(trace), trace)
      ensures Extends(old(trace), trace)
      ensures Valid() && Idle(s, old(w), w)
      ensures r.Success? ==> Lists(r.value, Matching(old(w).pvcs, sel, ns, owner))
      ensures r.Failure? ==> r.error == Fault && !s.reliable
    {
      var items := ItemsOf(Matching(w.pvcs, sel, ns, owner));
      r := Success(items);
      ghost var w0 := w;
      hide Inv, LegalRun, Rely, Lists;
      var failed := Read();
      DriftIsIdle(s, w0, w);
      if failed {
        r := Failure(Fault);
      }
    }

    method ListRSs(ns: string, owner: Option<string>) returns (r: Result<seq<Item<RS>>>)
      requires Valid()
      modifies this
      ensures Idled(old(trace), trace)
      ensures Extends(old(trace), trace)
      ensures Valid() && Idle(s, old(w), w)
      ensures r.Success? ==> Lists(r.value, OwnedSources(InNamespace(old(w).rss, ns), owner))
      ensures r.Failure? ==> r.error == Fault && !s.reliable
    {
      var items := ItemsOf(OwnedSources(InNamespace(w.rss, ns), owner));
      r := Success(items);
      ghost var w0 := w;
      hide Inv, LegalRun, Rely, Lists;
      var failed := Read();
      DriftIsIdle(s, w0, w);
      if failed {
        r := Failure(Fault);
      }
    }

    method ListRDs(ns: string, owner: Option<string>) returns (r: Result<seq<Item<RD>>>)
      requires Valid()
      modifies this
      ensures Idled(old(trace), trace)
      ensures Extends(old(trace), trace)
      ensures Valid() && Idle(s, old(w), w)
      ensures r.Success? ==> Lists(r.value, OwnedDestinations(InNamespace(old(w).rds, ns), owner))
      ensures r.Failure? ==> r.error == Fault && !s.reliable
    {
      var items := ItemsOf(OwnedDestinations(InNamespace(w.rds, ns), owner));
      r := Success(items);
      ghost var w0 := w;
      hide Inv, LegalRun, Rely, Lists;
      var failed := Read();
      DriftIsIdle(s, w0, w);
      if failed {
        r := Failure(Fault);
      }
    }

    method ListPods(ns: string) returns (r: Result<seq<Item<Pod>>>)
      requires Valid()
      modifies this
      ensures Idled(old(trace), trace)
      ensures Extends(old(trace), trace)
      ensures Valid() && Idle(s, old(w), w)
      ensures r.Success? ==> Lists(r.value, InNamespace(old(w).pods, ns))
      ensures r.Failure? ==> r.error == Fault && !s.reliable
    {
      var items := ItemsOf(InNamespace(w.pods, ns));
      r := Success(items);
      ghost var w0 := w;
      hide Inv, LegalRun, Rely, Lists;
      var failed := Read();
      DriftIsIdle(s, w0, w);
      if failed {
        r := Failure(Fault);
      }
    }

    // ---------- pods, jobs, secrets ----------

    method DeletePod(k: Key) returns (o: Outcome)
      requires Valid()
      modifies this
      ensures Took(old(trace), trace, Step.DeletePod(k))
      ensures Extends(old(trace), trace)
      ensures Valid() && Steady(s, old(w), w)
      ensures Kept(old(w).pvcs, w.pvcs) && w.pvs == old(w).pvs && w.pvcs.Keys <= old(w).pvcs.Keys
      ensures o.Failure? ==> (o.error == NotFound && k !in old(w).pods) || (o.error == Fault && !s.reliable)
      ensures s.calm ==> w == if o.Success? then old(w).(pods := old(w).pods - {k}) else old(w)
    {
      hide Inv, LegalRun, Rely, Kept, SameSources, SameDestinations;
      ghost var w0 := w;
      var present := k in w.pods;
      var failed := Write(Step.DeletePod(k));
      if failed {
        RelyIsSteady(s, w0, w);
        return Failure(Fault);
      }
      RelyIsSteady(s, w0.(pods := w0.pods - {k}), w);
      assert w0.pods - {k} == w0.pods || present;
      return if present then OK else Failure(NotFound);
    }

    method DeleteJob(k: Key) returns (o: Outcome)
      requires Valid()
      modifies this
      ensures Took(old(trace), trace, Step.DeleteJob(k))
      ensures Extends(old(trace), trace)
      ensures Valid() && Steady(s, old(w), w)
      ensures Kept(old(w).pvcs, w.pvcs) && w.pvs == old(w).pvs && w.pvcs.Keys <= old(w).pvcs.Keys
      ensures o.Failure? ==> (o.error == NotFound && k !in old(w).jobs) || (o.error == Fault && !s.reliable)
      ensures s.calm ==> w == if o.Success? then old(w).(jobs := old(w).jobs - {k}) else old(w)
    {
      hide Inv, LegalRun, Rely, Kept, SameSources, SameDestinations;
      ghost var w0 := w;
      var present := k in w.jobs;
      var failed := Write(Step.DeleteJob(k));
      if failed {
        RelyIsSteady(s, w0, w);
        return Failure(Fault);
      }
      RelyIsSteady(s, w0.(jobs := w0.jobs - {k}), w);
      assert w0.jobs - {k} == w0.jobs || present;
      return if present then OK else Failure(NotFound);
    }

    method SecretExists(ns: string, name: string) returns (r: Result<bool>)
      requires Valid()
      modifies this
      ensures Idled(old(trace), trace)
      ensures Extends(old(trace), trace)
      ensures Valid() && Idle(s, old(w), w)
      ensures r.Success? ==> r.value == ((ns, name) in old(w).secrets)
      ensures r.Failure? ==> r.error == Fault && !s.reliable
    {
      r := Success((ns, name) in w.secrets);
      ghost var w0 := w;
      hide Inv, LegalRun, Rely;
      var failed := Read();
      DriftIsIdle(s, w0, w);
      if failed {
        r := Failure(Fault);
      }
    }

    // ---------- the VRG and the VGR ----------

    /** Reads of VRGs do not fail under relocation. */
    method GetVRG(k: Key) returns (r: Result<VRG>)
      requires Valid()
      modifies this
      ensures Idled(old(trace), trace)
      ensures Extends(old(trace), trace)
      ensures Valid() && Idle(s, old(w), w) && Got(s, r, old(w).vrgs, k)
      ensures r == Failure(Fault) ==> !s.relocating
    {
      r := if k in w.vrgs then Success(w.vrgs[k]) else Failure(NotFound);
      ghost var w0 := w;
      hide Inv, LegalRun, Rely;
      var failed := Read();
      DriftIsIdle(s, w0, w);
      if failed && !s.relocating {
        r := Failure(Fault);
      }
    }

    method ListVRGs(ns: string) returns (r: Result<seq<Item<VRG>>>)
      requires Valid()
      modifies this
      ensures Idled(old(trace), trace)
      ensures Extends(old(trace), trace)
      ensures Valid() && Idle(s, old(w), w)
      ensures r.Success? ==> Lists(r.value, InNamespace(old(w).vrgs, ns))
      ensures r.Failure? ==> r.error == Fault && !s.reliable && !s.relocating
    {
      var items := ItemsOf(InNamespace(w.vrgs, ns));
      r := Success(items);
      ghost var w0 := w;
      hide Inv, LegalRun, Rely, Lists;
      var failed := Read();
      DriftIsIdle(s, w0, w);
      if failed && !s.relocating {
        r := Failure(Fault);
      }
    }

    /** The VGR is gone when it is being deleted and the operator's finalizer is off. */
    method GetVGR() returns (r: Result<VGR>)
      requires Valid()
      modifies this
      ensures Idled(old(trace), trace)
      ensures Extends(old(trace), trace)
      ensures Valid() && Idle(s, old(w), w)
      ensures r.Success? ==> r.value == old(w).vgr && !(r.value.deleting && !r.value.finalizer)
      ensures r.Failure? ==>
        (r.error == NotFound && old(w).vgr.deleting && !old(w).vgr.finalizer) || (r.error == Fault && !s.reliable)
    {
      r := if w.vgr.deleting && !w.vgr.finalizer then Failure(NotFound) else Success(w.vgr);
      ghost var w0 := w;
      hide Inv, LegalRun, Rely;
      var failed := Read();
      DriftIsIdle(s, w0, w);
      if failed {
        r := Failure(Fault);
      }
    }

    /** Replaces the status of the VGR, provided it still is the value `was` that was read. */
    method UpdateStatus(was: VGR, status: Status) returns (o: Outcome)
      requires Valid()
      requires w.vgr == was ==> LegalStatus(s, w, status)
      modifies this
      ensures Took(old(trace), trace, Step.SetStatus(status))
      ensures Extends(old(trace), trace)
      ensures Valid() && Kept(old(w).pvcs, w.pvcs) && w.pvs == old(w).pvs && w.pvcs.Keys <= old(w).pvcs.Keys
      ensures Steady(s, if o.Success? then old(w).(vgr := was.(status := status)) else old(w), w)
      ensures Referred(s, old(w)) ==> Referred(s, w)
      ensures o.Success? ==> old(w).vgr == was
      ensures o.Failure? && s.reliable ==> old(w).vgr != was
      ensures s.calm ==> w == if o.Success? then old(w).(vgr := was.(status := status)) else old(w)
      ensures o.Failure? ==> o.error.OfCall()
    {
      hide Inv, LegalRun, Rely, Kept, Steady, Referred;
      ghost var w0 := w;
      if w.vgr != was {
        var failed := Read();
        DriftIsIdle(s, w0, w);
        return Failure(if failed then Fault else Conflict);
      }
      var failed := Write(Step.SetStatus(status));
      if failed {
        DriftIsIdle(s, w0, w);
        return Failure(Fault);
      }
      GroupWriteKeepsReferred(s, w0, w0.(vgr := was.(status := status)));
      DriftIsIdle(s, w0.(vgr := was.(status := status)), w);
      return OK;
    }

    /** Puts the operator's finalizer on the VGR or takes it off, provided it still is the value that was read. */
    method UpdateFinalizer(was: VGR, present: bool) returns (o: Outcome)
      requires Valid()
      requires w.vgr == was ==> Legal(s, w, Step.SetFinalizer(present))
      modifies this
      ensures Took(old(trace), trace, Step.SetFinalizer(present))
      ensures Extends(old(trace), trace)
      ensures Valid() && Kept(old(w).pvcs, w.pvcs) && w.pvs == old(w).pvs && w.pvcs.Keys <= old(w).pvcs.Keys
      ensures Steady(s, if o.Success? then old(w).(vgr := was.(finalizer := present)) else old(w), w)
      ensures Referred(s, old(w)) ==> Referred(s, w)
      ensures o.Success? ==> old(w).vgr == was
      ensures o.Failure? && s.reliable ==> old(w).vgr != was
      ensures s.calm ==> w == if o.Success? then old(w).(vgr := was.(finalizer := present)) else old(w)
      ensures o.Failure? ==> o.error.OfCall()
    {
      hide Inv, LegalRun, Rely, Kept, Steady, Referred;
      ghost var w0 := w;
      if w.vgr != was {
        var failed := Read();
        DriftIsIdle(s, w0, w);
        return Failure(if failed then Fault else Conflict);
      }
      var failed := Write(Step.SetFinalizer(present));
      if failed {
        DriftIsIdle(s, w0, w);
        return Failure(Fault);
      }
      GroupWriteKeepsReferred(s, w0, w0.(vgr := was.(finalizer := present)));
      DriftIsIdle(s, w0.(vgr := was.(finalizer := present)), w);
      return OK;
    }
  }

  /**
   The VGR as a reconcile holds it in memory: `base` is what the API server last returned, and the status of
   `vgr` is changed in place before it is written.
   */
  class GroupCopy {
    const client: Cluster
    var base: VGR
    var vgr: VGR

    constructor (client: Cluster, vgr: VGR)
      ensures this.client == client && this.base == vgr && this.vgr == vgr
    {
      this.client := client;
      this.base := vgr;
      this.vgr := vgr;
    }

    /** The copy was read before the VGR was deleted, and only its status has been changed since. */
    ghost predicate Tracks()
      reads this, client
    {
      SameGroup(base, client.w.vgr) && !base.deleting && vgr == base.(status := vgr.status)
    }
  }

  lemma GroupWriteKeepsReferred(s: Setting, w: World, v: World)
    requires v.pvcs == w.pvcs && v.pvs == w.pvs && v.vgr.deleting == w.vgr.deleting
    ensures Referred(s, w) ==> Referred(s, v)
  {
  }

  /** The facts of a call that has written nothing, in the terms of every kind of write. */
  lemma NothingWritten(s: Setting, w: World, v: World)
    requires Rely(s, w, v)
    ensures Demoting(s, w, v) && Policy(s, w, v) && SameGroup(w.vgr, v.vgr)
    ensures SameSources(w.rss, v.rss) && SameDestinations(w.rds, v.rds)
    ensures Kept(w.pvcs, v.pvcs) && v.pvs == w.pvs && v.pvcs.Keys <= w.pvcs.Keys
    ensures forall k :: OtherSources(w.rss, v.rss, k)
  {
    RelyIsSteady(s, w, v);
    hide SameClaims, Kept, NoNewPods, SameSource;
  }

  lemma GetFacts(s: Setting, w: World, v: World, k: Key)
    requires Rely(s, w, v) && Inv(s, w)
    ensures Steady(s, w, v) && Kept(w.pvcs, v.pvcs) && v.pvcs.Keys <= w.pvcs.Keys
    ensures k in v.pvcs ==> SameClaim(w.pvcs[k], v.pvcs[k])
    ensures Standing(w.pvcs, k) && k.name.Tmp? ==> Standing(v.pvcs, k)
    ensures Referred(s, w) ==> Referred(s, v)
  {
    if Referred(s, w) {
      ReferredStays(s, w, v, Key("", App("")));
    }
    hide Claims, Relocating, Exclusive, Guarded, SameSources, SameDestinations, NoNewPods;
    RelyIsSteady(s, w, v);
    assert StoreWellFormed(w.pvcs);
    assert SameClaims(w.pvcs, v.pvcs);
    if Standing(w.pvcs, k) && k.name.Tmp? {
      assert w.pvcs[k].Held();
    }
  }

  lemma KeptKeepsOthers(w: ClaimMap, v: ClaimMap)
    requires Kept(w, v)
    ensures forall j :: OthersKept(w, v, j)
  {
  }
}
