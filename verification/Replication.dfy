/** Turning a claim into a replication source or a replication destination. */
module Replication {

  import opened Names
  import opened Objects
  import opened System
  import opened Protocol
  import opened Handoff
  import opened Wrappers
  import Schedule

  function Labelled(labels: Labels, owner: VGR): Labels {
    labels[Owner := owner.name][OwnerNamespace := owner.ns]
  }

  /** All labels but the owner's are as they were. */
  ghost predicate OtherLabelsKept(was: Labels, now: Labels) {
    forall x :: x != Owner && x != OwnerNamespace ==> (x in now <==> x in was) && (x in was ==> now[x] == was[x])
  }

  lemma LabelledIsForOwner(labels: Labels, owner: VGR)
    ensures LabelledFor(owner, Labelled(labels, owner)) && OtherLabelsKept(labels, Labelled(labels, owner))
  {
  }

  /** The destination for claim `k`, created or updated. */
  function Destination(was: Option<RD>, owner: VGR, k: Key): RD {
    var rd := if was.Some? then was.value else RD(map[], k.name, None);
    rd.(labels := Labelled(rd.labels, owner), destinationPVC := k.name)
  }

  /** The source for claim `k`, created or updated: back on its schedule, and paused if it was. */
  function Source(was: Option<RS>, owner: VGR, k: Key, cron: string): RS {
    var rs := if was.Some? then was.value else RS(map[], k.name, false, Trigger.Schedule(cron), None, None);
    rs.(labels := Labelled(rs.labels, owner), sourcePVC := k.name, trigger := Trigger.Schedule(cron))
  }

  /** A destination keeps its address and the labels that are not the owner's. */
  ghost predicate DestinationKept(was: Option<RD>, rd: RD) {
    && rd.address == (if was.Some? then was.value.address else None)
    && OtherLabelsKept(if was.Some? then was.value.labels else map[], rd.labels)
  }

  /** A source stays paused if it was, and keeps its sync time and the labels that are not the owner's. */
  ghost predicate SourceKept(was: Option<RS>, rs: RS) {
    && rs.paused == (was.Some? && was.value.paused)
    && rs.lastSyncTime == (if was.Some? then was.value.lastSyncTime else None)
    && OtherLabelsKept(if was.Some? then was.value.labels else map[], rs.labels)
  }

  /** Source `rs` reads claim `k` for the VGR, on a schedule that keeps the interval. */
  ghost predicate Reads(rs: RS, k: Key, vgr: VGR, interval: string) {
    && rs.sourcePVC == k.name && LabelledFor(vgr, rs.labels)
    && rs.trigger.Schedule? && Schedule.Keeps(interval, rs.trigger.cron)
  }

  lemma DestinationMeans(was: Option<RD>, owner: VGR, k: Key)
    ensures Writes(Destination(was, owner, k), k, owner) && DestinationKept(was, Destination(was, owner, k))
  {
  }

  lemma SourceMeans(was: Option<RS>, owner: VGR, k: Key, cron: string, interval: string)
    requires Schedule.Keeps(interval, cron)
    ensures Reads(Source(was, owner, k, cron), k, owner, interval) && SourceKept(was, Source(was, owner, k, cron))
    ensures var rs := Settled(Source(was, owner, k, cron)); Reads(rs, k, owner, interval) && SourceKept(was, rs)
  {
    hide Schedule.Keeps;
  }

  function Found<V>(m: map<Key, V>, k: Key): Option<V> {
    if k in m then Some(m[k]) else None
  }

  function WithFinalizer(p: PVC): PVC {
    p.(finalizers := p.finalizers + {Protection})
  }

  function Protected(pvcs: ClaimMap, k: Key): ClaimMap {
    if k in pvcs && Protection !in pvcs[k].finalizers then pvcs[k := pvcs[k].(finalizers := pvcs[k].finalizers + {Protection})] else pvcs
  }

  // ---------- destinations ----------

  /** Claim `k` can be turned into a destination. */
  predicate Receivable(w: World, k: Key, secret: string) {
    && k.name.App? && k in w.pvcs && !w.pvcs[k].deleting && Temporary !in w.pvcs[k].annotations
    && (k.ns, secret) in w.secrets
  }

  /** The cluster after claim `k` was reconciled as a destination, without interference or faults. */
  function AsDestination(w: World, owner: VGR, k: Key, secret: string): World {
    if k.name.Tmp? then w.(rss := w.rss - {k})
    else if Going(w.pvcs, k) then HandOffAfter(w, k, true, 3)
    else if !Receivable(w, k, secret) then w
    else w.(rss := w.rss - {k}, rds := w.rds[k := Destination(Found(w.rds, k), owner, k)], pvcs := Protected(w.pvcs, k))
  }

  predicate Addressable(w: World, k: Key) {
    k in w.rds && w.rds[k].address.Some?
  }

  /** Claim `k` has a destination of the VGR that writes it, and no source. */
  predicate Receiving(w: World, k: Key) {
    k in w.rds && Writes(w.rds[k], k, w.vgr) && k !in w.rss
  }

  /** Claim `k` is protected, is written by a destination of the VGR, and is no source. */
  ghost predicate Turned(w: World, k: Key) {
    k.name.App? && k in w.pvcs && Protection in w.pvcs[k].finalizers && Receiving(w, k)
  }

  /** The same, and the address of the destination is known. */
  ghost predicate Demoted(w: World, k: Key) {
    Turned(w, k) && Addressable(w, k)
  }

  /** What was done for one claim stays while another one is handled. */
  lemma DemotedStays(s: Setting, w: World, v: World, k: Key, other: Key)
    requires Demoted(w, k) && Demoting(s, w, v) && OthersKept(w.pvcs, v.pvcs, other)
    requires k != other && k != TmpOf(other)
    ensures Demoted(v, k)
  {
    assert w.pvcs[k].Held();
  }

  // ---------- sources ----------

  /** Claim `k` can be turned into a source. */
  predicate Sendable(w: World, k: Key, secret: string) {
    k.name.App? && !Going(w.pvcs, k) && (k.ns, secret) in w.secrets
  }

  function WithOwner(pvcs: ClaimMap, owner: VGR, k: Key): ClaimMap {
    if k in pvcs then pvcs[k := pvcs[k].(labels := Labelled(pvcs[k].labels, owner))] else pvcs
  }

  function WithSource(rss: SourceMap, owner: VGR, k: Key, cron: string): SourceMap {
    var rs := Source(Found(rss, k), owner, k, cron);
    if Found(rss, k) == Some(rs) then rss else rss[k := Settled(rs)]
  }

  function TurnedIntoSource(w: World, owner: VGR, k: Key, interval: string): World {
    var v := w.(rds := w.rds - {k}, pvcs := WithOwner(w.pvcs, owner, k));
    match Schedule.CronSpec(interval)
    case Failure(_) => v
    case Success(cron) => v.(rss := WithSource(w.rss, owner, k, cron), pvcs := Protected(v.pvcs, k))
  }

  /** The cluster after claim `k` was reconciled as a source, without interference or faults. */
  function AsSource(w: World, owner: VGR, k: Key, secret: string, interval: string): World {
    if Sendable(w, k, secret) then TurnedIntoSource(w, owner, k, interval) else w
  }

  /** The claim carries the owner labels and the operator's finalizer, and is otherwise as it was. */
  ghost predicate ClaimTakenOver(p: PVC, q: PVC, owner: VGR) {
    && LabelledFor(owner, q.labels) && OtherLabelsKept(p.labels, q.labels)
    && q == p.(labels := q.labels, finalizers := p.finalizers + {Protection})
  }

  /** Claim `k` was labelled and protected if it exists; all others are as they were. */
  ghost predicate ClaimsTakenOver(w: ClaimMap, v: ClaimMap, owner: VGR, k: Key) {
    && v.Keys == w.Keys && (forall c :: c in w && c != k ==> v[c] == w[c])
    && (k in w ==> ClaimTakenOver(w[k], v[k], owner))
  }

  /** There is a source for claim `k` now; all other sources are as they were. */
  ghost predicate SourceAdded(w: SourceMap, v: SourceMap, owner: VGR, k: Key, interval: string) {
    && v.Keys == w.Keys + {k} && (forall j :: j in w && j != k ==> v[j] == w[j])
    && Reads(v[k], k, owner, interval) && SourceKept(Found(w, k), v[k])
  }

  /** Claim `k` was made a source and is no destination any more, and nothing else was touched. */
  ghost predicate BecameSource(w: World, v: World, owner: VGR, k: Key, interval: string) {
    && SourceAdded(w.rss, v.rss, owner, k, interval) && ClaimsTakenOver(w.pvcs, v.pvcs, owner, k)
    && v == w.(rss := v.rss, rds := w.rds - {k}, pvcs := v.pvcs)
  }

  lemma WrittenSourceIsAdded(rss: SourceMap, owner: VGR, k: Key, cron: string, interval: string)
    requires Schedule.Keeps(interval, cron)
    ensures SourceAdded(rss, WithSource(rss, owner, k, cron), owner, k, interval)
  {
    SourceMeans(Found(rss, k), owner, k, cron, interval);
    hide Source, Settled, Reads, SourceKept;
  }

  lemma OwnedClaimIsTakenOver(pvcs: ClaimMap, owner: VGR, k: Key)
    ensures ClaimsTakenOver(pvcs, Protected(WithOwner(pvcs, owner, k), k), owner, k)
  {
    if k in pvcs {
      LabelledIsForOwner(pvcs[k].labels, owner);
      hide Labelled, LabelledFor, OtherLabelsKept;
      var p := pvcs[k].(labels := Labelled(pvcs[k].labels, owner));
      assert Protection in p.finalizers ==> p.finalizers + {Protection} == p.finalizers;
    }
  }

  /** What the reconcile of a source comes to. */
  lemma TurnedIntoSourceMeans(w: World, owner: VGR, k: Key, interval: string)
    requires Schedule.CronSpec(interval).Success?
    ensures BecameSource(w, TurnedIntoSource(w, owner, k, interval), owner, k, interval)
  {
    Schedule.CronSpecKeeps(interval);
    hide Schedule.CronSpec, Schedule.Keeps, Schedule.WellFormed, Schedule.Malformed;
    WrittenSourceIsAdded(w.rss, owner, k, Schedule.CronSpec(interval).value, interval);
    OwnedClaimIsTakenOver(w.pvcs, owner, k);
    hide WithSource, WithOwner, Protected, SourceAdded, ClaimsTakenOver;
  }

  lemma SourceHasSyncTime(w: World, owner: VGR, k: Key, interval: string, rs: RS)
    requires Schedule.CronSpec(interval).Success? && rs == Source(Found(w.rss, k), owner, k, Schedule.CronSpec(interval).value)
    requires BecameSource(w, TurnedIntoSource(w, owner, k, interval), owner, k, interval)
    ensures rs.lastSyncTime == TurnedIntoSource(w, owner, k, interval).rss[k].lastSyncTime
    ensures rs.lastSyncTime == if k in w.rss then w.rss[k].lastSyncTime else None
  {
    hide Schedule.CronSpec, Reads, TurnedIntoSource, ClaimsTakenOver;
  }

  // ---------- reconciling again ----------

  lemma DestinationAgain(was: Option<RD>, owner: VGR, k: Key)
    ensures Destination(Some(Destination(was, owner, k)), owner, k) == Destination(was, owner, k)
  {
  }

  lemma SourceAgain(was: Option<RS>, owner: VGR, k: Key, cron: string)
    ensures Source(Some(Settled(Source(was, owner, k, cron))), owner, k, cron) == Settled(Source(was, owner, k, cron))
  {
  }

  lemma ProtectedAgain(pvcs: ClaimMap, k: Key)
    ensures Protected(Protected(pvcs, k), k) == Protected(pvcs, k)
  {
  }

  lemma LabelledAgain(pvcs: ClaimMap, owner: VGR, k: Key)
    ensures WithOwner(Protected(WithOwner(pvcs, owner, k), k), owner, k) == Protected(WithOwner(pvcs, owner, k), k)
  {
    assert forall l: Labels :: Labelled(Labelled(l, owner), owner) == Labelled(l, owner);
    hide Labelled;
  }

  /** A claim that has been made a destination is left as it is by the next reconcile. */
  lemma DestinationsAreStable(w: World, owner: VGR, k: Key, secret: string)
    requires Receivable(w, k, secret)
    ensures var v := AsDestination(w, owner, k, secret); AsDestination(v, owner, k, secret) == v
  {
    var rd := Destination(Found(w.rds, k), owner, k);
    DestinationAgain(Found(w.rds, k), owner, k);
    ProtectedAgain(w.pvcs, k);
    ProtectedIsReceivable(w.pvcs, k);
    assert w.rds[k := rd][k := rd] == w.rds[k := rd] && w.rss - {k} - {k} == w.rss - {k};
    hide Destination, Protected, HandOffAfter;
  }

  lemma ProtectedIsReceivable(pvcs: ClaimMap, k: Key)
    ensures var v := Protected(pvcs, k);
      (k in v <==> k in pvcs) && (k in pvcs ==> v[k].deleting == pvcs[k].deleting && v[k].annotations == pvcs[k].annotations)
  {
  }

  /** So is one that has been made a source. */
  lemma SourcesAreStable(w: World, owner: VGR, k: Key, secret: string, interval: string)
    requires Sendable(w, k, secret)
    ensures var v := AsSource(w, owner, k, secret, interval); AsSource(v, owner, k, secret, interval) == v
  {
    var cron := Schedule.CronSpec(interval);
    hide Schedule.CronSpec;
    SourceMapAgain(w.rss, owner, k, if cron.Success? then cron.value else "");
    LabelledAgain(w.pvcs, owner, k);
    LabelsAgain(w.pvcs, owner, k);
    ProtectedAgain(WithOwner(w.pvcs, owner, k), k);
    assert w.rds - {k} - {k} == w.rds - {k};
    hide WithOwner, Protected, WithSource;
  }

  lemma LabelsAgain(pvcs: ClaimMap, owner: VGR, k: Key)
    ensures WithOwner(WithOwner(pvcs, owner, k), owner, k) == WithOwner(pvcs, owner, k)
    ensures Going(Protected(WithOwner(pvcs, owner, k), k), k) == Going(pvcs, k)
    ensures Going(WithOwner(pvcs, owner, k), k) == Going(pvcs, k)
  {
    assert forall l: Labels :: Labelled(Labelled(l, owner), owner) == Labelled(l, owner);
    hide Labelled;
  }

  lemma SourceMapAgain(rss: SourceMap, owner: VGR, k: Key, cron: string)
    ensures WithSource(WithSource(rss, owner, k, cron), owner, k, cron) == WithSource(rss, owner, k, cron)
  {
    SourceAgain(Found(rss, k), owner, k, cron);
    hide Source, Settled;
  }
}
