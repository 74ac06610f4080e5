/**
 The invariants of the storage hand-off, the condition under which the operator may take each step,
 and what a caller may rely on while the environment acts. Each predicate takes the part of the cluster it is about.
 */
module Protocol {

  import opened Names
  import opened Objects
  import opened System
  import opened Wrappers

  type Group = map<Key, string>
  type ClaimMap = map<Key, PVC>
  type SourceMap = map<Key, RS>
  type PodMap = map<Key, Pod>

  // ---------- invariants ----------

  /** The claims of the group are application claims in the VGR's namespace, each with a volume of its own. */
  ghost predicate GroupWellFormed(g: Group, ns: string) {
    && (forall k :: k in g ==> k.name.App? && k.ns == ns && g[k] != "")
    && (forall k, l :: k in g && l in g && g[k] == g[l] ==> k == l)
  }

  /** A deleting claim has a finalizer left, and the operator never puts its own on a stand-in. */
  ghost predicate StoreWellFormed(pvcs: ClaimMap) {
    && (forall c :: c in pvcs && pvcs[c].deleting ==> pvcs[c].finalizers != {})
    && (forall c :: c in pvcs && c.name.Tmp? ==> c.name.of.App? && Protection !in pvcs[c].finalizers)
  }

  /** Stand-ins have no finalizers, so deleting one removes it at once. */
  ghost predicate PlainStandIns(pvcs: ClaimMap) {
    forall c :: c in pvcs && c.name.Tmp? ==> pvcs[c].finalizers == {}
  }

  /** The claim exists and is being deleted. */
  predicate Going(pvcs: ClaimMap, c: Key) {
    c in pvcs && pvcs[c].deleting
  }

  /** The claim exists and is not being deleted. */
  predicate Standing(pvcs: ClaimMap, c: Key) {
    c in pvcs && !pvcs[c].deleting
  }

  /** No claim outside the group names one of its volumes. */
  ghost predicate OwnVolumes(g: Group, pvcs: ClaimMap) {
    forall c, k :: c in pvcs && k in g && pvcs[c].volumeName == g[k] ==> c == k || c == TmpOf(k)
  }

  /** Group claim `k` and its stand-in name the volume of `k`. */
  ghost predicate NamedAt(volume: string, pvcs: ClaimMap, k: Key) {
    && (k in pvcs ==> pvcs[k].volumeName == volume)
    && (TmpOf(k) in pvcs ==> pvcs[TmpOf(k)].volumeName == volume)
  }

  ghost predicate Named(g: Group, pvcs: ClaimMap) {
    forall k :: k in g ==> NamedAt(g[k], pvcs, k)
  }

  /** Claim `k` or its stand-in is there to stay: the one is held, or the other is not being deleted. */
  ghost predicate PreservedAt(pvcs: ClaimMap, k: Key) {
    (k in pvcs && pvcs[k].Held()) || Standing(pvcs, TmpOf(k))
  }

  /** The volume's back reference names a claim of its own group that is there to stay. */
  ghost predicate AnchoredAt(volume: string, pvcs: ClaimMap, pvs: map<string, PV>, k: Key) {
    && volume in pvs
    && (|| (pvs[volume].claimRef == Some(k) && k in pvcs && pvcs[k].Held())
        || (pvs[volume].claimRef == Some(TmpOf(k)) && Standing(pvcs, TmpOf(k))))
  }

  ghost predicate Anchored(g: Group, pvcs: ClaimMap, pvs: map<string, PV>) {
    forall k :: k in g ==> AnchoredAt(g[k], pvcs, pvs, k)
  }

  /** No application pod mounts claim `k`. */
  ghost predicate Quiet(pods: PodMap, k: Key) {
    forall p :: p in pods && p.ns == k.ns && !pods[p].volsync ==> k.name !in pods[p].claims
  }

  /** Application pods do not mount temporary claims. */
  ghost predicate AppPods(pods: PodMap) {
    forall p :: p in pods && !pods[p].volsync ==> forall c :: c in pods[p].claims ==> c.App?
  }

  /** The source of claim `k` is gone or has recorded the final sync. */
  predicate Done(rss: SourceMap, k: Key) {
    k in rss ==> rss[k].Stamped()
  }

  /** Every source in the namespace has recorded the final sync. */
  ghost predicate AllStamped(rss: SourceMap, ns: string) {
    forall r :: r in rss && r.ns == ns ==> rss[r].Stamped()
  }

  /** Only a source whose trigger is the final sync carries its stamp. */
  ghost predicate StampsAreFinal(rss: SourceMap, ns: string) {
    forall r :: r in rss && r.ns == ns && rss[r].Stamped() ==> rss[r].FinalTriggered()
  }

  /** The final sync copies from the stand-in, and starts only when no application pod is on the claim. */
  ghost predicate Frozen(g: Group, rss: SourceMap, pods: PodMap) {
    forall k :: k in g && k in rss && rss[k].FinalTriggered() ==> rss[k].sourcePVC == Tmp(k.name) && Quiet(pods, k)
  }

  /** The remote copy of claim `k` holds everything its volume holds, and nothing will write the volume. */
  ghost predicate Safe(volume: string, pods: PodMap, content: map<string, nat>, remote: map<Key, nat>, k: Key) {
    Quiet(pods, k) && Version(remote, k) == Version(content, volume)
  }

  ghost predicate Lossless(g: Group, rss: SourceMap, pods: PodMap, content: map<string, nat>, remote: map<Key, nat>) {
    forall k :: k in g && Done(rss, k) ==> Safe(g[k], pods, content, remote, k)
  }

  /** A group claim is let go only after its final sync. */
  ghost predicate KeptUntilDone(g: Group, pvcs: ClaimMap, rss: SourceMap) {
    forall k :: k in g && (k !in pvcs || !pvcs[k].Held()) ==> Done(rss, k)
  }

  /** The selector finds each group claim, or its stand-in. */
  ghost predicate Selected(g: Group, sel: Selector, pvcs: ClaimMap) {
    forall k :: k in g ==>
      && (k in pvcs ==> Matches(sel, pvcs[k].labels))
      && (TmpOf(k) in pvcs ==> Matches(sel, pvcs[TmpOf(k)].labels))
  }

  /** Every group claim has had its final sync. */
  ghost predicate GroupDone(g: Group, rss: SourceMap) {
    forall k :: k in g ==> Done(rss, k)
  }

  /** There is a selector, and it tests no label that a restored claim loses. */
  ghost predicate StableSelector(vgr: VGR) {
    && vgr.selector.Some?
    && forall x :: x in vgr.selector.value ==> x.Owner? || x.OwnerNamespace? || x.ConsistencyGroup?
  }

  /** The VRG that owns the VGR asks for relocation to the other side. */
  ghost predicate Relocation(vgr: VGR, vrgs: map<Key, VRG>) {
    && vgr.owner.Some? && vgr.owner.value in vrgs && vgr.owner.value.ns == vgr.ns
    && vrgs[vgr.owner.value] == VRG(Relocate, Secondary)
  }

  ghost predicate Relocating(g: Group, w: World) {
    && Relocation(w.vgr, w.vrgs)
    && StableSelector(w.vgr) && Selected(g, w.vgr.selector.value, w.pvcs)
    && AppPods(w.pods)
    && StampsAreFinal(w.rss, w.vgr.ns)
    && Frozen(g, w.rss, w.pods)
    && Lossless(g, w.rss, w.pods, w.content, w.remote)
    && KeptUntilDone(g, w.pvcs, w.rss)
    && (w.vgr.status.state == SecondaryState ==> GroupDone(g, w.rss))
  }

  ghost predicate Claims(s: Setting, pvcs: ClaimMap, pvs: map<string, PV>) {
    && OwnVolumes(s.group, pvcs) && Named(s.group, pvcs)
    && (s.reliable && s.plain ==> Anchored(s.group, pvcs, pvs))
  }

  /** No claim is a source and a destination. */
  ghost predicate Exclusive(rss: SourceMap, rds: map<Key, RD>) {
    forall k :: k in rss ==> k !in rds
  }

  ghost predicate NothingOwned(vgr: VGR, rss: SourceMap, rds: map<Key, RD>) {
    && (forall k :: k in rss && k.ns == vgr.ns ==> !OwnedBy(vgr.name, rss[k].labels))
    && (forall k :: k in rds && k.ns == vgr.ns ==> !OwnedBy(vgr.name, rds[k].labels))
  }

  /** A VGR without the operator's finalizer leaves no replication object of its own behind. */
  ghost predicate Guarded(vgr: VGR, rss: SourceMap, rds: map<Key, RD>) {
    !vgr.finalizer ==> NothingOwned(vgr, rss, rds)
  }

  ghost predicate Inv(s: Setting, w: World) {
    && GroupWellFormed(s.group, w.vgr.ns) && StoreWellFormed(w.pvcs) && (s.plain ==> PlainStandIns(w.pvcs))
    && Exclusive(w.rss, w.rds) && Guarded(w.vgr, w.rss, w.rds)
    && (!w.vgr.deleting ==> Claims(s, w.pvcs, w.pvs))
    && (!w.vgr.deleting && s.relocating ==> Relocating(s.group, w))
  }

  // ---------- when the operator may take a step ----------

  /** A new claim names a group volume only as the group claim or its stand-in. */
  ghost predicate LegalCreate(s: Setting, w: World, c: Key, p: PVC) {
    && (forall k :: k in s.group && p.volumeName == s.group[k] ==> c == k || c == TmpOf(k))
    && (forall k :: k in s.group && (c == k || c == TmpOf(k)) ==> p.volumeName == s.group[k])
    && (s.relocating ==> forall k :: k in s.group && (c == k || c == TmpOf(k)) ==>
          w.vgr.selector.Some? && Matches(w.vgr.selector.value, p.labels) && (c == k ==> Done(w.rss, k)))
  }

  /**
   Claim `k` may lose finalizers: its data is safe, and when stand-ins are plain its stand-in exists and, without
   faults, its volume refers to the stand-in.
   */
  ghost predicate MayLetGo(s: Setting, w: World, k: Key)
    requires k in s.group
  {
    && (s.plain ==> TmpOf(k) in w.pvcs)
    && (s.relocating ==> Done(w.rss, k))
    && (s.reliable && s.plain ==> s.group[k] in w.pvs && w.pvs[s.group[k]].claimRef == Some(TmpOf(k)))
  }

  ghost predicate LegalUpdate(s: Setting, w: World, c: Key, p: PVC)
    requires c in w.pvcs
  {
    && p.volumeName == w.pvcs[c].volumeName
    && (c in s.group ==> w.pvcs[c].finalizers <= p.finalizers || MayLetGo(s, w, c))
    && (s.relocating ==> forall k :: k in s.group && (c == k || c == TmpOf(k)) ==>
          w.vgr.selector.Some? && Matches(w.vgr.selector.value, p.labels))
  }

  ghost predicate LegalDelete(s: Setting, w: World, c: Key) {
    forall k :: k in s.group ==>
      && c != k
      && (c == TmpOf(k) ==>
            && k in w.pvcs && w.pvcs[k].Held()
            && s.group[k] in w.pvs && w.pvs[s.group[k]].claimRef == Some(k))
  }

  ghost predicate LegalVolume(s: Setting, w: World, name: string, pv: PV) {
    s.plain ==> forall k :: k in s.group && s.group[k] == name ==>
      || (pv.claimRef == Some(k) && k in w.pvcs && w.pvcs[k].Held())
      || (pv.claimRef == Some(TmpOf(k)) && Standing(w.pvcs, TmpOf(k)))
  }

  /** The one write that may unpause: the final sync from the stand-in, with no application pod on the claim. */
  ghost predicate FinalSyncWrite(s: Setting, w: World, k: Key, rs: RS) {
    && rs.FinalTriggered() && rs.sourcePVC == Tmp(k.name)
    && (s.relocating ==> Quiet(w.pods, k))
  }

  ghost predicate LegalSource(s: Setting, w: World, k: Key, rs: RS) {
    && k !in w.rds
    && (k in w.rss && w.rss[k].paused && !rs.paused ==> FinalSyncWrite(s, w, k, rs))
    && (OwnedBy(w.vgr.name, rs.labels) ==> w.vgr.finalizer || (k in w.rss && OwnedBy(w.vgr.name, w.rss[k].labels)))
    && (!w.vgr.deleting && s.relocating ==>
          && k in w.rss && rs.lastManualSync == w.rss[k].lastManualSync
          && ((rs.trigger == w.rss[k].trigger && rs.sourcePVC == w.rss[k].sourcePVC) || FinalSyncWrite(s, w, k, rs)))
  }

  /** While the final sync is required, replication is torn down or reversed only behind a complete final sync. */
  ghost predicate GateOpen(s: Setting, w: World) {
    s.relocating && !w.vgr.deleting && w.vgr.status.state != SecondaryState ==> AllStamped(w.rss, w.vgr.ns)
  }

  ghost predicate LegalStatus(s: Setting, w: World, status: Status) {
    !w.vgr.deleting && s.relocating && status.state == SecondaryState ==> GroupDone(s.group, w.rss)
  }

  ghost predicate Legal(s: Setting, w: World, step: Step) {
    match step
    case CreatePVC(k, p) =>
      && k !in w.pvcs && !p.deleting && p.finalizers == {} && (k.name.Tmp? ==> k.name.of.App?)
      && (!w.vgr.deleting ==> LegalCreate(s, w, k, p))
    case UpdatePVC(k, p) =>
      && k in w.pvcs && p.deleting == w.pvcs[k].deleting && (p.deleting ==> p.finalizers <= w.pvcs[k].finalizers)
      && p.finalizers <= w.pvcs[k].finalizers + (if k.name.App? then {Protection} else {})
      && (!w.vgr.deleting ==> LegalUpdate(s, w, k, p))
    case DeletePVC(k) => !w.vgr.deleting ==> LegalDelete(s, w, k)
    case UpdatePV(name, pv) => !w.vgr.deleting ==> LegalVolume(s, w, name, pv)
    case PutRS(k, rs) => LegalSource(s, w, k, rs)
    case DeleteRS(k) => GateOpen(s, w)
    case PutRD(k, rd) => k !in w.rss && GateOpen(s, w) && (OwnedBy(w.vgr.name, rd.labels) ==> w.vgr.finalizer || (k in w.rds && OwnedBy(w.vgr.name, w.rds[k].labels)))
    case DeleteRD(k) => true
    case DeletePod(k) => true
    case DeleteJob(k) => true
    case SetStatus(status) => LegalStatus(s, w, status)
    case SetFinalizer(present) => if present then !w.vgr.deleting else w.vgr.deleting && NothingOwned(w.vgr, w.rss, w.rds)
    case Environment(e) => true
  }

  ghost predicate LegalRun(s: Setting, start: World, trace: seq<Step>) {
    trace == [] ||
    (LegalRun(s, start, trace[..|trace| - 1]) && Legal(s, Run(s, start, trace[..|trace| - 1]), trace[|trace| - 1]))
  }

  // ---------- what a caller may rely on ----------

  ghost predicate SameClaim(p: PVC, q: PVC) {
    && p.labels == q.labels && p.spec == q.spec && p.volumeName == q.volumeName
    && (Protection in p.finalizers <==> Protection in q.finalizers)
    && (p.deleting ==> q.deleting && q.finalizers <= p.finalizers)
    && (q.deleting ==> p.deleting || Protection in p.finalizers)
  }

  /** Claims keep their identity and go away only when nobody holds them. */
  ghost predicate SameClaims(w: ClaimMap, v: ClaimMap) {
    && (forall c :: c in v ==> c in w && SameClaim(w[c], v[c]))
    && (forall c :: c in w && w[c].Held() ==> c in v)
  }

  ghost predicate SameSource(r: RS, q: RS) {
    && r.labels == q.labels && r.sourcePVC == q.sourcePVC && r.paused == q.paused && r.trigger == q.trigger
    && (r.Stamped() && r.FinalTriggered() ==> q.Stamped())
  }

  ghost predicate SameSources(w: SourceMap, v: SourceMap) {
    v.Keys == w.Keys && forall k :: k in w ==> SameSource(w[k], v[k])
  }

  ghost predicate SameDestinations(w: map<Key, RD>, v: map<Key, RD>) {
    v.Keys == w.Keys &&
    forall k :: k in w ==>
      && w[k].labels == v[k].labels && w[k].destinationPVC == v[k].destinationPVC
      && (w[k].address.Some? ==> v[k].address.Some?)
  }

  ghost predicate NoNewPods(w: PodMap, v: PodMap) {
    forall p :: p in v && !v[p].volsync ==> p in w && v[p] == w[p]
  }

  ghost predicate SameGroup(w: VGR, v: VGR) {
    v == w.(role := v.role, deleting := v.deleting) && (w.deleting ==> v.deleting)
  }

  /** Every environment event, and so any number of them, stays within this relation. */
  ghost predicate Rely(s: Setting, w: World, v: World) {
    && v.pvs == w.pvs && SameGroup(w.vgr, v.vgr)
    && SameClaims(w.pvcs, v.pvcs) && SameSources(w.rss, v.rss) && SameDestinations(w.rds, v.rds)
    && (s.relocating ==> v.vrgs == w.vrgs && NoNewPods(w.pods, v.pods))
  }

  lemma SameClaimsIsTransitive(u: ClaimMap, v: ClaimMap, w: ClaimMap)
    requires SameClaims(u, v) && SameClaims(v, w)
    ensures SameClaims(u, w)
  {
    assert forall c :: c in u && u[c].Held() ==> c in v && v[c].Held();
  }

  lemma SameSourcesIsTransitive(u: SourceMap, v: SourceMap, w: SourceMap)
    requires SameSources(u, v) && SameSources(v, w)
    ensures SameSources(u, w)
  {
  }

  lemma RelyIsTransitive(s: Setting, u: World, v: World, w: World)
    requires Rely(s, u, v) && Rely(s, v, w)
    ensures Rely(s, u, w)
  {
    hide SameClaims, SameSources;
    SameClaimsIsTransitive(u.pvcs, v.pvcs, w.pvcs);
    SameSourcesIsTransitive(u.rss, v.rss, w.rss);
  }

  // ---------- what stays while a hand-off is under way ----------

  /** Everything but claims and volumes is as the environment alone may have left it. */
  ghost predicate Steady(s: Setting, w: World, v: World) {
    && SameGroup(w.vgr, v.vgr) && SameSources(w.rss, v.rss) && SameDestinations(w.rds, v.rds)
    && (s.relocating ==> v.vrgs == w.vrgs && NoNewPods(w.pods, v.pods))
  }

  /** Claims that are held stay, except claim `k` and its stand-in. */
  ghost predicate OthersKept(w: ClaimMap, v: ClaimMap, k: Key) {
    forall c :: c in w && w[c].Held() && c != k && c != TmpOf(k) ==> c in v && SameClaim(w[c], v[c])
  }

  ghost predicate Kept(w: ClaimMap, v: ClaimMap) {
    forall c :: c in w && w[c].Held() ==> c in v && SameClaim(w[c], v[c])
  }

  /** The volume of group claim `k` refers to the stand-in while the stand-in exists. */
  ghost predicate ReferredAt(volume: string, pvcs: ClaimMap, pvs: map<string, PV>, k: Key) {
    TmpOf(k) in pvcs ==> volume in pvs && pvs[volume].claimRef == Some(TmpOf(k))
  }

  /** So it is between hand-offs for every claim, and during the hand-off of claim `k` for all others. */
  ghost predicate Referred(s: Setting, w: World) {
    s.reliable && s.plain && !w.vgr.deleting ==> forall j :: j in s.group ==> ReferredAt(s.group[j], w.pvcs, w.pvs, j)
  }

  ghost predicate ReferredExcept(s: Setting, w: World, k: Key) {
    s.reliable && s.plain && !w.vgr.deleting ==> forall j :: j in s.group && j != k ==> ReferredAt(s.group[j], w.pvcs, w.pvs, j)
  }

  lemma ReferredStays(s: Setting, w: World, v: World, k: Key)
    requires Referred(s, w) && SameGroup(w.vgr, v.vgr) && v.pvs == w.pvs
    requires k.name.App? && v.pvcs.Keys <= w.pvcs.Keys + {k, TmpOf(k)}
    ensures ReferredExcept(s, v, k)
    ensures v.pvcs.Keys <= w.pvcs.Keys + {k} ==> Referred(s, v)
    ensures v.pvcs.Keys <= w.pvcs.Keys ==> Referred(s, v)
  {
    assert s.reliable && s.plain && !v.vgr.deleting ==> forall j :: j in s.group ==> ReferredAt(s.group[j], w.pvcs, w.pvs, j);
  }

  lemma SteadyIsTransitive(s: Setting, u: World, v: World, w: World)
    requires Steady(s, u, v) && Steady(s, v, w)
    ensures Steady(s, u, w)
  {
    hide SameSources;
    SameSourcesIsTransitive(u.rss, v.rss, w.rss);
  }

  lemma KeptIsTransitive(u: ClaimMap, v: ClaimMap, w: ClaimMap)
    requires Kept(u, v) && Kept(v, w)
    ensures Kept(u, w)
  {
    assert forall c :: c in u && u[c].Held() ==> v[c].Held();
  }

  lemma OnwardIsTransitive(s: Setting, u: World, v: World, w: World)
    requires Steady(s, u, v) && Kept(u.pvcs, v.pvcs) && Steady(s, v, w) && Kept(v.pvcs, w.pvcs)
    ensures Steady(s, u, w) && Kept(u.pvcs, w.pvcs)
  {
    hide Steady, Kept;
    SteadyIsTransitive(s, u, v, w);
    KeptIsTransitive(u.pvcs, v.pvcs, w.pvcs);
  }

  lemma OthersKeptIsTransitive(u: ClaimMap, v: ClaimMap, w: ClaimMap, k: Key)
    requires OthersKept(u, v, k) && OthersKept(v, w, k)
    ensures OthersKept(u, w, k)
  {
    assert forall c :: c in u && u[c].Held() && c != k && c != TmpOf(k) ==> v[c].Held();
  }

  lemma RelyIsSteady(s: Setting, w: World, v: World)
    requires Rely(s, w, v)
    ensures Steady(s, w, v) && Kept(w.pvcs, v.pvcs) && v.pvs == w.pvs && v.pvcs.Keys <= w.pvcs.Keys
  {
    hide SameSources, SameDestinations, NoNewPods;
    assert SameClaims(w.pvcs, v.pvcs);
  }

  /** After claim `k` was created with value `p`, or not. */
  lemma CreationIsSteady(s: Setting, w: World, k: Key, p: PVC, v: World)
    requires k !in w.pvcs && Rely(s, w.(pvcs := w.pvcs[k := p]), v) && !p.deleting
    ensures Steady(s, w, v) && Kept(w.pvcs, v.pvcs) && v.pvs == w.pvs && k in v.pvcs && SameClaim(p, v.pvcs[k])
    ensures v.pvcs.Keys <= w.pvcs.Keys + {k}
  {
    hide SameSources, SameDestinations, NoNewPods;
    assert w.pvcs[k := p][k].Held();
    assert SameClaims(w.pvcs[k := p], v.pvcs);
  }

  /** After claim `k` was stored with value `p`. */
  lemma UpdateIsSteady(s: Setting, w: World, k: Key, p: PVC, v: World)
    requires k in w.pvcs && Rely(s, w.(pvcs := StoreClaim(w.pvcs, k, p)), v)
    ensures Steady(s, w, v) && v.pvs == w.pvs && v.pvcs.Keys <= w.pvcs.Keys
    ensures forall j :: k == j || k == TmpOf(j) ==> OthersKept(w.pvcs, v.pvcs, j)
    ensures k in v.pvcs ==> SameClaim(p, v.pvcs[k])
    ensures p.Held() ==> k in v.pvcs
    ensures SameClaim(w.pvcs[k], p) ==> Kept(w.pvcs, v.pvcs)
  {
    hide SameSources, SameDestinations, NoNewPods;
    assert SameClaims(StoreClaim(w.pvcs, k, p), v.pvcs);
  }

  /** After the deletion of claim `k` was requested. */
  lemma DeletionIsSteady(s: Setting, w: World, k: Key, v: World)
    requires Rely(s, w.(pvcs := RequestDeletion(w.pvcs, k)), v)
    ensures Steady(s, w, v) && v.pvs == w.pvs && v.pvcs.Keys <= w.pvcs.Keys
    ensures forall j :: k == j || k == TmpOf(j) ==> OthersKept(w.pvcs, v.pvcs, j)
    ensures k in w.pvcs && w.pvcs[k].finalizers == {} ==> k !in v.pvcs
  {
    hide SameSources, SameDestinations, NoNewPods;
    assert SameClaims(RequestDeletion(w.pvcs, k), v.pvcs);
  }

  /** After volume `name` was stored. */
  lemma VolumeUpdateIsSteady(s: Setting, w: World, name: string, pv: PV, v: World)
    requires Rely(s, w.(pvs := w.pvs[name := pv]), v)
    ensures Steady(s, w, v) && Kept(w.pvcs, v.pvcs) && v.pvs == w.pvs[name := pv] && v.pvcs.Keys <= w.pvcs.Keys
  {
    hide SameSources, SameDestinations, NoNewPods;
    assert SameClaims(w.pvcs, v.pvcs);
  }

  // ---------- what stays while replication is turned around ----------

  /** Sources only disappear. */
  ghost predicate Shrunk(w: SourceMap, v: SourceMap) {
    forall k :: k in v ==> k in w && SameSource(w[k], v[k])
  }

  /** Destination `rd` writes claim `k` for the VGR. */
  predicate Writes(rd: RD, k: Key, vgr: VGR) {
    rd.destinationPVC == k.name && LabelledFor(vgr, rd.labels)
  }

  /** Destinations only appear, keep an address that they have, and go on writing the claim that they write for the VGR. */
  ghost predicate Grown(vgr: VGR, w: map<Key, RD>, v: map<Key, RD>) {
    forall k :: k in w ==>
      k in v && (w[k].address.Some? ==> v[k].address.Some?) && (Writes(w[k], k, vgr) ==> Writes(v[k], k, vgr))
  }

  ghost predicate Policy(s: Setting, w: World, v: World) {
    s.relocating ==> v.vrgs == w.vrgs && NoNewPods(w.pods, v.pods)
  }

  lemma PolicyIsTransitive(s: Setting, u: World, v: World, w: World)
    requires Policy(s, u, v) && Policy(s, v, w)
    ensures Policy(s, u, w)
  {
  }

  /** A demotion under way: sources make room for destinations, and claims are handled one at a time. */
  ghost predicate Demoting(s: Setting, w: World, v: World) {
    SameGroup(w.vgr, v.vgr) && Shrunk(w.rss, v.rss) && Grown(w.vgr, w.rds, v.rds) && Policy(s, w, v)
  }

  lemma DemotingIsTransitive(s: Setting, u: World, v: World, w: World)
    requires Demoting(s, u, v) && Demoting(s, v, w)
    ensures Demoting(s, u, w)
  {
  }

  lemma SteadyIsDemoting(s: Setting, w: World, v: World)
    requires Steady(s, w, v)
    ensures Demoting(s, w, v)
  {
  }

  lemma SourceDeletionIsDemoting(s: Setting, w: World, k: Key, v: World)
    requires Rely(s, w.(rss := w.rss - {k}), v)
    ensures Demoting(s, w, v) && Kept(w.pvcs, v.pvcs) && v.pvs == w.pvs && v.pvcs.Keys <= w.pvcs.Keys
    ensures v.rss.Keys == w.rss.Keys - {k} && v.rds.Keys == w.rds.Keys
  {
    RelyIsSteady(s, w.(rss := w.rss - {k}), v);
    hide SameClaims, Kept, NoNewPods;
  }

  lemma DestinationWriteIsDemoting(s: Setting, w: World, k: Key, rd: RD, v: World)
    requires Rely(s, w.(rds := w.rds[k := rd]), v)
    requires k in w.rds && w.rds[k].address.Some? ==> rd.address.Some?
    requires k in w.rds && Writes(w.rds[k], k, w.vgr) ==> Writes(rd, k, w.vgr)
    ensures Demoting(s, w, v) && Kept(w.pvcs, v.pvcs) && v.pvs == w.pvs && v.pvcs.Keys <= w.pvcs.Keys
    ensures k in v.rds && v.rss.Keys == w.rss.Keys && (rd.address.Some? ==> v.rds[k].address.Some?)
    ensures Writes(rd, k, w.vgr) ==> Writes(v.rds[k], k, v.vgr)
  {
    RelyIsSteady(s, w.(rds := w.rds[k := rd]), v);
    hide SameClaims, Kept, NoNewPods;
  }

  /** Sources other than those named stay as they are. */
  ghost predicate OtherSources(w: SourceMap, v: SourceMap, k: Key) {
    forall j :: j in w && j != k ==> j in v && SameSource(w[j], v[j])
  }

  lemma SourceWriteIsLocal(s: Setting, w: World, k: Key, rs: RS, v: World)
    requires Rely(s, w.(rss := w.rss[k := Settled(rs)]), v)
    ensures SameGroup(w.vgr, v.vgr) && Policy(s, w, v) && SameDestinations(w.rds, v.rds)
    ensures Kept(w.pvcs, v.pvcs) && v.pvs == w.pvs && v.pvcs.Keys <= w.pvcs.Keys
    ensures k in v.rss && SameSource(Settled(rs), v.rss[k])
    ensures v.rss.Keys == w.rss.Keys + {k} && OtherSources(w.rss, v.rss, k)
  {
    RelyIsSteady(s, w.(rss := w.rss[k := Settled(rs)]), v);
    hide SameClaims, Kept, NoNewPods;
  }

  /** Once open, the gate stays open while sources only disappear and the status is the same. */
  lemma GateStaysOpen(s: Setting, w: World, v: World)
    requires Inv(s, w) && GateOpen(s, w) && SameGroup(w.vgr, v.vgr) && Shrunk(w.rss, v.rss)
    ensures GateOpen(s, v)
  {
    hide Exclusive, Guarded, Claims, Lossless, Frozen, KeptUntilDone, Selected, AppPods, Relocation, StoreWellFormed;
  }

  /** Behind an open gate every group claim has had its final sync. */
  lemma GateMeansDone(s: Setting, w: World, k: Key)
    requires Inv(s, w) && GateOpen(s, w)
    ensures s.relocating && !w.vgr.deleting && k in s.group ==> Done(w.rss, k)
  {
    hide Exclusive, Guarded, Claims, Lossless, Frozen, KeptUntilDone, Selected, AppPods, Relocation, StoreWellFormed;
  }
}
