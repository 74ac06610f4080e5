/**
 The cluster as a transition system. A step is one write of the operator or one event of its environment.
 */
module System {

  import opened Names
  import opened Objects
  import opened Wrappers

  datatype World = World(
    pvcs: map<Key, PVC>, pvs: map<string, PV>, rss: map<Key, RS>, rds: map<Key, RD>,
    pods: map<Key, Pod>, jobs: set<Key>, secrets: set<(string, string)>, vrgs: map<Key, VRG>, vgr: VGR,
    content: map<string, nat>, remote: map<Key, nat>)

  /**
   The assumptions of a run. `group` maps each application claim of the group to the volume it is bound to.
   `relocating`: the VRG is readable and stays Relocate/Secondary, and no application pod starts.
   `reliable`: no API call fails without a reason in the cluster.
   `calm`: the environment acts between reconciles only, not between two calls of one reconcile.
   `plain`: no other controller puts a finalizer on a stand-in.
   */
  datatype Setting = Setting(group: map<Key, string>, relocating: bool, reliable: bool, calm: bool, plain: bool)

  /** What users, the kubelet, VolSync and the other controllers do. An event that cannot occur has no effect. */
  datatype Event =
    | UserDeletesClaim(k: Key)
    | FinalizerAdded(k: Key, text: string)
    | FinalizerReleased(k: Key, text: string)
    | PhaseChanges(k: Key, phase: Phase, bindCompleted: bool)
    | PodLeaves(k: Key)
    | PodStarts(k: Key, pod: Pod)
    | PodWrites(k: Key, claim: Name)
    | SourceSyncs(k: Key, time: int)
    | AddressAssigned(k: Key, address: string)
    | VrgChanges(k: Key, vrg: Option<VRG>)
    | RoleChanges(role: Role)
    | GroupDeleted
    | SecretsChange(secrets: set<(string, string)>)

  datatype Step =
    | CreatePVC(k: Key, pvc: PVC)
    | UpdatePVC(k: Key, pvc: PVC)
    | DeletePVC(k: Key)
    | UpdatePV(name: string, pv: PV)
    | PutRS(k: Key, rs: RS)
    | DeleteRS(k: Key)
    | PutRD(k: Key, rd: RD)
    | DeleteRD(k: Key)
    | DeletePod(k: Key)
    | DeleteJob(k: Key)
    | SetStatus(status: Status)
    | SetFinalizer(present: bool)
    | Environment(event: Event)

  function Version<K>(m: map<K, nat>, k: K): nat {
    if k in m then m[k] else 0
  }

  /** No application pod mounts a temporary claim, and under relocation no application pod starts. */
  predicate MayStart(s: Setting, pod: Pod) {
    pod.volsync || (!s.relocating && forall i :: 0 <= i < |pod.claims| ==> pod.claims[i].App?)
  }

  /** VolSync copies the source claim's volume in one piece and, on a manual trigger, records the tag. */
  function Sync(w: World, k: Key, time: int): World {
    var source := Key(k.ns, if k in w.rss then w.rss[k].sourcePVC else k.name);
    if k !in w.rss || w.rss[k].paused || source !in w.pvcs || w.pvcs[source].volumeName == "" then w
    else
      var rs := w.rss[k];
      var stamp := if rs.trigger.Manual? then Some(rs.trigger.tag) else rs.lastManualSync;
      w.(rss := w.rss[k := rs.(lastManualSync := stamp, lastSyncTime := Some(time))],
         remote := w.remote[k := Version(w.content, w.pvcs[source].volumeName)])
  }

  /** An application pod writes to the volume behind one of the claims it mounts. */
  function PodWrite(w: World, k: Key, claim: Name): World {
    var c := Key(k.ns, claim);
    if k !in w.pods || w.pods[k].volsync || claim !in w.pods[k].claims || c !in w.pvcs || w.pvcs[c].volumeName == "" then w
    else
      var v := w.pvcs[c].volumeName;
      w.(content := w.content[v := Version(w.content, v) + 1])
  }

  /** A claim after an event that concerns it. Users delete only claims that carry the operator's finalizer. */
  function Changed(s: Setting, p: PVC, e: Event): PVC {
    match e
    case UserDeletesClaim(_) => if Protection in p.finalizers then p.(deleting := true) else p
    case FinalizerAdded(k, text) =>
      if p.deleting || (s.plain && k.name.Tmp?) then p else p.(finalizers := p.finalizers + {Foreign(text)})
    case FinalizerReleased(_, text) => p.(finalizers := p.finalizers - {Foreign(text)})
    case PhaseChanges(_, phase, bindCompleted) =>
      p.(phase := phase, annotations := if bindCompleted then p.annotations[BindCompleted := "yes"] else p.annotations)
    case _ => p
  }

  function Addressed(rds: map<Key, RD>, k: Key, address: string): map<Key, RD> {
    if k in rds then rds[k := rds[k].(address := Some(address))] else rds
  }

  function Started(s: Setting, pods: map<Key, Pod>, k: Key, pod: Pod): map<Key, Pod> {
    if k !in pods && MayStart(s, pod) then pods[k := pod] else pods
  }

  function StoreChanged(s: Setting, w: World, k: Key, e: Event): World {
    if k in w.pvcs then w.(pvcs := StoreClaim(w.pvcs, k, Changed(s, w.pvcs[k], e))) else w
  }

  function Occur(s: Setting, w: World, e: Event): World {
    match e
    case UserDeletesClaim(k) => StoreChanged(s, w, k, e)
    case FinalizerAdded(k, _) => StoreChanged(s, w, k, e)
    case FinalizerReleased(k, _) => StoreChanged(s, w, k, e)
    case PhaseChanges(k, _, _) => StoreChanged(s, w, k, e)
    case PodLeaves(k) => w.(pods := w.pods - {k})
    case PodStarts(k, pod) => w.(pods := Started(s, w.pods, k, pod))
    case PodWrites(k, claim) => PodWrite(w, k, claim)
    case SourceSyncs(k, time) => Sync(w, k, time)
    case AddressAssigned(k, address) => w.(rds := Addressed(w.rds, k, address))
    case VrgChanges(k, vrg) =>
      if s.relocating then w
      else w.(vrgs := match vrg case Some(v) => w.vrgs[k := v] case None => w.vrgs - {k})
    case RoleChanges(role) => w.(vgr := w.vgr.(role := role))
    case GroupDeleted => w.(vgr := w.vgr.(deleting := true))
    case SecretsChange(secrets) => w.(secrets := secrets)
  }

  /** A source that is not triggered manually carries no stamp of a manual sync. */
  function Settled(rs: RS): RS {
    if rs.trigger.Schedule? then rs.(lastManualSync := None) else rs
  }

  function Apply(s: Setting, w: World, step: Step): World {
    match step
    case CreatePVC(k, p) => w.(pvcs := w.pvcs[k := p])
    case UpdatePVC(k, p) => w.(pvcs := StoreClaim(w.pvcs, k, p))
    case DeletePVC(k) => w.(pvcs := RequestDeletion(w.pvcs, k))
    case UpdatePV(name, pv) => w.(pvs := w.pvs[name := pv])
    case PutRS(k, rs) => w.(rss := w.rss[k := Settled(rs)])
    case DeleteRS(k) => w.(rss := w.rss - {k})
    case PutRD(k, rd) => w.(rds := w.rds[k := rd])
    case DeleteRD(k) => w.(rds := w.rds - {k})
    case DeletePod(k) => w.(pods := w.pods - {k})
    case DeleteJob(k) => w.(jobs := w.jobs - {k})
    case SetStatus(status) => w.(vgr := w.vgr.(status := status))
    case SetFinalizer(present) => w.(vgr := w.vgr.(finalizer := present))
    case Environment(e) => Occur(s, w, e)
  }

  /** The state after all steps of `trace`. */
  function Run(s: Setting, start: World, trace: seq<Step>): World {
    if trace == [] then start
    else Apply(s, Run(s, start, trace[..|trace| - 1]), trace[|trace| - 1])
  }
}
