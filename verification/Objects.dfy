/** The Kubernetes objects the operator reads and writes, reduced to the fields that its decisions depend on. */
module Objects {

  import opened Names
  import opened Wrappers

  /** Label keys that the program names, and all others. */
  datatype LabelKey = Owner | OwnerNamespace | ConsistencyGroup | CreatedBy | OtherLabel(text: string)
  type Labels = map<LabelKey, string>

  /** Annotation keys that the program names. `AppManagement` is a key with the prefix "apps.open-cluster-management.io". */
  datatype AnnotationKey = Temporary | BindCompleted | RamenRestore | AppManagement(rest: string) | OtherAnnotation(text: string)
  type Annotations = map<AnnotationKey, string>

  /** `Protection` is the operator's own finalizer on claims; `Foreign` ones belong to other controllers. */
  datatype Finalizer = Protection | Foreign(text: string)

  datatype Phase = Pending | Bound | Lost

  datatype ClaimSpec = ClaimSpec(accessModes: seq<string>, storage: nat, storageClass: Option<string>, volumeMode: Option<string>)

  datatype PVC = PVC(
    labels: Labels, annotations: Annotations, finalizers: set<Finalizer>, deleting: bool,
    spec: ClaimSpec, volumeName: string, phase: Phase)
  {
    /** Cannot disappear without the operator's consent: not being deleted, or held by the operator's finalizer. */
    predicate Held() {
      deleting ==> Protection in finalizers
    }
  }

  datatype ReclaimPolicy = Retain | Delete | Recycle

  datatype PV = PV(claimRef: Option<Key>, reclaim: ReclaimPolicy)

  datatype Tag = FinalSync | OtherTag(text: string)
  datatype Trigger = Schedule(cron: string) | Manual(tag: Tag)

  datatype RS = RS(
    labels: Labels, sourcePVC: Name, paused: bool, trigger: Trigger,
    lastManualSync: Option<Tag>, lastSyncTime: Option<int>)
  {
    /** VolSync has recorded the completion of the manual sync that the operator calls the final sync. */
    predicate Stamped() {
      lastManualSync == Some(FinalSync)
    }

    predicate FinalTriggered() {
      trigger == Manual(FinalSync)
    }
  }

  datatype RD = RD(labels: Labels, destinationPVC: Name, address: Option<string>)

  datatype Pod = Pod(claims: seq<Name>, volsync: bool)

  datatype Role = Primary | Secondary | UnknownRole
  datatype Action = Relocate | Failover | NoAction

  datatype VRG = VRG(action: Action, role: Role)

  type Selector = map<LabelKey, string>

  datatype State = StateUnset | PrimaryState | SecondaryState

  datatype Status = Status(state: State, protectedPVCs: seq<Name>, lastSync: Option<int>)

  /** The VolumeGroupReplication. `owner` is the VRG named by its two owner labels, when both are set. */
  datatype VGR = VGR(
    ns: string, name: string, owner: Option<Key>, selector: Option<Selector>, role: Role,
    deleting: bool, finalizer: bool, status: Status)

  predicate Matches(sel: Selector, labels: Labels) {
    forall x :: x in sel ==> x in labels && labels[x] == sel[x]
  }

  predicate OwnedBy(owner: string, labels: Labels) {
    Owner in labels && labels[Owner] == owner
  }

  /** Both owner labels name the VGR. */
  predicate LabelledFor(vgr: VGR, labels: Labels) {
    Owner in labels && labels[Owner] == vgr.name && OwnerNamespace in labels && labels[OwnerNamespace] == vgr.ns
  }

  /** What the API server stores after an update: a deleting claim with no finalizer left is gone. */
  function StoreClaim(pvcs: map<Key, PVC>, k: Key, p: PVC): map<Key, PVC> {
    if p.deleting && p.finalizers == {} then pvcs - {k} else pvcs[k := p]
  }

  /** A delete request removes a claim without finalizers and only marks any other. */
  function RequestDeletion(pvcs: map<Key, PVC>, k: Key): map<Key, PVC> {
    if k in pvcs then StoreClaim(pvcs, k, pvcs[k].(deleting := true)) else pvcs
  }
}
