/** The reconcile of a VGR as primary: pause on conflict, sources, status. */
module PrimarySide {

  import opened Names
  import opened Objects
  import opened System
  import opened Protocol
  import opened Api
  import opened Legality
  import opened Replication
  import opened SyncSteps
  import opened Demotion
  import opened Handler
  import opened Wrappers
  import Schedule

  /** Every source of the namespace is paused. */
  ghost predicate AllPaused(rss: SourceMap, ns: string) {
    forall k :: k in rss && k.ns == ns ==> rss[k].paused
  }

  /** No source is deleted, and none that is paused is unpaused. */
  ghost predicate PausesStay(w: SourceMap, v: SourceMap) {
    forall k :: k in w ==> k in v && (w[k].paused ==> v[k].paused)
  }

  /** Some VRG of the namespace is secondary. */
  predicate SecondaryVRG(vrgs: map<Key, VRG>, ns: string) {
    exists k :: k in vrgs && k.ns == ns && vrgs[k].role.Secondary?
  }

  /** The sources after those of the namespace were paused. */
  function PausedAll(rss: SourceMap, ns: string): SourceMap {
    map k | k in rss :: if k.ns == ns && !rss[k].paused then Settled(rss[k].(paused := true)) else rss[k]
  }

  /** The sources of the namespace that are not paused. */
  function Running(rss: SourceMap, ns: string): set<Key> {
    set k | k in rss && k.ns == ns && !rss[k].paused
  }

  /** The sources of the namespace were paused, their jobs and all of VolSync's pods in it removed, and nothing else. */
  ghost predicate Halted(w: World, v: World, ns: string) {
    && v == w.(rss := PausedAll(w.rss, ns), jobs := w.jobs - Running(w.rss, ns), pods := v.pods)
    && MovedAside(w.pods, v.pods, ns) && forall p :: p in v.pods && p.ns == ns ==> !v.pods[p].volsync
  }

  class PrimaryReconciler {
    const client: Cluster
    const copy: GroupCopy
    const vsHandler: VSHandler
    const secret: string

    constructor (client: Cluster, copy: GroupCopy, vsHandler: VSHandler, secret: string)
      ensures this.client == client && this.copy == copy && this.vsHandler == vsHandler && this.secret == secret
    {
      this.client := client;
      this.copy := copy;
      this.vsHandler := vsHandler;
      this.secret := secret;
    }

    ghost predicate Ready()
      reads client, copy
    {
      Attached(client, copy, vsHandler)
    }

    /** Pauses one listed source and stops its running job. */
    method PauseListed(x: Item<RS>) returns (o: Outcome)
      requires client.Valid()
      modifies client
      ensures Extends(old(client.trace), client.trace)
      ensures client.Valid() && Syncing(client.s, old(client.w), client.w) && OtherSources(old(client.w).rss, client.w.rss, x.key)
      ensures client.w.pvs == old(client.w).pvs && client.w.pvcs.Keys <= old(client.w).pvcs.Keys
      ensures PausesStay(old(client.w).rss, client.w.rss)
      ensures o.Success? && !x.value.paused ==> x.key in client.w.rss && client.w.rss[x.key].paused
      ensures x.value.paused ==> o.Success? && client.w == old(client.w)
      ensures client.s.calm ==> client.w == old(client.w).(rss := client.w.rss, jobs := client.w.jobs)
      ensures client.s.calm && o.Success? && !x.value.paused ==>
        && x.key in old(client.w).rss && old(client.w).rss[x.key] == x.value
        && client.w.rss == old(client.w).rss[x.key := Settled(x.value.(paused := true))]
        && client.w.jobs == old(client.w).jobs - {x.key}
      ensures client.s.calm && client.s.reliable && x.key in old(client.w).rss && old(client.w).rss[x.key] == x.value ==> o.Success?
    {
      hide Rely, Kept, Inv, LegalRun, SameDestinations, NoNewPods, Policy, StampsStay, SameClaims, Legal, Idled, Took, Extends;
      TracesExtend();
      ghost var w0 := client.w;
      if x.value.paused {
        NothingPaused(client.s, w0, x.key);
        return OK;
      }
      if x.key in w0.rss && w0.rss[x.key] == x.value {
        PausingIsLegal(client.s, w0, x.key);
      }
      o := client.PutRS(x.key, Some(x.value), x.value.(paused := true));
      ghost var w1 := client.w;
      if o.Failure? {
        UnwrittenIsSyncing(client.s, w0, w1);
        return;
      }
      PausingIsSyncing(client.s, w0, w1, x.key, x.value);
      o := client.DeleteJob(x.key);
      SteadyIsSyncing(client.s, w1, client.w);
      SyncingIsTransitive(client.s, w0, w1, client.w);
      OtherSourcesIsTransitive(w0.rss, w1.rss, client.w.rss, x.key);
      PauseStays(client.s, w1, client.w, x.key);
      o := if o.Success? || o.error == NotFound then OK else o;
    }

    /** Pauses every source of the namespace. */
    method PauseSources() returns (o: Outcome)
      requires Ready()
      modifies client
      ensures Extends(old(client.trace), client.trace)
      ensures Ready() && Syncing(client.s, old(client.w), client.w) && PausesStay(old(client.w).rss, client.w.rss)
      ensures o.Success? ==> AllPaused(client.w.rss, copy.vgr.ns)
      ensures client.s.calm && o.Success? ==>
        && client.w.rss == PausedAll(old(client.w).rss, copy.vgr.ns)
        && client.w.jobs == old(client.w).jobs - Running(old(client.w).rss, copy.vgr.ns)
      ensures client.s.calm ==> client.w == old(client.w).(rss := client.w.rss, jobs := client.w.jobs)
      ensures client.s.calm && client.s.reliable ==> o.Success?
    {
      hide Idled, Took, Extends;
      TracesExtend();
      hide Rely, Kept, Inv, LegalRun, SameDestinations, NoNewPods, StampsStay, SameClaims, Legal, Lists, Run;
      hide PausesStay, AllPaused, PausedAll, PausedUpTo, Relocation, Referred, OtherSources, PausedIn, RunningIn, Running, Keys;
      ghost var w0 := client.w;
      var list := client.ListRSs(copy.vgr.ns, None);
      ghost var w1 := client.w;
      SteadyIsSyncing(client.s, w0, w1);
      NothingPausedSteadily(client.s, w0, w1, list);
      if list.Failure? {
        return Failure(list.error);
      }
      var i := 0;
      while i < |list.value|
        invariant i <= |list.value|
        invariant Ready() && Syncing(client.s, w0, client.w) && PausesStay(w0.rss, client.w.rss)
        invariant PausedUpTo(client.w.rss, list.value, i)
        invariant client.s.calm ==> client.w == w0.(rss := client.w.rss, jobs := client.w.jobs)
        invariant Extends(old(client.trace), client.trace)
        invariant client.s.calm ==> client.w.rss == PausedIn(w0.rss, Keys(list.value[..i]))
        invariant client.s.calm ==> client.w.jobs == w0.jobs - RunningIn(w0.rss, Keys(list.value[..i]))
      {
        ghost var w2 := client.w;
        if client.s.calm {
          NextIsNotPausedYet(w0.rss, list.value, i, copy.vgr.ns);
        }
        o := PauseListed(list.value[i]);
        SyncingIsTransitive(client.s, w0, w2, client.w);
        PausesStayIsTransitive(w0.rss, w2.rss, client.w.rss);
        NoNewNamesInSync(client.s, w2, client.w);
        if o.Failure? {
          return;
        }
        ListedIsThere(w0.rss, w2.rss, list.value, i, copy.vgr.ns);
        OneMorePaused(w2.rss, client.w.rss, list.value, i);
        if client.s.calm {
          PausedInNext(w0.rss, list.value, i, copy.vgr.ns);
        }
        i := i + 1;
      }
      assert list.value[..|list.value|] == list.value;
      EveryListedIsPaused(client.s, w0, client.w, list.value, copy.vgr.ns);
      if client.s.calm {
        PausedInAll(w0.rss, list.value, copy.vgr.ns);
      }
      return OK;
    }

    /** Deletes the pods that VolSync runs in the namespace. */
    method DeleteVolSyncPods() returns (o: Outcome)
      requires Ready()
      modifies client
      ensures Extends(old(client.trace), client.trace)
      ensures Ready() && Steady(client.s, old(client.w), client.w) && Kept(old(client.w).pvcs, client.w.pvcs)
      ensures client.s.calm ==> client.w == old(client.w).(pods := client.w.pods)
      ensures client.s.calm ==> MovedAside(old(client.w).pods, client.w.pods, copy.vgr.ns)
      ensures client.s.calm && client.s.reliable ==> o.Success?
      ensures client.s.calm && o.Success? ==> forall p :: p in client.w.pods && p.ns == copy.vgr.ns ==> !client.w.pods[p].volsync
    {
      hide Rely, Kept, Inv, LegalRun, SameSources, SameDestinations, NoNewPods, SameClaims, Run, Lists, Relocation, Referred, MovedAside, Cleared;
      hide Idled, Took, Extends, StillThere;
      TracesExtend();
      ghost var w0 := client.w;
      var list := client.ListPods(copy.vgr.ns);
      ghost var w1 := client.w;
      NothingMoved(w0.pods, copy.vgr.ns);
      if list.Failure? {
        return Failure(list.error);
      }
      NothingCleared(w0.pods, list.value, copy.vgr.ns);
      var i := 0;
      while i < |list.value|
        invariant i <= |list.value| && Extends(old(client.trace), client.trace)
        invariant client.s.calm ==> StillThere(client.w.pods, list.value, i)
        invariant Ready() && Steady(client.s, w0, client.w) && Kept(w0.pvcs, client.w.pvcs)
        invariant client.s.calm ==> client.w == w0.(pods := client.w.pods) && MovedAside(w0.pods, client.w.pods, copy.vgr.ns)
        invariant client.s.calm ==> Cleared(client.w.pods, list.value, i)
      {
        ghost var w2 := client.w;
        NextIsThere(w2.pods, list.value, i);
        if list.value[i].value.volsync {
          o := client.DeletePod(list.value[i].key);
          OnwardIsTransitive(client.s, w0, w2, client.w);
          NoNewNames(client.s, w2, client.w);
          OneMoreMoved(w0.pods, w2.pods, list.value, i, copy.vgr.ns);
          if o.Failure? {
            return;
          }
        }
        OneMoreCleared(w2.pods, client.w.pods, list.value, i);
        if client.s.calm {
          OthersStillThere(w0.pods, w2.pods, client.w.pods, list.value, i, copy.vgr.ns);
        }
        i := i + 1;
      }
      if client.s.calm {
        AllCleared(w0.pods, client.w.pods, list.value, copy.vgr.ns);
      }
      return OK;
    }

    /** Pauses every source of the namespace and clears away what VolSync runs for them. */
    method PauseAllReplicationSources() returns (o: Outcome)
      requires Ready()
      modifies client
      ensures Extends(old(client.trace), client.trace)
      ensures Ready() && Syncing(client.s, old(client.w), client.w) && PausesStay(old(client.w).rss, client.w.rss)
      ensures o.Success? ==> AllPaused(client.w.rss, copy.vgr.ns)
      ensures client.s.calm ==> client.w == old(client.w).(rss := client.w.rss, jobs := client.w.jobs, pods := client.w.pods)
      ensures client.s.calm ==> MovedAside(old(client.w).pods, client.w.pods, copy.vgr.ns)
      ensures client.s.calm && o.Success? ==> Halted(old(client.w), client.w, copy.vgr.ns)
      ensures client.s.calm && client.s.reliable ==> o.Success?
    {
      hide Rely, Kept, Inv, LegalRun, SameSources, SameDestinations, NoNewPods, SameClaims, Run, Relocation, Referred, MovedAside;
      hide PausesStay, AllPaused, PausedAll, Running, Idled, Took, Extends;
      TracesExtend();
      ghost var w0 := client.w;
      NothingMoved(w0.pods, copy.vgr.ns);
      o := PauseSources();
      if o.Success? {
        ghost var w1 := client.w;
        o := DeleteVolSyncPods();
        SteadyIsSyncing(client.s, w1, client.w);
        SyncingIsTransitive(client.s, w0, w1, client.w);
        PausesSteady(client.s, w0, w1, client.w, copy.vgr.ns);
      }
    }

    /**
     A VRG of the namespace that is secondary stops a primary: all sources are paused and the reconcile ends.
     When pausing fails the reconcile is aborted. `Success(None)` means go on.
     */
    method CheckVRGConflict() returns (r: Result<Option<Requeue>>)
      requires Ready()
      modifies client
      ensures Extends(old(client.trace), client.trace)
      ensures Ready() && Syncing(client.s, old(client.w), client.w) && PausesStay(old(client.w).rss, client.w.rss)
      ensures r == Success(None) ==> !client.s.relocating && SameSources(old(client.w).rss, client.w.rss)
      ensures r == Success(None) && client.s.calm ==> client.w == old(client.w)
      ensures client.s.calm ==> client.w.vgr == old(client.w).vgr
      ensures client.s.relocating || client.s.reliable ==> (r == Success(None) <==> !SecondaryVRG(old(client.w).vrgs, copy.vgr.ns))
      ensures r.Success? && r.value.Some? ==>
        r.value.value == WhenSomethingChanges && SecondaryVRG(old(client.w).vrgs, copy.vgr.ns) && AllPaused(client.w.rss, copy.vgr.ns)
      ensures client.s.calm && r.Success? && r.value.Some? ==> Halted(old(client.w), client.w, copy.vgr.ns)
      ensures client.s.calm && client.s.reliable ==> r.Success?
      ensures r.Failure? ==> SecondaryVRG(old(client.w).vrgs, copy.vgr.ns)
    {
      hide Halted, Idled, Took, Extends;
      TracesExtend();
      hide Rely, Kept, Inv, LegalRun, SameDestinations, NoNewPods, SameClaims, Run, Referred, PausesStay, AllPaused, SecondaryVRG, Lists;
      ghost var w0 := client.w;
      var list := client.ListVRGs(copy.vgr.ns);
      ghost var w1 := client.w;
      SteadyIsSyncing(client.s, w0, w1);
      NothingPausedSteadily(client.s, w0, w1, Failure(Fault));
      if list.Failure? {
        return Success(None);
      }
      var i := 0;
      while i < |list.value|
        invariant i <= |list.value| && client.w == w1 && Extends(old(client.trace), client.trace)
        invariant forall j :: 0 <= j < i ==> !list.value[j].value.role.Secondary?
      {
        if list.value[i].value.role.Secondary? {
          FoundConflict(list.value, w0.vrgs, copy.vgr.ns, i);
          hide SameSources, Relocation;
          var o := PauseAllReplicationSources();
          SyncingIsTransitive(client.s, w0, w1, client.w);
          PausesStayIsTransitive(w0.rss, w1.rss, client.w.rss);
          return if o.Failure? then Failure(o.error) else Success(Some(WhenSomethingChanges));
        }
        i := i + 1;
      }
      NoConflict(list.value, w0.vrgs, copy.vgr.ns);
      RelocationIsConflict(copy.base, w0.vrgs);
      return Success(None);
    }

    /**
     Makes every listed claim a source, except claims that VolSync created. Returns the names of those that are
     replicated and the last sync time that was found; `protected` are their keys.
     */
    method ReconcileReplicationSources(list: seq<Item<PVC>>) returns (r: Result<(seq<Name>, Option<int>)>, ghost protected: seq<Key>)
      requires Ready() && !client.s.relocating && Distinct(list)
      modifies client
      ensures Extends(old(client.trace), client.trace)
      ensures Ready() && PausesStay(old(client.w).rss, client.w.rss)
      ensures r.Success? ==>
        && r.value.0 == KeyNames(protected) && Among(protected, list)
        && ReplicatingEach(client.w, protected, vsHandler.owner, vsHandler.interval)
        && SentOrWent(client.s, client.start, old(client.trace), client.trace, list, protected)
      ensures client.s.calm && r.Success? ==>
        && protected == Sending(list, old(client.w).pvcs)
        && BecameSources(old(client.w), client.w, vsHandler.owner, protected, vsHandler.interval)
        && Provided(protected, old(client.w).secrets, secret)
        && r.value.1 == LastSync(protected, old(client.w).rss)
        && (IsLatest(protected, old(client.w).rss, r.value.1) <==> LastDatedIsLatest(protected, old(client.w).rss))
      ensures client.s.calm && client.s.reliable && AllSendable(old(client.w), list, secret, vsHandler.interval) ==> r.Success?
    {
      hide Rely, Kept, OthersKept, Inv, LegalRun, Run, Referred, PausesStay, Distinct, Sending, LastSync, KeyNames, AsSource, AllSendable;
      hide SourceWritten, Replicating, Source, Schedule.CronSpec, Going, IsLatest, LastDatedIsLatest, Idled, Took, Extends;
      hide Among, ReplicatingEach, SentOrWent, BecameSource, BecameSources, Provided, Schedule.WellFormed, Schedule.Malformed, Keys;
      TracesExtend();
      Schedule.CronSpecKeeps(vsHandler.interval);
      hide Schedule.Keeps;
      ghost var w0, t0 := client.w, client.trace;
      var names, latest := [], None;
      protected := [];
      NothingPaused(client.s, w0, Key("", App("")));
      NothingSent(client.s, client.start, t0, w0, list, vsHandler.owner, secret, vsHandler.interval);
      var i := 0;
      while i < |list|
        invariant i <= |list| && Ready() && PausesStay(w0.rss, client.w.rss) && Extends(t0, client.trace)
        invariant names == KeyNames(protected) && Among(protected, list[..i])
        invariant ReplicatingEach(client.w, protected, vsHandler.owner, vsHandler.interval)
        invariant SentOrWent(client.s, client.start, t0, client.trace, list[..i], protected)
        invariant client.s.calm ==>
          && protected == Sending(list[..i], w0.pvcs) && latest == LastSync(protected, w0.rss)
          && BecameSources(w0, client.w, vsHandler.owner, protected, vsHandler.interval) && Provided(protected, w0.secrets, secret)
      {
        ghost var w1, t1 := client.w, client.trace;
        var x := list[i];
        NextSending(list, i, w0.pvcs);
        NextAmong(protected, list, i);
        if !IsVolSyncOwned(x.value) {
          var rs := vsHandler.ReconcileRS(x.key, secret);
          WrittenPausesStay(w0.rss, w1.rss, client.w.rss, x.key);
          ReferredAcross(client.s, w1, client.w);
          ReplicatingStays(w1, client.w, protected, x.key, vsHandler.owner, vsHandler.interval);
          if client.s.calm {
            AsBefore(w0, w1, protected, x.key, vsHandler.owner, vsHandler.interval, secret);
          }
          if rs.Failure? {
            if client.s.calm && client.s.reliable && AllSendable(w0, list, secret, vsHandler.interval) && x.key.name.App? && !Going(w0.pvcs, x.key) {
              ListedIsSendable(w0, list, i, secret, vsHandler.interval);
            }
            return Failure(rs.error), protected;
          }
          NextSentOrWent(client.s, client.start, t0, t1, client.trace, list, i, protected, w1, rs.value.Some?);
          if rs.value.Some? {
            if client.s.calm {
              NextBecomesSource(w0, w1, client.w, protected, x.key, vsHandler.owner, vsHandler.interval);
            }
            NextSync(protected, w0.rss, x.key);
            KeyNamesOfNext(protected, x.key);
            names, protected := names + [x.key.name], protected + [x.key];
            if rs.value.value.lastSyncTime.Some? {
              latest := rs.value.value.lastSyncTime;
            }
          }
        } else {
          NextSentOrWent(client.s, client.start, t0, t1, client.trace, list, i, protected, w1, false);
        }
        i := i + 1;
      }
      assert list[..|list|] == list;
      LastSyncIsLatestIff(protected, w0.rss);
      return Success((names, latest)), protected;
    }

    /** Records the promotion. */
    method UpdateStatus(protected: seq<Name>, latest: Option<int>) returns (o: Outcome)
      requires Ready() && copy.vgr == copy.base
      modifies client, copy
      ensures Extends(old(client.trace), client.trace)
      ensures Ready() && copy.vgr == old(copy.vgr).(status := Status(PrimaryState, protected, latest))
      ensures copy.base == if o.Success? then copy.vgr else old(copy.base)
      ensures SameSources(old(client.w).rss, client.w.rss) && client.w.rds.Keys == old(client.w).rds.Keys
      ensures o.Success? ==> old(client.w).vgr == old(copy.base) && client.w.vgr.status == copy.vgr.status
      ensures client.s.calm ==> client.w == if o.Success? then old(client.w).(vgr := copy.vgr) else old(client.w)
      ensures client.s.reliable && old(client.w).vgr == old(copy.base) ==> o.Success?
    {
      hide Rely, Inv, LegalRun, SameSources, NoNewPods, Kept, Referred;
      copy.vgr := copy.vgr.(status := Status(PrimaryState, protected, latest));
      o := client.UpdateStatus(copy.base, copy.vgr.status);
      if o.Success? {
        copy.base := copy.vgr;
      }
    }

    /** `listed` are the claims that this reconcile is about, and `protected` those that are replicated. */
    method Reconcile() returns (r: Result<Requeue>, ghost listed: seq<Item<PVC>>, ghost protected: seq<Key>)
      requires Ready() && copy.vgr == copy.base
      modifies client, copy
      ensures Extends(old(client.trace), client.trace)
      ensures Ready() && Justified(client.s, client.w, copy.vgr.status)
      ensures copy.vgr == old(copy.vgr) || copy.vgr == old(copy.vgr).(status := Status(PrimaryState, KeyNames(protected), copy.vgr.status.lastSync))
      ensures copy.base == copy.vgr || (r.Failure? && copy.base == old(copy.base))
      ensures PausesStay(old(client.w).rss, client.w.rss)
      ensures (client.s.relocating || client.s.reliable) && copy.vgr.selector.Some? && SecondaryVRG(old(client.w).vrgs, copy.vgr.ns) ==>
        && client.w.rss.Keys == old(client.w).rss.Keys && copy.vgr == old(copy.vgr)
        && (r.Success? ==> AllPaused(client.w.rss, copy.vgr.ns))
      ensures r == Success(WhenSomethingChanges) ==> copy.vgr == old(copy.vgr) && SecondaryVRG(old(client.w).vrgs, copy.vgr.ns)
      ensures r == Success(After(REQUEUE_INTERVAL)) && listed != [] ==> copy.vgr.status.state == PrimaryState
      ensures client.s.calm && old(client.w).vgr == old(copy.base) && r.Success? ==> client.w.vgr == copy.base
      ensures PromotedInTime(client.s, client.start, old(client.trace), client.trace, old(client.w), client.w, old(copy.base),
                             listed, protected, secret, vsHandler.interval, r)
    {
      hide Rely, Kept, Inv, LegalRun, Run, Referred, PausesStay, Distinct, KeyNames, Lists, SecondaryVRG, AllPaused, GroupDone, SameSource;
      hide StampsStay, SameDestinations, Relocation, NoNewPods, Halted, Among, ReplicatingEach, SentOrWent, BecameSources, Provided, AllSendable;
      hide Idled, Took, Extends, GroupClaims, Matching, Sending, LastSync, IsLatest, LastDatedIsLatest, ListedDuring;
      TracesExtend();
      listed, protected := [], [];
      ghost var w0, t0 := client.w, client.trace;
      RecordedAgain(client.s, w0, copy.vgr.status);
      NothingPaused(client.s, w0, Key("", App("")));
      if copy.vgr.selector.None? {
        return Success(After(REQUEUE_INTERVAL)), listed, protected;
      }
      var sel := copy.vgr.selector.value;
      var conflict := CheckVRGConflict();
      ghost var w1, t1 := client.w, client.trace;
      DoneStaysSyncing(client.s, w0, w1);
      JustificationStays(client.s, w0, w1, copy.vgr.status);
      if conflict.Failure? || conflict.value.Some? {
        return if conflict.Failure? then Failure(conflict.error) else Success(conflict.value.value), listed, protected;
      }
      var list := client.ListPVCs(sel, None, Some(copy.vgr.name));
      ghost var w2, t2 := client.w, client.trace;
      MatchingIsGroup(w1.pvcs, sel, copy.vgr.name);
      PausesSteady(client.s, w0, w1, w2, "");
      NotRelocatingIsJustified(client.s);
      if list.Failure? {
        return Failure(list.error), listed, protected;
      }
      listed := list.value;
      ListedNow(client.s, client.start, t0, t1, t2, listed, w1, sel, copy.vgr.name);
      if list.value == [] {
        NothingPromoted(client.s, client.start, t0, t2, w0, w2, copy.base, vsHandler.interval, secret);
        return Success(After(REQUEUE_INTERVAL)), listed, protected;
      }
      ListIsDistinct(list.value, GroupClaims(w1.pvcs, sel, copy.vgr.name));
      var sources;
      sources, protected := ReconcileReplicationSources(list.value);
      ghost var w3, t3 := client.w, client.trace;
      PausesStayIsTransitive(w0.rss, w2.rss, w3.rss);
      if sources.Failure? {
        return Failure(sources.error), listed, protected;
      }
      var o := UpdateStatus(sources.value.0, sources.value.1);
      PausesAcross(w0.rss, w3.rss, client.w.rss);
      ReplicatingAcross(w3, client.w, protected, vsHandler.owner, vsHandler.interval);
      ListedStill(client.s, client.start, t0, t2, t3, client.trace, listed, protected, sel, copy.vgr.name);
      if client.s.calm {
        SourcesAcrossStatus(w0, w3, client.w, vsHandler.owner, protected, vsHandler.interval);
      }
      ForTheGroup(w0, client.w, client.w.(vgr := w0.vgr), vsHandler.owner, old(copy.base), protected, vsHandler.interval);
      return if o.Failure? then Failure(o.error) else Success(After(REQUEUE_INTERVAL)), listed, protected;
    }
  }

  /** The listed sources up to the i-th are paused. */
  ghost predicate PausedUpTo(rss: SourceMap, list: seq<Item<RS>>, i: nat) {
    forall j :: 0 <= j < i && j < |list| ==> list[j].key in rss && rss[list[j].key].paused
  }

  /** The sources after those among `keys` were paused. */
  function PausedIn(rss: SourceMap, keys: seq<Key>): SourceMap {
    map k | k in rss :: if k in keys && !rss[k].paused then Settled(rss[k].(paused := true)) else rss[k]
  }

  lemma NothingPaused(s: Setting, w: World, k: Key)
    ensures Syncing(s, w, w) && OtherSources(w.rss, w.rss, k) && PausesStay(w.rss, w.rss)
  {
  }

  lemma NothingPausedSteadily(s: Setting, w: World, v: World, list: Result<seq<Item<RS>>>)
    requires Steady(s, w, v)
    ensures PausesStay(w.rss, v.rss)
    ensures list.Success? ==>
      PausedUpTo(v.rss, list.value, 0) && w.rss == PausedIn(w.rss, Keys(list.value[..0])) && RunningIn(w.rss, Keys(list.value[..0])) == {}
  {
  }

  /** The sources among `keys` that are not paused. */
  function RunningIn(rss: SourceMap, keys: seq<Key>): set<Key> {
    set k | k in rss && k in keys && !rss[k].paused
  }

  lemma NextIsNotPausedYet(rss: SourceMap, list: seq<Item<RS>>, i: nat, ns: string)
    requires i < |list| && Lists(list, InNamespace(rss, ns))
    ensures var u := PausedIn(rss, Keys(list[..i])); list[i].key in u && u[list[i].key] == list[i].value
  {
    KeysAreListed(list[..i]);
    hide Keys, Settled;
    assert list[i] in list;
  }

  lemma PausesStayIsTransitive(u: SourceMap, v: SourceMap, w: SourceMap)
    requires PausesStay(u, v) && PausesStay(v, w)
    ensures PausesStay(u, w)
  {
  }

  lemma ListedIsThere(w: SourceMap, v: SourceMap, list: seq<Item<RS>>, i: nat, ns: string)
    requires i < |list| && Lists(list, InNamespace(w, ns)) && PausesStay(w, v)
    ensures list[i].key in w && w[list[i].key] == list[i].value && list[i].key.ns == ns
    ensures list[i].value.paused ==> list[i].key in v && v[list[i].key].paused
  {
    assert list[i] in list;
  }

  lemma OneMorePaused(w: SourceMap, v: SourceMap, list: seq<Item<RS>>, i: nat)
    requires i < |list| && PausedUpTo(w, list, i) && PausesStay(w, v)
    requires list[i].key in v && v[list[i].key].paused
    ensures PausedUpTo(v, list, i + 1)
  {
  }

  lemma EveryListedIsPaused(s: Setting, w: World, v: World, list: seq<Item<RS>>, ns: string)
    requires Lists(list, InNamespace(w.rss, ns)) && PausedUpTo(v.rss, list, |list|) && Syncing(s, w, v)
    ensures AllPaused(v.rss, ns)
  {
    hide Kept, Policy, SameDestinations, StampsStay;
    forall k | k in v.rss && k.ns == ns
      ensures v.rss[k].paused
    {
      assert Item(k, InNamespace(w.rss, ns)[k]) in list;
      var j :| 0 <= j < |list| && list[j] == Item(k, w.rss[k]);
    }
  }

  lemma PausedInNext(rss: SourceMap, list: seq<Item<RS>>, i: nat, ns: string)
    requires i < |list| && Lists(list, InNamespace(rss, ns))
    ensures var u, v := PausedIn(rss, Keys(list[..i])), PausedIn(rss, Keys(list[..i + 1]));
      v == if list[i].value.paused then u else u[list[i].key := Settled(list[i].value.(paused := true))]
    ensures var u, v := RunningIn(rss, Keys(list[..i])), RunningIn(rss, Keys(list[..i + 1]));
      v == u + if list[i].value.paused then {} else {list[i].key}
  {
    hide Settled;
    assert list[i] in list;
    assert list[..i + 1][..i] == list[..i];
  }

  lemma PausedInAll(rss: SourceMap, list: seq<Item<RS>>, ns: string)
    requires Lists(list, InNamespace(rss, ns))
    ensures PausedIn(rss, Keys(list)) == PausedAll(rss, ns) && RunningIn(rss, Keys(list)) == Running(rss, ns)
  {
    hide Settled, Keys;
    KeysAreListed(list);
    assert forall j :: 0 <= j < |list| ==> list[j] in list && Keys(list)[j].ns == ns;
    forall k | k in rss
      ensures k in Keys(list) <==> k.ns == ns
    {
      if k.ns == ns {
        assert Item(k, InNamespace(rss, ns)[k]) in list;
        var j :| 0 <= j < |list| && list[j] == Item(k, rss[k]);
        assert Keys(list)[j] == k;
      }
    }
  }

  // ---------- pods ----------

  /** Only VolSync pods of the namespace are gone. */
  ghost predicate MovedAside(w: PodMap, v: PodMap, ns: string) {
    && (forall p :: p in v ==> p in w && v[p] == w[p])
    && (forall p :: p in w && p !in v ==> p.ns == ns && w[p].volsync)
  }

  /** The listed VolSync pods up to the i-th are gone. */
  ghost predicate Cleared(pods: PodMap, list: seq<Item<Pod>>, i: nat) {
    forall j :: 0 <= j < i && j < |list| && list[j].value.volsync ==> list[j].key !in pods
  }

  lemma NothingMoved(pods: PodMap, ns: string)
    ensures MovedAside(pods, pods, ns)
  {
  }

  /** The listed pods from the i-th on are there. */
  ghost predicate StillThere(pods: PodMap, list: seq<Item<Pod>>, i: nat) {
    forall j :: i <= j < |list| ==> list[j].key in pods
  }

  lemma NothingCleared(pods: PodMap, list: seq<Item<Pod>>, ns: string)
    requires Lists(list, InNamespace(pods, ns))
    ensures Cleared(pods, list, 0) && StillThere(pods, list, 0)
  {
    assert forall j :: 0 <= j < |list| ==> list[j] in list;
  }

  lemma NextIsThere(pods: PodMap, list: seq<Item<Pod>>, i: nat)
    requires i < |list|
    ensures StillThere(pods, list, i) ==> list[i].key in pods
  {
  }

  lemma OthersStillThere(u: PodMap, w: PodMap, v: PodMap, list: seq<Item<Pod>>, i: nat, ns: string)
    requires i < |list| && Lists(list, InNamespace(u, ns)) && StillThere(w, list, i) && (v == w || v == w - {list[i].key})
    ensures StillThere(v, list, i + 1)
  {
  }

  lemma OneMoreMoved(w: PodMap, v: PodMap, list: seq<Item<Pod>>, i: nat, ns: string)
    requires i < |list| && Lists(list, InNamespace(w, ns)) && list[i].value.volsync
    ensures MovedAside(w, v, ns) ==> MovedAside(w, v - {list[i].key}, ns)
  {
    assert list[i] in list;
  }

  lemma OneMoreCleared(w: PodMap, v: PodMap, list: seq<Item<Pod>>, i: nat)
    requires i < |list|
    ensures Cleared(w, list, i) && (v == w - {list[i].key} || (v == w && !list[i].value.volsync)) ==> Cleared(v, list, i + 1)
  {
  }

  lemma AllCleared(w: PodMap, v: PodMap, list: seq<Item<Pod>>, ns: string)
    requires Lists(list, InNamespace(w, ns)) && Cleared(v, list, |list|) && MovedAside(w, v, ns)
    ensures forall p :: p in v && p.ns == ns ==> !v[p].volsync
  {
    forall p | p in v && p.ns == ns
      ensures !v[p].volsync
    {
      assert Item(p, InNamespace(w, ns)[p]) in list;
      var j :| 0 <= j < |list| && list[j] == Item(p, w[p]);
    }
  }

  lemma PausesSteady(s: Setting, u: World, v: World, w: World, ns: string)
    requires PausesStay(u.rss, v.rss) && Steady(s, v, w)
    ensures PausesStay(u.rss, w.rss) && (AllPaused(v.rss, ns) ==> AllPaused(w.rss, ns))
  {
  }

  // ---------- the conflict ----------

  lemma FoundConflict(list: seq<Item<VRG>>, vrgs: map<Key, VRG>, ns: string, i: nat)
    requires i < |list| && Lists(list, InNamespace(vrgs, ns)) && list[i].value.role.Secondary?
    ensures SecondaryVRG(vrgs, ns)
  {
    assert list[i] in list;
  }

  lemma NoConflict(list: seq<Item<VRG>>, vrgs: map<Key, VRG>, ns: string)
    requires Lists(list, InNamespace(vrgs, ns)) && forall j :: 0 <= j < |list| ==> !list[j].value.role.Secondary?
    ensures !SecondaryVRG(vrgs, ns)
  {
    forall k | k in vrgs && k.ns == ns
      ensures !vrgs[k].role.Secondary?
    {
      assert Item(k, InNamespace(vrgs, ns)[k]) in list;
    }
  }

  lemma RelocationIsConflict(vgr: VGR, vrgs: map<Key, VRG>)
    ensures Relocation(vgr, vrgs) ==> SecondaryVRG(vrgs, vgr.ns)
  {
  }

  // ---------- sources ----------

  /** Claims that VolSync created itself. */
  predicate IsVolSyncOwned(p: PVC) {
    CreatedBy in p.labels && p.labels[CreatedBy] == "volsync"
  }

  /** A listed claim that is no stand-in and that VolSync did not create. */
  predicate Candidate(x: Item<PVC>) {
    x.key.name.App? && (CreatedBy in x.value.labels ==> x.value.labels[CreatedBy] != "volsync")
  }

  /** The listed candidates that are not being deleted, in list order. */
  function Sending(list: seq<Item<PVC>>, pvcs: ClaimMap): seq<Key> {
    if list == [] then []
    else
      var last := list[|list| - 1];
      Sending(list[..|list| - 1], pvcs) + if Candidate(last) && !Going(pvcs, last.key) then [last.key] else []
  }

  /** The claims are candidates of the list, in its order. */
  ghost predicate Among(keys: seq<Key>, list: seq<Item<PVC>>) {
    if list == [] then keys == []
    else
      var last := list[|list| - 1];
      || Among(keys, list[..|list| - 1])
      || (keys != [] && Candidate(last) && keys[|keys| - 1] == last.key && Among(keys[..|keys| - 1], list[..|list| - 1]))
  }

  /** The secret exists in the namespace of each of the claims. */
  ghost predicate Provided(keys: seq<Key>, secrets: set<(string, string)>, secret: string) {
    forall k :: k in keys ==> (k.ns, secret) in secrets
  }

  /** Every listed candidate that is not being deleted has what a source needs. */
  ghost predicate AllSendable(w: World, list: seq<Item<PVC>>, secret: string, interval: string) {
    Provided(Sending(list, w.pvcs), w.secrets, secret) && (Sending(list, w.pvcs) == [] || Schedule.WellFormed(interval))
  }

  /** Each of the claims is read by a source on a schedule that keeps the interval, and has no destination. */
  ghost predicate ReplicatingEach(w: World, keys: seq<Key>, vgr: VGR, interval: string) {
    forall k :: k in keys ==> Replicating(w.rss, k, vgr, interval) && k !in w.rds
  }

  /** Claim `k` was being deleted in some state between two traces from `start`. */
  ghost predicate Went(s: Setting, start: World, t: seq<Step>, u: seq<Step>, k: Key) {
    exists n :: |t| <= n <= |u| && Going(Run(s, start, u[..n]).pvcs, k)
  }

  /** Every listed candidate is among the claims, or was being deleted meanwhile. */
  ghost predicate SentOrWent(s: Setting, start: World, t: seq<Step>, u: seq<Step>, list: seq<Item<PVC>>, keys: seq<Key>) {
    forall x :: x in list && Candidate(x) ==> x.key in keys || Went(s, start, t, u, x.key)
  }

  /** The sync time of the last of the sources that has one. */
  function LastSync(keys: seq<Key>, rss: SourceMap): Option<int> {
    if keys == [] then None
    else
      var last := keys[|keys| - 1];
      if last in rss && rss[last].lastSyncTime.Some? then rss[last].lastSyncTime else LastSync(keys[..|keys| - 1], rss)
  }

  /** The source of the claim has a sync time. */
  predicate Dated(rss: SourceMap, k: Key) {
    k in rss && rss[k].lastSyncTime.Some?
  }

  /** The time is the latest sync time of the sources, or there is none because none of them has one. */
  ghost predicate IsLatest(keys: seq<Key>, rss: SourceMap, time: Option<int>) {
    && (time.None? <==> forall k :: k in keys ==> !Dated(rss, k))
    && (time.Some? ==>
          && (exists k :: k in keys && Dated(rss, k) && rss[k].lastSyncTime == time)
          && forall k :: k in keys && Dated(rss, k) ==> rss[k].lastSyncTime.value <= time.value)
  }

  /** Source `i` is the last one in list order that has a sync time. */
  predicate IsLastDated(keys: seq<Key>, rss: SourceMap, i: nat)
    requires i < |keys|
  {
    Dated(rss, keys[i]) && forall j :: i < j < |keys| ==> !Dated(rss, keys[j])
  }

  /** No source before the last one that has a sync time has a later one. */
  ghost predicate LastDatedIsLatest(keys: seq<Key>, rss: SourceMap) {
    forall i, j :: 0 <= j < i < |keys| && IsLastDated(keys, rss, i) && Dated(rss, keys[j]) ==>
      rss[keys[j]].lastSyncTime.value <= rss[keys[i]].lastSyncTime.value
  }

  lemma {:induction false} LastSyncIsLastDated(keys: seq<Key>, rss: SourceMap) returns (i: nat)
    ensures LastSync(keys, rss).None? ==> forall k :: k in keys ==> !Dated(rss, k)
    ensures LastSync(keys, rss).Some? ==>
      i < |keys| && IsLastDated(keys, rss, i) && LastSync(keys, rss) == rss[keys[i]].lastSyncTime
  {
    i := 0;
    if keys != [] {
      var n := |keys| - 1;
      if Dated(rss, keys[n]) {
        i := n;
      } else {
        i := LastSyncIsLastDated(keys[..n], rss);
        assert forall j :: 0 <= j < n ==> keys[..n][j] == keys[j];
      }
    }
  }

  /**
   The reported time is the last one in list order. It is the latest if and only if no source before the last dated
   one has a later time.
   */
  lemma LastSyncIsLatestIff(keys: seq<Key>, rss: SourceMap)
    ensures IsLatest(keys, rss, LastSync(keys, rss)) <==> LastDatedIsLatest(keys, rss)
  {
    var i := LastSyncIsLastDated(keys, rss);
    hide LastSync;
    if LastSync(keys, rss).Some? {
      assert keys[i] in keys;
      assert forall j :: 0 <= j < |keys| && IsLastDated(keys, rss, j) ==> j == i;
    }
  }

  /** It need not be: a later source may have synced earlier. */
  lemma LastSyncIsNotTheLatest() returns (keys: seq<Key>, rss: SourceMap)
    ensures |keys| == 2 && keys[0] != keys[1] && forall k :: k in keys ==> Dated(rss, k)
    ensures !IsLatest(keys, rss, LastSync(keys, rss))
  {
    var a, b := Key("ns", App("a")), Key("ns", App("b"));
    var rs := RS(map[], App("a"), false, Trigger.Schedule(""), None, Some(2));
    keys, rss := [a, b], map[a := rs, b := rs.(lastSyncTime := Some(1))];
    assert Dated(rss, keys[0]) && LastSync(keys, rss) == Some(1);
  }

  /** The claims of all namespaces that match the selector and carry the owner label. */
  function GroupClaims(pvcs: ClaimMap, sel: Selector, owner: string): ClaimMap {
    map k | k in pvcs && Matches(sel, pvcs[k].labels) && OwnedBy(owner, pvcs[k].labels) :: pvcs[k]
  }

  lemma MatchingIsGroup(pvcs: ClaimMap, sel: Selector, owner: string)
    ensures Matching(pvcs, sel, None, Some(owner)) == GroupClaims(pvcs, sel, owner)
  {
  }

  /** The list is that of the group's claims in some state between two traces from `start`. */
  ghost predicate ListedDuring(s: Setting, start: World, t: seq<Step>, u: seq<Step>, listed: seq<Item<PVC>>, sel: Selector, owner: string) {
    exists n :: |t| <= n <= |u| && Lists(listed, GroupClaims(Run(s, start, u[..n]).pvcs, sel, owner))
  }

  /**
   What a complete reconcile comes to, whatever happens meanwhile: `listed` are the group's claims; `protected` are those
   of them that are replicated, in list order; and any other candidate was being deleted.
   */
  ghost predicate Replicated(s: Setting, start: World, t: seq<Step>, u: seq<Step>, listed: seq<Item<PVC>>, protected: seq<Key>,
                             w: World, sel: Selector, owner: VGR, interval: string) {
    && ListedDuring(s, start, t, u, listed, sel, owner.name)
    && Among(protected, listed) && ReplicatingEach(w, protected, owner, interval)
    && SentOrWent(s, start, t, u, listed, protected)
  }

  /**
   What it comes to if nothing happens meanwhile: every listed candidate that is not being deleted has become a source,
   the status records their names and the last known sync time, and nothing else was touched.
   */
  ghost predicate Promoted(w: World, v: World, listed: seq<Item<PVC>>, protected: seq<Key>, sel: Selector, owner: VGR, secret: string, interval: string) {
    && Lists(listed, GroupClaims(w.pvcs, sel, owner.name))
    && protected == Sending(listed, w.pvcs) && Provided(protected, w.secrets, secret)
    && BecameSources(w, v.(vgr := w.vgr), owner, protected, interval)
    && v.vgr == if listed == [] then w.vgr else w.vgr.(status := Status(PrimaryState, KeyNames(protected), LastSync(protected, w.rss)))
  }

  /**
   What a reconcile as primary comes to between two traces, where `vgr` is the VGR as it was read. It comes back later
   when the listed claims are replicated, and waits for a change when a VRG that is secondary has made it pause all
   sources. Without interference and faults it is certain which.
   */
  ghost predicate PromotedInTime(s: Setting, start: World, t: seq<Step>, u: seq<Step>, w: World, v: World, vgr: VGR,
                                 listed: seq<Item<PVC>>, protected: seq<Key>, secret: string, interval: string, r: Result<Requeue>) {
    var exact := s.calm && w.vgr == vgr;
    && (r.Success? ==> r.value == After(REQUEUE_INTERVAL) || r.value == WhenSomethingChanges)
    && (r == Success(WhenSomethingChanges) ==> AllPaused(v.rss, vgr.ns) && (exact ==> Halted(w, v, vgr.ns)))
    && (vgr.selector.None? && exact && s.reliable ==> r == Success(After(REQUEUE_INTERVAL)) && v == w)
    && (vgr.selector.Some? ==>
          var sel := vgr.selector.value;
          && (r == Success(After(REQUEUE_INTERVAL)) ==>
                && Replicated(s, start, t, u, listed, protected, v, sel, vgr, interval)
                && (listed != [] ==> v.vgr.status.state == PrimaryState)
                && (exact ==> Promoted(w, v, listed, protected, sel, vgr, secret, interval)))
          && (exact && s.reliable ==>
                if SecondaryVRG(w.vrgs, vgr.ns) then r == Success(WhenSomethingChanges)
                else
                  && Lists(listed, GroupClaims(w.pvcs, sel, vgr.name))
                  && (AllSendable(w, listed, secret, interval) ==> r == Success(After(REQUEUE_INTERVAL)))))
  }

  lemma FailedToPromote(s: Setting, start: World, t: seq<Step>, u: seq<Step>, w: World, v: World, vgr: VGR, secret: string, interval: string, e: Error)
    requires !s.reliable
    ensures PromotedInTime(s, start, t, u, w, v, vgr, [], [], secret, interval, Failure(e))
  {
  }

  lemma PromotedEarlier(s: Setting, start: World, t: seq<Step>, t1: seq<Step>, u: seq<Step>, w: World, w1: World, v: World, vgr: VGR,
                        listed: seq<Item<PVC>>, protected: seq<Key>, secret: string, interval: string, r: Result<Requeue>)
    requires PromotedInTime(s, start, t1, u, w1, v, vgr, listed, protected, secret, interval, r)
    requires Extends(t, t1) && Extends(t1, u) && (s.calm ==> w1 == w)
    ensures PromotedInTime(s, start, t, u, w, v, vgr, listed, protected, secret, interval, r)
  {
    hide Replicated, Promoted, Halted, AllPaused, SecondaryVRG, AllSendable, GroupClaims, Lists;
    assert SameSources(v.rss, v.rss);
    if vgr.selector.Some? && r == Success(After(REQUEUE_INTERVAL)) {
      ReplicatedStill(s, start, t, t1, u, u, listed, protected, v, v, vgr.selector.value, vgr, interval);
    }
  }

  lemma PromotedAcrossStatus(s: Setting, start: World, t: seq<Step>, t1: seq<Step>, u: seq<Step>, w: World, w1: World, v: World, vgr: VGR,
                             listed: seq<Item<PVC>>, protected: seq<Key>, secret: string, interval: string, q: Result<Requeue>, r: Result<Requeue>)
    requires PromotedInTime(s, start, t, t1, w, w1, vgr, listed, protected, secret, interval, q)
    requires Extends(t, t1) && Extends(t1, u) && SameSources(w1.rss, v.rss) && v.rds.Keys == w1.rds.Keys
    requires r == q || (r.Failure? && (s.calm && s.reliable && w.vgr == vgr ==> q.Failure?))
    requires s.calm && w.vgr == vgr && q.Success? && r.Success? ==> v == w1
    requires q == Success(After(REQUEUE_INTERVAL)) && listed != [] ==> v.vgr.status.state == PrimaryState
    ensures PromotedInTime(s, start, t, u, w, v, vgr, listed, protected, secret, interval, r)
  {
    hide Replicated, Promoted, Halted, SecondaryVRG, AllSendable, GroupClaims, Lists;
    assert Extends(t, t);
    if vgr.selector.Some? && r == Success(After(REQUEUE_INTERVAL)) {
      ReplicatedStill(s, start, t, t, t1, u, listed, protected, w1, v, vgr.selector.value, vgr, interval);
    }
  }

  lemma ListedNow(s: Setting, start: World, t: seq<Step>, u: seq<Step>, v: seq<Step>, listed: seq<Item<PVC>>, w: World, sel: Selector, owner: string)
    requires Extends(t, u) && Extends(u, v) && w == Run(s, start, u) && Lists(listed, GroupClaims(w.pvcs, sel, owner))
    ensures ListedDuring(s, start, t, v, listed, sel, owner)
  {
    assert v[..|u|] == u;
    hide Run, Lists, GroupClaims;
    assert Lists(listed, GroupClaims(Run(s, start, v[..|u|]).pvcs, sel, owner));
  }

  lemma ListedStill(s: Setting, start: World, t: seq<Step>, t1: seq<Step>, u: seq<Step>, v: seq<Step>, listed: seq<Item<PVC>>, keys: seq<Key>, sel: Selector, owner: string)
    requires Extends(t, t1) && Extends(t1, u) && Extends(u, v)
    ensures ListedDuring(s, start, t, t1, listed, sel, owner) ==> ListedDuring(s, start, t, v, listed, sel, owner)
    ensures SentOrWent(s, start, t1, u, listed, keys) ==> SentOrWent(s, start, t, v, listed, keys)
  {
    hide Run, Lists, GroupClaims, Candidate, Going;
    if ListedDuring(s, start, t, t1, listed, sel, owner) {
      var n :| |t| <= n <= |t1| && Lists(listed, GroupClaims(Run(s, start, t1[..n]).pvcs, sel, owner));
      assert v[..n] == t1[..n];
    }
    forall x | SentOrWent(s, start, t1, u, listed, keys) && x in listed && Candidate(x) && x.key !in keys
      ensures Went(s, start, t, v, x.key)
    {
      var n :| |t1| <= n <= |u| && Going(Run(s, start, u[..n]).pvcs, x.key);
      assert v[..n] == u[..n];
    }
  }

  lemma ReplicatedStill(s: Setting, start: World, t: seq<Step>, t1: seq<Step>, u: seq<Step>, v: seq<Step>, listed: seq<Item<PVC>>,
                        protected: seq<Key>, w: World, x: World, sel: Selector, owner: VGR, interval: string)
    requires Replicated(s, start, t1, u, listed, protected, w, sel, owner, interval)
    requires Extends(t, t1) && Extends(t1, u) && Extends(u, v) && SameSources(w.rss, x.rss) && x.rds.Keys == w.rds.Keys
    ensures Replicated(s, start, t, v, listed, protected, x, sel, owner, interval)
  {
    hide ListedDuring, SentOrWent, ReplicatingEach, SameSources, Extends, Among;
    ReplicatingAcross(w, x, protected, owner, interval);
    ListedDuringIsTransitive(s, start, t, t1, u, v, listed, sel, owner.name);
    ListedStill(s, start, t, t1, u, v, listed, protected, sel, owner.name);
  }

  lemma ListedDuringIsTransitive(s: Setting, start: World, t: seq<Step>, t1: seq<Step>, u: seq<Step>, v: seq<Step>, listed: seq<Item<PVC>>, sel: Selector, owner: string)
    requires Extends(t, t1) && Extends(u, v) && ListedDuring(s, start, t1, u, listed, sel, owner)
    ensures ListedDuring(s, start, t, v, listed, sel, owner)
  {
    hide Run, Lists, GroupClaims;
    var n :| |t1| <= n <= |u| && Lists(listed, GroupClaims(Run(s, start, u[..n]).pvcs, sel, owner));
    assert v[..n] == u[..n];
  }

  lemma NothingPromoted(s: Setting, start: World, t: seq<Step>, u: seq<Step>, w: World, v: World, owner: VGR, interval: string, secret: string)
    ensures Among([], []) && ReplicatingEach(v, [], owner, interval) && SentOrWent(s, start, t, u, [], [])
    ensures Sending([], w.pvcs) == [] && Provided([], w.secrets, secret) && BecameSources(w, w, owner, [], interval)
    ensures w.(vgr := w.vgr) == w
  {
  }

  lemma ReplicatingAcross(w: World, v: World, keys: seq<Key>, vgr: VGR, interval: string)
    requires ReplicatingEach(w, keys, vgr, interval) && SameSources(w.rss, v.rss) && v.rds.Keys == w.rds.Keys
    ensures ReplicatingEach(v, keys, vgr, interval)
  {
    hide Schedule.Keeps;
  }

  /** Of its owner a handler uses only the name and the namespace. */
  lemma ForTheGroup(w: World, v: World, x: World, owner: VGR, vgr: VGR, keys: seq<Key>, interval: string)
    requires owner.name == vgr.name && owner.ns == vgr.ns
    ensures ReplicatingEach(v, keys, owner, interval) ==> ReplicatingEach(v, keys, vgr, interval)
    ensures BecameSources(w, x, owner, keys, interval) ==> BecameSources(w, x, vgr, keys, interval)
  {
    hide Schedule.Keeps, OtherLabelsKept, SourceKept;
    assert forall labels: Labels :: LabelledFor(owner, labels) == LabelledFor(vgr, labels);
    hide LabelledFor;
    assert forall rs, k :: Reads(rs, k, owner, interval) == Reads(rs, k, vgr, interval);
    assert forall p, q :: ClaimTakenOver(p, q, owner) == ClaimTakenOver(p, q, vgr);
    hide Reads, ClaimTakenOver;
  }

  lemma SourcesAcrossStatus(w: World, v: World, x: World, owner: VGR, keys: seq<Key>, interval: string)
    requires BecameSources(w, v, owner, keys, interval) && x == v.(vgr := x.vgr)
    ensures BecameSources(w, x.(vgr := w.vgr), owner, keys, interval) && v.vgr == w.vgr
  {
    hide SourcesAdded, EachTakenOver;
  }

  lemma NextSending(list: seq<Item<PVC>>, i: nat, pvcs: ClaimMap)
    requires i < |list|
    ensures Sending(list[..i + 1], pvcs) ==
      Sending(list[..i], pvcs) + if Candidate(list[i]) && !Going(pvcs, list[i].key) then [list[i].key] else []
  {
    hide Going, Candidate;
    assert list[..i + 1][..i] == list[..i];
  }

  lemma NextAmong(keys: seq<Key>, list: seq<Item<PVC>>, i: nat)
    requires i < |list| && Among(keys, list[..i])
    ensures Among(keys, list[..i + 1]) && (Candidate(list[i]) ==> Among(keys + [list[i].key], list[..i + 1]))
    ensures Distinct(list) ==> list[i].key !in keys
  {
    hide Candidate;
    assert list[..i + 1][..i] == list[..i];
    assert (keys + [list[i].key])[..|keys|] == keys;
    AmongIsListed(keys, list[..i]);
  }

  lemma {:induction false} AmongIsListed(keys: seq<Key>, list: seq<Item<PVC>>)
    requires Among(keys, list)
    ensures forall k :: k in keys ==> exists x :: x in list && x.key == k && Candidate(x)
    decreases |list|
  {
    if list != [] {
      var front, last := list[..|list| - 1], list[|list| - 1];
      assert last in list && forall x :: x in front ==> x in list;
      if Among(keys, front) {
        AmongIsListed(keys, front);
        assert forall k :: k in keys ==> exists x :: x in front && x.key == k && Candidate(x);
      } else {
        AmongIsListed(keys[..|keys| - 1], front);
        forall k | k in keys
          ensures exists x :: x in list && x.key == k && Candidate(x)
        {
          if k in keys[..|keys| - 1] {
            var x :| x in front && x.key == k && Candidate(x);
          }
        }
      }
    }
  }

  lemma {:induction false} ListedIsSending(list: seq<Item<PVC>>, pvcs: ClaimMap, i: nat)
    requires i < |list| && Candidate(list[i]) && !Going(pvcs, list[i].key)
    ensures list[i].key in Sending(list, pvcs)
    decreases |list|
  {
    hide Candidate, Going;
    if i < |list| - 1 {
      ListedIsSending(list[..|list| - 1], pvcs, i);
    }
  }

  lemma {:induction false} ListedIsSendable(w: World, list: seq<Item<PVC>>, i: nat, secret: string, interval: string)
    requires i < |list| && Candidate(list[i]) && !Going(w.pvcs, list[i].key) && AllSendable(w, list, secret, interval)
    ensures (list[i].key.ns, secret) in w.secrets && Schedule.WellFormed(interval)
  {
    ListedIsSending(list, w.pvcs, i);
    hide Sending, Schedule.WellFormed;
  }

  lemma NextSentOrWent(s: Setting, start: World, t: seq<Step>, u: seq<Step>, v: seq<Step>, list: seq<Item<PVC>>, i: nat, keys: seq<Key>, w: World, sent: bool)
    requires i < |list| && Extends(t, u) && Extends(u, v) && w == Run(s, start, u)
    requires SentOrWent(s, start, t, u, list[..i], keys)
    requires Candidate(list[i]) ==> sent || Going(w.pvcs, list[i].key)
    ensures SentOrWent(s, start, t, v, list[..i + 1], if sent then keys + [list[i].key] else keys)
  {
    hide Candidate, Run, Going;
    forall x | x in list[..i + 1] && Candidate(x)
      ensures x.key in (if sent then keys + [list[i].key] else keys) || Went(s, start, t, v, x.key)
    {
      if x in list[..i] {
        if Went(s, start, t, u, x.key) {
          var n :| |t| <= n <= |u| && Going(Run(s, start, u[..n]).pvcs, x.key);
          assert v[..n] == u[..n];
        }
      } else if !sent {
        assert x == list[i] && v[..|u|] == u;
        assert Going(Run(s, start, v[..|u|]).pvcs, x.key);
      }
    }
  }

  lemma ReplicatingStays(w: World, v: World, keys: seq<Key>, k: Key, vgr: VGR, interval: string)
    requires ReplicatingEach(w, keys, vgr, interval) && SourceWritten(w.rss, v.rss, k) && v.rds.Keys <= w.rds.Keys && k !in keys
    ensures ReplicatingEach(v, keys, vgr, interval)
    ensures Replicating(v.rss, k, vgr, interval) && k !in v.rds ==> ReplicatingEach(v, keys + [k], vgr, interval)
  {
    hide Schedule.Keeps;
  }

  // ---------- without interference ----------

  /** There are sources for the claims now; all other sources are as they were. */
  ghost predicate SourcesAdded(w: SourceMap, v: SourceMap, owner: VGR, keys: seq<Key>, interval: string) {
    && (forall j :: j in v <==> j in w || j in keys) && (forall j :: j in w && j !in keys ==> v[j] == w[j])
    && (forall k :: k in keys ==> Reads(v[k], k, owner, interval) && SourceKept(Found(w, k), v[k]))
  }

  /** Each of the claims was labelled and protected if it exists; all others are as they were. */
  ghost predicate EachTakenOver(w: ClaimMap, v: ClaimMap, owner: VGR, keys: seq<Key>) {
    && v.Keys == w.Keys && (forall c :: c in w && c !in keys ==> v[c] == w[c])
    && (forall c :: c in w && c in keys ==> ClaimTakenOver(w[c], v[c], owner))
  }

  function Without(rds: map<Key, RD>, keys: seq<Key>): map<Key, RD> {
    map j | j in rds && j !in keys :: rds[j]
  }

  lemma NextWithout(rds: map<Key, RD>, keys: seq<Key>, k: Key)
    ensures Without(rds, keys) - {k} == Without(rds, keys + [k]) && Without(rds, []) == rds
  {
  }

  /** The claims were made sources and are no destinations any more, and nothing else was touched. */
  ghost predicate BecameSources(w: World, v: World, owner: VGR, keys: seq<Key>, interval: string) {
    && SourcesAdded(w.rss, v.rss, owner, keys, interval) && EachTakenOver(w.pvcs, v.pvcs, owner, keys)
    && v == w.(rss := v.rss, rds := Without(w.rds, keys), pvcs := v.pvcs)
  }

  lemma NothingSent(s: Setting, start: World, t: seq<Step>, w: World, list: seq<Item<PVC>>, owner: VGR, secret: string, interval: string)
    ensures KeyNames([]) == [] && Among([], list[..0]) && ReplicatingEach(w, [], owner, interval)
    ensures SentOrWent(s, start, t, t, list[..0], [])
    ensures Sending(list[..0], w.pvcs) == [] && LastSync([], w.rss) == None && Provided([], w.secrets, secret)
    ensures BecameSources(w, w, owner, [], interval)
  {
  }

  /** What the handling of some claims leaves as it was for another. */
  lemma AsBefore(u: World, v: World, keys: seq<Key>, k: Key, owner: VGR, interval: string, secret: string)
    requires BecameSources(u, v, owner, keys, interval) && k !in keys
    ensures Found(v.rss, k) == Found(u.rss, k) && v.secrets == u.secrets
    ensures Going(v.pvcs, k) == Going(u.pvcs, k)
    ensures Provided(keys, u.secrets, secret) && (k.ns, secret) in u.secrets ==> Provided(keys + [k], u.secrets, secret)
  {
    hide Reads, SourceKept;
  }

  lemma NextSourceAdded(u: SourceMap, v: SourceMap, w: SourceMap, keys: seq<Key>, k: Key, owner: VGR, interval: string)
    requires SourcesAdded(u, v, owner, keys, interval) && SourceAdded(v, w, owner, k, interval) && k !in keys
    ensures SourcesAdded(u, w, owner, keys + [k], interval) && w[k].lastSyncTime == if k in u then u[k].lastSyncTime else None
  {
    hide Reads, OtherLabelsKept;
    assert Found(v, k) == Found(u, k);
  }

  lemma NextTakenOver(u: ClaimMap, v: ClaimMap, w: ClaimMap, keys: seq<Key>, k: Key, owner: VGR)
    requires EachTakenOver(u, v, owner, keys) && ClaimsTakenOver(v, w, owner, k) && k !in keys
    ensures EachTakenOver(u, w, owner, keys + [k])
  {
    hide ClaimTakenOver;
  }

  lemma NextBecomesSource(u: World, v: World, w: World, keys: seq<Key>, k: Key, owner: VGR, interval: string)
    requires BecameSources(u, v, owner, keys, interval) && BecameSource(v, w, owner, k, interval) && k !in keys
    ensures BecameSources(u, w, owner, keys + [k], interval)
    ensures k in w.rss && w.rss[k].lastSyncTime == if k in u.rss then u.rss[k].lastSyncTime else None
  {
    NextSourceAdded(u.rss, v.rss, w.rss, keys, k, owner, interval);
    NextTakenOver(u.pvcs, v.pvcs, w.pvcs, keys, k, owner);
    hide SourcesAdded, EachTakenOver, ClaimsTakenOver;
    assert k in w.rss;
    hide SourceAdded;
    NextWithout(u.rds, keys, k);
    hide Without;
  }

  lemma NextSync(keys: seq<Key>, rss: SourceMap, k: Key)
    ensures LastSync(keys + [k], rss) ==
      if k in rss && rss[k].lastSyncTime.Some? then rss[k].lastSyncTime else LastSync(keys, rss)
  {
    assert (keys + [k])[..|keys|] == keys;
  }

  lemma WrittenPausesStay(u: SourceMap, v: SourceMap, w: SourceMap, k: Key)
    requires PausesStay(u, v) && SourceWritten(v, w, k)
    ensures PausesStay(u, w)
  {
  }

  lemma PausesAcross(u: SourceMap, v: SourceMap, w: SourceMap)
    requires PausesStay(u, v) && SameSources(v, w)
    ensures PausesStay(u, w)
  {
  }

  lemma ReferredAcross(s: Setting, w: World, v: World)
    requires Referred(s, w) && SameGroup(w.vgr, v.vgr) && v.pvs == w.pvs && v.pvcs.Keys <= w.pvcs.Keys
    ensures Referred(s, v)
  {
    ReferredStays(s, w, v, Key("", App("")));
  }

  lemma ListIsDistinct(list: seq<Item<PVC>>, m: ClaimMap)
    requires Lists(list, m)
    ensures Distinct(list)
  {
  }

  lemma NotRelocatingIsJustified(s: Setting)
    ensures !s.relocating ==> forall w, status :: Justified(s, w, status)
  {
  }
}
