/**
 The right to destroy a port and the right to release a pool are linear.

 Nothing is assumed here: call ids and conference slots may be reused at any moment, pjsip may run
 any number of callbacks, and threads interleave at every lock.
 */
module Ownership {
  import opened Wrappers
  import opened CallMachine
  import opened Effects

  /** What a place in the running program holds. */
  predicate HoldsPort(w: World, at: Place, p: PortId) {
    match at
    case AtThread(t) => t in w.threads && w.threads[t].port == Some(p)
    case AtSession(c) => c in w.mgr.sessions && w.mgr.sessions[c].port == p
    case AtCleanup(slot) => slot in w.reg.cleanup && w.reg.cleanup[slot].port == p
    case _ => false
  }

  predicate HoldsPool(w: World, at: Place, b: PoolId) {
    match at
    case AtThread(t) => t in w.threads && w.threads[t].pool == Some(b)
    case AtActive(c) => c in w.reg.active && w.reg.active[c].pool == b
    case AtCleanup(slot) => slot in w.reg.cleanup && w.reg.cleanup[slot].pool == Some(b)
    case _ => false
  }

  /** Program places and the history of rights describe each other, port by port. */
  ghost predicate PortsAgree(threads: map<Tid, Thread>, sessions: map<CallId, Session>,
                             cleanup: map<SlotId, Cleanup>, r: Rights)
  {
    && (forall p: PortId :: p in r.portAt <==> p < |r.makers|)
    && (forall t :: t in threads && threads[t].port.Some? ==>
          threads[t].port.value in r.portAt && r.portAt[threads[t].port.value] == AtThread(t))
    && (forall c :: c in sessions ==> sessions[c].port in r.portAt && r.portAt[sessions[c].port] == AtSession(c))
    && (forall s :: s in cleanup ==> cleanup[s].port in r.portAt && r.portAt[cleanup[s].port] == AtCleanup(s))
    && (forall p :: p in r.portAt ==>
          match r.portAt[p]
          case AtThread(t) => t in threads && threads[t].port == Some(p)
          case AtSession(c) => c in sessions && sessions[c].port == p
          case AtCleanup(s) => s in cleanup && cleanup[s].port == p
          case AtActive(_) => false
          case _ => true)
  }

  ghost predicate PoolsAgree(threads: map<Tid, Thread>, active: map<CallId, Media>,
                             cleanup: map<SlotId, Cleanup>, r: Rights)
  {
    && (forall b: PoolId :: b in r.poolAt <==> b < r.pools)
    && (forall t :: t in threads && threads[t].pool.Some? ==>
          threads[t].pool.value in r.poolAt && r.poolAt[threads[t].pool.value] == AtThread(t))
    && (forall c :: c in active ==> active[c].pool in r.poolAt && r.poolAt[active[c].pool] == AtActive(c))
    && (forall s :: s in cleanup && cleanup[s].pool.Some? ==>
          cleanup[s].pool.value in r.poolAt && r.poolAt[cleanup[s].pool.value] == AtCleanup(s))
    && (forall b :: b in r.poolAt ==>
          match r.poolAt[b]
          case AtThread(t) => t in threads && threads[t].pool == Some(b)
          case AtActive(c) => c in active && active[c].pool == b
          case AtCleanup(s) => s in cleanup && cleanup[s].pool == Some(b)
          case AtSession(_) => false
          case _ => true)
  }

  /** The calls of `destroy_custom_port` and `pj_pool_release` name each spent port and pool once. */
  ghost predicate FreedOnce(r: Rights) {
    && (forall p :: p in r.destroys <==> p in r.portAt && r.portAt[p].Spent?)
    && (forall b :: b in r.releases <==> b in r.poolAt && r.poolAt[b].Spent?)
    && (forall j, k :: 0 <= j < k < |r.destroys| ==> r.destroys[j] != r.destroys[k])
    && (forall j, k :: 0 <= j < k < |r.releases| ==> r.releases[j] != r.releases[k])
  }

  ghost predicate RightsAgree(w: World) {
    && PortsAgree(w.threads, w.mgr.sessions, w.reg.cleanup, w.rights)
    && PoolsAgree(w.threads, w.reg.active, w.reg.cleanup, w.rights)
    && FreedOnce(w.rights)
  }

  /** The channel records the start of every call instance once, and the end of those that ended. */
  ghost predicate LogKnown(s: Sip) {
    && s.taken <= |s.log| && |s.rang| == |s.dialed|
    && (forall k :: 0 <= k < |s.log| ==>
          var e := s.log[k];
          && e.who < |s.dialed| && e.call == s.dialed[e.who]
          && (e.IncomingCall? ==> s.rang[e.who] == k))
    && (forall i :: 0 <= i < |s.rang| ==> s.rang[i] < |s.log|)
    && (forall c :: c in s.line ==> s.line[c] < |s.dialed| && s.dialed[s.line[c]] == c)
  }

  /** Thread names are fresh: workers are numbered, and a setup task is spawned once, when its call is taken. */
  ghost predicate FreshNames(w: World) {
    && LogKnown(w.sip)
    && (forall n: nat :: Worker(n) in w.threads ==> n < w.workers)
    && (forall t :: t in w.threads ==> Shaped(t, w.threads[t]))
    && (forall i: Instance :: Setup(i) in w.threads ==> i < |w.sip.dialed| && w.sip.rang[i] < w.sip.taken)
  }

  ghost predicate Linear(w: World) {
    FreshNames(w) && RightsAgree(w)
  }

  /** Thread `t`, about to move in a state whose rights agree. */
  ghost predicate Ready(w: World, t: Tid, th: Thread) {
    RightsAgree(w) && t in w.threads && th == w.threads[t] && Shaped(t, th) && Worker(w.workers) !in w.threads
  }

  lemma MakePortKeeps(w: World, t: Tid, th: Thread)
    requires Ready(w, t, th) && th.at.Admitted? && t.Setup?
    ensures RightsAgree(MakePort(w, t, th))
  {
  }

  lemma CheckTokenKeepsPorts(w: World, t: Tid, th: Thread)
    requires Ready(w, t, th) && th.at.Unlisted?
    ensures var w' := CheckToken(w, t, th, th.at.owns); PortsAgree(w'.threads, w'.mgr.sessions, w'.reg.cleanup, w'.rights)
  {
  }

  lemma CheckTokenKeepsPools(w: World, t: Tid, th: Thread)
    requires Ready(w, t, th) && th.at.Unlisted?
    ensures var w' := CheckToken(w, t, th, th.at.owns);
      PoolsAgree(w'.threads, w'.reg.active, w'.reg.cleanup, w'.rights) && FreedOnce(w'.rights)
  {
  }

  lemma StoreKeeps(w: World, t: Tid, th: Thread)
    requires Ready(w, t, th) && th.at.Storing?
    ensures RightsAgree(Store(w, t, th))
  {
  }

  lemma AbortKeeps(w: World, t: Tid, th: Thread)
    requires Ready(w, t, th) && th.at.Aborting?
    ensures RightsAgree(AbortSetup(w, t, th, th.at.gen, th.at.unlisten))
  {
  }

  lemma TakeActiveKeeps(w: World, t: Tid, th: Thread)
    requires Ready(w, t, th) && th.at.TakingActive?
    ensures RightsAgree(TakeActive(w, t, th, th.at.kind, th.at.wasPending))
  {
  }

  lemma RegisterCleanupKeepsPorts(w: World, t: Tid, th: Thread)
    requires Ready(w, t, th) && th.at.Resolving? && th.at.found.Some?
    ensures var w' := RegisterCleanup(w, t, th, th.at.kind, th.at.found.value); PortsAgree(w'.threads, w'.mgr.sessions, w'.reg.cleanup, w'.rights)
  {
  }

  lemma RegisterCleanupKeepsPools(w: World, t: Tid, th: Thread)
    requires Ready(w, t, th) && th.at.Resolving? && th.at.found.Some?
    ensures var w' := RegisterCleanup(w, t, th, th.at.kind, th.at.found.value); PoolsAgree(w'.threads, w'.reg.active, w'.reg.cleanup, w'.rights)
  {
  }

  lemma RegisterCleanupKeepsFreed(w: World, t: Tid, th: Thread)
    requires Ready(w, t, th) && th.at.Resolving? && th.at.found.Some?
    ensures var w' := RegisterCleanup(w, t, th, th.at.kind, th.at.found.value); FreedOnce(w'.rights)
  {
  }

  lemma ResolveKeepsPorts(w: World, t: Tid, th: Thread)
    requires Ready(w, t, th) && th.at.Resolving? && !(th.at.found.Some? && !th.at.wasPending)
    ensures var w' := Resolve(w, t, th, th.at.kind, th.at.wasPending, th.at.found); PortsAgree(w'.threads, w'.mgr.sessions, w'.reg.cleanup, w'.rights)
  {
  }

  lemma ResolveKeepsPools(w: World, t: Tid, th: Thread)
    requires Ready(w, t, th) && th.at.Resolving? && !(th.at.found.Some? && !th.at.wasPending)
    ensures var w' := Resolve(w, t, th, th.at.kind, th.at.wasPending, th.at.found); PoolsAgree(w'.threads, w'.reg.active, w'.reg.cleanup, w'.rights)
  {
  }

  lemma ResolveKeepsFreed(w: World, t: Tid, th: Thread)
    requires Ready(w, t, th) && th.at.Resolving? && !(th.at.found.Some? && !th.at.wasPending)
    ensures var w' := Resolve(w, t, th, th.at.kind, th.at.wasPending, th.at.found); FreedOnce(w'.rights)
  {
  }

  lemma DeferralKeepsPorts(w: World, t: Tid, th: Thread)
    requires Ready(w, t, th) && th.at.FallingBack? && th.at.slot in w.reg.cleanup
    ensures var w' := FallBack(w, t, th, th.at.kind, th.at.slot); PortsAgree(w'.threads, w'.mgr.sessions, w'.reg.cleanup, w'.rights)
  {
  }

  lemma FallBackKeepsPorts(w: World, t: Tid, th: Thread)
    requires Ready(w, t, th) && th.at.FallingBack?
    ensures var w' := FallBack(w, t, th, th.at.kind, th.at.slot); PortsAgree(w'.threads, w'.mgr.sessions, w'.reg.cleanup, w'.rights)
  {
    if th.at.slot in w.reg.cleanup {
      hide PortsAgree, PoolsAgree, FreedOnce, FallBack;
      DeferralKeepsPorts(w, t, th);
    }
  }

  lemma DeferralKeepsPools(w: World, t: Tid, th: Thread)
    requires Ready(w, t, th) && th.at.FallingBack? && th.at.slot in w.reg.cleanup
    ensures var w' := FallBack(w, t, th, th.at.kind, th.at.slot); PoolsAgree(w'.threads, w'.reg.active, w'.reg.cleanup, w'.rights)
  {
  }

  lemma FallBackKeepsPools(w: World, t: Tid, th: Thread)
    requires Ready(w, t, th) && th.at.FallingBack?
    ensures var w' := FallBack(w, t, th, th.at.kind, th.at.slot); PoolsAgree(w'.threads, w'.reg.active, w'.reg.cleanup, w'.rights)
  {
    if th.at.slot in w.reg.cleanup {
      hide PortsAgree, PoolsAgree, FreedOnce, FallBack;
      DeferralKeepsPools(w, t, th);
    }
  }

  lemma FallBackKeepsFreed(w: World, t: Tid, th: Thread)
    requires Ready(w, t, th) && th.at.FallingBack?
    ensures var w' := FallBack(w, t, th, th.at.kind, th.at.slot); FreedOnce(w'.rights)
  {
  }

  lemma LookUpKeepsPorts(w: World, t: Tid, th: Thread)
    requires Ready(w, t, th) && th.at.LookingUp?
    ensures var w' := LookUp(w, t, th, th.at.who); PortsAgree(w'.threads, w'.mgr.sessions, w'.reg.cleanup, w'.rights)
  {
  }

  lemma LookUpKeepsPools(w: World, t: Tid, th: Thread)
    requires Ready(w, t, th) && th.at.LookingUp?
    ensures var w' := LookUp(w, t, th, th.at.who); PoolsAgree(w'.threads, w'.reg.active, w'.reg.cleanup, w'.rights) && FreedOnce(w'.rights)
  {
  }

  lemma MakePoolKeeps(w: World, t: Tid, th: Thread, answer: Answer)
    requires Ready(w, t, th) && th.at.MediaPool?
    ensures RightsAgree(MakePool(w, t, th, th.at.lent, answer))
  {
  }

  lemma AddPortKeeps(w: World, t: Tid, th: Thread, answer: Answer, slot: SlotId)
    requires Ready(w, t, th) && th.at.MediaAdd?
    ensures RightsAgree(AddPort(w, t, th, th.at.lent, answer, slot))
  {
  }

  lemma PublishKeeps(w: World, t: Tid, th: Thread)
    requires Ready(w, t, th) && th.at.MediaPublish?
    ensures RightsAgree(Publish(w, t, th, th.at.slot))
  {
  }

  lemma OperationDoneKeepsPorts(w: World, t: Tid, th: Thread)
    requires Ready(w, t, th) && th.at.OpDone?
    ensures var w' := OperationDone(w, t, th.at.slot, th.at.ok); PortsAgree(w'.threads, w'.mgr.sessions, w'.reg.cleanup, w'.rights)
  {
  }

  lemma OperationDoneKeepsPools(w: World, t: Tid, th: Thread)
    requires Ready(w, t, th) && th.at.OpDone?
    ensures var w' := OperationDone(w, t, th.at.slot, th.at.ok); PoolsAgree(w'.threads, w'.reg.active, w'.reg.cleanup, w'.rights)
  {
  }

  lemma OperationDoneKeepsFreed(w: World, t: Tid, th: Thread)
    requires Ready(w, t, th) && th.at.OpDone?
    ensures var w' := OperationDone(w, t, th.at.slot, th.at.ok); FreedOnce(w'.rights)
  {
  }

  lemma DisposeKeepsPorts(w: World, t: Tid, th: Thread)
    requires Ready(w, t, th) && th.at.Disposing?
    ensures var w' := Dispose(w, t, th); PortsAgree(w'.threads, w'.mgr.sessions, w'.reg.cleanup, w'.rights)
  {
  }

  lemma DisposeKeepsPools(w: World, t: Tid, th: Thread)
    requires Ready(w, t, th) && th.at.Disposing?
    ensures var w' := Dispose(w, t, th); PoolsAgree(w'.threads, w'.reg.active, w'.reg.cleanup, w'.rights) && FreedOnce(w'.rights)
  {
  }

  lemma AdvanceKeepsNames(w: World, w': World, t: Tid)
    requires FreshNames(w) && t in w.threads && Framed(w, w', t)
    ensures FreshNames(w')
  {
  }

  lemma EnvKeepsLog(w: World, a: Action)
    requires LogKnown(w.sip) && Enabled(w, a) && !a.Go?
    ensures LogKnown(Next(w, a).sip)
  {
  }

  lemma EnvKeepsNames(w: World, a: Action)
    requires FreshNames(w) && Enabled(w, a) && !a.Go?
    ensures FreshNames(Next(w, a))
  {
    EnvKeepsLog(w, a);
  }

  lemma StepKeepsNames(w: World, a: Action)
    requires FreshNames(w) && Enabled(w, a)
    ensures FreshNames(Next(w, a))
  {
    if a.Go? {
      hide Advance, Framed, LogKnown, Shaped;
      AdvanceFrame(w, a.t, a.answer, a.slot);
      AdvanceKeepsNames(w, Next(w, a), a.t);
    } else {
      EnvKeepsNames(w, a);
    }
  }

  /** No right moves in the step: every place holds what it held. */
  ghost predicate SameRights(w: World, w': World) {
    && w'.mgr.sessions == w.mgr.sessions && w'.reg.active == w.reg.active && w'.reg.cleanup == w.reg.cleanup
    && w'.rights == w.rights
    && (forall t :: t in w.threads && (w.threads[t].port.Some? || w.threads[t].pool.Some?) ==> t in w'.threads)
    && (forall t :: t in w'.threads ==>
          if t in w.threads then w'.threads[t].port == w.threads[t].port && w'.threads[t].pool == w.threads[t].pool
          else w'.threads[t].port == None && w'.threads[t].pool == None)
  }

  lemma SameRightsAgree(w: World, w': World)
    requires RightsAgree(w) && SameRights(w, w')
    ensures RightsAgree(w')
  {
  }

  /** The points of a setup task at which a right changes hands. */
  predicate MovesRights(at: Point) {
    at.Admitted? || at.Unlisted? || at.Storing? || at.Aborting?
  }

  lemma SetupSameRights(w: World, t: Tid, th: Thread, answer: Answer)
    requires Acts(w, t, th) && SetupPoint(th.at) && !MovesRights(th.at)
    ensures SameRights(w, SetupStep(w, t, th, answer))
  {
  }

  lemma SetupKeepsRights(w: World, t: Tid, th: Thread, answer: Answer)
    requires Ready(w, t, th) && SetupPoint(th.at)
    ensures RightsAgree(SetupStep(w, t, th, answer))
  {
    hide PortsAgree, PoolsAgree, FreedOnce, SameRights, MakePort, CheckToken, Store, AbortSetup;
    if th.at.Admitted? { MakePortKeeps(w, t, th); }
    else if th.at.Unlisted? { CheckTokenKeepsPorts(w, t, th); CheckTokenKeepsPools(w, t, th); }
    else if th.at.Storing? { StoreKeeps(w, t, th); }
    else if th.at.Aborting? { AbortKeeps(w, t, th); }
    else {
      SetupSameRights(w, t, th, answer);
      SameRightsAgree(w, SetupStep(w, t, th, answer));
    }
  }

  lemma TeardownKeepsRights(w: World, t: Tid, th: Thread, answer: Answer)
    requires Ready(w, t, th) && TeardownPoint(th.at)
    ensures RightsAgree(TeardownStep(w, t, th, answer))
  {
    hide PortsAgree, PoolsAgree, FreedOnce;
    if th.at.TakingActive? {
      TakeActiveKeeps(w, t, th);
    } else if th.at.Resolving? && th.at.found.Some? && !th.at.wasPending {
      RegisterCleanupKeepsPorts(w, t, th);
      RegisterCleanupKeepsPools(w, t, th);
      RegisterCleanupKeepsFreed(w, t, th);
    } else if th.at.Resolving? {
      ResolveKeepsPorts(w, t, th);
      ResolveKeepsPools(w, t, th);
      ResolveKeepsFreed(w, t, th);
    } else if th.at.FallingBack? {
      FallBackKeepsPorts(w, t, th);
      FallBackKeepsPools(w, t, th);
      FallBackKeepsFreed(w, t, th);
    } else {
      SameRightsAgree(w, TeardownStep(w, t, th, answer));
    }
  }

  lemma OtherSameRights(w: World, t: Tid, th: Thread, answer: Answer, slot: SlotId)
    requires Acts(w, t, th)
    requires th.at.Cancelling? || th.at.MediaTake? || th.at.MediaNotify? || th.at.MediaPutBack?
    ensures SameRights(w, OtherStep(w, t, th, answer, slot))
  {
  }

  lemma OtherKeepsRights(w: World, t: Tid, th: Thread, answer: Answer, slot: SlotId)
    requires Ready(w, t, th) && !SetupPoint(th.at) && !TeardownPoint(th.at)
    ensures RightsAgree(OtherStep(w, t, th, answer, slot))
  {
    hide PortsAgree, PoolsAgree, FreedOnce, SameRights, LookUp, MakePool, AddPort, Publish, OperationDone, Dispose,
         CancelPending, TakeForMedia, Notify, PutBack;
    if th.at.LookingUp? { LookUpKeepsPorts(w, t, th); LookUpKeepsPools(w, t, th); }
    else if th.at.MediaPool? { MakePoolKeeps(w, t, th, answer); }
    else if th.at.MediaAdd? { AddPortKeeps(w, t, th, answer, slot); }
    else if th.at.MediaPublish? { PublishKeeps(w, t, th); }
    else if th.at.OpDone? { OperationDoneKeepsPorts(w, t, th); OperationDoneKeepsPools(w, t, th); OperationDoneKeepsFreed(w, t, th); }
    else if th.at.Disposing? { DisposeKeepsPorts(w, t, th); DisposeKeepsPools(w, t, th); }
    else { OtherSameRights(w, t, th, answer, slot); SameRightsAgree(w, OtherStep(w, t, th, answer, slot)); }
  }

  lemma StepKeepsLinear(w: World, a: Action)
    requires Linear(w) && Enabled(w, a)
    ensures Linear(Next(w, a))
  {
    StepKeepsNames(w, a);
    if a.Go? {
      var th := w.threads[a.t];
      if SetupPoint(th.at) { SetupKeepsRights(w, a.t, th, a.answer); }
      else if TeardownPoint(th.at) { TeardownKeepsRights(w, a.t, th, a.answer); }
      else { OtherKeepsRights(w, a.t, th, a.answer, a.slot); }
    } else {
      SameRightsAgree(w, Next(w, a));
    }
  }

  lemma {:induction false} RunKeepsLinear(w: World, actions: seq<Action>)
    requires Linear(w) && IsRun(Free, w, actions)
    ensures Linear(After(w, actions))
    decreases |actions|
  {
    if actions != [] {
      StepKeepsLinear(w, actions[0]);
      RunKeepsLinear(Next(w, actions[0]), actions[1..]);
    }
  }

  // ---------------------------------------------------------------- main results

  /** Times `x` occurs in a log of frees. */
  function Count(log: seq<nat>, x: nat): nat {
    if log == [] then 0 else Count(log[1..], x) + (if log[0] == x then 1 else 0)
  }

  lemma {:induction false} CountInDistinct(log: seq<nat>, x: nat)
    requires forall j, k :: 0 <= j < k < |log| ==> log[j] != log[k]
    ensures Count(log, x) == if x in log then 1 else 0
  {
    if log != [] {
      CountInDistinct(log[1..], x);
    }
  }

  lemma InitIsLinear(maxCalls: nat)
    ensures Linear(Init(maxCalls))
  {
    var w := Init(maxCalls);
    assert FreshNames(w);
    assert PortsAgree(w.threads, w.mgr.sessions, w.reg.cleanup, w.rights);
  }

  /** In every run of any threads against any environment, `destroy_custom_port` runs at most once for
      each port; the right to run it is in exactly one place, and nowhere once it has run. */
  lemma DestroyRightIsLinear(maxCalls: nat, actions: seq<Action>, p: PortId)
    requires IsRun(Free, Init(maxCalls), actions)
    ensures var w := After(Init(maxCalls), actions);
      && Count(w.rights.destroys, p) <= 1
      && (forall x, y :: HoldsPort(w, x, p) && HoldsPort(w, y, p) ==> x == y)
      && (Count(w.rights.destroys, p) == 1 ==> forall x :: !HoldsPort(w, x, p))
      && (p < |w.rights.makers| ==> (p in w.rights.portAt &&
            (w.rights.portAt[p].Spent? || w.rights.portAt[p].Abandoned? || HoldsPort(w, w.rights.portAt[p], p))))
  {
    var w := After(Init(maxCalls), actions);
    InitIsLinear(maxCalls);
    RunKeepsLinear(Init(maxCalls), actions);
    CountInDistinct(w.rights.destroys, p);
  }

  /** The same for pools. */
  lemma ReleaseRightIsLinear(maxCalls: nat, actions: seq<Action>, b: PoolId)
    requires IsRun(Free, Init(maxCalls), actions)
    ensures var w := After(Init(maxCalls), actions);
      && Count(w.rights.releases, b) <= 1
      && (forall x, y :: HoldsPool(w, x, b) && HoldsPool(w, y, b) ==> x == y)
      && (Count(w.rights.releases, b) == 1 ==> forall x :: !HoldsPool(w, x, b))
      && (b < w.rights.pools ==> (b in w.rights.poolAt &&
            (w.rights.poolAt[b].Spent? || w.rights.poolAt[b].Abandoned? || HoldsPool(w, w.rights.poolAt[b], b))))
  {
    hide FreshNames;
    var w := After(Init(maxCalls), actions);
    InitIsLinear(maxCalls);
    RunKeepsLinear(Init(maxCalls), actions);
    CountInDistinct(w.rights.releases, b);
  }
}
