/**
 Every port is freed, whatever pjsip answers.

 Under the rules of media attachment, with media callbacks in fine steps and removals that pjsip may
 refuse or fail: once everything has come to rest, each port was destroyed exactly once, but for exactly
 those whose removal completed with an error, which were never destroyed.
 */
module Freed {
  import opened Wrappers
  import opened CallMachine
  import opened Effects
  import opened Ownership
  import opened Orphans
  import opened MediaAttachment
  import opened Belongings
  import opened Removals

  // ---------------------------------------------------------------- history of a run

  /** The port whose removal is reported to have failed by the step. */
  function FailedBy(w: World, a: Action): set<PortId> {
    if a.Go? && a.t in w.threads && w.threads[a.t].at.OpDone? && !w.threads[a.t].at.ok && w.threads[a.t].at.slot in w.reg.cleanup
    then {w.reg.cleanup[w.threads[a.t].at.slot].port} else {}
  }

  function Failed(w: World, actions: seq<Action>): set<PortId>
    requires IsRun(Free, w, actions)
    decreases |actions|
  {
    if actions == [] then {} else FailedBy(w, actions[0]) + Failed(Next(w, actions[0]), actions[1..])
  }

  // ---------------------------------------------------------------- a cleanup is awaited

  predicate ComesFor(at: Point, s: SlotId) {
    Asks(at, s) || (at.OpDone? && at.slot == s)
  }

  /** Its removal is under way, or a thread asks for it, has been refused it, or reports its end. */
  ghost predicate Awaited(w: World, s: SlotId) {
    s in w.conf.removing || exists t :: t in w.threads && ComesFor(w.threads[t].at, s)
  }

  ghost predicate CleanupsAwaited(w: World) {
    forall s :: s in w.reg.cleanup ==> Awaited(w, s)
  }

  /** A step of thread `t` forgets nobody who comes for slot `s`. */
  lemma StillAwaited(w: World, w': World, t: Tid, s: SlotId)
    requires Awaited(w, s) && Framed(w, w', t) && t in w.threads
    requires s in w.conf.removing ==> s in w'.conf.removing
    requires ComesFor(w.threads[t].at, s) ==> s in w'.conf.removing || (t in w'.threads && ComesFor(w'.threads[t].at, s))
    ensures Awaited(w', s)
  {
    if s !in w'.conf.removing {
      var u :| u in w.threads && ComesFor(w.threads[u].at, s);
      assert u in w'.threads;
    }
  }

  lemma SetupAwaits(w: World, w': World, t: Tid, th: Thread)
    requires CleanupsAwaited(w) && t in w.threads && th == w.threads[t] && SetupPoint(th.at) && SetupEffect(w, w', t, th)
    ensures CleanupsAwaited(w')
  {
    hide Awaited, Framed;
    forall s | s in w'.reg.cleanup ensures Awaited(w', s) { StillAwaited(w, w', t, s); }
  }

  /** What a teardown step does to cleanups: it registers one and comes for it, or comes for one until it is taken. */
  lemma TeardownComes(w: World, t: Tid, th: Thread, answer: Answer, s: SlotId)
    requires Acts(w, t, th) && TeardownPoint(th.at) && s in TeardownStep(w, t, th, answer).reg.cleanup
    ensures var w' := TeardownStep(w, t, th, answer);
      && (s in w.conf.removing ==> s in w'.conf.removing)
      && ((t in w'.threads && ComesFor(w'.threads[t].at, s)) ||
          (s in w.reg.cleanup && (ComesFor(th.at, s) ==> s in w'.conf.removing)))
  {
  }

  lemma TeardownAwaits(w: World, t: Tid, th: Thread, answer: Answer)
    requires CleanupsAwaited(w) && Acts(w, t, th) && TeardownPoint(th.at)
    ensures CleanupsAwaited(TeardownStep(w, t, th, answer))
  {
    var w' := TeardownStep(w, t, th, answer);
    TeardownFrame(w, t, th, answer);
    hide Framed, Shaped, TeardownStep;
    forall s | s in w'.reg.cleanup ensures Awaited(w', s) {
      TeardownComes(w, t, th, answer, s);
      if !(t in w'.threads && ComesFor(w'.threads[t].at, s)) { StillAwaited(w, w', t, s); }
    }
  }

  lemma OtherComes(w: World, t: Tid, th: Thread, answer: Answer, slot: SlotId, s: SlotId)
    requires Acts(w, t, th) && !SetupPoint(th.at) && !TeardownPoint(th.at) && s in OtherStep(w, t, th, answer, slot).reg.cleanup
    ensures s in w.reg.cleanup && !ComesFor(th.at, s)
    ensures OtherStep(w, t, th, answer, slot).conf.removing == w.conf.removing
  {
  }

  lemma OtherAwaits(w: World, t: Tid, th: Thread, answer: Answer, slot: SlotId)
    requires CleanupsAwaited(w) && Acts(w, t, th) && !SetupPoint(th.at) && !TeardownPoint(th.at)
    ensures CleanupsAwaited(OtherStep(w, t, th, answer, slot))
  {
    var w' := OtherStep(w, t, th, answer, slot);
    OtherFrame(w, t, th, answer, slot);
    hide Framed, Awaited, Shaped, OtherStep;
    forall s | s in w'.reg.cleanup ensures Awaited(w', s) {
      OtherComes(w, t, th, answer, slot, s);
      StillAwaited(w, w', t, s);
    }
  }

  lemma EnvAwaits(w: World, a: Action)
    requires CleanupsAwaited(w) && FreshNames(w) && Enabled(w, a) && !a.Go?
    ensures CleanupsAwaited(Next(w, a))
  {
    var w' := Next(w, a);
    forall s | s in w'.reg.cleanup ensures Awaited(w', s) {
      if a.RemoveCompleted? && a.slot == s {
        assert ComesFor(w'.threads[Worker(w.workers)].at, s);
      } else if s !in w.conf.removing {
        var u :| u in w.threads && ComesFor(w.threads[u].at, s);
        assert u in w'.threads;
      }
    }
  }

  // ---------------------------------------------------------------- a slot has one cleanup

  /** The cleanup of a taken slot is the one of its seat. */
  ghost predicate CleanupsSeated(w: World) {
    forall s :: s in w.reg.cleanup && s in w.conf.slots ==> w.reg.cleanup[s].pool == Some(w.conf.slots[s].pool)
  }

  /** A slot that a teardown has found has no cleanup yet. */
  lemma FoundHasNone(w: World, t: Tid, th: Thread)
    requires RightsAgree(w) && SeatsKnown(w) && CleanupsSeated(w) && Acts(w, t, th) && th.at.Resolving? && th.at.found.Some?
    ensures th.at.found.value !in w.reg.cleanup && w.conf.slots[th.at.found.value].pool == th.pool.value
    ensures th.at.found.value in w.conf.slots
  {
    var b := th.pool.value;
    assert w.rights.poolAt[b] == AtThread(t);
  }

  lemma TeardownSeatsCleanups(w: World, t: Tid, th: Thread, answer: Answer)
    requires RightsAgree(w) && SeatsKnown(w) && CleanupsSeated(w) && Acts(w, t, th) && TeardownPoint(th.at)
    ensures CleanupsSeated(TeardownStep(w, t, th, answer))
  {
    if th.at.Resolving? && th.at.found.Some? { FoundHasNone(w, t, th); }
    hide RightsAgree, SeatsKnown, Shaped;
  }

  /** Nobody comes for a slot that may be taken, so it has no cleanup. */
  lemma FreshSlotHasNone(w: World, t: Tid, slot: SlotId)
    requires AskersSeated(w) && SlotRule(w, Go(t, Yes, slot)) && t in w.threads && w.threads[t].at.MediaAdd?
    ensures !Awaited(w, slot)
  {
    hide Idle;
  }

  lemma OtherSeatsCleanups(w: World, t: Tid, th: Thread, answer: Answer, slot: SlotId)
    requires CleanupsSeated(w) && CleanupsAwaited(w) && AskersSeated(w) && SlotRule(w, Go(t, answer, slot))
    requires Acts(w, t, th) && !SetupPoint(th.at) && !TeardownPoint(th.at)
    ensures CleanupsSeated(OtherStep(w, t, th, answer, slot))
  {
    if th.at.MediaAdd? && answer.Yes? { FreshSlotHasNone(w, t, slot); }
    hide CleanupsAwaited, AskersSeated, Shaped;
  }

  // ---------------------------------------------------------------- abandoned ports

  /** The ports nobody will free are exactly those in `failed`. */
  ghost predicate Lost(r: Rights, failed: set<PortId>) {
    && (forall p :: p in failed ==> p in r.portAt)
    && (forall p :: p in r.portAt ==> (r.portAt[p].Abandoned? <==> p in failed))
  }

  lemma StoreLosesNone(w: World, t: Tid, th: Thread, failed: set<PortId>)
    requires RightsAgree(w) && t.Setup? && t in w.threads && th == w.threads[t] && th.port.Some? && Lost(w.rights, failed)
    requires th.call !in w.mgr.sessions
    ensures Lost(Store(w, t, th).rights, failed)
  {
  }

  lemma StoringIsAlone(w: World, t: Tid, th: Thread)
    requires SingleHolder(w) && t.Setup? && t in w.threads && th == w.threads[t]
    ensures th.call !in w.mgr.sessions
  {
  }

  lemma MakePortLosesNone(w: World, t: Tid, th: Thread, failed: set<PortId>)
    requires RightsAgree(w) && t.Setup? && Lost(w.rights, failed)
    ensures Lost(MakePort(w, t, th).rights, failed)
  {
  }

  /** The other steps of a setup leave the rights alone. */
  lemma SetupKeepsRights(w: World, t: Tid, th: Thread, answer: Answer)
    requires SetupPoint(th.at) && Shaped(t, th) && !th.at.Admitted? && !th.at.Storing? && !th.at.Unlisted? && !th.at.Aborting?
    ensures SetupStep(w, t, th, answer).rights == w.rights
  {
  }

  lemma SetupLosesNone(w: World, t: Tid, th: Thread, answer: Answer, failed: set<PortId>)
    requires RightsAgree(w) && SingleHolder(w) && Acts(w, t, th) && SetupPoint(th.at) && Lost(w.rights, failed)
    ensures Lost(SetupStep(w, t, th, answer).rights, failed)
  {
    hide RightsAgree, SingleHolder, Lost, MakePort, Store, Defer, Owns, RemovePending;
    if th.at.Storing? {
      StoringIsAlone(w, t, th);
      StoreLosesNone(w, t, th, failed);
    } else if th.at.Admitted? {
      MakePortLosesNone(w, t, th, failed);
    } else if th.at.Unlisted? || th.at.Aborting? {
      DeferLosesNone(w, t, th, failed);
    } else {
      SetupKeepsRights(w, t, th, answer);
    }
  }

  lemma DeferLosesNone(w: World, t: Tid, th: Thread, failed: set<PortId>)
    requires RightsAgree(w) && t in w.threads && th == w.threads[t] && Lost(w.rights, failed)
    ensures Lost(Defer(w, w.threads - {t}, th.port, None).rights, failed)
  {
  }

  lemma ResolveLosesNone(w: World, t: Tid, th: Thread, answer: Answer, failed: set<PortId>)
    requires RightsAgree(w) && Acts(w, t, th) && th.at.Resolving? && Lost(w.rights, failed)
    requires th.at.kind.Abort? || (!th.at.wasPending && th.at.found.Some?)
    requires th.at.found.Some? ==> th.at.found.value !in w.reg.cleanup
    ensures Lost(TeardownStep(w, t, th, answer).rights, failed)
  {
    hide RunsAt, Seated;
  }

  lemma TeardownLosesNone(w: World, t: Tid, th: Thread, answer: Answer, failed: set<PortId>)
    requires RightsAgree(w) && SeatsKnown(w) && CleanupsSeated(w) && ResolvingFound(w)
    requires Acts(w, t, th) && TeardownPoint(th.at) && Lost(w.rights, failed)
    ensures Lost(TeardownStep(w, t, th, answer).rights, failed)
  {
    if th.at.Resolving? {
      if th.at.found.Some? { FoundHasNone(w, t, th); }
      ResolveLosesNone(w, t, th, answer, failed);
    } else {
      hide SeatsKnown, CleanupsSeated, ResolvingFound, RunsAt;
    }
  }

  /** The end of a failed removal abandons its port; that of a completed one, and a disposal, do not. */
  lemma DoneLosesFailed(w: World, t: Tid, th: Thread, answer: Answer, slot: SlotId, failed: set<PortId>)
    requires RightsAgree(w) && Acts(w, t, th) && (th.at.OpDone? || th.at.Disposing?) && Lost(w.rights, failed)
    ensures Lost(OtherStep(w, t, th, answer, slot).rights, failed + FailedBy(w, Go(t, answer, slot)))
  {
    hide RunsAt, Seated;
  }

  /** Nothing else does. */
  lemma OtherLosesFailed(w: World, t: Tid, th: Thread, answer: Answer, slot: SlotId, failed: set<PortId>)
    requires RightsAgree(w) && Acts(w, t, th) && !SetupPoint(th.at) && !TeardownPoint(th.at) && Lost(w.rights, failed)
    ensures Lost(OtherStep(w, t, th, answer, slot).rights, failed + FailedBy(w, Go(t, answer, slot)))
  {
    if th.at.OpDone? || th.at.Disposing? {
      DoneLosesFailed(w, t, th, answer, slot, failed);
    } else {
      hide RunsAt;
    }
  }

  // ---------------------------------------------------------------- every step, every run

  ghost predicate Kept(w: World, failed: set<PortId>) {
    CleanupsAwaited(w) && CleanupsSeated(w) && Lost(w.rights, failed)
  }

  lemma GoKeeps(w: World, a: Action, out: set<PortId>, failed: set<PortId>)
    requires Bridged(w, out) && Kept(w, failed) && Enabled(w, a) && MediaRules(w, a) && a.Go?
    ensures Kept(Next(w, a), failed + FailedBy(w, a))
  {
    hide SetupStep, TeardownStep, OtherStep, SetupEffect, CleanupsAwaited, CleanupsSeated, Lost, Orderly, RightsAgree, CallsKnown, MakersKnown,
         SingleHolder, SeatsKnown, LoansKnown, PendingKnown, NotifiersKnown, PastAttached, ResolvingFound, SessionsAttached, AttachedWhenTold,
         Mature, PortsListed, CallsListed, LogKnown, CleanupsSettled, DisposalsSettled, DoneSlotsEmpty, AskersSeated, AskersAlone, RefusalsKnown;
    var t, th := a.t, w.threads[a.t];
    if SetupPoint(th.at) {
      SetupHasEffect(w, t, th, a.answer);
      SetupAwaits(w, Next(w, a), t, th);
      SetupLosesNone(w, t, th, a.answer, failed);
      SetupSeatsCleanups(w, Next(w, a), t, th);
      assert failed + FailedBy(w, a) == failed;
    } else if TeardownPoint(th.at) {
      TeardownAwaits(w, t, th, a.answer);
      TeardownSeatsCleanups(w, t, th, a.answer);
      TeardownLosesNone(w, t, th, a.answer, failed);
      assert failed + FailedBy(w, a) == failed;
    } else {
      OtherAwaits(w, t, th, a.answer, a.slot);
      OtherSeatsCleanups(w, t, th, a.answer, a.slot);
      OtherLosesFailed(w, t, th, a.answer, a.slot, failed);
    }
  }

  lemma SetupSeatsCleanups(w: World, w': World, t: Tid, th: Thread)
    requires CleanupsSeated(w) && SetupEffect(w, w', t, th)
    ensures CleanupsSeated(w')
  {
  }

  lemma EnvKeeps(w: World, a: Action, failed: set<PortId>)
    requires FreshNames(w) && Kept(w, failed) && Enabled(w, a) && !a.Go?
    ensures Kept(Next(w, a), failed)
  {
    EnvAwaits(w, a);
    hide CleanupsAwaited, FreshNames;
  }

  lemma StepKeeps(w: World, a: Action, out: set<PortId>, failed: set<PortId>)
    requires Bridged(w, out) && Kept(w, failed) && Enabled(w, a) && MediaRules(w, a)
    ensures Kept(Next(w, a), failed + FailedBy(w, a))
  {
    if a.Go? {
      GoKeeps(w, a, out, failed);
    } else {
      EnvKeeps(w, a, failed);
      assert failed + FailedBy(w, a) == failed;
    }
  }

  lemma {:induction false} RunKeeps(w: World, actions: seq<Action>, out: set<PortId>, failed: set<PortId>)
    requires Bridged(w, out) && Kept(w, failed) && IsRun(MediaRules, w, actions) && IsRun(Free, w, actions)
    ensures Kept(After(w, actions), failed + Failed(w, actions))
    decreases |actions|
  {
    hide Bridged, Kept;
    if actions == [] {
      assert failed + {} == failed;
    } else {
      var a, w', rest := actions[0], Next(w, actions[0]), actions[1..];
      StepKeeps(w, a, out, failed);
      StepStaysOff(w, a, out);
      hide *;
      RunGoesOn(w, actions);
      RunKeeps(w', rest, out + RefusedBy(w, a) + GivenUpBy(w, a), failed + FailedBy(w, a));
      assert failed + FailedBy(w, a) + Failed(w', rest) == failed + (FailedBy(w, a) + Failed(w', rest));
    }
  }

  lemma RunGoesOn(w: World, actions: seq<Action>)
    requires actions != [] && IsRun(MediaRules, w, actions) && IsRun(Free, w, actions)
    ensures Enabled(w, actions[0])
    ensures IsRun(MediaRules, Next(w, actions[0]), actions[1..]) && IsRun(Free, Next(w, actions[0]), actions[1..])
    ensures After(w, actions) == After(Next(w, actions[0]), actions[1..])
    ensures Failed(w, actions) == FailedBy(w, actions[0]) + Failed(Next(w, actions[0]), actions[1..])
  {
  }

  // ---------------------------------------------------------------- main result

  /** No thread, no session, and no removal under way. */
  predicate AtRest(w: World) {
    w.threads == map[] && w.mgr.sessions == map[] && w.conf.removing == {}
  }

  lemma NoneAwaited(w: World, s: SlotId)
    requires AtRest(w)
    ensures !Awaited(w, s)
  {
  }

  lemma RestIsAccounted(w: World, failed: set<PortId>, p: PortId)
    requires RightsAgree(w) && Kept(w, failed) && AtRest(w)
    ensures w.reg.cleanup == map[]
    ensures Count(w.rights.destroys, p) == if p < |w.rights.makers| && p !in failed then 1 else 0
  {
    forall s ensures s !in w.reg.cleanup { NoneAwaited(w, s); }
    assert forall s :: s in w.reg.cleanup.Keys ==> s in {};
    assert w.reg.cleanup.Keys <= {};
    CountInDistinct(w.rights.destroys, p);
  }

  /** At rest no cleanup is left over, and every port ever created was destroyed exactly once, unless its
      removal was reported to have failed: then it was never destroyed. */
  lemma EveryPortIsFreed(maxCalls: nat, actions: seq<Action>, p: PortId)
    requires IsRun(MediaRules, Init(maxCalls), actions)
    ensures IsRun(Free, Init(maxCalls), actions)
    ensures var w := After(Init(maxCalls), actions);
      AtRest(w) ==>
        && w.reg.cleanup == map[]
        && Count(w.rights.destroys, p) == (if p < |w.rights.makers| && p !in Failed(Init(maxCalls), actions) then 1 else 0)
  {
    hide *;
    AnyRunIsFree(MediaRules, Init(maxCalls), actions);
    InitIsBridged(maxCalls);
    InitIsKept(maxCalls);
    InitIsLinear(maxCalls);
    RunKeeps(Init(maxCalls), actions, {}, {});
    RunKeepsLinear(Init(maxCalls), actions);
    var w, failed := After(Init(maxCalls), actions), Failed(Init(maxCalls), actions);
    assert {} + failed == failed;
    if AtRest(w) { RestIsAccounted(w, failed, p); }
  }

  lemma InitIsKept(maxCalls: nat)
    ensures Kept(Init(maxCalls), {})
  {
  }
}
