/**
 `SessionManager` and the registries of callbacks.rs as objects that change their maps in place.

 Each method here is what the source's method does when nothing interrupts it.  `world` follows along:
 it is a state of the transition system in which the caller's thread stands at the method's first step,
 and every method proves that it leaves the maps where that thread's own steps would have left them.
 `SettledIsARun` says that those steps are a run, so what is proved of all runs holds of the methods.
 */
module SessionControl {
  import opened Wrappers
  import opened CallMachine
  import opened Effects

  // ---------------------------------------------------------------- a thread run to its end

  /** The points from which a thread can finish by itself, by the steps it still takes. */
  function Rank(at: Point): nat {
    match at
    case Connected(_) => 9
    case Unlisted(_, _) => 8
    case LookingUp(_) => 8
    case Aborting(_, _) => 7
    case TakingPending(_) => 6
    case TakingActive(_, _) => 5
    case Resolving(_, _, _) => 4
    case Removing(_, _) => 3
    case FallingBack(_, _) => 2
    case Storing => 1
    case Closing => 1
    case Cancelling(_) => 1
    case _ => 0
  }

  ghost predicate Winding(w: World, t: Tid) {
    && (forall n: nat :: Worker(n) in w.threads ==> n < w.workers)
    && (t in w.threads ==> Shaped(t, w.threads[t]) && Rank(w.threads[t].at) > 0)
  }

  lemma TeardownDescends(w: World, t: Tid, th: Thread, answer: Answer)
    requires Acts(w, t, th) && TeardownPoint(th.at)
    ensures var w' := TeardownStep(w, t, th, answer); t in w'.threads ==> Rank(w'.threads[t].at) < Rank(th.at)
  {
  }

  lemma FramedKeepsWinding(w: World, w': World, t: Tid)
    requires Winding(w, t) && t in w.threads && Framed(w, w', t) && (t in w'.threads ==> Rank(w'.threads[t].at) > 0)
    ensures Winding(w', t)
  {
    hide Shaped;
  }

  lemma Descends(w: World, t: Tid, th: Thread, answer: Answer)
    requires Acts(w, t, th) && Rank(th.at) > 0 && Permitted(w, t, answer)
    ensures var w' := Advance(w, t, answer, 0); t in w'.threads ==> 0 < Rank(w'.threads[t].at) < Rank(th.at)
  {
    hide SetupStep, TeardownStep, OtherStep, Shaped;
    if SetupPoint(th.at) { SetupHasEffect(w, t, th, answer); }
    else if TeardownPoint(th.at) { TeardownHasEffect(w, t, th, answer); TeardownDescends(w, t, th, answer); }
    else { OtherHasEffect(w, t, th, answer, 0); }
  }

  /** Each step of such a thread brings it closer to its end. */
  lemma WindsDown(w: World, t: Tid, answer: Answer)
    requires Winding(w, t) && t in w.threads
    ensures Permitted(w, t, answer)
    ensures var w' := Advance(w, t, answer, 0);
      Winding(w', t) && (t in w'.threads ==> Rank(w'.threads[t].at) < Rank(w.threads[t].at))
  {
    assert Permitted(w, t, answer);
    hide Advance, Framed;
    Descends(w, t, w.threads[t], answer);
    AdvanceFrame(w, t, answer, 0);
    FramedKeepsWinding(w, Advance(w, t, answer, 0), t);
  }

  /** The state once thread `t` has run to its end, with `answer` from pjsip. */
  ghost function Settled(w: World, t: Tid, answer: Answer): World
    requires Winding(w, t)
    decreases if t in w.threads then Rank(w.threads[t].at) else 0
  {
    if t !in w.threads then w else
    WindsDown(w, t, answer);
    Settled(Advance(w, t, answer, 0), t, answer)
  }

  /** Running a thread to its end is a run of the transition system in which only that thread moves. */
  lemma {:induction false} SettledIsARun(w: World, t: Tid, answer: Answer) returns (actions: seq<Action>)
    requires Winding(w, t)
    ensures IsRun(Free, w, actions) && After(w, actions) == Settled(w, t, answer)
    ensures t !in Settled(w, t, answer).threads && (forall k :: 0 <= k < |actions| ==> actions[k] == Go(t, answer, 0))
    decreases if t in w.threads then Rank(w.threads[t].at) else 0
  {
    actions := [];
    if t in w.threads {
      WindsDown(w, t, answer);
      var rest := SettledIsARun(Advance(w, t, answer, 0), t, answer);
      actions := [Go(t, answer, 0)] + rest;
      assert actions[1..] == rest;
    }
  }

  // ---------------------------------------------------------------- the object

  /** A step that hands a port to a deferred cleanup starts the thread that will dispose of it. */
  ghost predicate DeferredSince(w: World, w': World, before: seq<Cleanup>, after: seq<Cleanup>) {
    || (w'.workers == w.workers && after == before)
    || (w'.workers == w.workers + 1 && |after| == |before| + 1 && after[..|before|] == before &&
        Worker(w.workers) in w'.threads &&
        w'.threads[Worker(w.workers)] == Thread(Disposing, NO_CALL, Some(after[|before|].port), after[|before|].pool))
  }

  /** A teardown that is through with its port: only an abort may still have a notifier to drop. */
  ghost predicate Finishing(w: World, t: Tid, call: CallId, kind: Kind) {
    if kind == Abort(true) then t in w.threads && w.threads[t] == Thread(Closing, call, None, None) else t !in w.threads
  }

  class SessionManager {
    var sessions: map<CallId, Session>
    var pendingSetups: map<CallId, Entry>
    var cancelled: set<Instance>
    var pendingPorts: map<CallId, PortId>
    var activeMedia: map<CallId, Media>
    var mediaReady: map<CallId, Instance>
    var pendingCleanup: map<SlotId, Cleanup>
    var removing: set<SlotId>
    var destroyed: seq<PortId>
    var deferred: seq<Cleanup>
    ghost var world: World

    ghost predicate Mirrors()
      reads this
    {
      && sessions == world.mgr.sessions && pendingSetups == world.mgr.pending && cancelled == world.mgr.cancelled
      && pendingPorts == world.reg.pendingPorts && activeMedia == world.reg.active && mediaReady == world.reg.readyTx
      && pendingCleanup == world.reg.cleanup && removing == world.conf.removing && destroyed == world.rights.destroys
    }

    // -------------------------------------------------------------- one lock each

    method RemovePendingSetup(call: CallId, gen: Generation) returns (owned: bool)
      modifies `pendingSetups
      ensures owned <==> call in old(pendingSetups) && old(pendingSetups)[call].gen == gen
      ensures pendingSetups == if owned then old(pendingSetups) - {call} else old(pendingSetups)
    {
      owned := call in pendingSetups && pendingSetups[call].gen == gen;
      if owned { pendingSetups := pendingSetups - {call}; }
    }

    /** Cancels the token and leaves the entry to the setup that owns it. */
    method CancelPendingSetup(call: CallId) returns (found: bool)
      modifies `cancelled
      ensures found <==> call in pendingSetups
      ensures cancelled == if found then old(cancelled) + {pendingSetups[call].who} else old(cancelled)
    {
      found := call in pendingSetups;
      if found { cancelled := cancelled + {pendingSetups[call].who}; }
    }

    method UnregisterPendingPort(call: CallId) returns (port: Option<PortId>)
      modifies `pendingPorts
      ensures port == if call in old(pendingPorts) then Some(old(pendingPorts)[call]) else None
      ensures pendingPorts == old(pendingPorts) - {call}
    {
      port := if call in pendingPorts then Some(pendingPorts[call]) else None;
      pendingPorts := pendingPorts - {call};
    }

    method TakeActiveMedia(call: CallId) returns (media: Option<Media>)
      modifies `activeMedia
      ensures media == if call in old(activeMedia) then Some(old(activeMedia)[call]) else None
      ensures activeMedia == old(activeMedia) - {call}
    {
      media := if call in activeMedia then Some(activeMedia[call]) else None;
      activeMedia := activeMedia - {call};
    }

    method TakePendingCleanup(slot: SlotId) returns (cleanup: Option<Cleanup>)
      modifies `pendingCleanup
      ensures cleanup == if slot in old(pendingCleanup) then Some(old(pendingCleanup)[slot]) else None
      ensures pendingCleanup == old(pendingCleanup) - {slot}
    {
      cleanup := if slot in pendingCleanup then Some(pendingCleanup[slot]) else None;
      pendingCleanup := pendingCleanup - {slot};
    }

    /** The machine's next step of thread `t`, which is at a teardown ... */
    ghost method Step(t: Tid, answer: Answer)
      requires Winding(world, t) && t in world.threads && TeardownPoint(world.threads[t].at)
      modifies `world
      ensures var th := old(world.threads[t]); Shaped(t, th) && world == TeardownStep(old(world), t, th, answer)
      ensures Winding(world, t) && Settled(world, t, answer) == Settled(old(world), t, answer)
    {
      hide TeardownStep;
      WindsDown(world, t, answer);
      world := Advance(world, t, answer, 0);
    }

    /** ... at its setup ... */
    ghost method SetupAdvance(t: Tid, answer: Answer)
      requires Winding(world, t) && t in world.threads && SetupPoint(world.threads[t].at)
      modifies `world
      ensures var th := old(world.threads[t]); Shaped(t, th) && world == SetupStep(old(world), t, th, answer)
      ensures Winding(world, t) && Settled(world, t, answer) == Settled(old(world), t, answer)
    {
      hide SetupStep;
      WindsDown(world, t, answer);
      world := Advance(world, t, answer, 0);
    }

    /** ... or in the main loop. */
    ghost method MainAdvance(answer: Answer)
      requires Winding(world, Main) && Main in world.threads && (world.threads[Main].at.LookingUp? || world.threads[Main].at.Cancelling?)
      modifies `world
      ensures var th := old(world.threads[Main]); Shaped(Main, th) && world == OtherStep(old(world), Main, th, answer, 0)
      ensures Winding(world, Main) && Settled(world, Main, answer) == Settled(old(world), Main, answer)
    {
      hide OtherStep;
      WindsDown(world, Main, answer);
      world := Advance(world, Main, answer, 0);
    }

    // -------------------------------------------------------------- teardown of a port

    /** pjsip refused the removal: take the cleanup back and run it later. */
    method FallBackToDeferred(slot: SlotId, kind: Kind, ghost t: Tid)
      requires Mirrors() && Winding(world, t) && t in world.threads && world.threads[t].at == FallingBack(kind, slot)
      modifies this
      ensures Mirrors() && Winding(world, t) && Finishing(world, t, old(world.threads[t].call), kind)
      ensures Settled(world, t, No) == Settled(old(world), t, No)
      ensures DeferredSince(old(world), world, old(deferred), deferred)
    {
      hide Settled, Winding;
      var cleanup := TakePendingCleanup(slot);
      if cleanup.Some? { deferred := deferred + [cleanup.value]; }
      Step(t, No);
    }

    /** Ask pjsip for the removal of a slot whose cleanup is registered. */
    method AskForRemoval(slot: SlotId, kind: Kind, accepted: bool, ghost t: Tid)
      requires Mirrors() && Winding(world, t) && t in world.threads && world.threads[t].at == Removing(kind, slot)
      modifies this
      ensures Mirrors() && Winding(world, t) && Finishing(world, t, old(world.threads[t].call), kind)
      ensures var answer := if accepted then Yes else No; Settled(world, t, answer) == Settled(old(world), t, answer)
      ensures DeferredSince(old(world), world, old(deferred), deferred)
    {
      hide Settled, Winding, Shaped, FallBack;
      if accepted {
        removing := removing + {slot};
        Step(t, Yes);
      } else {
        Step(t, No);
        FallBackToDeferred(slot, kind, t);
      }
    }

    /** Hand the port to the removal of its slot; if pjsip refuses that, take it back and defer. */
    method RemoveFromBridge(slot: SlotId, port: PortId, pool: PoolId, kind: Kind, accepted: bool, ghost t: Tid)
      requires Mirrors() && Winding(world, t) && t in world.threads
      requires world.threads[t].at == Resolving(kind, false, Some(slot))
      requires world.threads[t].port == Some(port) && world.threads[t].pool == Some(pool)
      modifies this
      ensures Mirrors() && Winding(world, t) && Finishing(world, t, old(world.threads[t].call), kind)
      ensures var answer := if accepted then Yes else No; Settled(world, t, answer) == Settled(old(world), t, answer)
      ensures DeferredSince(old(world), world, old(deferred), deferred)
    {
      hide Settled, Winding, Shaped;
      pendingCleanup := pendingCleanup[slot := Cleanup(port, Some(pool))];
      Step(t, if accepted then Yes else No);
      AskForRemoval(slot, kind, accepted, t);
    }

    /** What is left once both registries were asked: `pending` and `media` are their answers. */
    method DisposeOfPort(pending: Option<PortId>, media: Option<Media>, port: PortId, kind: Kind, accepted: bool, ghost t: Tid)
      requires Mirrors() && Winding(world, t) && t in world.threads
      requires world.threads[t].at == Resolving(kind, pending.Some?, if media.Some? then Some(media.value.slot) else None)
      requires world.threads[t].port == Some(port)
      requires world.threads[t].pool == if media.Some? then Some(media.value.pool) else None
      modifies this
      ensures Mirrors() && Winding(world, t) && Finishing(world, t, old(world.threads[t].call), kind)
      ensures var answer := if accepted then Yes else No; Settled(world, t, answer) == Settled(old(world), t, answer)
      ensures DeferredSince(old(world), world, old(deferred), deferred)
    {
      hide Settled, Winding;
      ghost var answer := if accepted then Yes else No;
      if pending.Some? {
        destroyed := destroyed + [port];
        Step(t, answer);
      } else if media.Some? {
        RemoveFromBridge(media.value.slot, port, media.value.pool, kind, accepted, t);
      } else {
        if kind.Abort? { deferred := deferred + [Cleanup(port, None)]; }
        Step(t, answer);
      }
    }

    /** Ask both registries about a call's port. */
    method ResolveOwnership(call: CallId, kind: Kind, port: PortId, ghost t: Tid, ghost answer: Answer)
      returns (pending: Option<PortId>, media: Option<Media>)
      requires Mirrors() && Winding(world, t) && t in world.threads
      requires world.threads[t] == Thread(TakingPending(kind), call, Some(port), None)
      modifies this
      ensures Mirrors() && Winding(world, t) && t in world.threads
      ensures world.threads[t] == Thread(
                Resolving(kind, pending.Some?, if media.Some? then Some(media.value.slot) else None), call, Some(port),
                if media.Some? then Some(media.value.pool) else None)
      ensures Settled(world, t, answer) == Settled(old(world), t, answer)
      ensures world.workers == old(world.workers) && deferred == old(deferred)
    {
      hide Settled, Winding, Shaped;
      pending := UnregisterPendingPort(call);
      Step(t, answer);
      media := TakeActiveMedia(call);
      Step(t, answer);
    }

    /** The port of a setup that gives up: only an owner may touch what is kept under the call's id. */
    method CleanupMediaPort(call: CallId, port: PortId, ownsCall: bool, unlisten: bool, accepted: bool, ghost t: Tid)
      requires Mirrors() && Winding(world, t) && t in world.threads
      requires if ownsCall then world.threads[t] == Thread(TakingPending(Abort(unlisten)), call, Some(port), None)
               else world.threads[t].at.Aborting? && !Owns(world.mgr, call, world.threads[t].at.gen) &&
                    world.threads[t].call == call && world.threads[t].port == Some(port)
      modifies this
      ensures Mirrors() && Winding(world, t) && (if ownsCall then Finishing(world, t, call, Abort(unlisten)) else t !in world.threads)
      ensures var answer := if accepted then Yes else No; Settled(world, t, answer) == Settled(old(world), t, answer)
      ensures DeferredSince(old(world), world, old(deferred), deferred)
    {
      hide Settled, Winding;
      ghost var answer := if accepted then Yes else No;
      if ownsCall {
        var pending, media := ResolveOwnership(call, Abort(unlisten), port, t, answer);
        DisposeOfPort(pending, media, port, Abort(unlisten), accepted, t);
      } else {
        deferred := deferred + [Cleanup(port, None)];
        SetupAdvance(t, answer);
      }
    }

    /** Undo a setup; tells whether it still owned its id. */
    method AbortSetup(call: CallId, gen: Generation, port: PortId, unlisten: bool, accepted: bool, ghost t: Tid) returns (owned: bool)
      requires Mirrors() && Winding(world, t) && t in world.threads
      requires world.threads[t] == Thread(Aborting(gen, unlisten), call, Some(port), None)
      modifies this
      ensures owned <==> old(Owns(world.mgr, call, gen))
      ensures Mirrors() && Winding(world, t) && (if owned then Finishing(world, t, call, Abort(unlisten)) else t !in world.threads)
      ensures var answer := if accepted then Yes else No; Settled(world, t, answer) == Settled(old(world), t, answer)
      ensures DeferredSince(old(world), world, old(deferred), deferred)
    {
      hide Settled, Winding, Shaped;
      ghost var answer := if accepted then Yes else No;
      owned := RemovePendingSetup(call, gen);
      if owned { SetupAdvance(t, answer); }
      CleanupMediaPort(call, port, owned, unlisten, accepted, t);
    }

    /** `abort_setup` with what its callers do after it: the owner of an unanswered or cancelled setup
        drops its media-ready notifier. */
    method GiveUp(call: CallId, gen: Generation, port: PortId, unlisten: bool, accepted: bool, ghost t: Tid)
      requires Mirrors() && Winding(world, t) && t in world.threads
      requires world.threads[t] == Thread(Aborting(gen, unlisten), call, Some(port), None)
      modifies this
      ensures Mirrors() && world == Settled(old(world), t, if accepted then Yes else No)
      ensures DeferredSince(old(world), world, old(deferred), deferred)
    {
      hide Settled, Winding, Shaped;
      ghost var answer := if accepted then Yes else No;
      var owned := AbortSetup(call, gen, port, unlisten, accepted, t);
      if owned && unlisten {
        mediaReady := mediaReady - {call};
        Step(t, answer);
      }
      SettledAtRest(world, t, answer);
    }

    // -------------------------------------------------------------- the main loop and the commit

    /** Tear down the port of a session the main loop has taken out of the map. */
    method EndSession(call: CallId, port: PortId, accepted: bool)
      requires Mirrors() && Winding(world, Main) && Main in world.threads
      requires world.threads[Main] == Thread(TakingPending(Kind.EndSession), call, Some(port), None)
      modifies this
      ensures Mirrors() && Winding(world, Main) && Main !in world.threads
      ensures var answer := if accepted then Yes else No; Settled(world, Main, answer) == Settled(old(world), Main, answer)
      ensures DeferredSince(old(world), world, old(deferred), deferred)
    {
      hide Settled, Winding, Shaped;
      var pending, media := ResolveOwnership(call, Kind.EndSession, port, Main, if accepted then Yes else No);
      DisposeOfPort(pending, media, port, Kind.EndSession, accepted, Main);
    }

    /** Without a session, the main loop cancels the setup under the id, if there is one. */
    method CancelInstead(call: CallId, ghost who: Instance, ghost answer: Answer)
      requires Mirrors() && Winding(world, Main) && Main in world.threads
      requires world.threads[Main] == Thread(Cancelling(who), call, None, None)
      modifies this
      ensures Mirrors() && Winding(world, Main) && Main !in world.threads && deferred == old(deferred)
      ensures world.workers == old(world.workers) && Settled(world, Main, answer) == Settled(old(world), Main, answer)
    {
      hide Settled, Winding, Shaped;
      var found := CancelPendingSetup(call);
      MainAdvance(answer);
    }

    /** A call has ended: tear down its session, or cancel its setup. */
    method OnCallDisconnected(call: CallId, accepted: bool, ghost who: Instance)
      requires Mirrors() && Winding(world, Main) && Main in world.threads
      requires world.threads[Main] == Thread(LookingUp(who), call, None, None)
      modifies this
      ensures Mirrors() && world == Settled(old(world), Main, if accepted then Yes else No)
      ensures DeferredSince(old(world), world, old(deferred), deferred)
    {
      hide Settled, Winding, Shaped;
      ghost var answer := if accepted then Yes else No;
      if call !in sessions {
        MainAdvance(answer);
        CancelInstead(call, who, answer);
      } else {
        var session := sessions[call];
        sessions := sessions - {call};
        MainAdvance(answer);
        EndSession(call, session.port, accepted);
      }
      SettledAtRest(world, Main, answer);
    }

    /** A setup cancelled after it had connected, and still the owner of its id. */
    method TearDownLate(call: CallId, port: PortId, accepted: bool, ghost t: Tid)
      requires Mirrors() && Winding(world, t) && t in world.threads
      requires world.threads[t] == Thread(TakingActive(LateCancel, false), call, Some(port), None)
      modifies this
      ensures Mirrors() && Winding(world, t) && t !in world.threads
      ensures var answer := if accepted then Yes else No; Settled(world, t, answer) == Settled(old(world), t, answer)
      ensures DeferredSince(old(world), world, old(deferred), deferred)
    {
      hide Settled, Winding, Shaped;
      var media := TakeActiveMedia(call);
      Step(t, if accepted then Yes else No);
      DisposeOfPort(None, media, port, LateCancel, accepted, t);
    }

    method StoreSession(call: CallId, who: Instance, port: PortId, ghost answer: Answer)
      requires Mirrors() && Winding(world, Setup(who)) && Setup(who) in world.threads
      requires world.threads[Setup(who)] == Thread(Storing, call, Some(port), None)
      modifies this
      ensures Mirrors() && Winding(world, Setup(who)) && Setup(who) !in world.threads && deferred == old(deferred)
      ensures world.workers == old(world.workers) && Settled(world, Setup(who), answer) == Settled(old(world), Setup(who), answer)
    {
      hide Settled, Winding, Shaped;
      sessions := sessions[call := Session(who, port)];
      SetupAdvance(Setup(who), answer);
    }

    /** The entry is gone; was the token cancelled before it went? */
    method CheckToken(call: CallId, ghost gen: Generation, who: Instance, port: PortId, owned: bool, accepted: bool)
      requires Mirrors() && Winding(world, Setup(who)) && Setup(who) in world.threads
      requires world.threads[Setup(who)] == Thread(Unlisted(gen, owned), call, Some(port), None)
      modifies this
      ensures Mirrors() && Winding(world, Setup(who)) && Setup(who) !in world.threads
      ensures var answer := if accepted then Yes else No; Settled(world, Setup(who), answer) == Settled(old(world), Setup(who), answer)
      ensures DeferredSince(old(world), world, old(deferred), deferred)
    {
      hide Settled, Winding, Shaped;
      ghost var answer := if accepted then Yes else No;
      if who in cancelled && !owned {
        deferred := deferred + [Cleanup(port, None)];
        SetupAdvance(Setup(who), answer);
      } else if who in cancelled {
        SetupAdvance(Setup(who), answer);
        TearDownLate(call, port, accepted, Setup(who));
      } else {
        SetupAdvance(Setup(who), answer);
        StoreSession(call, who, port, answer);
      }
    }

    /** The end of a setup: store the session, unless the token was cancelled in the meantime. */
    method Commit(call: CallId, gen: Generation, who: Instance, port: PortId, accepted: bool)
      requires Mirrors() && Winding(world, Setup(who)) && Setup(who) in world.threads
      requires world.threads[Setup(who)] == Thread(Connected(gen), call, Some(port), None)
      modifies this
      ensures Mirrors() && world == Settled(old(world), Setup(who), if accepted then Yes else No)
      ensures DeferredSince(old(world), world, old(deferred), deferred)
    {
      hide Settled, Winding, Shaped;
      ghost var answer := if accepted then Yes else No;
      var owned := RemovePendingSetup(call, gen);
      SetupAdvance(Setup(who), answer);
      CheckToken(call, gen, who, port, owned, accepted);
      SettledAtRest(world, Setup(who), answer);
    }
  }

  lemma SettledAtRest(w: World, t: Tid, answer: Answer)
    requires Winding(w, t) && t !in w.threads
    ensures Settled(w, t, answer) == w
  {
  }
}
