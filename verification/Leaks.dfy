/**
 Nothing leaks: when everything has come to rest, every port ever created has been destroyed, every
 pool released, and no port was destroyed while it sat in a conference slot.

 Beyond the rules of media attachment this assumes that a media callback runs without interruption
 (`AtomicCallbackRule`) and that pjsip accepts and completes every removal (`RemovalRule`).
 */
module Leaks {
  import opened Wrappers
  import opened CallMachine
  import opened Effects
  import opened Ownership
  import opened Orphans
  import opened MediaAttachment
  import opened Registrations

  // ---------------------------------------------------------------- assumptions

  predicate AtomicCallbackRule(w: World, a: Action) {
    forall t :: t in w.threads && InCallback(w.threads[t].at) ==> a.Go? && a.t == t
  }

  predicate RemovalRule(w: World, a: Action) {
    && (a.Go? && a.t in w.threads && w.threads[a.t].at.Removing? ==> a.answer.Yes?)
    && (a.RemoveCompleted? ==> a.ok)
  }

  predicate LeakRules(w: World, a: Action) {
    MediaRules(w, a) && AtomicCallbackRule(w, a) && RemovalRule(w, a)
  }

  // ---------------------------------------------------------------- the invariant

  /** The port is still with the setup that made it, or a teardown, that has not looked for it yet. */
  predicate Waits(w: World, c: CallId, p: PortId) {
    p in w.rights.portAt && w.rights.portAt[p].AtThread? &&
    var t := w.rights.portAt[p].t;
    t in w.threads && w.threads[t].call == c &&
    ((SetupPoint(w.threads[t].at) && !w.threads[t].at.HasPort?) || w.threads[t].at.TakingPending?)
  }

  /** The same, or with a session, or with a teardown about to look for active media. */
  predicate Held(w: World, c: CallId, p: PortId) {
    p in w.rights.portAt &&
    match w.rights.portAt[p]
    case AtSession(d) => d == c
    case AtThread(t) =>
      t in w.threads && w.threads[t].call == c &&
      (SetupPoint(w.threads[t].at) || w.threads[t].at.TakingPending? ||
       (w.threads[t].at.TakingActive? && !w.threads[t].at.wasPending))
    case _ => false
  }

  ghost predicate SeatsDistinct(w: World) {
    && (forall s :: s in w.conf.slots ==> w.conf.slots[s].port < |w.rights.makers|)
    && (forall s, r :: s in w.conf.slots && r in w.conf.slots && s != r ==> w.conf.slots[s].port != w.conf.slots[r].port)
  }

  /** A published port has an owner who will take it down, and is not also pending. */
  ghost predicate ActiveHeld(w: World) {
    forall c :: c in w.reg.active ==>
      && w.reg.active[c].slot in w.conf.slots && Held(w, c, w.conf.slots[w.reg.active[c].slot].port)
      && c !in w.reg.pendingPorts && c !in w.reg.lentTo
  }

  /** A pending port is in no slot, and its owner still waits. */
  ghost predicate PendingHeld(w: World) {
    forall c :: c in w.reg.pendingPorts ==>
      Waits(w, c, w.reg.pendingPorts[c]) && !Seated(w.conf, w.reg.pendingPorts[c])
  }

  /** So is a port in a callback's hands, until it is added; and nothing else is published then. */
  ghost predicate LentHeld(w: World) {
    forall t :: t in w.threads && Carries(w.threads[t].at) ==>
      var th := w.threads[t];
      && th.call !in w.reg.active && Waits(w, th.call, th.at.lent)
      && (!th.at.MediaPublish? ==> !Seated(w.conf, th.at.lent))
  }

  /** Where the port of a thread is, as seen from the thread. */
  ghost predicate Placed(w: World, th: Thread, p: PortId) {
    var c := th.call;
    if th.at.HasPort? || th.at.Disposing? then !Seated(w.conf, p)
    else if th.at.TakingActive? then if th.at.wasPending then c !in w.reg.active && !Seated(w.conf, p) else Attached(w, c, p)
    else if th.at.Resolving? then
      if th.at.wasPending then th.pool == None && !Seated(w.conf, p)
      else th.at.found.Some? && th.at.found.value in w.conf.slots && th.pool.Some? &&
           w.conf.slots[th.at.found.value] == Seat(p, th.pool.value)
    else
      || (c in w.reg.pendingPorts && w.reg.pendingPorts[c] == p)
      || (c in w.reg.lentTo && w.reg.lentTo[c] in w.threads && Carries(w.threads[w.reg.lentTo[c]].at)
          && w.threads[w.reg.lentTo[c]].at.lent == p)
      || Attached(w, c, p)
  }

  ghost predicate AllPlaced(w: World) {
    forall t :: t in w.threads && w.threads[t].port.Some? ==> Placed(w, w.threads[t], w.threads[t].port.value)
  }

  /** A cleanup waits for its own seat to be removed, or for the removal that was completed. */
  ghost predicate CleanupsKnown(w: World) {
    && (forall s :: s in w.reg.cleanup ==>
          var c := w.reg.cleanup[s];
          && c.pool.Some?
          && (s in w.conf.slots ==> w.conf.slots[s] == Seat(c.port, c.pool.value))
          && (s !in w.conf.slots ==>
                !Seated(w.conf, c.port) && exists t :: t in w.threads && w.threads[t].at == OpDone(s, true)))
    && (forall t :: t in w.threads && w.threads[t].at.OpDone? ==> w.threads[t].at.ok && w.threads[t].at.slot !in w.conf.slots)
    && (forall t :: t in w.threads ==> !w.threads[t].at.FallingBack?)
  }

  ghost predicate NothingLost(r: Rights) {
    && (forall p :: p in r.portAt ==> !r.portAt[p].Abandoned?)
    && (forall b :: b in r.poolAt ==> !r.poolAt[b].Abandoned?)
    && r.seatedWhenDestroyed == {}
  }

  ghost predicate Tight(w: World) {
    SeatsDistinct(w) && ActiveHeld(w) && PendingHeld(w) && LentHeld(w) && AllPlaced(w) && CleanupsKnown(w)
  }

  /** No media callback is running. */
  ghost predicate Calm(w: World) {
    forall t :: t in w.threads ==> !InCallback(w.threads[t].at)
  }

  // ---------------------------------------------------------------- setup steps

  /** A setup step that does not defer. */
  ghost predicate SetupMoves(w: World, w': World, t: Tid, th: Thread) {
    && t in w.threads && th == w.threads[t] && SetupPoint(th.at) && SetupEffect(w, w', t, th)
    && w'.workers == w.workers && (t !in w'.threads ==> th.at.Spawned? || th.at.Storing?)
  }

  /** Nobody replaces a setup, so it never defers, and ends only refused at the gate or as a session. */
  lemma SetupNeverDefers(w: World, t: Tid, th: Thread, answer: Answer)
    requires FreshNames(w) && SingleHolder(w) && t in w.threads && th == w.threads[t] && SetupPoint(th.at)
    ensures SetupMoves(w, SetupStep(w, t, th, answer), t, th)
  {
    hide SetupStep, LogKnown;
    SetupHasEffect(w, t, th, answer);
  }

  lemma SetupSeatsDistinct(w: World, w': World, t: Tid, th: Thread)
    requires SeatsDistinct(w) && SetupMoves(w, w', t, th)
    ensures SeatsDistinct(w')
  {
  }

  /** The thread working for an id is the only one that holds its port. */
  lemma OneWorker(w: World, t: Tid, u: Tid)
    requires FreshNames(w) && SingleHolder(w) && t in w.threads && u in w.threads && t != u
    requires t.Setup? && (u.Setup? || TeardownPoint(w.threads[u].at))
    ensures w.threads[t].call != w.threads[u].call
  {
  }

  /** A setup step leaves every held port held. */
  lemma SetupHolds(w: World, w': World, t: Tid, th: Thread, c: CallId, p: PortId)
    requires FreshNames(w) && RightsAgree(w) && RightsAgree(w') && SingleHolder(w)
    requires SetupMoves(w, w', t, th) && Held(w, c, p)
    ensures Held(w', c, p)
  {
    if w.rights.portAt[p].AtThread? {
      var u := w.rights.portAt[p].t;
      if u in w'.threads {
        assert w'.threads[u].port == Some(p);
      } else {
        assert w'.mgr.sessions[c].port == p;
      }
    } else {
      assert w'.mgr.sessions[c].port == p;
    }
  }

  lemma SetupActiveHeld(w: World, w': World, t: Tid, th: Thread)
    requires FreshNames(w) && RightsAgree(w) && RightsAgree(w') && SingleHolder(w)
    requires SeatsDistinct(w) && ActiveHeld(w) && AllPlaced(w) && SetupMoves(w, w', t, th)
    ensures ActiveHeld(w')
  {
    hide LogKnown, HoldsPortAt, MayHoldPoolAt;
    forall c | c in w'.reg.active ensures Held(w', c, w'.conf.slots[w'.reg.active[c].slot].port) && c !in w'.reg.pendingPorts {
      var p := w.conf.slots[w.reg.active[c].slot].port;
      SetupHolds(w, w', t, th, c, p);
      if w.rights.portAt[p].AtThread? {
        var u := w.rights.portAt[p].t;
        if u != t && c == th.call { OneWorker(w, t, u); }
        if u == t { assert Placed(w, th, p); assert Seated(w.conf, p); }
      }
    }
  }

  lemma SetupPendingHeld(w: World, w': World, t: Tid, th: Thread)
    requires FreshNames(w) && RightsAgree(w) && RightsAgree(w') && PendingHeld(w) && AllPlaced(w) && AttachedWhereNeeded(w)
    requires SetupMoves(w, w', t, th)
    ensures PendingHeld(w')
  {
    hide LogKnown;
  }

  lemma SetupPlacesOther(w: World, w': World, t: Tid, th: Thread, u: Tid)
    requires FreshNames(w) && SingleHolder(w) && Calm(w) && SetupMoves(w, w', t, th)
    requires u in w.threads && u != t && w.threads[u].port.Some? && Placed(w, w.threads[u], w.threads[u].port.value)
    ensures Placed(w', w.threads[u], w.threads[u].port.value)
  {
    if u.Setup? || TeardownPoint(w.threads[u].at) { OneWorker(w, t, u); }
  }

  lemma SetupPlacesSelf(w: World, w': World, t: Tid, th: Thread)
    requires FreshNames(w) && Calm(w) && SetupMoves(w, w', t, th) && t in w'.threads && w'.threads[t].port.Some?
    requires SeatsDistinct(w) && AttachedWhereNeeded(w) && (th.port.Some? ==> Placed(w, th, th.port.value))
    ensures Placed(w', w'.threads[t], w'.threads[t].port.value)
  {
  }

  lemma SetupPlaced(w: World, w': World, t: Tid, th: Thread)
    requires FreshNames(w) && SingleHolder(w) && Calm(w) && SetupMoves(w, w', t, th)
    requires SeatsDistinct(w) && AllPlaced(w) && AttachedWhereNeeded(w)
    ensures AllPlaced(w')
  {
    forall u | u in w'.threads && w'.threads[u].port.Some? ensures Placed(w', w'.threads[u], w'.threads[u].port.value) {
      if u == t { SetupPlacesSelf(w, w', t, th); } else { SetupPlacesOther(w, w', t, th, u); }
    }
  }

  /** A step that neither completes nor refuses a removal leaves cleanups alone. */
  lemma CleanupsStay(w: World, w': World, t: Tid)
    requires CleanupsKnown(w) && Framed(w, w', t) && t in w.threads && !w.threads[t].at.OpDone?
    requires t in w'.threads ==> !w'.threads[t].at.OpDone? && !w'.threads[t].at.FallingBack?
    requires w'.reg.cleanup == w.reg.cleanup && w'.conf.slots == w.conf.slots
    ensures CleanupsKnown(w')
  {
    forall s | s in w'.reg.cleanup && s !in w'.conf.slots
      ensures exists u :: u in w'.threads && w'.threads[u].at == OpDone(s, true)
    {
      var u :| u in w.threads && w.threads[u].at == OpDone(s, true);
      assert u in w'.threads && w'.threads[u].at == OpDone(s, true);
    }
  }

  // ---------------------------------------------------------------- steps that spare every owner

  /** The step moves no port but those that `t` or a cleanup had, and publishes and lists nothing. */
  ghost predicate Spares(w: World, w': World, t: Tid) {
    && (forall u :: u in w.threads && u != t ==> u in w'.threads && w'.threads[u] == w.threads[u])
    && (forall p :: p in w.rights.portAt && w.rights.portAt[p] != AtThread(t) && !w.rights.portAt[p].AtCleanup? ==>
          p in w'.rights.portAt && w'.rights.portAt[p] == w.rights.portAt[p])
    && w'.conf.slots == w.conf.slots && w'.reg.pendingPorts == w.reg.pendingPorts
    && w'.reg.active == w.reg.active && w'.reg.lentTo == w.reg.lentTo
  }

  lemma SparedStayHeld(w: World, w': World, t: Tid)
    requires RightsAgree(w) && ActiveHeld(w) && PendingHeld(w) && Spares(w, w', t)
    requires t in w.threads && w.threads[t].port.Some? ==> w.threads[t].at.Resolving? || w.threads[t].at.Disposing?
    ensures ActiveHeld(w') && PendingHeld(w')
  {
    hide LogKnown;
  }

  lemma SparedStayPlaced(w: World, w': World, t: Tid)
    requires AllPlaced(w) && Spares(w, w', t)
    requires t in w.threads ==> !Carries(w.threads[t].at)
    requires t in w'.threads ==> w'.threads[t].port == None
    requires forall u :: u in w'.threads && u != t ==> u in w.threads
    ensures AllPlaced(w')
  {
  }

  // ---------------------------------------------------------------- teardown steps

  /** Thread `t` is at a teardown of the port `p` of an id nobody else works for. */
  ghost predicate Tearing(w: World, t: Tid, th: Thread) {
    FreshNames(w) && RightsAgree(w) && SingleHolder(w) && Calm(w) && t in w.threads && th == w.threads[t] && TeardownPoint(th.at)
  }

  lemma OneTeardown(w: World, t: Tid, u: Tid)
    requires FreshNames(w) && SingleHolder(w) && t in w.threads && u in w.threads && t != u
    requires TeardownPoint(w.threads[t].at) && (u.Setup? || TeardownPoint(w.threads[u].at))
    ensures w.threads[t].call != w.threads[u].call
  {
  }

  lemma TakingPendingHeld(w: World, t: Tid, th: Thread)
    requires Tearing(w, t, th) && th.at.TakingPending? && SeatsDistinct(w) && ActiveHeld(w) && PendingHeld(w) && AllPlaced(w)
    ensures var w' := TakePendingPort(w, t, th, th.at.kind); ActiveHeld(w') && PendingHeld(w')
  {
  }

  lemma TakingPendingPlaced(w: World, t: Tid, th: Thread)
    requires Tearing(w, t, th) && th.at.TakingPending? && SeatsDistinct(w) && ActiveHeld(w) && PendingHeld(w) && AllPlaced(w)
    ensures AllPlaced(TakePendingPort(w, t, th, th.at.kind))
  {
    hide RunsAt;
  }

  lemma TakingActiveHeld(w: World, t: Tid, th: Thread)
    requires Tearing(w, t, th) && th.at.TakingActive? && SeatsDistinct(w) && ActiveHeld(w) && PendingHeld(w) && AllPlaced(w)
    ensures var w' := TakeActive(w, t, th, th.at.kind, th.at.wasPending); ActiveHeld(w') && PendingHeld(w')
  {
    hide Shaped;
  }

  lemma TakingActivePlaced(w: World, t: Tid, th: Thread)
    requires Tearing(w, t, th) && th.at.TakingActive? && AllPlaced(w)
    ensures AllPlaced(TakeActive(w, t, th, th.at.kind, th.at.wasPending))
  {
    hide RunsAt;
  }

  /** The slot of a port about to be removed has no cleanup yet. */
  lemma SlotHasNoCleanup(w: World, t: Tid, th: Thread)
    requires Tearing(w, t, th) && th.at.Resolving? && !th.at.wasPending && AllPlaced(w) && CleanupsKnown(w)
    ensures th.at.found.Some? && th.at.found.value !in w.reg.cleanup
  {
    assert Placed(w, th, th.port.value);
    forall s | s in w.reg.cleanup && s in w.conf.slots ensures w.conf.slots[s].port != th.port.value {
      assert w.conf.slots[s].port == w.reg.cleanup[s].port;
      assert w.rights.portAt[w.reg.cleanup[s].port] == AtCleanup(s);
    }
  }

  lemma ResolvingSpares(w: World, t: Tid, th: Thread)
    requires Tearing(w, t, th) && th.at.Resolving? && AllPlaced(w) && CleanupsKnown(w)
    ensures Spares(w, Resolve(w, t, th, th.at.kind, th.at.wasPending, th.at.found), t)
  {
    assert Placed(w, th, th.port.value);
    if !th.at.wasPending { SlotHasNoCleanup(w, t, th); }
  }

  lemma RegisteringCleanups(w: World, t: Tid, th: Thread)
    requires Tearing(w, t, th) && th.at.Resolving? && !th.at.wasPending && AllPlaced(w) && CleanupsKnown(w)
    ensures CleanupsKnown(Resolve(w, t, th, th.at.kind, th.at.wasPending, th.at.found))
  {
    assert Placed(w, th, th.port.value);
    SlotHasNoCleanup(w, t, th);
    var w' := RegisterCleanup(w, t, th, th.at.kind, th.at.found.value);
    forall s | s in w'.reg.cleanup && s !in w'.conf.slots
      ensures exists u :: u in w'.threads && w'.threads[u].at == OpDone(s, true)
    {
      var u :| u in w.threads && w.threads[u].at == OpDone(s, true);
      assert u in w'.threads && w'.threads[u].at == OpDone(s, true);
    }
  }

  lemma ResolvingLosesNothing(w: World, t: Tid, th: Thread)
    requires Tearing(w, t, th) && th.at.Resolving? && AllPlaced(w) && CleanupsKnown(w) && NothingLost(w.rights)
    ensures NothingLost(Resolve(w, t, th, th.at.kind, th.at.wasPending, th.at.found).rights)
  {
    assert Placed(w, th, th.port.value);
    if !th.at.wasPending { SlotHasNoCleanup(w, t, th); }
  }

  // ---------------------------------------------------------------- the main loop and disposals

  lemma LookUpHeld(w: World, th: Thread)
    requires FreshNames(w) && RightsAgree(w) && ActiveHeld(w) && PendingHeld(w)
    requires Main in w.threads && th == w.threads[Main] && th.at.LookingUp?
    ensures var w' := LookUp(w, Main, th, th.at.who); ActiveHeld(w') && PendingHeld(w')
  {
    hide LogKnown, Shaped;
  }

  lemma LookUpPlaced(w: World, th: Thread)
    requires FreshNames(w) && RightsAgree(w) && AllPlaced(w) && AttachedWhereNeeded(w) && Calm(w)
    requires Main in w.threads && th == w.threads[Main] && th.at.LookingUp?
    ensures AllPlaced(LookUp(w, Main, th, th.at.who))
  {
    hide RunsAt;
  }

  lemma OpDoneSpares(w: World, t: Tid, th: Thread)
    requires RightsAgree(w) && CleanupsKnown(w) && t in w.threads && th == w.threads[t] && th.at.OpDone?
    ensures var w' := OperationDone(w, t, th.at.slot, th.at.ok);
      && Spares(w, w', t)
      && (t in w'.threads && w'.threads[t].port.Some? ==> Placed(w', w'.threads[t], w'.threads[t].port.value))
  {
  }

  lemma OpDonePlaced(w: World, w': World, t: Tid)
    requires AllPlaced(w) && Spares(w, w', t) && t in w.threads && !Carries(w.threads[t].at)
    requires t in w'.threads && w'.threads[t].port.Some? ==> Placed(w', w'.threads[t], w'.threads[t].port.value)
    requires forall u :: u in w'.threads && u != t ==> u in w.threads
    ensures AllPlaced(w')
  {
  }

  lemma OpDoneKeeps(w: World, t: Tid, th: Thread)
    requires FreshNames(w) && RightsAgree(w) && ActiveHeld(w) && PendingHeld(w) && AllPlaced(w) && CleanupsKnown(w)
    requires t in w.threads && th == w.threads[t] && th.at.OpDone?
    ensures var w' := OperationDone(w, t, th.at.slot, th.at.ok); ActiveHeld(w') && PendingHeld(w') && AllPlaced(w')
  {
    hide RightsAgree, ActiveHeld, PendingHeld, AllPlaced, CleanupsKnown, Spares, Placed, LogKnown;
    var w' := OperationDone(w, t, th.at.slot, th.at.ok);
    OpDoneSpares(w, t, th);
    SparedStayHeld(w, w', t);
    OpDonePlaced(w, w', t);
  }

  lemma OpDoneCleanups(w: World, t: Tid, th: Thread)
    requires FreshNames(w) && RightsAgree(w) && CleanupsKnown(w) && t in w.threads && th == w.threads[t] && th.at.OpDone?
    ensures CleanupsKnown(OperationDone(w, t, th.at.slot, th.at.ok))
  {
    var w' := OperationDone(w, t, th.at.slot, th.at.ok);
    forall s | s in w'.reg.cleanup && s !in w'.conf.slots
      ensures exists u :: u in w'.threads && w'.threads[u].at == OpDone(s, true)
    {
      var u :| u in w.threads && w.threads[u].at == OpDone(s, true);
      assert u in w'.threads && w'.threads[u].at == OpDone(s, true);
    }
  }

  // ---------------------------------------------------------------- the media callback

  /** The callback `t` runs without interruption. */
  ghost predicate Alone(w: World, t: Tid, th: Thread) {
    && FreshNames(w) && RightsAgree(w) && t in w.threads && th == w.threads[t] && InCallback(th.at)
    && (forall u :: u in w.threads && InCallback(w.threads[u].at) ==> u == t)
  }

  lemma TakeForMediaHeld(w: World, t: Tid, th: Thread)
    requires Alone(w, t, th) && th.at.MediaTake? && ActiveHeld(w) && PendingHeld(w)
    ensures var w' := TakeForMedia(w, t, th); ActiveHeld(w') && PendingHeld(w') && LentHeld(w')
  {
    hide LogKnown, Shaped;
  }

  lemma TakeForMediaPlaced(w: World, t: Tid, th: Thread)
    requires Alone(w, t, th) && th.at.MediaTake? && AllPlaced(w)
    ensures AllPlaced(TakeForMedia(w, t, th))
  {
    hide RunsAt;
  }

  lemma MakePoolHeld(w: World, t: Tid, th: Thread, answer: Answer)
    requires Alone(w, t, th) && th.at.MediaPool? && ActiveHeld(w) && PendingHeld(w) && LentHeld(w)
    ensures var w' := MakePool(w, t, th, th.at.lent, answer); ActiveHeld(w') && PendingHeld(w') && LentHeld(w')
  {
    hide FreshNames;
  }

  lemma MakePoolPlaced(w: World, t: Tid, th: Thread, answer: Answer)
    requires Alone(w, t, th) && th.at.MediaPool? && AllPlaced(w)
    ensures AllPlaced(MakePool(w, t, th, th.at.lent, answer))
  {
    hide RunsAt;
  }

  lemma AddPortHeld(w: World, t: Tid, th: Thread, answer: Answer, slot: SlotId)
    requires Alone(w, t, th) && th.at.MediaAdd? && LoansKnown(w) && ActiveHeld(w) && PendingHeld(w) && LentHeld(w)
    requires answer.Yes? ==> slot !in w.conf.slots
    ensures var w' := AddPort(w, t, th, th.at.lent, answer, slot); ActiveHeld(w') && PendingHeld(w') && LentHeld(w')
  {
    hide FreshNames;
  }

  lemma AddPortSeats(w: World, t: Tid, th: Thread, answer: Answer, slot: SlotId)
    requires Alone(w, t, th) && th.at.MediaAdd? && SeatsDistinct(w) && LentHeld(w)
    ensures SeatsDistinct(AddPort(w, t, th, th.at.lent, answer, slot))
  {
  }

  /** Nobody but the owner waiting for it has the port being added. */
  lemma SeatingPlaces(w: World, t: Tid, th: Thread, answer: Answer, slot: SlotId, u: Tid)
    requires Alone(w, t, th) && th.at.MediaAdd? && LentHeld(w) && slot !in w.conf.slots && answer.Yes?
    requires u in w.threads && w.threads[u].port.Some? && Placed(w, w.threads[u], w.threads[u].port.value)
    ensures Placed(AddPort(w, t, th, th.at.lent, answer, slot), w.threads[u], w.threads[u].port.value)
  {
    hide LogKnown, PoolsAgree, FreedOnce, Shaped;
  }

  lemma AddPortPlaces(w: World, t: Tid, th: Thread, answer: Answer, slot: SlotId, u: Tid)
    requires Alone(w, t, th) && th.at.MediaAdd? && LentHeld(w) && (answer.Yes? ==> slot !in w.conf.slots)
    requires u in w.threads && w.threads[u].port.Some? && Placed(w, w.threads[u], w.threads[u].port.value)
    ensures Placed(AddPort(w, t, th, th.at.lent, answer, slot), w.threads[u], w.threads[u].port.value)
  {
    if answer.Yes? {
      hide Placed, LentHeld, LogKnown;
      SeatingPlaces(w, t, th, answer, slot, u);
    }
  }

  lemma AddPortPlaced(w: World, t: Tid, th: Thread, answer: Answer, slot: SlotId)
    requires Alone(w, t, th) && th.at.MediaAdd? && LentHeld(w) && AllPlaced(w)
    requires answer.Yes? ==> slot !in w.conf.slots
    ensures AllPlaced(AddPort(w, t, th, th.at.lent, answer, slot))
  {
    hide Placed, LentHeld;
    var w' := AddPort(w, t, th, th.at.lent, answer, slot);
    forall u | u in w'.threads && w'.threads[u].port.Some? ensures Placed(w', w'.threads[u], w'.threads[u].port.value) {
      AddPortPlaces(w, t, th, answer, slot, u);
    }
  }

  lemma AddPortCleanups(w: World, t: Tid, th: Thread, answer: Answer, slot: SlotId)
    requires Alone(w, t, th) && th.at.MediaAdd? && LentHeld(w) && CleanupsKnown(w) && SlotRule(w, Go(t, answer, slot))
    ensures CleanupsKnown(AddPort(w, t, th, th.at.lent, answer, slot))
  {
    var w' := AddPort(w, t, th, th.at.lent, answer, slot);
    forall s | s in w'.reg.cleanup && s !in w'.conf.slots
      ensures exists u :: u in w'.threads && w'.threads[u].at == OpDone(s, true)
    {
      var u :| u in w.threads && w.threads[u].at == OpDone(s, true);
      assert u in w'.threads && w'.threads[u].at == OpDone(s, true);
    }
  }

  lemma PublishHeld(w: World, t: Tid, th: Thread)
    requires Alone(w, t, th) && th.at.MediaPublish? && LoansKnown(w) && ActiveHeld(w) && PendingHeld(w) && LentHeld(w)
    ensures var w' := Publish(w, t, th, th.at.slot); ActiveHeld(w') && PendingHeld(w') && LentHeld(w')
  {
    hide FreshNames;
  }

  /** Whoever disposes of the port of the call being published is the one who waits for it. */
  lemma PublishFindsOwner(w: World, t: Tid, th: Thread, u: Tid)
    requires Alone(w, t, th) && th.at.MediaPublish? && SingleHolder(w) && LentHeld(w)
    requires u in w.threads && w.threads[u].call == th.call && w.threads[u].port.Some? && !w.threads[u].at.Disposing?
    ensures w.threads[u].port.value == th.at.lent && (SetupPoint(w.threads[u].at) || w.threads[u].at.TakingPending?)
  {
    var v := w.rights.portAt[th.at.lent].t;
    if u != v && v.Setup? { OneWorker(w, v, u); }
    if u != v && !v.Setup? { OneTeardown(w, v, u); }
  }

  lemma PublishPlaces(w: World, t: Tid, th: Thread, u: Tid)
    requires Alone(w, t, th) && th.at.MediaPublish? && SingleHolder(w) && LoansKnown(w) && SeatsKnown(w) && LentHeld(w)
    requires u in w.threads && w.threads[u].port.Some? && Placed(w, w.threads[u], w.threads[u].port.value)
    ensures Placed(Publish(w, t, th, th.at.slot), w.threads[u], w.threads[u].port.value)
  {
    if w.threads[u].call == th.call && !w.threads[u].at.Disposing? { PublishFindsOwner(w, t, th, u); }
  }

  lemma PublishPlaced(w: World, t: Tid, th: Thread)
    requires Alone(w, t, th) && th.at.MediaPublish? && SingleHolder(w) && LoansKnown(w) && SeatsKnown(w) && LentHeld(w) && AllPlaced(w)
    ensures AllPlaced(Publish(w, t, th, th.at.slot))
  {
    var w' := Publish(w, t, th, th.at.slot);
    forall u | u in w'.threads && w'.threads[u].port.Some? ensures Placed(w', w'.threads[u], w'.threads[u].port.value) {
      PublishPlaces(w, t, th, u);
    }
  }

  lemma PublishLosesNothing(w: World, t: Tid, th: Thread)
    requires Alone(w, t, th) && th.at.MediaPublish? && LentHeld(w) && NothingLost(w.rights)
    ensures NothingLost(Publish(w, t, th, th.at.slot).rights)
  {
  }

  lemma PutBackHeld(w: World, t: Tid, th: Thread)
    requires Alone(w, t, th) && th.at.MediaPutBack? && LoansKnown(w) && ActiveHeld(w) && PendingHeld(w) && LentHeld(w)
    ensures var w' := PutBack(w, t, th, th.at.lent); ActiveHeld(w') && PendingHeld(w') && LentHeld(w')
  {
    hide RunsAt;
  }

  lemma PutBackPlaced(w: World, t: Tid, th: Thread)
    requires Alone(w, t, th) && th.at.MediaPutBack? && LoansKnown(w) && LentHeld(w) && AllPlaced(w)
    ensures AllPlaced(PutBack(w, t, th, th.at.lent))
  {
    hide FreshNames;
  }

  // ---------------------------------------------------------------- completed removals

  lemma RemovalHeld(w: World, slot: SlotId)
    requires FreshNames(w) && RightsAgree(w) && SeatsKnown(w) && ActiveHeld(w) && PendingHeld(w) && slot in w.conf.removing
    ensures var w' := CompleteRemoval(w, slot, true); ActiveHeld(w') && PendingHeld(w')
  {
  }

  lemma RemovalPlaced(w: World, slot: SlotId)
    requires FreshNames(w) && RightsAgree(w) && SeatsKnown(w) && AllPlaced(w) && Calm(w) && slot in w.conf.removing
    ensures AllPlaced(CompleteRemoval(w, slot, true))
  {
    hide FreshNames;
  }

  lemma RemovalCleanups(w: World, slot: SlotId)
    requires FreshNames(w) && SeatsDistinct(w) && CleanupsKnown(w) && slot in w.conf.removing
    ensures CleanupsKnown(CompleteRemoval(w, slot, true))
  {
    var w' := CompleteRemoval(w, slot, true);
    forall s | s in w'.reg.cleanup && s !in w'.conf.slots
      ensures exists u :: u in w'.threads && w'.threads[u].at == OpDone(s, true)
    {
      if s == slot {
        assert w'.threads[Worker(w.workers)].at == OpDone(s, true);
      } else {
        var u :| u in w.threads && w.threads[u].at == OpDone(s, true);
        assert u in w'.threads && w'.threads[u].at == OpDone(s, true);
      }
    }
  }

  // ---------------------------------------------------------------- every step

  ghost predicate Snug(w: World) {
    Tight(w) && NothingLost(w.rights)
  }

  lemma CalmLendsNothing(w: World, w': World, t: Tid)
    requires Calm(w) && Framed(w, w', t) && (t in w'.threads ==> !Carries(w'.threads[t].at))
    ensures LentHeld(w')
  {
  }

  lemma SetupLosesNothing(w: World, t: Tid, th: Thread, answer: Answer)
    requires FreshNames(w) && SingleHolder(w) && NothingLost(w.rights)
    requires t in w.threads && th == w.threads[t] && SetupPoint(th.at)
    ensures NothingLost(SetupStep(w, t, th, answer).rights)
  {
  }

  lemma SetupKeepsSnug(w: World, t: Tid, th: Thread, answer: Answer)
    requires Linear(w) && MediaKnown(w) && Snug(w) && Calm(w) && Permitted(w, t, answer) && th == w.threads[t] && SetupPoint(th.at)
    requires Linear(SetupStep(w, t, th, answer))
    ensures Snug(SetupStep(w, t, th, answer))
  {
    hide SetupStep, SeatsDistinct, ActiveHeld, PendingHeld, LentHeld, AllPlaced, CleanupsKnown, RightsAgree,
         NothingLost, SingleHolder, Calm, LogKnown,
         MakersKnown, SeatsKnown, LoansKnown, PendingKnown, NotifiersKnown, AttachedWhereNeeded, AttachedWhenTold;
    var w' := SetupStep(w, t, th, answer);
    SetupNeverDefers(w, t, th, answer);
    SetupSeatsDistinct(w, w', t, th);
    SetupActiveHeld(w, w', t, th);
    SetupPendingHeld(w, w', t, th);
    CalmLendsNothing(w, w', t);
    SetupPlaced(w, w', t, th);
    CleanupsStay(w, w', t);
    SetupLosesNothing(w, t, th, answer);
  }

  /** A step that spares every owner, by a thread that neither holds a port afterwards nor works on removals. */
  lemma SparesKeepTight(w: World, w': World, t: Tid)
    requires RightsAgree(w) && Tight(w) && Calm(w) && Framed(w, w', t) && w'.workers == w.workers && Spares(w, w', t) && t in w.threads
    requires w.threads[t].port.Some? ==> w.threads[t].at.Resolving? || w.threads[t].at.Disposing?
    requires !w.threads[t].at.OpDone?
    requires t in w'.threads ==> w'.threads[t].port == None && (w'.threads[t].at.Closing? || w'.threads[t].at.Removing?)
    requires w'.reg.cleanup == w.reg.cleanup && w'.conf.slots == w.conf.slots && w'.rights.makers == w.rights.makers
    ensures Tight(w')
  {
    hide ActiveHeld, PendingHeld, LentHeld, AllPlaced, CleanupsKnown, RightsAgree, Shaped;
    SparedStayHeld(w, w', t);
    SparedStayPlaced(w, w', t);
    CleanupsStay(w, w', t);
    CalmLendsNothing(w, w', t);
  }

  /** Asking for a removal, or dropping the notifier. */
  lemma PortlessKeepsSnug(w: World, t: Tid, th: Thread, answer: Answer)
    requires Tearing(w, t, th) && Snug(w) && (th.at.Closing? || (th.at.Removing? && answer.Yes?))
    ensures Snug(TeardownStep(w, t, th, answer))
  {
    hide SeatsDistinct, ActiveHeld, PendingHeld, LentHeld, AllPlaced, CleanupsKnown, LogKnown, PortsAgree, PoolsAgree, FreedOnce, SingleHolder, Calm;
    var w' := TeardownStep(w, t, th, answer);
    TeardownFrame(w, t, th, answer);
    SparesKeepTight(w, w', t);
  }

  lemma ResolvingKeepsSnug(w: World, t: Tid, th: Thread, answer: Answer)
    requires Tearing(w, t, th) && Snug(w) && th.at.Resolving?
    ensures Snug(TeardownStep(w, t, th, answer))
  {
    var w' := TeardownStep(w, t, th, answer);
    assert Placed(w, th, th.port.value);
    ResolvingSpares(w, t, th);
    SparedStayHeld(w, w', t);
    TeardownFrame(w, t, th, answer);
    SparedStayPlaced(w, w', t);
    if th.at.wasPending { CleanupsStay(w, w', t); } else { RegisteringCleanups(w, t, th); }
    CalmLendsNothing(w, w', t);
    ResolvingLosesNothing(w, t, th);
  }

  lemma TakingKeepsSnug(w: World, t: Tid, th: Thread, answer: Answer)
    requires Tearing(w, t, th) && Snug(w) && (th.at.TakingPending? || th.at.TakingActive?)
    ensures Snug(TeardownStep(w, t, th, answer))
  {
    hide ActiveHeld, PendingHeld, LentHeld, AllPlaced, CleanupsKnown, RightsAgree, SingleHolder, Calm, LogKnown, Shaped;
    var w' := TeardownStep(w, t, th, answer);
    TeardownFrame(w, t, th, answer);
    CleanupsStay(w, w', t);
    CalmLendsNothing(w, w', t);
    if th.at.TakingPending? { TakingPendingHeld(w, t, th); TakingPendingPlaced(w, t, th); }
    else { TakingActiveHeld(w, t, th); TakingActivePlaced(w, t, th); }
  }

  lemma TeardownKeepsSnug(w: World, t: Tid, th: Thread, answer: Answer)
    requires Tearing(w, t, th) && Snug(w) && (th.at.Removing? ==> answer.Yes?)
    ensures Snug(TeardownStep(w, t, th, answer))
  {
    hide Snug, TeardownStep, CleanupsKnown, FreshNames, RightsAgree, SingleHolder, Calm;
    if th.at.Resolving? { ResolvingKeepsSnug(w, t, th, answer); }
    else if th.at.Closing? || th.at.Removing? { PortlessKeepsSnug(w, t, th, answer); }
    else if th.at.FallingBack? { assert false by { NoFallBack(w, t); } }
    else { TakingKeepsSnug(w, t, th, answer); }
  }

  lemma NoFallBack(w: World, t: Tid)
    requires Snug(w) && t in w.threads
    ensures !w.threads[t].at.FallingBack?
  {
  }

  lemma LookUpKeepsSnug(w: World, th: Thread)
    requires Linear(w) && AttachedWhereNeeded(w) && Snug(w) && Calm(w)
    requires Main in w.threads && th == w.threads[Main] && th.at.LookingUp?
    ensures Snug(LookUp(w, Main, th, th.at.who))
  {
    hide ActiveHeld, PendingHeld, LentHeld, AllPlaced, CleanupsKnown, Calm, AttachedWhereNeeded, PortsAgree, PoolsAgree, FreedOnce, LogKnown;
    var w' := LookUp(w, Main, th, th.at.who);
    OtherFrame(w, Main, th, Yes, 0);
    CleanupsStay(w, w', Main);
    CalmLendsNothing(w, w', Main);
    LookUpHeld(w, th);
    LookUpPlaced(w, th);
  }

  lemma CancelKeepsSnug(w: World, th: Thread)
    requires Linear(w) && Snug(w) && Calm(w) && Main in w.threads && th == w.threads[Main] && th.at.Cancelling?
    ensures Snug(CancelPending(w, Main, th))
  {
    hide SeatsDistinct, ActiveHeld, PendingHeld, LentHeld, AllPlaced, CleanupsKnown, LogKnown, PortsAgree, PoolsAgree, FreedOnce, Calm;
    var w' := CancelPending(w, Main, th);
    OtherFrame(w, Main, th, Yes, 0);
    assert OtherStep(w, Main, th, Yes, 0) == w';
    SparesKeepTight(w, w', Main);
  }

  lemma OpDoneLosesNothing(w: World, t: Tid, th: Thread)
    requires CleanupsKnown(w) && NothingLost(w.rights) && SeatsDistinct(w) && t in w.threads && th == w.threads[t] && th.at.OpDone?
    ensures var w' := OperationDone(w, t, th.at.slot, th.at.ok); NothingLost(w'.rights) && SeatsDistinct(w')
  {
  }

  lemma OpDoneKeepsSnug(w: World, t: Tid, th: Thread)
    requires Linear(w) && Snug(w) && Calm(w) && t in w.threads && th == w.threads[t] && th.at.OpDone?
    ensures Snug(OperationDone(w, t, th.at.slot, th.at.ok))
  {
    OtherFrame(w, t, th, Yes, 0);
    assert OtherStep(w, t, th, Yes, 0) == OperationDone(w, t, th.at.slot, th.at.ok);
    hide SeatsDistinct, ActiveHeld, PendingHeld, LentHeld, AllPlaced, CleanupsKnown, NothingLost, Calm, FreshNames, RightsAgree, OtherStep, Framed;
    CalmLendsNothing(w, OperationDone(w, t, th.at.slot, th.at.ok), t);
    OpDoneKeeps(w, t, th);
    OpDoneCleanups(w, t, th);
    OpDoneLosesNothing(w, t, th);
  }

  lemma DisposingSpares(w: World, t: Tid, th: Thread)
    requires RightsAgree(w) && Shaped(t, th) && AllPlaced(w) && NothingLost(w.rights)
    requires t in w.threads && th == w.threads[t] && th.at.Disposing?
    ensures var w' := Dispose(w, t, th);
      Spares(w, w', t) && NothingLost(w'.rights) && w'.reg == w.reg && w'.conf == w.conf && w'.rights.makers == w.rights.makers
    ensures Dispose(w, t, th).threads == w.threads - {t}
  {
    assert Placed(w, th, th.port.value);
  }

  lemma DisposingKeepsSnug(w: World, t: Tid, th: Thread)
    requires Linear(w) && Snug(w) && Calm(w) && t in w.threads && th == w.threads[t] && th.at.Disposing?
    ensures Snug(Dispose(w, t, th))
  {
    hide SeatsDistinct, ActiveHeld, PendingHeld, LentHeld, AllPlaced, CleanupsKnown, LogKnown, PortsAgree, PoolsAgree, FreedOnce, Calm;
    var w' := Dispose(w, t, th);
    DisposingSpares(w, t, th);
    OtherFrame(w, t, th, Yes, 0);
    assert OtherStep(w, t, th, Yes, 0) == w';
    SparesKeepTight(w, w', t);
  }

  lemma NotifyKeepsTight(w: World, t: Tid, th: Thread)
    requires Alone(w, t, th) && th.at.MediaNotify? && ActiveHeld(w) && PendingHeld(w) && AllPlaced(w)
    ensures var w' := Notify(w, t, th); ActiveHeld(w') && PendingHeld(w') && LentHeld(w') && AllPlaced(w')
  {
    SparedStayHeld(w, Notify(w, t, th), t);
    SparedStayPlaced(w, Notify(w, t, th), t);
  }

  lemma AddPortKeepsSnug(w: World, t: Tid, th: Thread, answer: Answer, slot: SlotId)
    requires Alone(w, t, th) && th.at.MediaAdd? && LoansKnown(w) && Snug(w) && SlotRule(w, Go(t, answer, slot))
    ensures Snug(AddPort(w, t, th, th.at.lent, answer, slot))
  {
    hide SeatsDistinct, ActiveHeld, PendingHeld, LentHeld, AllPlaced, CleanupsKnown, LoansKnown, FreshNames, RightsAgree;
    AddPortHeld(w, t, th, answer, slot);
    AddPortSeats(w, t, th, answer, slot);
    AddPortPlaced(w, t, th, answer, slot);
    AddPortCleanups(w, t, th, answer, slot);
  }

  lemma CallbackKeepsSnug(w: World, t: Tid, th: Thread, answer: Answer)
    requires Alone(w, t, th) && !th.at.MediaAdd? && MediaKnown(w) && Snug(w)
    ensures Snug(OtherStep(w, t, th, answer, 0))
  {
    hide ActiveHeld, PendingHeld, LentHeld, AllPlaced, RightsAgree, LogKnown, MakersKnown, SeatsKnown, LoansKnown, SingleHolder,
         PendingKnown, NotifiersKnown, AttachedWhereNeeded, AttachedWhenTold, CleanupsKnown;
    var w' := OtherStep(w, t, th, answer, 0);
    OtherFrame(w, t, th, answer, 0);
    CleanupsStay(w, w', t);
    if th.at.MediaTake? { TakeForMediaHeld(w, t, th); TakeForMediaPlaced(w, t, th); }
    else if th.at.MediaPool? { MakePoolHeld(w, t, th, answer); MakePoolPlaced(w, t, th, answer); }
    else if th.at.MediaPublish? { PublishHeld(w, t, th); PublishPlaced(w, t, th); PublishLosesNothing(w, t, th); }
    else if th.at.MediaPutBack? { PutBackHeld(w, t, th); PutBackPlaced(w, t, th); }
    else { NotifyKeepsTight(w, t, th); }
  }

  lemma RemovalKeepsSnug(w: World, slot: SlotId)
    requires Linear(w) && SeatsKnown(w) && Snug(w) && Calm(w) && slot in w.conf.removing
    ensures Snug(CompleteRemoval(w, slot, true))
  {
    hide ActiveHeld, PendingHeld, AllPlaced, CleanupsKnown, SeatsKnown, PortsAgree, PoolsAgree, FreedOnce, LogKnown, Shaped;
    RemovalHeld(w, slot);
    RemovalPlaced(w, slot);
    RemovalCleanups(w, slot);
  }

  /** The thread an event starts. */
  function Started(w: World, a: Action): Tid {
    if a.Dispatch? && w.sip.taken < |w.sip.log|
    then if w.sip.log[w.sip.taken].IncomingCall? then Setup(w.sip.log[w.sip.taken].who) else Main
    else Worker(w.workers)
  }

  lemma EventSpares(w: World, a: Action)
    requires FreshNames(w) && Enabled(w, a) && !a.Go? && !a.RemoveCompleted?
    ensures var t, w' := Started(w, a), Next(w, a);
      && Spares(w, w', t) && t !in w.threads
      && (t in w'.threads ==> w'.threads[t].port == None && (w'.threads[t].at.Spawned? || w'.threads[t].at.LookingUp? || w'.threads[t].at.MediaTake?))
      && (forall u :: u in w'.threads && u != t ==> u in w.threads)
      && w'.rights == w.rights && w'.conf == w.conf && w'.reg == w.reg
  {
  }

  lemma EventKeepsCleanups(w: World, w': World, t: Tid)
    requires CleanupsKnown(w) && Spares(w, w', t) && t !in w.threads && w'.reg.cleanup == w.reg.cleanup
    requires forall u :: u in w'.threads && u != t ==> u in w.threads
    requires t in w'.threads ==> !w'.threads[t].at.OpDone? && !w'.threads[t].at.FallingBack?
    ensures CleanupsKnown(w')
  {
    forall s | s in w'.reg.cleanup && s !in w'.conf.slots
      ensures exists u :: u in w'.threads && w'.threads[u].at == OpDone(s, true)
    {
      var u :| u in w.threads && w.threads[u].at == OpDone(s, true);
      assert u in w'.threads && w'.threads[u].at == OpDone(s, true);
    }
  }

  lemma EventLendsNothing(w: World, w': World, t: Tid)
    requires Calm(w) && Spares(w, w', t) && t !in w.threads && (t in w'.threads ==> !Carries(w'.threads[t].at))
    requires forall u :: u in w'.threads && u != t ==> u in w.threads
    ensures LentHeld(w')
  {
  }

  lemma EnvKeepsSnug(w: World, a: Action)
    requires Linear(w) && SeatsKnown(w) && Snug(w) && Calm(w) && Enabled(w, a) && !a.Go? && RemovalRule(w, a)
    ensures Snug(Next(w, a))
  {
    if a.RemoveCompleted? {
      hide Snug, SeatsKnown, Calm;
      RemovalKeepsSnug(w, a.slot);
    } else {
      var t, w' := Started(w, a), Next(w, a);
      EventSpares(w, a);
      hide ActiveHeld, PendingHeld, LentHeld, AllPlaced, CleanupsKnown, SeatsKnown, FreshNames, RightsAgree, Spares, Calm, Next, Started;
      SparedStayHeld(w, w', t);
      SparedStayPlaced(w, w', t);
      EventKeepsCleanups(w, w', t);
      EventLendsNothing(w, w', t);
    }
  }

  lemma OtherKeepsSnug(w: World, t: Tid, th: Thread, answer: Answer, slot: SlotId)
    requires MediaOrderly(w) && Snug(w) && LeakRules(w, Go(t, answer, slot)) && t in w.threads && th == w.threads[t]
    requires !SetupPoint(th.at) && !TeardownPoint(th.at)
    ensures Snug(OtherStep(w, t, th, answer, slot))
  {
    hide Snug, RightsAgree, Orderly, LogKnown, MakersKnown, SingleHolder, SeatsKnown, LoansKnown, PendingKnown, NotifiersKnown,
         AttachedWhereNeeded, AttachedWhenTold;
    if th.at.MediaAdd? { AddPortKeepsSnug(w, t, th, answer, slot); }
    else if InCallback(th.at) { CallbackKeepsSnug(w, t, th, answer); }
    else if th.at.LookingUp? { LookUpKeepsSnug(w, th); }
    else if th.at.Cancelling? { CancelKeepsSnug(w, th); }
    else if th.at.OpDone? { OpDoneKeepsSnug(w, t, th); }
    else { DisposingKeepsSnug(w, t, th); }
  }

  lemma StepKeepsSnug(w: World, a: Action)
    requires MediaOrderly(w) && Snug(w) && Owned(w) && Enabled(w, a) && LeakRules(w, a)
    ensures MediaOrderly(Next(w, a)) && Snug(Next(w, a)) && Owned(Next(w, a))
  {
    hide SeatsDistinct, ActiveHeld, PendingHeld, LentHeld, AllPlaced, CleanupsKnown, NothingLost;
    hide FreshNames, RightsAgree, InOrder, LatestKnown, EndsKnown, Latest, CallsKnown, GenerationsKnown, EntriesKnown, TokensKnown, SessionsKnown;
    hide MakersKnown, SingleHolder, SeatsKnown, LoansKnown, PendingKnown, NotifiersKnown, AttachedWhereNeeded, AttachedWhenTold;
    hide SetupStep, TeardownStep, OtherStep, Owned;
    StepKeepsMedia(w, a);
    StepKeepsOwned(w, a);
    if a.Go? {
      var th := w.threads[a.t];
      if SetupPoint(th.at) { SetupKeepsSnug(w, a.t, th, a.answer); }
      else if TeardownPoint(th.at) { TeardownKeepsSnug(w, a.t, th, a.answer); }
      else { OtherKeepsSnug(w, a.t, th, a.answer, a.slot); }
    } else {
      EnvKeepsSnug(w, a);
    }
  }

  lemma {:induction false} RunKeepsSnug(w: World, actions: seq<Action>)
    requires MediaOrderly(w) && Snug(w) && Owned(w) && IsRun(LeakRules, w, actions) && IsRun(Free, w, actions)
    ensures MediaOrderly(After(w, actions)) && Snug(After(w, actions)) && Owned(After(w, actions))
    decreases |actions|
  {
    if actions != [] {
      StepKeepsSnug(w, actions[0]);
      RunKeepsSnug(Next(w, actions[0]), actions[1..]);
    }
  }

  // ---------------------------------------------------------------- main result

  /** No thread, no session and no cleanup waiting for pjsip. */
  predicate Quiescent(w: World) {
    w.threads == map[] && w.mgr.sessions == map[] && w.reg.cleanup == map[]
  }

  /** What has been freed in a state, and what had been when everything has come to rest. */
  ghost predicate Accounted(w: World, p: PortId, b: PoolId) {
    && w.rights.seatedWhenDestroyed == {}
    && (Quiescent(w) ==>
          && w.mgr.pending == map[] && w.reg.pendingPorts == map[] && w.reg.active == map[] && w.reg.readyTx == map[]
          && Count(w.rights.destroys, p) == (if p < |w.rights.makers| then 1 else 0)
          && Count(w.rights.releases, b) == (if b < w.rights.pools then 1 else 0))
  }

  predicate UnderId(w: World, c: CallId) {
    c in w.mgr.pending || c in w.reg.pendingPorts || c in w.reg.active || c in w.reg.readyTx
  }

  /** Whatever is registered under an id has an owner. */
  lemma RegisteredHasOwner(w: World, c: CallId)
    requires PortsAgree(w.threads, w.mgr.sessions, w.reg.cleanup, w.rights)
    requires ActiveHeld(w) && PendingHeld(w) && Owned(w) && UnderId(w, c)
    ensures w.threads != map[] || w.mgr.sessions != map[]
  {
    if c in w.mgr.pending {
      assert Setup(w.mgr.pending[c].who) in w.threads;
    } else if c in w.reg.readyTx {
      assert Setup(w.reg.readyTx[c]) in w.threads;
    } else if c in w.reg.pendingPorts {
      assert Waits(w, c, w.reg.pendingPorts[c]);
    } else {
      assert Held(w, c, w.conf.slots[w.reg.active[c].slot].port);
    }
  }

  lemma QuietMapsAreEmpty(w: World)
    requires PortsAgree(w.threads, w.mgr.sessions, w.reg.cleanup, w.rights)
    requires ActiveHeld(w) && PendingHeld(w) && Owned(w) && Quiescent(w)
    ensures w.mgr.pending == map[] && w.reg.pendingPorts == map[] && w.reg.active == map[] && w.reg.readyTx == map[]
  {
    forall c: CallId ensures !UnderId(w, c) {
      if UnderId(w, c) { RegisteredHasOwner(w, c); }
    }
    assert forall c :: c in w.mgr.pending.Keys ==> UnderId(w, c);
    assert forall c :: c in w.reg.pendingPorts.Keys ==> UnderId(w, c);
    assert forall c :: c in w.reg.active.Keys ==> UnderId(w, c);
    assert forall c :: c in w.reg.readyTx.Keys ==> UnderId(w, c);
    NoKeys(w.mgr.pending);
    NoKeys(w.reg.pendingPorts);
    NoKeys(w.reg.active);
    NoKeys(w.reg.readyTx);
  }

  lemma NoKeys<T>(m: map<CallId, T>)
    requires forall c :: c !in m
    ensures m == map[]
  {
    assert forall c :: c in m.Keys ==> c in {};
    assert m.Keys <= {};
  }

  lemma SnugIsAccounted(w: World, p: PortId, b: PoolId)
    requires RightsAgree(w) && Snug(w) && Owned(w)
    ensures Accounted(w, p, b)
  {
    CountInDistinct(w.rights.destroys, p);
    CountInDistinct(w.rights.releases, b);
    if Quiescent(w) { QuietMapsAreEmpty(w); }
  }

  lemma RunIsAccounted(w: World, actions: seq<Action>, p: PortId, b: PoolId)
    requires MediaOrderly(w) && Snug(w) && Owned(w) && IsRun(LeakRules, w, actions) && IsRun(Free, w, actions)
    ensures Accounted(After(w, actions), p, b)
  {
    hide Accounted, Snug, Owned, Orderly, MediaKnown, FreshNames, RightsAgree;
    RunKeepsSnug(w, actions);
    SnugIsAccounted(After(w, actions), p, b);
  }

  lemma InitIsSnug(maxCalls: nat)
    ensures Snug(Init(maxCalls)) && Owned(Init(maxCalls))
  {
  }

  /** Once everything has come to rest, every port ever created has been destroyed exactly once and
      every pool ever created released exactly once, nothing else was freed, and nothing is registered
      under any call; and no port was ever destroyed while the conference bridge still had it. */
  lemma NothingLeaks(maxCalls: nat, actions: seq<Action>, p: PortId, b: PoolId)
    requires IsRun(LeakRules, Init(maxCalls), actions)
    ensures IsRun(Free, Init(maxCalls), actions)
    ensures Accounted(After(Init(maxCalls), actions), p, b)
  {
    hide MediaOrderly, Snug, Owned, Accounted;
    AnyRunIsFree(LeakRules, Init(maxCalls), actions);
    InitIsMediaOrderly(maxCalls);
    InitIsSnug(maxCalls);
    RunIsAccounted(Init(maxCalls), actions, p, b);
  }
}
