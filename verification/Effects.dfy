/**
 What one step of each kind of thread does to the shared state, as relations: setup tasks, teardowns,
 and the rest (main loop, callbacks, disposals).  The other modules keep their invariants by these.
 */
module Effects {
  import opened Wrappers
  import opened CallMachine

  /** Thread `t`'s step leaves other threads alone; it may start one worker, which only disposes. */
  ghost predicate Framed(w: World, w': World, t: Tid) {
    && (forall u :: u in w.threads && u != t ==> u in w'.threads && w'.threads[u] == w.threads[u])
    && (forall u :: u in w'.threads && u !in w.threads ==>
          u == Worker(w.workers) && w'.workers == w.workers + 1 && w'.threads[u].at.Disposing? && Shaped(u, w'.threads[u]))
    && (t in w'.threads ==> Shaped(t, w'.threads[t]))
    && w.workers <= w'.workers
    && w'.sip.(answered := w.sip.answered, handled := w.sip.handled) == w.sip && w'.mgr.maxCalls == w.mgr.maxCalls
  }

  /** Thread `t` is `th`, and the next worker's number is free. */
  ghost predicate Acts(w: World, t: Tid, th: Thread) {
    t in w.threads && th == w.threads[t] && Shaped(t, th) && Worker(w.workers) !in w.threads
  }

  // ---------------------------------------------------------------- teardown steps

  ghost predicate TeardownEffect(w: World, w': World, t: Tid, th: Thread) {
    && Framed(w, w', t) && w'.sip == w.sip && w'.mgr == w.mgr && w'.conf.slots == w.conf.slots
    && w'.rights.makers == w.rights.makers && w'.rights.pools == w.rights.pools
    && w'.reg.lentTo == w.reg.lentTo && w'.reg.fired == w.reg.fired
    && (w'.reg.pendingPorts == w.reg.pendingPorts || w'.reg.pendingPorts == w.reg.pendingPorts - {th.call})
    && (w'.reg.active == w.reg.active || w'.reg.active == w.reg.active - {th.call})
    && (w'.reg.readyTx == w.reg.readyTx || w'.reg.readyTx == w.reg.readyTx - {th.call})
    && (t in w'.threads ==>
          TeardownPoint(w'.threads[t].at) && w'.threads[t].call == th.call &&
          (w'.threads[t].port == th.port || w'.threads[t].port == None))
  }

  lemma TakingPendingHasEffect(w: World, t: Tid, th: Thread, answer: Answer)
    requires Acts(w, t, th) && (th.at.TakingPending? || th.at.Closing?)
    ensures TeardownEffect(w, TeardownStep(w, t, th, answer), t, th)
  {
  }

  lemma TakingActiveFrame(w: World, t: Tid, th: Thread, answer: Answer)
    requires Acts(w, t, th) && th.at.TakingActive?
    ensures Framed(w, TeardownStep(w, t, th, answer), t)
  {
  }

  lemma TakingActiveHasEffect(w: World, t: Tid, th: Thread, answer: Answer)
    requires Acts(w, t, th) && th.at.TakingActive?
    ensures TeardownEffect(w, TeardownStep(w, t, th, answer), t, th)
  {
    TakingActiveFrame(w, t, th, answer);
    hide Framed, Shaped;
  }

  lemma DestroyingHasEffect(w: World, t: Tid, th: Thread, answer: Answer)
    requires Acts(w, t, th) && th.at.Resolving? && th.at.wasPending
    ensures TeardownEffect(w, TeardownStep(w, t, th, answer), t, th)
  {
  }

  lemma RegisteringFrame(w: World, t: Tid, th: Thread, answer: Answer)
    requires Acts(w, t, th) && th.at.Resolving? && !th.at.wasPending && th.at.found.Some?
    ensures Framed(w, TeardownStep(w, t, th, answer), t)
  {
  }

  lemma DeferFrame(w: World, t: Tid, others: map<Tid, Thread>, port: PortId, pool: Option<PoolId>, r: Registries)
    requires t in w.threads && Worker(w.workers) !in w.threads && t != Worker(w.workers)
    requires others == w.threads - {t} || (t in others && others == w.threads[t := others[t]] && Shaped(t, others[t]))
    ensures Framed(w, Defer(w, others, Some(port), pool).(reg := r), t)
  {
  }

  lemma SkippingFrame(w: World, t: Tid, th: Thread, answer: Answer)
    requires Acts(w, t, th) && th.at.Resolving? && !th.at.wasPending && th.at.found.None?
    ensures Framed(w, TeardownStep(w, t, th, answer), t)
  {
    if th.at.kind.Abort? {
      hide Framed;
      DeferFrame(w, t, Finished(w, t, th.call, th.at.kind), th.port.value, None, w.reg);
    }
  }

  lemma RegisteringHasEffect(w: World, t: Tid, th: Thread, answer: Answer)
    requires Acts(w, t, th) && th.at.Resolving? && !th.at.wasPending
    ensures TeardownEffect(w, TeardownStep(w, t, th, answer), t, th)
  {
    if th.at.found.Some? { RegisteringFrame(w, t, th, answer); } else { SkippingFrame(w, t, th, answer); }
    hide Framed, Shaped;
  }

  lemma RemovingHasEffect(w: World, t: Tid, th: Thread, answer: Answer)
    requires Acts(w, t, th) && th.at.Removing?
    ensures TeardownEffect(w, TeardownStep(w, t, th, answer), t, th)
  {
  }

  lemma FallingBackFrame(w: World, t: Tid, th: Thread, answer: Answer)
    requires Acts(w, t, th) && th.at.FallingBack?
    ensures Framed(w, TeardownStep(w, t, th, answer), t)
  {
    if th.at.slot in w.reg.cleanup {
      hide Framed;
      var c := w.reg.cleanup[th.at.slot];
      DeferFrame(w, t, Finished(w, t, th.call, th.at.kind), c.port, c.pool, w.reg.(cleanup := w.reg.cleanup - {th.at.slot}));
    }
  }

  lemma FallingBackHasEffect(w: World, t: Tid, th: Thread, answer: Answer)
    requires Acts(w, t, th) && th.at.FallingBack?
    ensures TeardownEffect(w, TeardownStep(w, t, th, answer), t, th)
  {
    FallingBackFrame(w, t, th, answer);
    hide Framed, Shaped;
  }

  lemma TeardownHasEffect(w: World, t: Tid, th: Thread, answer: Answer)
    requires Acts(w, t, th) && TeardownPoint(th.at)
    ensures TeardownEffect(w, TeardownStep(w, t, th, answer), t, th)
  {
    hide TeardownStep, TeardownEffect, Acts;
    if th.at.Resolving? {
      if th.at.wasPending { DestroyingHasEffect(w, t, th, answer); } else { RegisteringHasEffect(w, t, th, answer); }
    }
    else if th.at.Removing? { RemovingHasEffect(w, t, th, answer); }
    else if th.at.FallingBack? { FallingBackHasEffect(w, t, th, answer); }
    else if th.at.TakingActive? { TakingActiveHasEffect(w, t, th, answer); }
    else { TakingPendingHasEffect(w, t, th, answer); }
  }

  // ---------------------------------------------------------------- setup steps

  /** The control flow of `on_incoming_call`. */
  predicate Follows(a: Point, b: Point) {
    match a
    case Spawned => b.Admitted?
    case Admitted => b.HasPort?
    case HasPort => b.Listed?
    case Listed => b.Listening?
    case Listening => b.Numbered?
    case Numbered(g) => b == Registered(g)
    case Registered(g) => b == AwaitingMedia(g) || b == Aborting(g, true)
    case AwaitingMedia(g) => b == PlayingIntro(g) || b == Connecting(g) || b == Aborting(g, true) || b == Aborting(g, false)
    case PlayingIntro(g) => b == Connecting(g) || b == Aborting(g, false)
    case Connecting(g) => b == Connected(g) || b == Aborting(g, false)
    case Connected(g) => b.Unlisted?
    case Unlisted(_, owns) => b.Storing? || (owns && b == TakingActive(LateCancel, false))
    case Aborting(_, unlisten) => b == TakingPending(Abort(unlisten))
    case _ => false
  }

  /** Only a setup whose id has gone to another call hands its port to a deferred cleanup. */
  predicate Outrun(w: World, th: Thread) {
    (th.at.Unlisted? && !th.at.owns) || (th.at.Aborting? && !Owns(w.mgr, th.call, th.at.gen))
  }

  ghost predicate SetupEffect(w: World, w': World, t: Tid, th: Thread) {
    && t.Setup? && Framed(w, w', t) && w'.conf == w.conf
    && w'.reg.active == w.reg.active && w'.reg.lentTo == w.reg.lentTo && w'.reg.fired == w.reg.fired
    && w'.rights.pools == w.rights.pools
    && w'.sip.(answered := w.sip.answered) == w.sip
    && w'.sip.answered == (if th.at.Registered? && t in w'.threads && w'.threads[t].at.AwaitingMedia?
                           then w.sip.answered + {t.who} else w.sip.answered)
    && w'.rights.makers == (if th.at.Admitted? then w.rights.makers + [t.who] else w.rights.makers)
    && w'.reg.pendingPorts == (if th.at.HasPort? && th.port.Some? then w.reg.pendingPorts[th.call := th.port.value] else w.reg.pendingPorts)
    && w'.reg.readyTx == (if th.at.Listed? then w.reg.readyTx[th.call := t.who] else w.reg.readyTx)
    && w'.mgr.sessions == (if th.at.Storing? && th.port.Some? then w.mgr.sessions[th.call := Session(t.who, th.port.value)] else w.mgr.sessions)
    && w'.mgr.pending == (if th.at.Numbered? then w.mgr.pending[th.call := Entry(th.at.gen, t.who)]
                          else if (th.at.Connected? || th.at.Aborting?) && Owns(w.mgr, th.call, th.at.gen)
                          then w.mgr.pending - {th.call} else w.mgr.pending)
    && w'.mgr.cancelled == w.mgr.cancelled
    && w'.mgr.issued == (if th.at.Listening? then w.mgr.issued + [t.who] else w.mgr.issued)
    && w'.reg.cleanup == w.reg.cleanup && w'.rights.poolAt == w.rights.poolAt
    && (w'.workers == w.workers || Outrun(w, th))
    && (th.at.Storing? ==> t !in w'.threads)
    && (t !in w'.threads ==> th.at.Spawned? || th.at.Storing? || Outrun(w, th))
    && (t in w'.threads ==>
          var th' := w'.threads[t];
          && th'.call == th.call && th'.pool == None && Follows(th.at, th'.at)
          && th'.port == (if th.at.Admitted? then Some(|w.rights.makers|) else th.port)
          && (th'.at.Unlisted? ==> th'.at.owns == Owns(w.mgr, th.call, th.at.gen))
          && (th.at.Aborting? ==> Owns(w.mgr, th.call, th.at.gen)))
  }

  lemma GateHasEffect(w: World, t: Tid, th: Thread, answer: Answer)
    requires Acts(w, t, th) && (th.at.Spawned? || th.at.Admitted?)
    ensures SetupEffect(w, SetupStep(w, t, th, answer), t, th)
  {
  }

  lemma ListingHasEffect(w: World, t: Tid, th: Thread, answer: Answer)
    requires Acts(w, t, th) && (th.at.HasPort? || th.at.Listed? || th.at.Listening?)
    ensures SetupEffect(w, SetupStep(w, t, th, answer), t, th)
  {
  }

  lemma RegisterHasEffect(w: World, t: Tid, th: Thread, answer: Answer)
    requires Acts(w, t, th) && (th.at.Numbered? || th.at.Registered?)
    ensures SetupEffect(w, SetupStep(w, t, th, answer), t, th)
  {
  }

  lemma AwaitHasEffect(w: World, t: Tid, th: Thread, answer: Answer)
    requires Acts(w, t, th) && (th.at.AwaitingMedia? || th.at.PlayingIntro? || th.at.Connecting?)
    ensures SetupEffect(w, SetupStep(w, t, th, answer), t, th)
  {
  }

  lemma CommitHasEffect(w: World, t: Tid, th: Thread, answer: Answer)
    requires Acts(w, t, th) && (th.at.Connected? || th.at.Storing?)
    ensures SetupEffect(w, SetupStep(w, t, th, answer), t, th)
  {
  }

  lemma CheckTokenFrame(w: World, t: Tid, th: Thread, answer: Answer)
    requires Acts(w, t, th) && th.at.Unlisted?
    ensures Framed(w, SetupStep(w, t, th, answer), t)
  {
  }

  lemma CheckTokenHasEffect(w: World, t: Tid, th: Thread, answer: Answer)
    requires Acts(w, t, th) && th.at.Unlisted?
    ensures SetupEffect(w, SetupStep(w, t, th, answer), t, th)
  {
    CheckTokenFrame(w, t, th, answer);
    hide Framed, Shaped;
  }

  lemma AbortFrame(w: World, t: Tid, th: Thread, answer: Answer)
    requires Acts(w, t, th) && th.at.Aborting?
    ensures Framed(w, SetupStep(w, t, th, answer), t)
  {
  }

  lemma AbortHasEffect(w: World, t: Tid, th: Thread, answer: Answer)
    requires Acts(w, t, th) && th.at.Aborting?
    ensures SetupEffect(w, SetupStep(w, t, th, answer), t, th)
  {
    AbortFrame(w, t, th, answer);
    hide Framed, Shaped;
  }

  lemma SetupHasEffect(w: World, t: Tid, th: Thread, answer: Answer)
    requires Acts(w, t, th) && SetupPoint(th.at)
    ensures SetupEffect(w, SetupStep(w, t, th, answer), t, th)
  {
    hide SetupStep, SetupEffect, Acts;
    if th.at.Spawned? || th.at.Admitted? { GateHasEffect(w, t, th, answer); }
    else if th.at.HasPort? || th.at.Listed? || th.at.Listening? { ListingHasEffect(w, t, th, answer); }
    else if th.at.Numbered? || th.at.Registered? { RegisterHasEffect(w, t, th, answer); }
    else if th.at.AwaitingMedia? || th.at.PlayingIntro? || th.at.Connecting? { AwaitHasEffect(w, t, th, answer); }
    else if th.at.Connected? || th.at.Storing? { CommitHasEffect(w, t, th, answer); }
    else if th.at.Unlisted? { CheckTokenHasEffect(w, t, th, answer); }
    else { AbortHasEffect(w, t, th, answer); }
  }

  // ---------------------------------------------------------------- the other steps

  /** The control flow of the main loop, of the two callbacks and of a disposal. */
  predicate Continues(a: Point, b: Point) {
    match a
    case LookingUp(i) => b == TakingPending(EndSession) || b == Cancelling(i)
    case MediaTake => b.MediaPool?
    case MediaPool(p) => b == MediaAdd(p) || b == MediaPutBack(p)
    case MediaAdd(p) => (b.MediaPublish? && b.lent == p) || b == MediaPutBack(p)
    case MediaPublish(_, _) => b.MediaNotify?
    case OpDone(_, ok) => ok && b.Disposing?
    case _ => false
  }

  ghost predicate OtherEffect(w: World, w': World, t: Tid, th: Thread, slot: SlotId) {
    && !t.Setup? && Framed(w, w', t)
    && w'.conf.removing == w.conf.removing
    && w'.conf.slots == (if t in w'.threads && w'.threads[t].at.MediaPublish? && th.at.MediaAdd? && th.pool.Some?
                         then w.conf.slots[slot := Seat(th.at.lent, th.pool.value)] else w.conf.slots)
    && w'.rights.makers == w.rights.makers
    && w'.rights.pools == (if t in w'.threads && w'.threads[t].at.MediaAdd? then w.rights.pools + 1 else w.rights.pools)
    && w'.sip.(handled := w.sip.handled) == w.sip
    && w'.reg.pendingPorts == (if th.at.MediaTake? then w.reg.pendingPorts - {th.call}
                               else if th.at.MediaPutBack? then w.reg.pendingPorts[th.call := th.at.lent]
                               else w.reg.pendingPorts)
    && w'.reg.lentTo == (if th.at.MediaTake? && th.call in w.reg.pendingPorts then w.reg.lentTo[th.call := t]
                         else if th.at.MediaPutBack? || th.at.MediaPublish? then w.reg.lentTo - {th.call}
                         else w.reg.lentTo)
    && w'.reg.active == (if th.at.MediaPublish? && th.pool.Some?
                         then w.reg.active[th.call := Media(th.at.slot, th.pool.value)] else w.reg.active)
    && w'.reg.readyTx == (if th.at.MediaNotify? then w.reg.readyTx - {th.call} else w.reg.readyTx)
    && w'.reg.fired == (if th.at.MediaNotify? && th.call in w.reg.readyTx
                        then w.reg.fired + {w.reg.readyTx[th.call]} else w.reg.fired)
    && w'.mgr.sessions == (if th.at.LookingUp? then w.mgr.sessions - {th.call} else w.mgr.sessions)
    && w'.mgr.pending == w.mgr.pending && w'.mgr.issued == w.mgr.issued
    && w'.mgr.cancelled == (if th.at.Cancelling? && th.call in w.mgr.pending
                            then w.mgr.cancelled + {w.mgr.pending[th.call].who} else w.mgr.cancelled)
    && w'.sip.handled == (if th.at.LookingUp? then w.sip.handled + {th.at.who} else w.sip.handled)
    && (th.at.MediaTake? && th.call in w.reg.pendingPorts ==>
          t in w'.threads && w'.threads[t].at == MediaPool(w.reg.pendingPorts[th.call]))
    && (th.at.LookingUp? && th.call in w.mgr.sessions ==>
          t in w'.threads && w'.threads[t].at.TakingPending? && w'.threads[t].port == Some(w.mgr.sessions[th.call].port))
    && (th.at.MediaPool? || th.at.MediaAdd? || th.at.MediaPublish? ==> t in w'.threads)
    && (t in w'.threads ==>
          var th' := w'.threads[t];
          && Continues(th.at, th'.at) && (th.at.OpDone? || th'.call == th.call)
          && (th'.at.MediaPool? ==> th.call in w.reg.pendingPorts)
          && (th'.at.TakingPending? ==> th.call in w.mgr.sessions)
          && (th'.at.MediaPublish? ==> th'.at.slot == slot && th'.pool == th.pool)
          && (th'.at.MediaAdd? ==> th'.pool == Some(w.rights.pools)))
  }

  lemma TakeForMediaFrame(w: World, t: Tid, th: Thread, answer: Answer, slot: SlotId)
    requires Acts(w, t, th) && (th.at.MediaTake? || th.at.MediaNotify?)
    ensures Framed(w, OtherStep(w, t, th, answer, slot), t)
  {
  }

  lemma TakeForMediaHasEffect(w: World, t: Tid, th: Thread, answer: Answer, slot: SlotId)
    requires Acts(w, t, th) && (th.at.MediaTake? || th.at.MediaNotify?)
    ensures OtherEffect(w, OtherStep(w, t, th, answer, slot), t, th, slot)
  {
    TakeForMediaFrame(w, t, th, answer, slot);
    hide Framed, Shaped;
  }

  lemma MakePoolFrame(w: World, t: Tid, th: Thread, answer: Answer, slot: SlotId)
    requires Acts(w, t, th) && (th.at.MediaPool? || th.at.MediaPutBack?)
    ensures Framed(w, OtherStep(w, t, th, answer, slot), t)
  {
  }

  lemma MakePoolHasEffect(w: World, t: Tid, th: Thread, answer: Answer, slot: SlotId)
    requires Acts(w, t, th) && (th.at.MediaPool? || th.at.MediaPutBack?)
    ensures OtherEffect(w, OtherStep(w, t, th, answer, slot), t, th, slot)
  {
    MakePoolFrame(w, t, th, answer, slot);
    hide Framed, Shaped;
  }

  lemma AddPortFrame(w: World, t: Tid, th: Thread, answer: Answer, slot: SlotId)
    requires Acts(w, t, th) && th.at.MediaAdd?
    ensures Framed(w, OtherStep(w, t, th, answer, slot), t)
  {
  }

  lemma AddPortHasEffect(w: World, t: Tid, th: Thread, answer: Answer, slot: SlotId)
    requires Acts(w, t, th) && th.at.MediaAdd?
    ensures OtherEffect(w, OtherStep(w, t, th, answer, slot), t, th, slot)
  {
    AddPortFrame(w, t, th, answer, slot);
    hide Framed, Shaped;
  }

  lemma PublishHasEffect(w: World, t: Tid, th: Thread, answer: Answer, slot: SlotId)
    requires Acts(w, t, th) && th.at.MediaPublish?
    ensures OtherEffect(w, OtherStep(w, t, th, answer, slot), t, th, slot)
  {
  }

  lemma MainFrame(w: World, t: Tid, th: Thread, answer: Answer, slot: SlotId)
    requires Acts(w, t, th) && (th.at.LookingUp? || th.at.Cancelling?)
    ensures Framed(w, OtherStep(w, t, th, answer, slot), t)
  {
  }

  lemma MainHasEffect(w: World, t: Tid, th: Thread, answer: Answer, slot: SlotId)
    requires Acts(w, t, th) && (th.at.LookingUp? || th.at.Cancelling?)
    ensures OtherEffect(w, OtherStep(w, t, th, answer, slot), t, th, slot)
  {
    MainFrame(w, t, th, answer, slot);
    hide Framed, Shaped;
  }

  lemma DisposalHasEffect(w: World, t: Tid, th: Thread, answer: Answer, slot: SlotId)
    requires Acts(w, t, th) && (th.at.OpDone? || th.at.Disposing?)
    ensures OtherEffect(w, OtherStep(w, t, th, answer, slot), t, th, slot)
  {
  }

  lemma OtherHasEffect(w: World, t: Tid, th: Thread, answer: Answer, slot: SlotId)
    requires Acts(w, t, th) && !SetupPoint(th.at) && !TeardownPoint(th.at)
    ensures OtherEffect(w, OtherStep(w, t, th, answer, slot), t, th, slot)
  {
    hide OtherStep, OtherEffect, Acts;
    if th.at.LookingUp? || th.at.Cancelling? { MainHasEffect(w, t, th, answer, slot); }
    else if th.at.OpDone? || th.at.Disposing? { DisposalHasEffect(w, t, th, answer, slot); }
    else if th.at.MediaTake? || th.at.MediaNotify? { TakeForMediaHasEffect(w, t, th, answer, slot); }
    else if th.at.MediaAdd? { AddPortHasEffect(w, t, th, answer, slot); }
    else if th.at.MediaPublish? { PublishHasEffect(w, t, th, answer, slot); }
    else { MakePoolHasEffect(w, t, th, answer, slot); }
  }

  lemma TeardownFrame(w: World, t: Tid, th: Thread, answer: Answer)
    requires Acts(w, t, th) && TeardownPoint(th.at)
    ensures Framed(w, TeardownStep(w, t, th, answer), t)
  {
    hide TeardownStep, Framed, Acts;
    TeardownHasEffect(w, t, th, answer);
  }

  lemma OtherFrame(w: World, t: Tid, th: Thread, answer: Answer, slot: SlotId)
    requires Acts(w, t, th) && !SetupPoint(th.at) && !TeardownPoint(th.at)
    ensures Framed(w, OtherStep(w, t, th, answer, slot), t)
  {
    hide OtherStep, Framed, Acts;
    OtherHasEffect(w, t, th, answer, slot);
  }

  lemma AdvanceFrame(w: World, t: Tid, answer: Answer, slot: SlotId)
    requires Worker(w.workers) !in w.threads && Permitted(w, t, answer)
    ensures Framed(w, Advance(w, t, answer, slot), t)
  {
    hide SetupStep, TeardownStep, OtherStep, Framed;
    var th := w.threads[t];
    if SetupPoint(th.at) { SetupHasEffect(w, t, th, answer); }
    else if TeardownPoint(th.at) { TeardownHasEffect(w, t, th, answer); }
    else { OtherHasEffect(w, t, th, answer, slot); }
  }
}
