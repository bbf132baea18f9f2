/**
 Media-ready implies attached.

 On top of the call rules this assumes of pjsip: an id is not reused while a setup or a media callback
 for it is live (`FreshIdRule`), a media callback starts only for an answered call (`AnsweredRule`),
 and a conference slot is not reused while a removal of it is asked for, under way or being completed
 (`SlotRule`).  The callback's own steps interleave with everything else.
 */
module MediaAttachment {
  import opened Wrappers
  import opened CallMachine
  import opened Effects
  import opened Ownership
  import opened Orphans

  // ---------------------------------------------------------------- assumptions

  /** A media callback that has taken a port and not yet published it or put it back. */
  predicate Carries(at: Point) {
    at.MediaPool? || at.MediaAdd? || at.MediaPublish? || at.MediaPutBack?
  }

  predicate InCallback(at: Point) {
    at.MediaTake? || Carries(at) || at.MediaNotify?
  }

  predicate FreshIdRule(w: World, a: Action) {
    a.Ring? ==>
      && a.call !in w.sip.line
      && (forall j :: 0 <= j < |w.sip.dialed| && j < |w.sip.rang| && w.sip.dialed[j] == a.call ==> w.sip.rang[j] < w.sip.taken)
      && (forall t :: t in w.threads && w.threads[t].call == a.call ==> !t.Setup? && !InCallback(w.threads[t].at))
  }

  predicate AnsweredRule(w: World, a: Action) {
    a.MediaState? ==> a.call in w.sip.line && w.sip.line[a.call] in w.sip.answered
  }

  predicate SlotRule(w: World, a: Action) {
    a.Go? && a.answer.Yes? && a.t in w.threads && w.threads[a.t].at.MediaAdd? ==>
      && a.slot !in w.conf.slots && a.slot !in w.conf.removing
      && (forall t :: t in w.threads ==>
            !(w.threads[t].at.Removing? && w.threads[t].at.slot == a.slot) &&
            !(w.threads[t].at.OpDone? && w.threads[t].at.slot == a.slot))
  }

  predicate MediaRules(w: World, a: Action) {
    AnswerRule(w, a) && SerialRule(w, a) && FreshIdRule(w, a) && AnsweredRule(w, a) && SlotRule(w, a)
  }

  lemma MediaRulesAreCallRules(w: World, a: Action)
    requires MediaRules(w, a) && FreshNames(w)
    ensures CallRules(w, a)
  {
  }

  // ---------------------------------------------------------------- the invariant

  /** Each call instance makes at most one port, and everybody holds the port of their own call. */
  ghost predicate MakersKnown(w: World) {
    && (forall p, q :: 0 <= p < q < |w.rights.makers| ==> w.rights.makers[p] != w.rights.makers[q])
    && (forall p :: 0 <= p < |w.rights.makers| ==>
          w.rights.makers[p] < |w.sip.rang| && w.sip.rang[w.rights.makers[p]] < w.sip.taken)
    && (forall i: Instance :: Setup(i) in w.threads ==>
          var th := w.threads[Setup(i)];
          if th.at.Spawned? || th.at.Admitted? then i !in w.rights.makers
          else th.port.Some? ==> th.port.value < |w.rights.makers| && w.rights.makers[th.port.value] == i)
    && (forall c :: c in w.mgr.sessions ==>
          w.mgr.sessions[c].port < |w.rights.makers| && w.rights.makers[w.mgr.sessions[c].port] == w.mgr.sessions[c].who)
  }

  /** At most one setup, session or teardown works for an id, and a setup owns its entry ... */
  ghost predicate SetupsHold(w: World) {
    forall i: Instance :: Setup(i) in w.threads ==>
      var th := w.threads[Setup(i)];
      && LastOfId(w.sip, i) && th.call == w.sip.dialed[i] && th.call !in w.mgr.sessions
      && (th.at.Registered? || Waiting(th.at) || th.at.Aborting? ==>
            th.call in w.mgr.pending && w.mgr.pending[th.call] == Entry(GenOf(th.at).value, i))
      && (th.at.Unlisted? ==> th.at.owns)
  }

  /** ... nor does the main loop tear down for an id that anybody else works for ... */
  ghost predicate MainHolds(w: World) {
    Main in w.threads && TeardownPoint(w.threads[Main].at) ==>
      && w.threads[Main].call !in w.mgr.sessions
      && (forall i: Instance :: Setup(i) in w.threads ==> w.threads[Setup(i)].call != w.threads[Main].call)
  }

  /** ... and calls still on the channel are the last of their ids. */
  ghost predicate SingleHolder(w: World) {
    && SetupsHold(w) && MainHolds(w)
    && (forall i: Instance :: i < |w.sip.rang| && w.sip.rang[i] >= w.sip.taken ==> LastOfId(w.sip, i))
  }

  /** No thread and no registry still counts on the pool, so its seat may go. */
  predicate Idle(w: World, b: PoolId) {
    b in w.rights.poolAt &&
    match w.rights.poolAt[b]
    case AtThread(t) => t in w.threads && w.threads[t].at.Disposing?
    case AtActive(_) => false
    case _ => true
  }

  /** Whoever names a slot names the seat that was taken with its own pool ... */
  ghost predicate SeatsNamed(w: World) {
    && (forall c :: c in w.reg.active ==>
          var m := w.reg.active[c]; m.slot in w.conf.slots && w.conf.slots[m.slot].pool == m.pool)
    && (forall t :: t in w.threads && w.threads[t].at.MediaPublish? && w.threads[t].pool.Some? ==>
          var s := w.threads[t].at.slot; s in w.conf.slots && w.conf.slots[s].pool == w.threads[t].pool.value)
    && (forall t :: t in w.threads && w.threads[t].at.Resolving? && w.threads[t].at.found.Some? && w.threads[t].pool.Some? ==>
          var s := w.threads[t].at.found.value; s in w.conf.slots && w.conf.slots[s].pool == w.threads[t].pool.value)
    && (forall s :: s in w.conf.slots ==> w.conf.slots[s].pool < w.rights.pools)
  }

  /** ... and removals hit idle seats. */
  ghost predicate RemovalsIdle(w: World) {
    && (forall s :: s in w.conf.removing && s in w.conf.slots ==> Idle(w, w.conf.slots[s].pool))
    && (forall t :: t in w.threads && w.threads[t].at.Removing? && w.threads[t].at.slot in w.conf.slots ==>
          Idle(w, w.conf.slots[w.threads[t].at.slot].pool))
  }

  ghost predicate SeatsKnown(w: World) {
    SeatsNamed(w) && RemovalsIdle(w)
  }

  /** Callbacks run for the latest, answered call of their id ... */
  ghost predicate CallbacksAnswered(w: World) {
    forall t :: t in w.threads && InCallback(w.threads[t].at) ==>
      var c := w.threads[t].call; c in w.sip.latest && w.sip.latest[c] in w.sip.answered
  }

  /** ... and carry its port ... */
  ghost predicate CarriersKnown(w: World) {
    forall t :: t in w.threads && Carries(w.threads[t].at) ==>
      var th := w.threads[t];
      && th.call in w.reg.lentTo && w.reg.lentTo[th.call] == t && th.call in w.sip.latest
      && th.at.lent < |w.rights.makers| && w.rights.makers[th.at.lent] == w.sip.latest[th.call]
      && (th.at.MediaPublish? ==> th.at.slot in w.conf.slots && w.conf.slots[th.at.slot].port == th.at.lent)
  }

  /** ... which is then not pending. */
  ghost predicate LoansBacked(w: World) {
    forall c :: c in w.reg.lentTo ==>
      var t := w.reg.lentTo[c];
      c !in w.reg.pendingPorts && t in w.threads && Carries(w.threads[t].at) && w.threads[t].call == c
  }

  ghost predicate LoansKnown(w: World) {
    CallbacksAnswered(w) && CarriersKnown(w) && LoansBacked(w)
  }

  predicate PortListed(at: Point) {
    at.Listed? || at.Listening? || at.Numbered? || at.Registered?
  }

  predicate Expected(w: World, i: Instance) {
    i in w.sip.answered || (Setup(i) in w.threads && PortListed(w.threads[Setup(i)].at))
  }

  /** From its listing on, the pending port of an id is the port of its latest call. */
  ghost predicate PendingKnown(w: World) {
    forall c :: c in w.reg.pendingPorts && c in w.sip.latest && Expected(w, w.sip.latest[c]) ==>
      w.reg.pendingPorts[c] < |w.rights.makers| && w.rights.makers[w.reg.pendingPorts[c]] == w.sip.latest[c]
  }

  predicate HasNotifier(at: Point) {
    at.Listening? || at.Numbered? || at.Registered?
  }

  /** A notifier is registered until it is sent ... */
  ghost predicate WaitersKnown(w: World) {
    forall i: Instance :: Setup(i) in w.threads ==>
      var th := w.threads[Setup(i)];
      && (HasNotifier(th.at) ==> th.call in w.reg.readyTx && w.reg.readyTx[th.call] == i)
      && (th.at.AwaitingMedia? ==> i in w.reg.fired || (th.call in w.reg.readyTx && w.reg.readyTx[th.call] == i))
      && (BeforeAnswer(th.at) ==> i !in w.sip.answered && i !in w.reg.fired)
  }

  /** ... for a call that was taken from the channel, and under that call's id. */
  ghost predicate SignalsKnown(w: World) {
    && (forall c :: c in w.reg.readyTx ==> w.reg.readyTx[c] < |w.sip.dialed| && w.sip.dialed[w.reg.readyTx[c]] == c)
    && (forall i :: i in w.reg.fired ==> i < |w.sip.rang| && w.sip.rang[i] < w.sip.taken)
    && (forall i :: i in w.sip.answered ==> i < |w.sip.rang| && w.sip.rang[i] < w.sip.taken)
  }

  ghost predicate NotifiersKnown(w: World) {
    WaitersKnown(w) && SignalsKnown(w)
  }

  /** Points of a setup or teardown that lie past the media wait. */
  predicate PastMedia(at: Point) {
    at.PlayingIntro? || at.Connecting? || at.Connected? || Committing(at) || (at.Aborting? && !at.unlisten) ||
    ((at.TakingPending? || at.TakingActive?) && at.kind != Abort(true))
  }

  /** The call's active media names the slot in which its own port sits, and nothing is left to attach. */
  predicate Attached(w: World, c: CallId, p: PortId) {
    && c in w.reg.active && c !in w.reg.pendingPorts && c !in w.reg.lentTo
    && w.reg.active[c].slot in w.conf.slots
    && w.conf.slots[w.reg.active[c].slot] == Seat(p, w.reg.active[c].pool)
  }

  ghost predicate PastAttached(w: World) {
    forall t :: t in w.threads && PastMedia(w.threads[t].at) ==>
      IsAttached(w, w.threads[t]) && (w.threads[t].at.TakingActive? ==> !w.threads[t].at.wasPending)
  }

  ghost predicate ResolvingFound(w: World) {
    forall t :: t in w.threads && w.threads[t].at.Resolving? && w.threads[t].at.kind != Abort(true) ==>
      var th := w.threads[t];
      && !th.at.wasPending && th.at.found.Some? && th.at.found.value in w.conf.slots
      && th.port.Some? && th.pool.Some? && w.conf.slots[th.at.found.value] == Seat(th.port.value, th.pool.value)
  }

  ghost predicate SessionsAttached(w: World) {
    forall c :: c in w.mgr.sessions ==> Attached(w, c, w.mgr.sessions[c].port)
  }

  ghost predicate AttachedWhereNeeded(w: World) {
    PastAttached(w) && ResolvingFound(w) && SessionsAttached(w)
  }

  predicate IsAttached(w: World, th: Thread) {
    th.port.Some? ==> Attached(w, th.call, th.port.value)
  }

  /** A setup in its media wait that is told that media is ready is attached ... */
  ghost predicate FiredAttached(w: World) {
    forall i: Instance :: Setup(i) in w.threads && w.threads[Setup(i)].at.AwaitingMedia? && i in w.reg.fired ==>
      IsAttached(w, w.threads[Setup(i)])
  }

  /** ... and so is one about to be told. */
  ghost predicate NotifyingAttached(w: World) {
    forall i: Instance, t :: Setup(i) in w.threads && t in w.threads ==>
      w.threads[Setup(i)].at.AwaitingMedia? && w.threads[t].at.MediaNotify? && w.threads[t].call == w.threads[Setup(i)].call ==>
      IsAttached(w, w.threads[Setup(i)])
  }

  ghost predicate AttachedWhenTold(w: World) {
    FiredAttached(w) && NotifyingAttached(w)
  }

  // ---------------------------------------------------------------- what teardown steps do

  lemma TeardownMakersKnown(w: World, w': World, t: Tid, th: Thread)
    requires FreshNames(w) && MakersKnown(w)
    requires t in w.threads && th == w.threads[t] && TeardownPoint(th.at) && TeardownEffect(w, w', t, th)
    ensures MakersKnown(w')
  {
  }

  lemma TeardownSetupsHold(w: World, w': World, t: Tid, th: Thread)
    requires FreshNames(w) && SingleHolder(w)
    requires t in w.threads && th == w.threads[t] && TeardownPoint(th.at) && TeardownEffect(w, w', t, th)
    ensures SetupsHold(w')
  {
  }

  lemma TeardownMainHolds(w: World, w': World, t: Tid, th: Thread)
    requires FreshNames(w) && SingleHolder(w)
    requires t in w.threads && th == w.threads[t] && TeardownPoint(th.at) && TeardownEffect(w, w', t, th)
    ensures MainHolds(w')
  {
  }

  lemma TeardownSingleHolder(w: World, w': World, t: Tid, th: Thread)
    requires FreshNames(w) && SingleHolder(w)
    requires t in w.threads && th == w.threads[t] && TeardownPoint(th.at) && TeardownEffect(w, w', t, th)
    ensures SingleHolder(w')
  {
    hide SetupsHold, MainHolds;
    TeardownSetupsHold(w, w', t, th);
    TeardownMainHolds(w, w', t, th);
  }

  lemma TeardownLoansKnown(w: World, w': World, t: Tid, th: Thread)
    requires FreshNames(w) && LoansKnown(w)
    requires t in w.threads && th == w.threads[t] && TeardownPoint(th.at) && TeardownEffect(w, w', t, th)
    ensures LoansKnown(w')
  {
    hide Shaped;
  }

  lemma TeardownPendingKnown(w: World, w': World, t: Tid, th: Thread)
    requires FreshNames(w) && PendingKnown(w)
    requires t in w.threads && th == w.threads[t] && TeardownPoint(th.at) && TeardownEffect(w, w', t, th)
    ensures PendingKnown(w')
  {
  }

  lemma TeardownNotifiersKnown(w: World, w': World, t: Tid, th: Thread)
    requires FreshNames(w) && SingleHolder(w) && NotifiersKnown(w)
    requires t in w.threads && th == w.threads[t] && TeardownPoint(th.at) && TeardownEffect(w, w', t, th)
    ensures NotifiersKnown(w')
  {
    hide LogKnown, HoldsPortAt, MayHoldPoolAt;
  }

  // ---------------------------------------------------------------- what setup steps do

  lemma SetupMakersDistinct(w: World, w': World, t: Tid, th: Thread)
    requires FreshNames(w) && MakersKnown(w)
    requires t in w.threads && th == w.threads[t] && SetupPoint(th.at) && SetupEffect(w, w', t, th)
    ensures forall p, q :: 0 <= p < q < |w'.rights.makers| ==> w'.rights.makers[p] != w'.rights.makers[q]
    ensures forall p :: 0 <= p < |w'.rights.makers| ==>
      w'.rights.makers[p] < |w'.sip.rang| && w'.sip.rang[w'.rights.makers[p]] < w'.sip.taken
  {
    assert th.at.Admitted? ==> t.who < |w.sip.rang| && w.sip.rang[t.who] < w.sip.taken && t.who !in w.rights.makers;
    hide FreshNames, Shaped, Framed;
  }

  lemma SetupMakersHold(w: World, w': World, t: Tid, th: Thread)
    requires FreshNames(w) && MakersKnown(w)
    requires t in w.threads && th == w.threads[t] && SetupPoint(th.at) && SetupEffect(w, w', t, th)
    ensures forall i: Instance :: Setup(i) in w'.threads ==>
      var th' := w'.threads[Setup(i)];
      if th'.at.Spawned? || th'.at.Admitted? then i !in w'.rights.makers
      else th'.port.Some? ==> th'.port.value < |w'.rights.makers| && w'.rights.makers[th'.port.value] == i
  {
    hide LogKnown, Shaped;
  }

  lemma SetupMakersKnown(w: World, w': World, t: Tid, th: Thread)
    requires FreshNames(w) && MakersKnown(w)
    requires t in w.threads && th == w.threads[t] && SetupPoint(th.at) && SetupEffect(w, w', t, th)
    ensures MakersKnown(w')
  {
    SetupMakersDistinct(w, w', t, th);
    SetupMakersHold(w, w', t, th);
    hide FreshNames, Framed;
  }

  lemma SetupSingleHolder(w: World, w': World, t: Tid, th: Thread)
    requires FreshNames(w) && SingleHolder(w)
    requires t in w.threads && th == w.threads[t] && SetupPoint(th.at) && SetupEffect(w, w', t, th)
    ensures SingleHolder(w')
  {
    hide LogKnown, Shaped;
  }

  lemma SetupCallbacksAnswered(w: World, w': World, t: Tid, th: Thread)
    requires FreshNames(w) && LoansKnown(w) && SingleHolder(w) && NotifiersKnown(w)
    requires t in w.threads && th == w.threads[t] && SetupPoint(th.at) && SetupEffect(w, w', t, th)
    ensures CallbacksAnswered(w')
  {
    hide LogKnown;
  }

  lemma SetupCarriersKnown(w: World, w': World, t: Tid, th: Thread)
    requires FreshNames(w) && LoansKnown(w) && SingleHolder(w) && NotifiersKnown(w)
    requires t in w.threads && th == w.threads[t] && SetupPoint(th.at) && SetupEffect(w, w', t, th)
    ensures CarriersKnown(w')
  {
    hide LogKnown;
  }

  lemma SetupLoansBacked(w: World, w': World, t: Tid, th: Thread)
    requires FreshNames(w) && LoansKnown(w) && SingleHolder(w) && NotifiersKnown(w)
    requires t in w.threads && th == w.threads[t] && SetupPoint(th.at) && SetupEffect(w, w', t, th)
    ensures LoansBacked(w')
  {
    hide LogKnown;
  }

  lemma SetupLoansKnown(w: World, w': World, t: Tid, th: Thread)
    requires FreshNames(w) && LoansKnown(w) && SingleHolder(w) && NotifiersKnown(w)
    requires t in w.threads && th == w.threads[t] && SetupPoint(th.at) && SetupEffect(w, w', t, th)
    ensures LoansKnown(w')
  {
    hide CallbacksAnswered, CarriersKnown, LoansBacked;
    SetupCallbacksAnswered(w, w', t, th);
    SetupCarriersKnown(w, w', t, th);
    SetupLoansBacked(w, w', t, th);
  }

  lemma SetupPendingKnown(w: World, w': World, t: Tid, th: Thread)
    requires FreshNames(w) && PendingKnown(w) && MakersKnown(w) && SingleHolder(w) && LatestKnown(w.sip)
    requires t in w.threads && th == w.threads[t] && SetupPoint(th.at) && SetupEffect(w, w', t, th)
    ensures PendingKnown(w')
  {
    hide FreshNames;
  }

  lemma SetupWaitersKnown(w: World, w': World, t: Tid, th: Thread)
    requires FreshNames(w) && SingleHolder(w) && NotifiersKnown(w) && LoansKnown(w)
    requires t in w.threads && th == w.threads[t] && SetupPoint(th.at) && SetupEffect(w, w', t, th)
    ensures WaitersKnown(w')
  {
    hide HoldsPortAt, MayHoldPoolAt;
  }

  lemma SetupSignalsKnown(w: World, w': World, t: Tid, th: Thread)
    requires FreshNames(w) && SingleHolder(w) && NotifiersKnown(w) && LoansKnown(w)
    requires t in w.threads && th == w.threads[t] && SetupPoint(th.at) && SetupEffect(w, w', t, th)
    ensures SignalsKnown(w')
  {
    hide HoldsPortAt, MayHoldPoolAt;
  }

  lemma SetupNotifiersKnown(w: World, w': World, t: Tid, th: Thread)
    requires FreshNames(w) && SingleHolder(w) && NotifiersKnown(w) && LoansKnown(w)
    requires t in w.threads && th == w.threads[t] && SetupPoint(th.at) && SetupEffect(w, w', t, th)
    ensures NotifiersKnown(w')
  {
    hide WaitersKnown, SignalsKnown;
    SetupWaitersKnown(w, w', t, th);
    SetupSignalsKnown(w, w', t, th);
  }

  // ---------------------------------------------------------------- what the other steps do

  lemma OtherMakersKnown(w: World, w': World, t: Tid, th: Thread, slot: SlotId)
    requires FreshNames(w) && MakersKnown(w)
    requires t in w.threads && th == w.threads[t] && !SetupPoint(th.at) && !TeardownPoint(th.at) && OtherEffect(w, w', t, th, slot)
    ensures MakersKnown(w')
  {
  }

  lemma OtherSingleHolder(w: World, w': World, t: Tid, th: Thread, slot: SlotId)
    requires FreshNames(w) && SingleHolder(w) && Orderly(w)
    requires t in w.threads && th == w.threads[t] && !SetupPoint(th.at) && !TeardownPoint(th.at) && OtherEffect(w, w', t, th, slot)
    ensures SingleHolder(w')
  {
    hide InOrder, LatestKnown, Latest, GenerationsKnown, EntriesKnown, TokensKnown;
    hide LogKnown;
  }

  lemma OtherCallbacksAnswered(w: World, w': World, t: Tid, th: Thread, slot: SlotId)
    requires FreshNames(w) && LoansKnown(w) && PendingKnown(w) && LatestKnown(w.sip)
    requires t in w.threads && th == w.threads[t] && !SetupPoint(th.at) && !TeardownPoint(th.at) && OtherEffect(w, w', t, th, slot)
    requires t in w'.threads && w'.threads[t].at.MediaPublish? ==> slot !in w.conf.slots
    ensures CallbacksAnswered(w')
  {
    hide LogKnown;
  }

  lemma OtherCarriersKnown(w: World, w': World, t: Tid, th: Thread, slot: SlotId)
    requires FreshNames(w) && LoansKnown(w) && PendingKnown(w) && LatestKnown(w.sip)
    requires t in w.threads && th == w.threads[t] && !SetupPoint(th.at) && !TeardownPoint(th.at) && OtherEffect(w, w', t, th, slot)
    requires t in w'.threads && w'.threads[t].at.MediaPublish? ==> slot !in w.conf.slots
    ensures CarriersKnown(w')
  {
    hide LogKnown;
  }

  lemma OtherLoansBacked(w: World, w': World, t: Tid, th: Thread, slot: SlotId)
    requires FreshNames(w) && LoansKnown(w) && PendingKnown(w) && LatestKnown(w.sip)
    requires t in w.threads && th == w.threads[t] && !SetupPoint(th.at) && !TeardownPoint(th.at) && OtherEffect(w, w', t, th, slot)
    requires t in w'.threads && w'.threads[t].at.MediaPublish? ==> slot !in w.conf.slots
    ensures LoansBacked(w')
  {
    hide LogKnown;
  }

  lemma OtherLoansKnown(w: World, w': World, t: Tid, th: Thread, slot: SlotId)
    requires FreshNames(w) && LoansKnown(w) && PendingKnown(w) && LatestKnown(w.sip)
    requires t in w.threads && th == w.threads[t] && !SetupPoint(th.at) && !TeardownPoint(th.at) && OtherEffect(w, w', t, th, slot)
    requires t in w'.threads && w'.threads[t].at.MediaPublish? ==> slot !in w.conf.slots
    ensures LoansKnown(w')
  {
    hide CallbacksAnswered, CarriersKnown, LoansBacked;
    OtherCallbacksAnswered(w, w', t, th, slot);
    OtherCarriersKnown(w, w', t, th, slot);
    OtherLoansBacked(w, w', t, th, slot);
  }

  lemma OtherPendingKnown(w: World, w': World, t: Tid, th: Thread, slot: SlotId)
    requires FreshNames(w) && PendingKnown(w) && LoansKnown(w)
    requires t in w.threads && th == w.threads[t] && !SetupPoint(th.at) && !TeardownPoint(th.at) && OtherEffect(w, w', t, th, slot)
    ensures PendingKnown(w')
  {
  }

  lemma OtherNotifiersKnown(w: World, w': World, t: Tid, th: Thread, slot: SlotId)
    requires FreshNames(w) && SingleHolder(w) && NotifiersKnown(w) && LoansKnown(w)
    requires t in w.threads && th == w.threads[t] && !SetupPoint(th.at) && !TeardownPoint(th.at) && OtherEffect(w, w', t, th, slot)
    ensures NotifiersKnown(w')
  {
    hide Shaped;
  }

  lemma EnvMakersKnown(w: World, a: Action)
    requires FreshNames(w) && MakersKnown(w)
    requires !a.Go? && Enabled(w, a)
    ensures MakersKnown(Next(w, a))
  {
  }

  /** Once the latest call of an id is next on the channel, the earlier ones are handled. */
  lemma EarlierAreHandled(w: World, k: Instance, i: Instance)
    requires FreshNames(w) && InOrder(w.sip) && LatestKnown(w.sip) && EndsKnown(w) && Main !in w.threads
    requires k < |w.sip.dialed| && i != k && LastOfId(w.sip, i) && w.sip.dialed[k] == w.sip.dialed[i]
    requires w.sip.rang[i] == w.sip.taken
    ensures k in w.sip.handled
  {
    assert k <= w.sip.latest[w.sip.dialed[k]];
    assert w.sip.hung[k] < w.sip.rang[i];
  }

  /** When a call is taken from the channel, its id has no session left. */
  lemma NoSessionAtDispatch(w: World)
    requires FreshNames(w) && InOrder(w.sip) && LatestKnown(w.sip) && EndsKnown(w) && SessionsKnown(w) && Latest(w)
    requires Enabled(w, Dispatch) && w.sip.log[w.sip.taken].IncomingCall?
    ensures w.sip.log[w.sip.taken].call !in w.mgr.sessions
  {
    var e := w.sip.log[w.sip.taken];
    if e.call in w.mgr.sessions {
      EarlierAreHandled(w, w.mgr.sessions[e.call].who, e.who);
    }
  }

  lemma DispatchSingleHolder(w: World)
    requires FreshNames(w) && SingleHolder(w) && Enabled(w, Dispatch)
    requires w.sip.log[w.sip.taken].IncomingCall? ==> w.sip.log[w.sip.taken].call !in w.mgr.sessions
    ensures SingleHolder(DispatchEvent(w))
  {
  }

  lemma EnvSingleHolder(w: World, a: Action)
    requires FreshNames(w) && SingleHolder(w)
    requires !a.Go? && !a.Dispatch? && Enabled(w, a) && MediaRules(w, a)
    ensures SingleHolder(Next(w, a))
  {
  }

  lemma EnvCallbacksAnswered(w: World, a: Action)
    requires FreshNames(w) && LoansKnown(w) && LatestKnown(w.sip)
    requires !a.Go? && !a.RemoveCompleted? && Enabled(w, a) && MediaRules(w, a)
    ensures CallbacksAnswered(Next(w, a))
  {
    hide Shaped;
  }

  lemma EnvCarriersKnown(w: World, a: Action)
    requires FreshNames(w) && LoansKnown(w) && LatestKnown(w.sip)
    requires !a.Go? && !a.RemoveCompleted? && Enabled(w, a) && MediaRules(w, a)
    ensures CarriersKnown(Next(w, a))
  {
    hide Shaped;
  }

  lemma EnvLoansBacked(w: World, a: Action)
    requires FreshNames(w) && LoansKnown(w) && LatestKnown(w.sip)
    requires !a.Go? && !a.RemoveCompleted? && Enabled(w, a) && MediaRules(w, a)
    ensures LoansBacked(Next(w, a))
  {
    hide Shaped;
  }

  lemma EnvLoansKnown(w: World, a: Action)
    requires FreshNames(w) && LoansKnown(w) && LatestKnown(w.sip)
    requires !a.Go? && !a.RemoveCompleted? && Enabled(w, a) && MediaRules(w, a)
    ensures LoansKnown(Next(w, a))
  {
    hide CallbacksAnswered, CarriersKnown, LoansBacked;
    EnvCallbacksAnswered(w, a);
    EnvCarriersKnown(w, a);
    EnvLoansBacked(w, a);
  }

  lemma RemovalLoansKnown(w: World, slot: SlotId, ok: bool)
    requires FreshNames(w) && LoansKnown(w) && SeatsKnown(w) && RightsAgree(w) && slot in w.conf.removing
    ensures LoansKnown(CompleteRemoval(w, slot, ok))
  {
  }

  lemma EnvPendingKnown(w: World, a: Action)
    requires FreshNames(w) && PendingKnown(w) && LatestKnown(w.sip) && NotifiersKnown(w)
    requires !a.Go? && Enabled(w, a) && MediaRules(w, a)
    ensures PendingKnown(Next(w, a))
  {
  }

  lemma EnvNotifiersKnown(w: World, a: Action)
    requires FreshNames(w) && NotifiersKnown(w)
    requires !a.Go? && Enabled(w, a) && MediaRules(w, a)
    ensures NotifiersKnown(Next(w, a))
  {
  }

  // ---------------------------------------------------------------- seats

  lemma SetupSeatsNamed(w: World, w': World, t: Tid, th: Thread)
    requires FreshNames(w) && SeatsKnown(w)
    requires t in w.threads && th == w.threads[t] && SetupPoint(th.at) && SetupEffect(w, w', t, th)
    ensures SeatsNamed(w')
  {
  }

  lemma SetupRemovalsIdle(w: World, w': World, t: Tid, th: Thread)
    requires FreshNames(w) && SeatsKnown(w)
    requires t in w.threads && th == w.threads[t] && SetupPoint(th.at) && SetupEffect(w, w', t, th)
    ensures RemovalsIdle(w')
  {
  }

  lemma SetupSeatsKnown(w: World, w': World, t: Tid, th: Thread)
    requires FreshNames(w) && SeatsKnown(w)
    requires t in w.threads && th == w.threads[t] && SetupPoint(th.at) && SetupEffect(w, w', t, th)
    ensures SeatsKnown(w')
  {
    hide SeatsNamed, RemovalsIdle;
    SetupSeatsNamed(w, w', t, th);
    SetupRemovalsIdle(w, w', t, th);
  }

  /** Pools nobody counts on any more stay so. */
  lemma TeardownIdle(w: World, t: Tid, th: Thread, answer: Answer, b: PoolId)
    requires Acts(w, t, th) && RightsAgree(w) && TeardownPoint(th.at) && Idle(w, b)
    ensures Idle(TeardownStep(w, t, th, answer), b)
  {
    hide PortsAgree, FreedOnce;
  }

  /** Only a pool waiting for its cleanup is left behind by a request for removal. */
  lemma RemovingIsIdle(w: World, t: Tid, th: Thread, answer: Answer)
    requires Acts(w, t, th) && RightsAgree(w) && SeatsKnown(w) && TeardownPoint(th.at)
    ensures var w' := TeardownStep(w, t, th, answer);
      t in w'.threads && w'.threads[t].at.Removing? && w'.threads[t].at.slot in w.conf.slots ==>
        Idle(w', w.conf.slots[w'.threads[t].at.slot].pool)
  {
  }

  lemma TeardownTakesSeat(w: World, t: Tid, th: Thread, answer: Answer)
    requires Acts(w, t, th) && SeatsKnown(w) && TeardownPoint(th.at)
    ensures var w' := TeardownStep(w, t, th, answer);
      && (t in w'.threads && w'.threads[t].at.Resolving? && w'.threads[t].at.found.Some? && w'.threads[t].pool.Some? ==>
            var s := w'.threads[t].at.found.value; s in w.conf.slots && w.conf.slots[s].pool == w'.threads[t].pool.value)
      && (forall s :: s in w'.conf.removing ==> s in w.conf.removing || (th.at.Removing? && s == th.at.slot))
  {
  }

  lemma TeardownSeatsNamed(w: World, t: Tid, th: Thread, answer: Answer)
    requires FreshNames(w) && SeatsKnown(w) && RightsAgree(w)
    requires t in w.threads && th == w.threads[t] && TeardownPoint(th.at)
    ensures SeatsNamed(TeardownStep(w, t, th, answer))
  {
    hide TeardownStep, RightsAgree, Idle, LogKnown;
    TeardownHasEffect(w, t, th, answer);
    TeardownTakesSeat(w, t, th, answer);
  }

  lemma TeardownRemovalsIdle(w: World, t: Tid, th: Thread, answer: Answer)
    requires FreshNames(w) && SeatsKnown(w) && RightsAgree(w)
    requires t in w.threads && th == w.threads[t] && TeardownPoint(th.at)
    ensures RemovalsIdle(TeardownStep(w, t, th, answer))
  {
    hide TeardownStep, RightsAgree, Idle, LogKnown;
    TeardownHasEffect(w, t, th, answer);
    TeardownTakesSeat(w, t, th, answer);
    RemovingIsIdle(w, t, th, answer);
    forall b | Idle(w, b) ensures Idle(TeardownStep(w, t, th, answer), b) { TeardownIdle(w, t, th, answer, b); }
  }

  lemma TeardownSeatsKnown(w: World, t: Tid, th: Thread, answer: Answer)
    requires FreshNames(w) && SeatsKnown(w) && RightsAgree(w)
    requires t in w.threads && th == w.threads[t] && TeardownPoint(th.at)
    ensures SeatsKnown(TeardownStep(w, t, th, answer))
  {
    hide SeatsNamed, RemovalsIdle;
    TeardownSeatsNamed(w, t, th, answer);
    TeardownRemovalsIdle(w, t, th, answer);
  }

  lemma CallbackIdle(w: World, t: Tid, th: Thread, answer: Answer, slot: SlotId, b: PoolId)
    requires Acts(w, t, th) && RightsAgree(w) && Idle(w, b) && (InCallback(th.at) || th.at.LookingUp?)
    ensures Idle(OtherStep(w, t, th, answer, slot), b)
  {
    hide PortsAgree, FreedOnce;
  }

  lemma DisposalIdle(w: World, t: Tid, th: Thread, answer: Answer, slot: SlotId, b: PoolId)
    requires Acts(w, t, th) && RightsAgree(w) && Idle(w, b) && (th.at.OpDone? || th.at.Disposing? || th.at.Cancelling?)
    ensures Idle(OtherStep(w, t, th, answer, slot), b)
  {
    hide PortsAgree, FreedOnce;
  }

  lemma OtherIdle(w: World, t: Tid, th: Thread, answer: Answer, slot: SlotId, b: PoolId)
    requires Acts(w, t, th) && RightsAgree(w) && !SetupPoint(th.at) && !TeardownPoint(th.at) && Idle(w, b)
    ensures Idle(OtherStep(w, t, th, answer, slot), b)
  {
    hide OtherStep, Idle, RightsAgree;
    if InCallback(th.at) || th.at.LookingUp? { CallbackIdle(w, t, th, answer, slot, b); }
    else { DisposalIdle(w, t, th, answer, slot, b); }
  }

  lemma AddsFreshSlot(w: World, t: Tid, th: Thread, answer: Answer, slot: SlotId)
    requires Acts(w, t, th) && RightsAgree(w) && !SetupPoint(th.at) && !TeardownPoint(th.at) && SlotRule(w, Go(t, answer, slot))
    ensures var w' := OtherStep(w, t, th, answer, slot);
      t in w'.threads && w'.threads[t].at.MediaPublish? ==>
        SlotRule(w, Go(t, Yes, slot)) && th.at.MediaAdd? && th.pool.Some? && th.pool.value < w.rights.pools
  {
  }

  lemma OtherSeatsNamed(w: World, w': World, t: Tid, th: Thread, slot: SlotId)
    requires FreshNames(w) && SeatsKnown(w) && t in w.threads && th == w.threads[t] && !SetupPoint(th.at) && !TeardownPoint(th.at)
    requires OtherEffect(w, w', t, th, slot)
    requires t in w'.threads && w'.threads[t].at.MediaPublish? ==>
               SlotRule(w, Go(t, Yes, slot)) && th.at.MediaAdd? && th.pool.Some? && th.pool.value < w.rights.pools
    requires forall b :: Idle(w, b) ==> Idle(w', b)
    ensures SeatsNamed(w')
  {
    hide Idle, LogKnown;
  }

  lemma OtherRemovalsIdle(w: World, w': World, t: Tid, th: Thread, slot: SlotId)
    requires FreshNames(w) && SeatsKnown(w) && t in w.threads && th == w.threads[t] && !SetupPoint(th.at) && !TeardownPoint(th.at)
    requires OtherEffect(w, w', t, th, slot)
    requires t in w'.threads && w'.threads[t].at.MediaPublish? ==>
               SlotRule(w, Go(t, Yes, slot)) && th.at.MediaAdd? && th.pool.Some? && th.pool.value < w.rights.pools
    requires forall b :: Idle(w, b) ==> Idle(w', b)
    ensures RemovalsIdle(w')
  {
    hide Idle, LogKnown;
  }

  lemma OtherSeatsKnown(w: World, w': World, t: Tid, th: Thread, slot: SlotId)
    requires FreshNames(w) && SeatsKnown(w) && t in w.threads && th == w.threads[t] && !SetupPoint(th.at) && !TeardownPoint(th.at)
    requires OtherEffect(w, w', t, th, slot)
    requires t in w'.threads && w'.threads[t].at.MediaPublish? ==>
               SlotRule(w, Go(t, Yes, slot)) && th.at.MediaAdd? && th.pool.Some? && th.pool.value < w.rights.pools
    requires forall b :: Idle(w, b) ==> Idle(w', b)
    ensures SeatsKnown(w')
  {
    hide SeatsNamed, RemovalsIdle;
    OtherSeatsNamed(w, w', t, th, slot);
    OtherRemovalsIdle(w, w', t, th, slot);
  }

  lemma RemovalSeatsNamed(w: World, slot: SlotId, ok: bool)
    requires FreshNames(w) && SeatsKnown(w) && RightsAgree(w) && slot in w.conf.removing
    ensures SeatsNamed(CompleteRemoval(w, slot, ok))
  {
  }

  lemma RemovalRemovalsIdle(w: World, slot: SlotId, ok: bool)
    requires FreshNames(w) && SeatsKnown(w) && RightsAgree(w) && slot in w.conf.removing
    ensures RemovalsIdle(CompleteRemoval(w, slot, ok))
  {
  }

  lemma RemovalSeatsKnown(w: World, slot: SlotId, ok: bool)
    requires FreshNames(w) && SeatsKnown(w) && RightsAgree(w) && slot in w.conf.removing
    ensures SeatsKnown(CompleteRemoval(w, slot, ok))
  {
    hide SeatsNamed, RemovalsIdle;
    RemovalSeatsNamed(w, slot, ok);
    RemovalRemovalsIdle(w, slot, ok);
  }

  lemma EnvSeatsNamed(w: World, a: Action)
    requires FreshNames(w) && SeatsKnown(w)
    requires !a.Go? && !a.RemoveCompleted? && Enabled(w, a)
    ensures SeatsNamed(Next(w, a))
  {
  }

  lemma EnvRemovalsIdle(w: World, a: Action)
    requires FreshNames(w) && SeatsKnown(w)
    requires !a.Go? && !a.RemoveCompleted? && Enabled(w, a)
    ensures RemovalsIdle(Next(w, a))
  {
  }

  lemma EnvSeatsKnown(w: World, a: Action)
    requires FreshNames(w) && SeatsKnown(w)
    requires !a.Go? && !a.RemoveCompleted? && Enabled(w, a)
    ensures SeatsKnown(Next(w, a))
  {
    hide SeatsNamed, RemovalsIdle;
    EnvSeatsNamed(w, a);
    EnvRemovalsIdle(w, a);
  }

  // ---------------------------------------------------------------- attachment

  lemma SetupPastSelf(w: World, w': World, t: Tid, th: Thread)
    requires FreshNames(w) && SingleHolder(w) && PastAttached(w) && FiredAttached(w) && t in w'.threads && PastMedia(w'.threads[t].at)
    requires t in w.threads && th == w.threads[t] && SetupPoint(th.at) && SetupEffect(w, w', t, th)
    requires th.at.AwaitingMedia? ==> t.who in w.reg.fired
    ensures IsAttached(w', w'.threads[t]) && (w'.threads[t].at.TakingActive? ==> !w'.threads[t].at.wasPending)
  {
  }

  lemma SetupPastOther(w: World, w': World, t: Tid, th: Thread, u: Tid)
    requires FreshNames(w) && SingleHolder(w) && PastAttached(w) && u in w.threads && u != t && PastMedia(w.threads[u].at)
    requires t in w.threads && th == w.threads[t] && SetupPoint(th.at) && SetupEffect(w, w', t, th)
    ensures IsAttached(w', w.threads[u]) && (w.threads[u].at.TakingActive? ==> !w.threads[u].at.wasPending)
  {
  }

  lemma SetupPastAttached(w: World, w': World, t: Tid, th: Thread)
    requires FreshNames(w) && SingleHolder(w) && PastAttached(w) && AttachedWhenTold(w)
    requires t in w.threads && th == w.threads[t] && SetupPoint(th.at) && SetupEffect(w, w', t, th)
    requires th.at.AwaitingMedia? && t in w'.threads && PastMedia(w'.threads[t].at) ==> t.who in w.reg.fired
    ensures PastAttached(w')
  {
    forall u | u in w'.threads && PastMedia(w'.threads[u].at)
      ensures IsAttached(w', w'.threads[u]) && (w'.threads[u].at.TakingActive? ==> !w'.threads[u].at.wasPending)
    {
      hide SingleHolder, FiredAttached, NotifyingAttached, IsAttached;
      if u == t { SetupPastSelf(w, w', t, th); } else { SetupPastOther(w, w', t, th, u); }
    }
  }

  lemma SetupSessionsAttached(w: World, w': World, t: Tid, th: Thread)
    requires FreshNames(w) && SingleHolder(w) && PastAttached(w) && SessionsAttached(w)
    requires t in w.threads && th == w.threads[t] && SetupPoint(th.at) && SetupEffect(w, w', t, th)
    ensures SessionsAttached(w')
  {
  }

  lemma SetupAttached(w: World, w': World, t: Tid, th: Thread)
    requires FreshNames(w) && SingleHolder(w) && AttachedWhereNeeded(w) && AttachedWhenTold(w)
    requires t in w.threads && th == w.threads[t] && SetupPoint(th.at) && SetupEffect(w, w', t, th)
    requires th.at.AwaitingMedia? && t in w'.threads && PastMedia(w'.threads[t].at) ==> t.who in w.reg.fired
    ensures AttachedWhereNeeded(w')
  {
    hide FreshNames, SingleHolder, PastAttached, SessionsAttached, AttachedWhenTold;
    SetupPastAttached(w, w', t, th);
    SetupSessionsAttached(w, w', t, th);
  }

  /** Only the notifier ends the media wait well. */
  lemma ReadyMeansFired(w: World, t: Tid, th: Thread, answer: Answer)
    requires Permitted(w, t, answer) && th == w.threads[t] && NotifiersKnown(w) && t.Setup? && th.at.AwaitingMedia?
    ensures var w' := SetupStep(w, t, th, answer); t in w'.threads && PastMedia(w'.threads[t].at) ==> t.who in w.reg.fired
  {
  }

  lemma SetupToldFired(w: World, w': World, t: Tid, th: Thread)
    requires FreshNames(w) && SingleHolder(w) && LoansKnown(w) && NotifiersKnown(w) && AttachedWhenTold(w)
    requires t in w.threads && th == w.threads[t] && SetupPoint(th.at) && SetupEffect(w, w', t, th)
    ensures FiredAttached(w')
  {
    hide Shaped;
  }

  lemma SetupToldNotifying(w: World, w': World, t: Tid, th: Thread)
    requires FreshNames(w) && SingleHolder(w) && LoansKnown(w) && NotifiersKnown(w) && AttachedWhenTold(w)
    requires t in w.threads && th == w.threads[t] && SetupPoint(th.at) && SetupEffect(w, w', t, th)
    ensures NotifyingAttached(w')
  {
    hide Shaped;
  }

  lemma SetupTold(w: World, w': World, t: Tid, th: Thread)
    requires FreshNames(w) && SingleHolder(w) && LoansKnown(w) && NotifiersKnown(w) && AttachedWhenTold(w)
    requires t in w.threads && th == w.threads[t] && SetupPoint(th.at) && SetupEffect(w, w', t, th)
    ensures AttachedWhenTold(w')
  {
    hide FiredAttached, NotifyingAttached;
    SetupToldFired(w, w', t, th);
    SetupToldNotifying(w, w', t, th);
  }

  /** The slot a teardown found is its own port's. */
  lemma TeardownFindsSeat(w: World, t: Tid, th: Thread, answer: Answer)
    requires Acts(w, t, th) && AttachedWhereNeeded(w) && TeardownPoint(th.at)
    ensures var w' := TeardownStep(w, t, th, answer);
      t in w'.threads ==>
        var th' := w'.threads[t];
        && (PastMedia(th'.at) ==>
              PastMedia(th.at) && w'.reg.active == w.reg.active && th.at.TakingPending? && th'.at.TakingActive? && !th'.at.wasPending)
        && (th'.at.Resolving? && th'.at.kind != Abort(true) ==>
              && !th'.at.wasPending && th'.at.found.Some? && th'.at.found.value in w.conf.slots
              && th'.port.Some? && th'.pool.Some? && w.conf.slots[th'.at.found.value] == Seat(th'.port.value, th'.pool.value))
  {
  }

  lemma TeardownPastAttached(w: World, w': World, t: Tid, th: Thread)
    requires FreshNames(w) && SingleHolder(w) && PastAttached(w)
    requires t in w.threads && th == w.threads[t] && TeardownPoint(th.at) && TeardownEffect(w, w', t, th)
    requires t in w'.threads && PastMedia(w'.threads[t].at) ==>
               PastMedia(th.at) && w'.reg.active == w.reg.active && th.at.TakingPending? &&
               w'.threads[t].at.TakingActive? && !w'.threads[t].at.wasPending
    ensures PastAttached(w')
  {
    hide HoldsPortAt, MayHoldPoolAt;
  }

  lemma TeardownSessionsAttached(w: World, w': World, t: Tid, th: Thread)
    requires FreshNames(w) && SingleHolder(w) && SessionsAttached(w)
    requires t in w.threads && th == w.threads[t] && TeardownPoint(th.at) && TeardownEffect(w, w', t, th)
    ensures SessionsAttached(w')
  {
  }

  lemma TeardownAttached(w: World, t: Tid, th: Thread, answer: Answer)
    requires FreshNames(w) && SingleHolder(w) && AttachedWhereNeeded(w)
    requires t in w.threads && th == w.threads[t] && TeardownPoint(th.at)
    ensures AttachedWhereNeeded(TeardownStep(w, t, th, answer))
  {
    hide TeardownStep, SingleHolder, PastAttached, SessionsAttached;
    TeardownHasEffect(w, t, th, answer);
    TeardownFindsSeat(w, t, th, answer);
    TeardownPastAttached(w, TeardownStep(w, t, th, answer), t, th);
    TeardownSessionsAttached(w, TeardownStep(w, t, th, answer), t, th);
  }

  lemma TeardownTold(w: World, w': World, t: Tid, th: Thread)
    requires FreshNames(w) && SingleHolder(w) && AttachedWhenTold(w)
    requires t in w.threads && th == w.threads[t] && TeardownPoint(th.at) && TeardownEffect(w, w', t, th)
    ensures AttachedWhenTold(w')
  {
    hide LogKnown, HoldsPortAt, MayHoldPoolAt;
  }

  lemma OtherAttachedPast(w: World, w': World, t: Tid, th: Thread, slot: SlotId)
    requires FreshNames(w) && LoansKnown(w) && AttachedWhereNeeded(w)
    requires t in w.threads && th == w.threads[t] && !SetupPoint(th.at) && !TeardownPoint(th.at) && OtherEffect(w, w', t, th, slot)
    requires t in w'.threads && w'.threads[t].at.MediaPublish? ==> slot !in w.conf.slots
    ensures PastAttached(w')
  {
    hide LogKnown, HoldsPortAt, MayHoldPoolAt;
  }

  lemma OtherAttachedFound(w: World, w': World, t: Tid, th: Thread, slot: SlotId)
    requires FreshNames(w) && LoansKnown(w) && AttachedWhereNeeded(w)
    requires t in w.threads && th == w.threads[t] && !SetupPoint(th.at) && !TeardownPoint(th.at) && OtherEffect(w, w', t, th, slot)
    requires t in w'.threads && w'.threads[t].at.MediaPublish? ==> slot !in w.conf.slots
    ensures ResolvingFound(w')
  {
    hide LogKnown, HoldsPortAt, MayHoldPoolAt;
  }

  lemma OtherAttachedSessions(w: World, w': World, t: Tid, th: Thread, slot: SlotId)
    requires FreshNames(w) && LoansKnown(w) && AttachedWhereNeeded(w)
    requires t in w.threads && th == w.threads[t] && !SetupPoint(th.at) && !TeardownPoint(th.at) && OtherEffect(w, w', t, th, slot)
    requires t in w'.threads && w'.threads[t].at.MediaPublish? ==> slot !in w.conf.slots
    ensures SessionsAttached(w')
  {
    hide LogKnown, HoldsPortAt, MayHoldPoolAt;
  }

  lemma OtherAttached(w: World, w': World, t: Tid, th: Thread, slot: SlotId)
    requires FreshNames(w) && LoansKnown(w) && AttachedWhereNeeded(w)
    requires t in w.threads && th == w.threads[t] && !SetupPoint(th.at) && !TeardownPoint(th.at) && OtherEffect(w, w', t, th, slot)
    requires t in w'.threads && w'.threads[t].at.MediaPublish? ==> slot !in w.conf.slots
    ensures AttachedWhereNeeded(w')
  {
    hide PastAttached, ResolvingFound, SessionsAttached;
    OtherAttachedPast(w, w', t, th, slot);
    OtherAttachedFound(w, w', t, th, slot);
    OtherAttachedSessions(w, w', t, th, slot);
  }

  lemma OtherToldFired(w: World, w': World, t: Tid, th: Thread, slot: SlotId)
    requires FreshNames(w) && MakersKnown(w) && SingleHolder(w) && LoansKnown(w) && NotifiersKnown(w) && SeatsKnown(w) && AttachedWhenTold(w)
    requires t in w.threads && th == w.threads[t] && !SetupPoint(th.at) && !TeardownPoint(th.at) && OtherEffect(w, w', t, th, slot)
    requires t in w'.threads && w'.threads[t].at.MediaPublish? ==> slot !in w.conf.slots
    ensures FiredAttached(w')
  {
    hide LogKnown;
  }

  lemma OtherToldNotifying(w: World, w': World, t: Tid, th: Thread, slot: SlotId)
    requires FreshNames(w) && MakersKnown(w) && SingleHolder(w) && LoansKnown(w) && NotifiersKnown(w) && SeatsKnown(w) && AttachedWhenTold(w)
    requires t in w.threads && th == w.threads[t] && !SetupPoint(th.at) && !TeardownPoint(th.at) && OtherEffect(w, w', t, th, slot)
    requires t in w'.threads && w'.threads[t].at.MediaPublish? ==> slot !in w.conf.slots
    ensures NotifyingAttached(w')
  {
    hide LogKnown;
  }

  lemma OtherTold(w: World, w': World, t: Tid, th: Thread, slot: SlotId)
    requires FreshNames(w) && MakersKnown(w) && SingleHolder(w) && LoansKnown(w) && NotifiersKnown(w) && SeatsKnown(w) && AttachedWhenTold(w)
    requires t in w.threads && th == w.threads[t] && !SetupPoint(th.at) && !TeardownPoint(th.at) && OtherEffect(w, w', t, th, slot)
    requires t in w'.threads && w'.threads[t].at.MediaPublish? ==> slot !in w.conf.slots
    ensures AttachedWhenTold(w')
  {
    hide FiredAttached, NotifyingAttached;
    OtherToldFired(w, w', t, th, slot);
    OtherToldNotifying(w, w', t, th, slot);
  }

  lemma EnvAttached(w: World, a: Action)
    requires FreshNames(w) && AttachedWhereNeeded(w) && !a.Go? && !a.RemoveCompleted? && Enabled(w, a)
    ensures AttachedWhereNeeded(Next(w, a))
  {
  }

  lemma EnvTold(w: World, a: Action)
    requires FreshNames(w) && AttachedWhenTold(w) && !a.Go? && !a.RemoveCompleted? && Enabled(w, a)
    ensures AttachedWhenTold(Next(w, a))
  {
  }

  lemma RemovalAttached(w: World, slot: SlotId, ok: bool)
    requires FreshNames(w) && SeatsKnown(w) && RightsAgree(w) && AttachedWhereNeeded(w) && slot in w.conf.removing
    ensures AttachedWhereNeeded(CompleteRemoval(w, slot, ok))
  {
  }

  lemma RemovalTold(w: World, slot: SlotId, ok: bool)
    requires FreshNames(w) && SeatsKnown(w) && RightsAgree(w) && AttachedWhenTold(w) && slot in w.conf.removing
    ensures AttachedWhenTold(CompleteRemoval(w, slot, ok))
  {
  }

  // ---------------------------------------------------------------- every step, every run

  ghost predicate MediaKnown(w: World) {
    && MakersKnown(w) && SingleHolder(w) && SeatsKnown(w) && LoansKnown(w) && PendingKnown(w) && NotifiersKnown(w)
    && AttachedWhereNeeded(w) && AttachedWhenTold(w)
  }

  ghost predicate MediaOrderly(w: World) {
    Linear(w) && Orderly(w) && MediaKnown(w)
  }

  lemma SetupKeepsMedia(w: World, t: Tid, th: Thread, answer: Answer)
    requires MediaOrderly(w) && Permitted(w, t, answer) && th == w.threads[t] && SetupPoint(th.at)
    ensures MediaKnown(SetupStep(w, t, th, answer))
  {
    hide SetupStep, SetupEffect, TeardownEffect, OtherEffect, MakersKnown, SingleHolder, SeatsKnown, LoansKnown, PendingKnown, NotifiersKnown, AttachedWhereNeeded, AttachedWhenTold;
    hide InOrder, LatestKnown, EndsKnown, Latest, CallsKnown, GenerationsKnown, EntriesKnown, TokensKnown, SessionsKnown, LogKnown, RightsAgree;
    var w' := SetupStep(w, t, th, answer);
    SetupHasEffect(w, t, th, answer);
    SetupMakersKnown(w, w', t, th);
    SetupSingleHolder(w, w', t, th);
    SetupSeatsKnown(w, w', t, th);
    SetupLoansKnown(w, w', t, th);
    SetupPendingKnown(w, w', t, th);
    SetupNotifiersKnown(w, w', t, th);
    if th.at.AwaitingMedia? { ReadyMeansFired(w, t, th, answer); }
    SetupAttached(w, w', t, th);
    SetupTold(w, w', t, th);
  }

  lemma TeardownKeepsMedia(w: World, t: Tid, th: Thread, answer: Answer)
    requires MediaOrderly(w) && t in w.threads && th == w.threads[t] && TeardownPoint(th.at)
    ensures MediaKnown(TeardownStep(w, t, th, answer))
  {
    hide TeardownStep, SetupEffect, TeardownEffect, OtherEffect, MakersKnown, SingleHolder, SeatsKnown, LoansKnown, PendingKnown, NotifiersKnown, AttachedWhereNeeded, AttachedWhenTold;
    hide InOrder, LatestKnown, EndsKnown, Latest, CallsKnown, GenerationsKnown, EntriesKnown, TokensKnown, SessionsKnown, LogKnown, RightsAgree;
    var w' := TeardownStep(w, t, th, answer);
    TeardownHasEffect(w, t, th, answer);
    TeardownMakersKnown(w, w', t, th);
    TeardownSingleHolder(w, w', t, th);
    TeardownSeatsKnown(w, t, th, answer);
    TeardownLoansKnown(w, w', t, th);
    TeardownPendingKnown(w, w', t, th);
    TeardownNotifiersKnown(w, w', t, th);
    TeardownAttached(w, t, th, answer);
    TeardownTold(w, w', t, th);
  }

  lemma OtherKeepsMedia(w: World, t: Tid, th: Thread, answer: Answer, slot: SlotId)
    requires MediaOrderly(w) && t in w.threads && th == w.threads[t] && SlotRule(w, Go(t, answer, slot))
    requires !SetupPoint(th.at) && !TeardownPoint(th.at)
    ensures MediaKnown(OtherStep(w, t, th, answer, slot))
  {
    hide OtherStep, SetupEffect, TeardownEffect, MakersKnown, SingleHolder, SeatsKnown, LoansKnown, PendingKnown, NotifiersKnown, AttachedWhereNeeded, AttachedWhenTold;
    hide InOrder, LatestKnown, EndsKnown, Latest, CallsKnown, GenerationsKnown, EntriesKnown, TokensKnown, SessionsKnown, LogKnown, RightsAgree;
    var w' := OtherStep(w, t, th, answer, slot);
    OtherHasEffect(w, t, th, answer, slot);
    OtherMakersKnown(w, w', t, th, slot);
    OtherSingleHolder(w, w', t, th, slot);
    AddsFreshSlot(w, t, th, answer, slot);
    forall b | Idle(w, b) ensures Idle(w', b) { OtherIdle(w, t, th, answer, slot, b); }
    OtherSeatsKnown(w, w', t, th, slot);
    OtherLoansKnown(w, w', t, th, slot);
    OtherPendingKnown(w, w', t, th, slot);
    OtherNotifiersKnown(w, w', t, th, slot);
    OtherAttached(w, w', t, th, slot);
    OtherTold(w, w', t, th, slot);
  }

  lemma EnvKeepsMedia(w: World, a: Action)
    requires MediaOrderly(w) && Enabled(w, a) && MediaRules(w, a) && !a.Go?
    ensures MediaKnown(Next(w, a))
  {
    hide MakersKnown, SingleHolder, SeatsKnown, LoansKnown, PendingKnown, NotifiersKnown, AttachedWhereNeeded, AttachedWhenTold;
    EnvMakersKnown(w, a);
    if a.Dispatch? {
      if w.sip.log[w.sip.taken].IncomingCall? { NoSessionAtDispatch(w); }
      DispatchSingleHolder(w);
    } else {
      EnvSingleHolder(w, a);
    }
    EnvPendingKnown(w, a);
    EnvNotifiersKnown(w, a);
    if a.RemoveCompleted? {
      RemovalSeatsKnown(w, a.slot, a.ok);
      RemovalLoansKnown(w, a.slot, a.ok);
      RemovalAttached(w, a.slot, a.ok);
      RemovalTold(w, a.slot, a.ok);
    } else {
      EnvSeatsKnown(w, a);
      EnvLoansKnown(w, a);
      EnvAttached(w, a);
      EnvTold(w, a);
    }
  }

  lemma StepKeepsMedia(w: World, a: Action)
    requires MediaOrderly(w) && Enabled(w, a) && MediaRules(w, a)
    ensures MediaOrderly(Next(w, a))
  {
    hide SetupStep, TeardownStep, OtherStep, MediaKnown, InOrder, LatestKnown, EndsKnown, Latest, CallsKnown, GenerationsKnown, EntriesKnown, TokensKnown, SessionsKnown, LogKnown, RightsAgree;
    StepKeepsLinear(w, a);
    MediaRulesAreCallRules(w, a);
    StepKeepsOrderly(w, a);
    if a.Go? {
      var th := w.threads[a.t];
      if SetupPoint(th.at) { SetupKeepsMedia(w, a.t, th, a.answer); }
      else if TeardownPoint(th.at) { TeardownKeepsMedia(w, a.t, th, a.answer); }
      else { OtherKeepsMedia(w, a.t, th, a.answer, a.slot); }
    } else {
      EnvKeepsMedia(w, a);
    }
  }

  lemma {:induction false} RunKeepsMedia(w: World, actions: seq<Action>)
    requires MediaOrderly(w) && IsRun(MediaRules, w, actions) && IsRun(Free, w, actions)
    ensures MediaOrderly(After(w, actions))
    decreases |actions|
  {
    if actions != [] {
      StepKeepsMedia(w, actions[0]);
      RunKeepsMedia(Next(w, actions[0]), actions[1..]);
    }
  }

  lemma InitIsMediaOrderly(maxCalls: nat)
    ensures MediaOrderly(Init(maxCalls))
  {
    hide Linear, Orderly;
    InitIsLinear(maxCalls);
    InitIsOrderly(maxCalls);
  }

  lemma ReachableIsMediaOrderly(maxCalls: nat, actions: seq<Action>)
    requires IsRun(MediaRules, Init(maxCalls), actions) && IsRun(Free, Init(maxCalls), actions)
    ensures MediaOrderly(After(Init(maxCalls), actions))
  {
    hide MediaOrderly;
    InitIsMediaOrderly(maxCalls);
    RunKeepsMedia(Init(maxCalls), actions);
  }

  // ---------------------------------------------------------------- main results

  /** Past the media wait, and in every stored session, the call's active media names the slot where
      the call's own port sits, with no pending port left. */
  ghost predicate ReadyIsAttached(w: World, i: Instance, c: CallId) {
    && (Setup(i) in w.threads && PastMedia(w.threads[Setup(i)].at) ==>
          var th := w.threads[Setup(i)];
          th.port.Some? && Attached(w, th.call, th.port.value) &&
          th.port.value < |w.rights.makers| && w.rights.makers[th.port.value] == i)
    && (c in w.mgr.sessions ==>
          var s := w.mgr.sessions[c];
          Attached(w, c, s.port) && s.port < |w.rights.makers| && w.rights.makers[s.port] == s.who)
  }

  lemma MediaKnownIsAttached(w: World, i: Instance, c: CallId)
    requires FreshNames(w) && MakersKnown(w) && PastAttached(w) && SessionsAttached(w)
    ensures ReadyIsAttached(w, i, c)
  {
  }

  lemma MediaReadyMeansAttached(maxCalls: nat, actions: seq<Action>, i: Instance, c: CallId)
    requires IsRun(MediaRules, Init(maxCalls), actions)
    ensures IsRun(Free, Init(maxCalls), actions)
    ensures ReadyIsAttached(After(Init(maxCalls), actions), i, c)
  {
    AnyRunIsFree(MediaRules, Init(maxCalls), actions);
    ReachableIsMediaOrderly(maxCalls, actions);
    hide ReadyIsAttached, FreshNames, MakersKnown, PastAttached, SessionsAttached, SeatsKnown, LoansKnown, RightsAgree, Orderly, Init;
    MediaKnownIsAttached(After(Init(maxCalls), actions), i, c);
  }

  /** Hence such a call's teardown hands its own port and pool to the removal of its own seat: the
      branches that skip the destroy, or that defer it without a removal, are unreachable. */
  lemma TeardownTakesTheRemoveBranch(maxCalls: nat, actions: seq<Action>, t: Tid)
    requires IsRun(MediaRules, Init(maxCalls), actions)
    ensures IsRun(Free, Init(maxCalls), actions)
    ensures var w := After(Init(maxCalls), actions);
      t in w.threads && w.threads[t].at.Resolving? && w.threads[t].at.kind != Abort(true) ==>
        var th := w.threads[t];
        && !th.at.wasPending && th.at.found.Some? && th.port.Some? && th.pool.Some?
        && th.at.found.value in w.conf.slots
        && w.conf.slots[th.at.found.value] == Seat(th.port.value, th.pool.value)
        && Resolve(w, t, th, th.at.kind, th.at.wasPending, th.at.found) == RegisterCleanup(w, t, th, th.at.kind, th.at.found.value)
  {
    AnyRunIsFree(MediaRules, Init(maxCalls), actions);
    ReachableIsMediaOrderly(maxCalls, actions);
    hide Orderly, MakersKnown, SingleHolder, SeatsKnown, LoansKnown, PendingKnown, NotifiersKnown, PastAttached, SessionsAttached, AttachedWhenTold, RightsAgree, LogKnown;
  }

  /** Nor is a setup ever replaced, or its notifier ever dropped unsent. */
  lemma SetupsKeepTheirId(maxCalls: nat, actions: seq<Action>, i: Instance)
    requires IsRun(MediaRules, Init(maxCalls), actions)
    ensures IsRun(Free, Init(maxCalls), actions)
    ensures var w := After(Init(maxCalls), actions);
      !Replaced(w, i) && (Setup(i) in w.threads && w.threads[Setup(i)].at.AwaitingMedia? ==> !Permitted(w, Setup(i), No))
  {
    AnyRunIsFree(MediaRules, Init(maxCalls), actions);
    ReachableIsMediaOrderly(maxCalls, actions);
  }
}
