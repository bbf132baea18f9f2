/**
 A port is freed only off the conference bridge.

 Under the rules of media attachment, with removals that pjsip may refuse or fail: a port that sat in a
 conference slot when it was destroyed had its removal refused, or its setup gave up before it was told
 that its media was ready.
 */
module Removals {
  import opened Wrappers
  import opened CallMachine
  import opened Effects
  import opened Ownership
  import opened Orphans
  import opened MediaAttachment
  import opened Belongings

  // ---------------------------------------------------------------- history of a run

  /** The port whose removal the step is refused. */
  function RefusedBy(w: World, a: Action): set<PortId> {
    if a.Go? && a.t in w.threads && w.threads[a.t].at.Removing? && !a.answer.Yes? && w.threads[a.t].at.slot in w.reg.cleanup
    then {w.reg.cleanup[w.threads[a.t].at.slot].port} else {}
  }

  /** The port that the step takes down for a setup that gave up before its media was ready. */
  function GivenUpBy(w: World, a: Action): set<PortId> {
    if a.Go? && a.t in w.threads && w.threads[a.t].at.Resolving? && w.threads[a.t].at.kind == Abort(true) && w.threads[a.t].port.Some?
    then {w.threads[a.t].port.value} else {}
  }

  function Refused(w: World, actions: seq<Action>): set<PortId>
    requires IsRun(Free, w, actions)
    decreases |actions|
  {
    if actions == [] then {} else RefusedBy(w, actions[0]) + Refused(Next(w, actions[0]), actions[1..])
  }

  function GivenUp(w: World, actions: seq<Action>): set<PortId>
    requires IsRun(Free, w, actions)
    decreases |actions|
  {
    if actions == [] then {} else GivenUpBy(w, actions[0]) + GivenUp(Next(w, actions[0]), actions[1..])
  }

  // ---------------------------------------------------------------- the invariant

  /** No callback will add the port to the bridge (again). */
  ghost predicate Settled(w: World, p: PortId) {
    && (forall c :: c in w.reg.pendingPorts ==> w.reg.pendingPorts[c] != p)
    && (forall t :: t in w.threads && Carries(w.threads[t].at) && !w.threads[t].at.MediaPublish? ==> w.threads[t].at.lent != p)
  }

  /** A registered cleanup is for the port in its slot, or for one that is in none; but for the ports in `out` ... */
  ghost predicate CleanupsSettled(w: World, out: set<PortId>) {
    forall s :: s in w.reg.cleanup && w.reg.cleanup[s].port !in out ==>
      var p := w.reg.cleanup[s].port;
      Settled(w, p) && (Seated(w.conf, p) ==> s in w.conf.slots && w.conf.slots[s].port == p)
  }

  /** ... and a port about to be freed is in none. */
  ghost predicate DisposalsSettled(w: World, out: set<PortId>) {
    forall t :: t in w.threads && w.threads[t].at.Disposing? && w.threads[t].port.Some? && w.threads[t].port.value !in out ==>
      Settled(w, w.threads[t].port.value) && !Seated(w.conf, w.threads[t].port.value)
  }

  /** Between the end of a removal and its callback, the slot stays empty. */
  ghost predicate DoneSlotsEmpty(w: World) {
    forall t :: t in w.threads && w.threads[t].at.OpDone? && w.threads[t].at.ok ==> w.threads[t].at.slot !in w.conf.slots
  }

  predicate Asks(at: Point, s: SlotId) {
    (at.Removing? || at.FallingBack?) && at.slot == s
  }

  /** Until its removal is accepted, a slot keeps its seat, of an idle pool ... */
  ghost predicate AskersSeated(w: World) {
    forall t :: t in w.threads && (w.threads[t].at.Removing? || w.threads[t].at.FallingBack?) ==>
      var s := w.threads[t].at.slot; s in w.conf.slots && s !in w.conf.removing && Idle(w, w.conf.slots[s].pool)
  }

  /** ... and one thread asks ... */
  ghost predicate AskersAlone(w: World) {
    forall t, u :: t in w.threads && u in w.threads && t != u && (w.threads[t].at.Removing? || w.threads[t].at.FallingBack?) ==>
      !Asks(w.threads[u].at, w.threads[t].at.slot)
  }

  ghost predicate AskersKnown(w: World) {
    AskersSeated(w) && AskersAlone(w)
  }

  /** ... and once it is refused, the port is on record. */
  ghost predicate RefusalsKnown(w: World, out: set<PortId>) {
    forall t :: t in w.threads && w.threads[t].at.FallingBack? && w.threads[t].at.slot in w.reg.cleanup ==>
      w.reg.cleanup[w.threads[t].at.slot].port in out
  }

  ghost predicate OffTheBridge(w: World, out: set<PortId>) {
    && CleanupsSettled(w, out) && DisposalsSettled(w, out) && DoneSlotsEmpty(w) && AskersKnown(w) && RefusalsKnown(w, out)
    && w.rights.seatedWhenDestroyed <= out
  }

  ghost predicate Bridged(w: World, out: set<PortId>) {
    MediaOrderly(w) && Belonging(w) && OffTheBridge(w, out)
  }

  // ---------------------------------------------------------------- setup steps

  /** Nobody replaces a setup, so it hands no port to a deferred cleanup; what it lists is its own. */
  lemma SetupSettled(w: World, w': World, t: Tid, th: Thread, p: PortId)
    requires Linear(w) && SingleHolder(w) && t in w.threads && th == w.threads[t] && SetupPoint(th.at) && SetupEffect(w, w', t, th)
    requires Settled(w, p) && th.port != Some(p)
    ensures Settled(w', p)
  {
    hide LogKnown, RightsAgree, SingleHolder;
  }

  lemma SetupCleanupsSettled(w: World, w': World, t: Tid, th: Thread, out: set<PortId>)
    requires Linear(w) && SingleHolder(w) && CleanupsSettled(w, out)
    requires t in w.threads && th == w.threads[t] && SetupPoint(th.at) && SetupEffect(w, w', t, th)
    ensures CleanupsSettled(w', out)
  {
    forall s | s in w'.reg.cleanup && w'.reg.cleanup[s].port !in out ensures Settled(w', w'.reg.cleanup[s].port) {
      hide Settled, SingleHolder, LogKnown;
      SetupSettled(w, w', t, th, w.reg.cleanup[s].port);
    }
    hide Settled, SingleHolder, FreshNames, RightsAgree;
  }

  lemma SetupDisposalsSettled(w: World, w': World, t: Tid, th: Thread, out: set<PortId>)
    requires Linear(w) && SingleHolder(w) && DisposalsSettled(w, out)
    requires t in w.threads && th == w.threads[t] && SetupPoint(th.at) && SetupEffect(w, w', t, th)
    ensures DisposalsSettled(w', out)
  {
    forall u | u in w'.threads && w'.threads[u].at.Disposing? && w'.threads[u].port.Some? && w'.threads[u].port.value !in out
      ensures Settled(w', w'.threads[u].port.value) && !Seated(w'.conf, w'.threads[u].port.value)
    {
      hide Settled, LogKnown;
      assert u in w.threads && u != t;
      SetupSettled(w, w', t, th, w.threads[u].port.value);
    }
  }

  /** Setups neither ask for removals nor destroy anything. */
  lemma SetupAskersSeated(w: World, w': World, t: Tid, th: Thread)
    requires Linear(w) && AskersSeated(w) && t in w.threads && th == w.threads[t] && SetupPoint(th.at) && SetupEffect(w, w', t, th)
    ensures AskersSeated(w')
  {
    hide LogKnown, RightsAgree, Shaped;
  }

  lemma SetupAskersAlone(w: World, w': World, t: Tid, th: Thread)
    requires Linear(w) && AskersAlone(w) && t in w.threads && th == w.threads[t] && SetupPoint(th.at) && SetupEffect(w, w', t, th)
    ensures AskersAlone(w')
  {
    hide LogKnown, RightsAgree, Shaped;
  }

  lemma SetupRefusalsKnown(w: World, w': World, t: Tid, th: Thread, out: set<PortId>)
    requires Linear(w) && RefusalsKnown(w, out) && DoneSlotsEmpty(w)
    requires t in w.threads && th == w.threads[t] && SetupPoint(th.at) && SetupEffect(w, w', t, th)
    ensures RefusalsKnown(w', out) && DoneSlotsEmpty(w')
  {
    hide LogKnown, RightsAgree, Shaped;
  }

  lemma SetupDestroysNothing(w: World, t: Tid, th: Thread, answer: Answer)
    requires Acts(w, t, th) && SetupPoint(th.at)
    ensures SetupStep(w, t, th, answer).rights.seatedWhenDestroyed == w.rights.seatedWhenDestroyed
  {
  }

  lemma SetupStaysOff(w: World, t: Tid, th: Thread, answer: Answer, out: set<PortId>)
    requires Bridged(w, out) && t in w.threads && th == w.threads[t] && SetupPoint(th.at)
    ensures OffTheBridge(SetupStep(w, t, th, answer), out)
  {
    hide SetupStep, SetupEffect, CleanupsSettled, DisposalsSettled, DoneSlotsEmpty, AskersSeated, AskersAlone, RefusalsKnown, SingleHolder;
    hide Orderly, MakersKnown, SeatsKnown, LoansKnown, PendingKnown, NotifiersKnown, AttachedWhereNeeded, AttachedWhenTold, RightsAgree, LogKnown, CallsKnown, Mature, PortsListed, CallsListed;
    var w' := SetupStep(w, t, th, answer);
    SetupHasEffect(w, t, th, answer);
    SetupCleanupsSettled(w, w', t, th, out);
    SetupDisposalsSettled(w, w', t, th, out);
    SetupAskersSeated(w, w', t, th);
    SetupAskersAlone(w, w', t, th);
    SetupRefusalsKnown(w, w', t, th, out);
    SetupDestroysNothing(w, t, th, answer);
  }

  // ---------------------------------------------------------------- teardown steps

  lemma TeardownSettled(w: World, w': World, t: Tid, th: Thread, p: PortId)
    requires Acts(w, t, th) && TeardownPoint(th.at) && TeardownEffect(w, w', t, th) && Settled(w, p)
    ensures Settled(w', p)
  {
  }

  /** A seated port is settled. */
  lemma SeatedIsSettled(w: World, p: PortId)
    requires PortsListed(w) && Seated(w.conf, p)
    ensures Settled(w, p)
  {
    hide ListedUnder;
  }

  /** What a teardown registers, hands over and frees: its own port, or one that is on record. */
  lemma TeardownCleans(w: World, t: Tid, th: Thread, answer: Answer, out: set<PortId>)
    requires Acts(w, t, th) && TeardownPoint(th.at) && ResolvingFound(w) && RefusalsKnown(w, out)
    ensures var w', all := TeardownStep(w, t, th, answer), out + RefusedBy(w, Go(t, answer, 0)) + GivenUpBy(w, Go(t, answer, 0));
      && (forall s :: s in w'.reg.cleanup ==>
            || (s in w.reg.cleanup && w'.reg.cleanup[s] == w.reg.cleanup[s])
            || w'.reg.cleanup[s].port in all
            || (s in w.conf.slots && w.conf.slots[s].port == w'.reg.cleanup[s].port && th.at.Resolving? && th.at.found == Some(s)))
      && (t in w'.threads && w'.threads[t].at.FallingBack? && w'.threads[t].at.slot in w'.reg.cleanup ==>
            w'.reg.cleanup[w'.threads[t].at.slot].port in all)
      && (forall u :: u in w'.threads && w'.threads[u].at.Disposing? && w'.threads[u].port.Some? ==>
            (u in w.threads && w'.threads[u] == w.threads[u]) || w'.threads[u].port.value in all)
      && w'.rights.seatedWhenDestroyed <= w.rights.seatedWhenDestroyed + all
  {
  }

  lemma TeardownCleanupsSettled(w: World, t: Tid, th: Thread, answer: Answer, out: set<PortId>)
    requires FreshNames(w) && PortsListed(w) && ResolvingFound(w) && RefusalsKnown(w, out) && CleanupsSettled(w, out) && DisposalsSettled(w, out)
    requires t in w.threads && th == w.threads[t] && TeardownPoint(th.at)
    ensures var w', all := TeardownStep(w, t, th, answer), out + RefusedBy(w, Go(t, answer, 0)) + GivenUpBy(w, Go(t, answer, 0));
      CleanupsSettled(w', all) && DisposalsSettled(w', all)
  {
    var w', all := TeardownStep(w, t, th, answer), out + RefusedBy(w, Go(t, answer, 0)) + GivenUpBy(w, Go(t, answer, 0));
    TeardownHasEffect(w, t, th, answer);
    TeardownCleans(w, t, th, answer, out);
    forall p | Settled(w, p) ensures Settled(w', p) { TeardownSettled(w, w', t, th, p); }
    forall p | Seated(w.conf, p) ensures Settled(w, p) { SeatedIsSettled(w, p); }
    assert w'.conf.slots == w.conf.slots;
    hide TeardownStep, RefusedBy, GivenUpBy, Settled, PortsListed, ResolvingFound, RefusalsKnown, FreshNames, TeardownEffect;
  }

  /** A slot that a teardown has found is asked for by nobody, and its pool is not idle. */
  lemma FoundIsBusy(w: World, t: Tid, th: Thread)
    requires Acts(w, t, th) && RightsAgree(w) && SeatsKnown(w) && AskersKnown(w) && th.at.Resolving? && th.at.found.Some?
    ensures var s := th.at.found.value;
      s in w.conf.slots && s !in w.conf.removing && (forall u :: u in w.threads ==> !Asks(w.threads[u].at, s))
  {
    assert !Idle(w, th.pool.value);
  }

  /** Whoever asks after a teardown step asked before, or has just registered what it found. */
  lemma TeardownAsks(w: World, t: Tid, th: Thread, answer: Answer)
    requires Acts(w, t, th) && TeardownPoint(th.at)
    ensures var w' := TeardownStep(w, t, th, answer);
      && (t in w'.threads && w'.threads[t].at.Removing? ==>
            th.at.Resolving? && th.at.found == Some(w'.threads[t].at.slot) && w'.conf.removing == w.conf.removing)
      && (t in w'.threads && w'.threads[t].at.FallingBack? ==>
            th.at.Removing? && w'.threads[t].at.slot == th.at.slot && w'.conf.removing == w.conf.removing)
      && (w'.conf.removing == w.conf.removing || (th.at.Removing? && w'.conf.removing == w.conf.removing + {th.at.slot} &&
            (t in w'.threads ==> !w'.threads[t].at.Removing? && !w'.threads[t].at.FallingBack?)))
  {
  }

  /** The thread itself, if it asks now, asks for a slot that nobody had asked for, or goes on asking. */
  lemma TeardownSeatsSelf(w: World, t: Tid, th: Thread, answer: Answer)
    requires FreshNames(w) && RightsAgree(w) && SeatsKnown(w) && AskersKnown(w)
    requires t in w.threads && th == w.threads[t] && TeardownPoint(th.at)
    ensures var w' := TeardownStep(w, t, th, answer);
      t in w'.threads && (w'.threads[t].at.Removing? || w'.threads[t].at.FallingBack?) ==>
        var s := w'.threads[t].at.slot; s in w.conf.slots && s !in w'.conf.removing && Idle(w', w.conf.slots[s].pool)
  {
    var w' := TeardownStep(w, t, th, answer);
    TeardownAsks(w, t, th, answer);
    RemovingIsIdle(w, t, th, answer);
    if th.at.Resolving? && th.at.found.Some? { FoundIsBusy(w, t, th); }
    if th.at.Removing? { TeardownIdle(w, t, th, answer, w.conf.slots[th.at.slot].pool); }
    hide TeardownStep, Idle, RightsAgree, FreshNames, SeatsKnown, Shaped;
  }

  lemma TeardownAskersSeated(w: World, t: Tid, th: Thread, answer: Answer)
    requires FreshNames(w) && RightsAgree(w) && SeatsKnown(w) && AskersKnown(w)
    requires t in w.threads && th == w.threads[t] && TeardownPoint(th.at)
    ensures AskersSeated(TeardownStep(w, t, th, answer))
  {
    var w' := TeardownStep(w, t, th, answer);
    TeardownHasEffect(w, t, th, answer);
    TeardownAsks(w, t, th, answer);
    TeardownSeatsSelf(w, t, th, answer);
    forall b | Idle(w, b) ensures Idle(w', b) { TeardownIdle(w, t, th, answer, b); }
    hide TeardownStep, Idle, RightsAgree, FreshNames, SeatsKnown, Shaped;
  }

  lemma TeardownAskersAlone(w: World, t: Tid, th: Thread, answer: Answer)
    requires FreshNames(w) && RightsAgree(w) && SeatsKnown(w) && AskersKnown(w)
    requires t in w.threads && th == w.threads[t] && TeardownPoint(th.at)
    ensures AskersAlone(TeardownStep(w, t, th, answer))
  {
    TeardownHasEffect(w, t, th, answer);
    TeardownAsks(w, t, th, answer);
    if th.at.Resolving? && th.at.found.Some? { FoundIsBusy(w, t, th); }
    hide TeardownStep, AskersSeated, RightsAgree, FreshNames, SeatsKnown, Shaped;
  }

  lemma TeardownAskersKnown(w: World, t: Tid, th: Thread, answer: Answer)
    requires FreshNames(w) && RightsAgree(w) && SeatsKnown(w) && AskersKnown(w)
    requires t in w.threads && th == w.threads[t] && TeardownPoint(th.at)
    ensures AskersKnown(TeardownStep(w, t, th, answer))
  {
    hide TeardownStep, AskersSeated, AskersAlone, RightsAgree, FreshNames, SeatsKnown;
    TeardownAskersSeated(w, t, th, answer);
    TeardownAskersAlone(w, t, th, answer);
  }

  lemma TeardownRefusalsKnown(w: World, t: Tid, th: Thread, answer: Answer, out: set<PortId>)
    requires FreshNames(w) && RightsAgree(w) && SeatsKnown(w) && AskersKnown(w) && RefusalsKnown(w, out) && ResolvingFound(w)
    requires t in w.threads && th == w.threads[t] && TeardownPoint(th.at)
    ensures var w' := TeardownStep(w, t, th, answer);
      RefusalsKnown(w', out + RefusedBy(w, Go(t, answer, 0)) + GivenUpBy(w, Go(t, answer, 0)))
  {
    TeardownHasEffect(w, t, th, answer);
    TeardownCleans(w, t, th, answer, out);
    if th.at.Resolving? && th.at.found.Some? { FoundIsBusy(w, t, th); }
    hide TeardownStep, RefusedBy, GivenUpBy, RightsAgree, FreshNames, SeatsKnown, ResolvingFound, AskersSeated, AskersAlone, Shaped;
  }

  lemma TeardownDone(w: World, w': World, t: Tid, th: Thread)
    requires FreshNames(w) && DoneSlotsEmpty(w) && t in w.threads && th == w.threads[t] && TeardownPoint(th.at) && TeardownEffect(w, w', t, th)
    ensures DoneSlotsEmpty(w')
  {
  }

  lemma TeardownStaysOff(w: World, t: Tid, th: Thread, answer: Answer, out: set<PortId>)
    requires Bridged(w, out) && t in w.threads && th == w.threads[t] && TeardownPoint(th.at)
    ensures OffTheBridge(TeardownStep(w, t, th, answer), out + RefusedBy(w, Go(t, answer, 0)) + GivenUpBy(w, Go(t, answer, 0)))
  {
    hide TeardownStep, TeardownEffect, CleanupsSettled, DisposalsSettled, DoneSlotsEmpty, AskersSeated, AskersAlone, RefusalsKnown, SingleHolder, RefusedBy, GivenUpBy;
    hide Orderly, MakersKnown, SeatsKnown, LoansKnown, PendingKnown, NotifiersKnown, PastAttached, ResolvingFound, SessionsAttached, AttachedWhenTold, RightsAgree, LogKnown, CallsKnown, Mature, PortsListed, CallsListed;
    TeardownHasEffect(w, t, th, answer);
    TeardownCleanupsSettled(w, t, th, answer, out);
    TeardownAskersKnown(w, t, th, answer);
    TeardownRefusalsKnown(w, t, th, answer, out);
    TeardownDone(w, TeardownStep(w, t, th, answer), t, th);
    TeardownCleans(w, t, th, answer, out);
  }

  // ---------------------------------------------------------------- the other steps

  lemma OtherSettled(w: World, w': World, t: Tid, th: Thread, slot: SlotId, p: PortId)
    requires Acts(w, t, th) && !SetupPoint(th.at) && !TeardownPoint(th.at) && OtherEffect(w, w', t, th, slot) && Settled(w, p)
    ensures Settled(w', p)
  {
  }

  /** What a callback seats is not settled. */
  lemma OtherSeats(w: World, w': World, t: Tid, th: Thread, slot: SlotId, p: PortId)
    requires Acts(w, t, th) && !SetupPoint(th.at) && !TeardownPoint(th.at) && OtherEffect(w, w', t, th, slot) && Settled(w, p)
    requires t in w'.threads && w'.threads[t].at.MediaPublish? ==> slot !in w.conf.slots && th.pool.Some?
    ensures Seated(w'.conf, p) ==> Seated(w.conf, p)
    ensures forall s :: s in w.conf.slots ==> s in w'.conf.slots && w'.conf.slots[s] == w.conf.slots[s]
  {
  }

  /** Only the end of an operation takes a cleanup, and only a disposal destroys. */
  lemma OtherCleans(w: World, t: Tid, th: Thread, answer: Answer, slot: SlotId)
    requires Acts(w, t, th) && !SetupPoint(th.at) && !TeardownPoint(th.at)
    ensures var w' := OtherStep(w, t, th, answer, slot);
      && (forall s :: s in w'.reg.cleanup ==> s in w.reg.cleanup && w'.reg.cleanup[s] == w.reg.cleanup[s])
      && (t in w'.threads && w'.threads[t].at.Disposing? ==>
            th.at.OpDone? && th.at.ok && th.at.slot in w.reg.cleanup && w'.threads[t].port == Some(w.reg.cleanup[th.at.slot].port))
      && (forall u :: u in w'.threads && u !in w.threads ==> false)
      && (w'.rights.seatedWhenDestroyed == w.rights.seatedWhenDestroyed ||
          (th.at.Disposing? && th.port.Some? && Seated(w.conf, th.port.value) &&
           w'.rights.seatedWhenDestroyed == w.rights.seatedWhenDestroyed + {th.port.value}))
  {
  }

  lemma OtherCleanupsSettled(w: World, t: Tid, th: Thread, answer: Answer, slot: SlotId, out: set<PortId>)
    requires Acts(w, t, th) && RightsAgree(w) && CleanupsSettled(w, out) && DisposalsSettled(w, out) && DoneSlotsEmpty(w)
    requires !SetupPoint(th.at) && !TeardownPoint(th.at) && SlotRule(w, Go(t, answer, slot))
    ensures var w' := OtherStep(w, t, th, answer, slot); CleanupsSettled(w', out) && DisposalsSettled(w', out)
  {
    var w' := OtherStep(w, t, th, answer, slot);
    OtherHasEffect(w, t, th, answer, slot);
    OtherCleans(w, t, th, answer, slot);
    AddsFreshSlot(w, t, th, answer, slot);
    forall p | Settled(w, p) ensures Settled(w', p) && (Seated(w'.conf, p) ==> Seated(w.conf, p)) &&
        forall s :: s in w.conf.slots ==> s in w'.conf.slots && w'.conf.slots[s] == w.conf.slots[s]
    {
      OtherSettled(w, w', t, th, slot, p);
      OtherSeats(w, w', t, th, slot, p);
    }
    OtherFramed(w, w', t, th, slot);
    hide OtherStep, OtherEffect, Settled, RightsAgree, Shaped, Seated;
  }

  lemma OtherFramed(w: World, w': World, t: Tid, th: Thread, slot: SlotId)
    requires OtherEffect(w, w', t, th, slot)
    ensures Framed(w, w', t)
  {
  }

  lemma OtherAskersSeated(w: World, w': World, t: Tid, th: Thread, slot: SlotId)
    requires FreshNames(w) && AskersSeated(w)
    requires t in w.threads && th == w.threads[t] && !SetupPoint(th.at) && !TeardownPoint(th.at) && OtherEffect(w, w', t, th, slot)
    requires t in w'.threads && w'.threads[t].at.MediaPublish? ==> SlotRule(w, Go(t, Yes, slot)) && th.at.MediaAdd? && th.pool.Some?
    requires forall b :: Idle(w, b) ==> Idle(w', b)
    ensures AskersSeated(w')
  {
    hide Idle, LogKnown, Shaped;
  }

  lemma OtherAskersAlone(w: World, w': World, t: Tid, th: Thread, slot: SlotId)
    requires FreshNames(w) && AskersAlone(w) && DoneSlotsEmpty(w)
    requires t in w.threads && th == w.threads[t] && !SetupPoint(th.at) && !TeardownPoint(th.at) && OtherEffect(w, w', t, th, slot)
    requires t in w'.threads && w'.threads[t].at.MediaPublish? ==> SlotRule(w, Go(t, Yes, slot)) && th.at.MediaAdd? && th.pool.Some?
    ensures AskersAlone(w') && DoneSlotsEmpty(w')
  {
    hide LogKnown, Shaped;
  }

  lemma OtherRefusalsKnown(w: World, t: Tid, th: Thread, answer: Answer, slot: SlotId, out: set<PortId>)
    requires FreshNames(w) && RefusalsKnown(w, out) && DisposalsSettled(w, out) && w.rights.seatedWhenDestroyed <= out
    requires t in w.threads && th == w.threads[t] && !SetupPoint(th.at) && !TeardownPoint(th.at)
    ensures var w' := OtherStep(w, t, th, answer, slot); RefusalsKnown(w', out) && w'.rights.seatedWhenDestroyed <= out
  {
    OtherHasEffect(w, t, th, answer, slot);
    OtherCleans(w, t, th, answer, slot);
    hide OtherStep, Settled, LogKnown;
  }

  lemma OtherStaysOff(w: World, t: Tid, th: Thread, answer: Answer, slot: SlotId, out: set<PortId>)
    requires Bridged(w, out) && t in w.threads && th == w.threads[t] && !SetupPoint(th.at) && !TeardownPoint(th.at)
    requires SlotRule(w, Go(t, answer, slot))
    ensures OffTheBridge(OtherStep(w, t, th, answer, slot), out)
  {
    hide OtherStep, OtherEffect, CleanupsSettled, DisposalsSettled, DoneSlotsEmpty, AskersSeated, AskersAlone, RefusalsKnown, SingleHolder;
    hide Orderly, MakersKnown, SeatsKnown, LoansKnown, PendingKnown, NotifiersKnown, AttachedWhereNeeded, AttachedWhenTold, RightsAgree, LogKnown, CallsKnown, Mature, PortsListed, CallsListed;
    var w' := OtherStep(w, t, th, answer, slot);
    OtherHasEffect(w, t, th, answer, slot);
    AddsFreshSlot(w, t, th, answer, slot);
    forall b | Idle(w, b) ensures Idle(w', b) { OtherIdle(w, t, th, answer, slot, b); }
    OtherCleanupsSettled(w, t, th, answer, slot, out);
    OtherAskersSeated(w, w', t, th, slot);
    OtherAskersAlone(w, w', t, th, slot);
    OtherRefusalsKnown(w, t, th, answer, slot, out);
  }

  // ---------------------------------------------------------------- the environment

  lemma EnvCleanupsSettled(w: World, a: Action, out: set<PortId>)
    requires FreshNames(w) && SeatsListed(w) && CleanupsSettled(w, out) && Enabled(w, a) && !a.Go?
    ensures CleanupsSettled(Next(w, a), out)
  {
    hide LogKnown, Hidden;
  }

  lemma EnvDisposalsSettled(w: World, a: Action, out: set<PortId>)
    requires FreshNames(w) && DisposalsSettled(w, out) && Enabled(w, a) && !a.Go?
    ensures DisposalsSettled(Next(w, a), out)
  {
    hide LogKnown;
  }

  lemma EnvIdle(w: World, a: Action, b: PoolId)
    requires FreshNames(w) && Enabled(w, a) && !a.Go? && Idle(w, b)
    ensures Idle(Next(w, a), b)
  {
    hide LogKnown;
  }

  lemma EnvAskersSeated(w: World, a: Action)
    requires FreshNames(w) && AskersSeated(w) && Enabled(w, a) && !a.Go?
    ensures AskersSeated(Next(w, a))
  {
    forall b | Idle(w, b) ensures Idle(Next(w, a), b) { EnvIdle(w, a, b); }
    hide LogKnown, Idle;
  }

  lemma EnvAskersAlone(w: World, a: Action, out: set<PortId>)
    requires FreshNames(w) && AskersAlone(w) && DoneSlotsEmpty(w) && RefusalsKnown(w, out) && Enabled(w, a) && !a.Go?
    ensures AskersAlone(Next(w, a)) && DoneSlotsEmpty(Next(w, a)) && RefusalsKnown(Next(w, a), out)
  {
    hide LogKnown;
  }

  // ---------------------------------------------------------------- every step, every run

  lemma StepStaysOff(w: World, a: Action, out: set<PortId>)
    requires Bridged(w, out) && Enabled(w, a) && MediaRules(w, a)
    ensures Bridged(Next(w, a), out + RefusedBy(w, a) + GivenUpBy(w, a))
  {
    hide SetupStep, TeardownStep, OtherStep, OffTheBridge, MediaKnown, Orderly, FreshNames, RightsAgree, CallsKnown, MakersKnown, SeatsKnown, Mature, PortsListed, CallsListed;
    StepKeepsMedia(w, a);
    StepKeepsBelonging(w, a);
    StepIsOff(w, a, out);
  }

  lemma StepIsOff(w: World, a: Action, out: set<PortId>)
    requires Bridged(w, out) && Enabled(w, a) && MediaRules(w, a)
    ensures OffTheBridge(Next(w, a), out + RefusedBy(w, a) + GivenUpBy(w, a))
  {
    hide SetupStep, TeardownStep, OtherStep, MediaKnown, Orderly, RightsAgree, CallsKnown, MakersKnown, SeatsKnown, Mature, PendingListed, LentListed, LentOnce, ActiveListed, CallsListed, LogKnown;
    hide CleanupsSettled, DisposalsSettled, DoneSlotsEmpty, AskersSeated, AskersAlone, RefusalsKnown, SeatsListed;
    if a.Go? {
      var th := w.threads[a.t];
      if SetupPoint(th.at) {
        SetupStaysOff(w, a.t, th, a.answer, out);
        assert RefusedBy(w, a) == {} && GivenUpBy(w, a) == {} && out + {} + {} == out;
      } else if TeardownPoint(th.at) {
        TeardownStaysOff(w, a.t, th, a.answer, out);
        assert RefusedBy(w, a) == RefusedBy(w, Go(a.t, a.answer, 0)) && GivenUpBy(w, a) == GivenUpBy(w, Go(a.t, a.answer, 0));
      } else {
        OtherStaysOff(w, a.t, th, a.answer, a.slot, out);
        assert RefusedBy(w, a) == {} && GivenUpBy(w, a) == {} && out + {} + {} == out;
      }
    } else {
      EnvCleanupsSettled(w, a, out);
      EnvDisposalsSettled(w, a, out);
      EnvAskersSeated(w, a);
      EnvAskersAlone(w, a, out);
      assert RefusedBy(w, a) == {} && GivenUpBy(w, a) == {} && out + {} + {} == out;
    }
  }

  lemma {:induction false} RunStaysOff(w: World, actions: seq<Action>, out: set<PortId>)
    requires Bridged(w, out) && IsRun(MediaRules, w, actions) && IsRun(Free, w, actions)
    ensures Bridged(After(w, actions), out + Refused(w, actions) + GivenUp(w, actions))
    decreases |actions|
  {
    hide Bridged;
    if actions == [] {
      assert out + {} + {} == out;
    } else {
      var a, w', rest := actions[0], Next(w, actions[0]), actions[1..];
      StepStaysOff(w, a, out);
      RunStaysOff(w', rest, out + RefusedBy(w, a) + GivenUpBy(w, a));
      assert out + RefusedBy(w, a) + GivenUpBy(w, a) + Refused(w', rest) + GivenUp(w', rest) == out + Refused(w, actions) + GivenUp(w, actions);
    }
  }

  lemma InitIsBridged(maxCalls: nat)
    ensures Bridged(Init(maxCalls), {})
  {
    InitIsMediaOrderly(maxCalls);
    InitIsBelonging(maxCalls);
    hide MediaOrderly, Belonging;
  }

  /** With media callbacks in fine steps, and removals that may be refused or fail: a port is never freed
      while it sits in a conference slot, unless its removal was refused, or its setup gave up before it
      was told that its media was ready. */
  lemma FreedOffTheBridge(maxCalls: nat, actions: seq<Action>, p: PortId)
    requires IsRun(MediaRules, Init(maxCalls), actions)
    ensures IsRun(Free, Init(maxCalls), actions)
    ensures p in After(Init(maxCalls), actions).rights.seatedWhenDestroyed ==>
              p in Refused(Init(maxCalls), actions) || p in GivenUp(Init(maxCalls), actions)
  {
    AnyRunIsFree(MediaRules, Init(maxCalls), actions);
    InitIsBridged(maxCalls);
    RunStaysOff(Init(maxCalls), actions, {});
    hide MediaOrderly, Belonging, CleanupsSettled, DisposalsSettled, DoneSlotsEmpty, AskersKnown, RefusalsKnown, Init;
  }
}
