/**
 Whatever the registries keep under a call id belongs to a call of that id that has registered it.

 Only `SlotRule` is assumed: ids may be reused at any moment, and threads interleave at every lock.
 */
module Belongings {
  import opened Wrappers
  import opened CallMachine
  import opened Effects
  import opened Ownership
  import opened Orphans
  import opened MediaAttachment

  /** Nothing of call `j` is in any map yet: it has no port, or has not listed it. */
  predicate Hidden(w: World, j: Instance) {
    j !in w.rights.makers || At(w, Setup(j), HasPort)
  }

  /** The port was made for a call of id `c`, which has listed it. */
  predicate ListedUnder(w: World, c: CallId, p: PortId) {
    p < |w.rights.makers| && w.rights.makers[p] < |w.sip.dialed| && w.sip.dialed[w.rights.makers[p]] == c &&
    !Hidden(w, w.rights.makers[p])
  }

  /** A pending port is in no slot ... */
  ghost predicate PendingListed(w: World) {
    forall c :: c in w.reg.pendingPorts ==>
      ListedUnder(w, c, w.reg.pendingPorts[c]) && !Seated(w.conf, w.reg.pendingPorts[c])
  }

  /** ... nor is one that a callback carries, until it is added; and it is not pending ... */
  ghost predicate LentListed(w: World) {
    forall t :: t in w.threads && Carries(w.threads[t].at) ==>
      var th := w.threads[t];
      && ListedUnder(w, th.call, th.at.lent)
      && (th.call in w.reg.pendingPorts ==> w.reg.pendingPorts[th.call] != th.at.lent)
      && (if th.at.MediaPublish? then th.at.slot in w.conf.slots && w.conf.slots[th.at.slot].port == th.at.lent
          else !Seated(w.conf, th.at.lent))
  }

  /** ... nor carried by another. */
  ghost predicate LentOnce(w: World) {
    forall t, u :: t in w.threads && u in w.threads && t != u && Carries(w.threads[t].at) && Carries(w.threads[u].at) ==>
      w.threads[t].at.lent != w.threads[u].at.lent
  }

  ghost predicate SeatsListed(w: World) {
    && (forall s :: s in w.conf.slots ==>
          w.conf.slots[s].port < |w.rights.makers| && !Hidden(w, w.rights.makers[w.conf.slots[s].port]))
    && (forall s, r :: s in w.conf.slots && r in w.conf.slots && s != r ==> w.conf.slots[s].port != w.conf.slots[r].port)
  }

  ghost predicate ActiveListed(w: World) {
    forall c :: c in w.reg.active ==>
      w.reg.active[c].slot in w.conf.slots && ListedUnder(w, c, w.conf.slots[w.reg.active[c].slot].port)
  }

  ghost predicate CallsListed(w: World) {
    && (forall c :: c in w.reg.readyTx ==>
          var j := w.reg.readyTx[c]; j < |w.sip.dialed| && w.sip.dialed[j] == c && !Hidden(w, j))
    && (forall c :: c in w.mgr.pending ==> !Hidden(w, w.mgr.pending[c].who))
    && (forall c :: c in w.mgr.sessions ==> !Hidden(w, w.mgr.sessions[c].who))
  }

  /** A setup that is past its listing has a port. */
  ghost predicate Mature(w: World) {
    forall i: Instance :: Setup(i) in w.threads && SetupPoint(w.threads[Setup(i)].at) && Hidden(w, i) ==>
      var at := w.threads[Setup(i)].at; at.Spawned? || at.Admitted? || at.HasPort?
  }

  ghost predicate PortsListed(w: World) {
    PendingListed(w) && LentListed(w) && LentOnce(w) && SeatsListed(w) && ActiveListed(w)
  }

  ghost predicate Belonging(w: World) {
    Linear(w) && CallsKnown(w) && MakersKnown(w) && SeatsKnown(w) && Mature(w) && PortsListed(w) && CallsListed(w)
  }

  // ---------------------------------------------------------------- what shows stays

  /** What has been registered is not hidden again. */
  ghost predicate Shows(w: World, w': World) {
    && |w.rights.makers| <= |w'.rights.makers| && |w.sip.dialed| <= |w'.sip.dialed|
    && (forall p :: 0 <= p < |w.rights.makers| ==> w'.rights.makers[p] == w.rights.makers[p])
    && (forall j :: 0 <= j < |w.sip.dialed| ==> w'.sip.dialed[j] == w.sip.dialed[j])
    && (forall j: Instance :: !Hidden(w, j) ==> !Hidden(w', j))
  }

  lemma SetupShows(w: World, w': World, t: Tid, th: Thread)
    requires FreshNames(w) && MakersKnown(w) && Acts(w, t, th) && SetupPoint(th.at) && SetupEffect(w, w', t, th)
    ensures Shows(w, w')
  {
    hide LogKnown, Shaped;
  }

  lemma TeardownShows(w: World, w': World, t: Tid, th: Thread)
    requires Acts(w, t, th) && TeardownPoint(th.at) && TeardownEffect(w, w', t, th)
    ensures Shows(w, w')
  {
  }

  lemma OtherShows(w: World, w': World, t: Tid, th: Thread, slot: SlotId)
    requires Acts(w, t, th) && !SetupPoint(th.at) && !TeardownPoint(th.at) && OtherEffect(w, w', t, th, slot)
    ensures Shows(w, w')
  {
  }

  lemma EnvShows(w: World, a: Action)
    requires FreshNames(w) && Enabled(w, a) && !a.Go?
    ensures Shows(w, Next(w, a))
  {
  }

  lemma ListedStays(w: World, w': World, c: CallId, p: PortId)
    requires Shows(w, w') && ListedUnder(w, c, p)
    ensures ListedUnder(w', c, p)
  {
  }

  // ---------------------------------------------------------------- setup steps

  /** The port a setup lists is its own, and nobody has it yet. */
  lemma ListsOwnPort(w: World, w': World, t: Tid, th: Thread)
    requires Acts(w, t, th) && th.at.HasPort? && SetupEffect(w, w', t, th) && th.port.Some?
    requires CallsKnown(w) && MakersKnown(w) && PortsListed(w) && Shows(w, w')
    ensures ListedUnder(w', th.call, th.port.value) && !Seated(w.conf, th.port.value)
    ensures forall u :: u in w.threads && Carries(w.threads[u].at) ==> w.threads[u].at.lent != th.port.value
  {
    assert Hidden(w, t.who) && w.rights.makers[th.port.value] == t.who;
    hide Shaped, Framed, SeatsKnown;
  }

  lemma SetupPendingListed(w: World, w': World, t: Tid, th: Thread)
    requires FreshNames(w) && CallsKnown(w) && MakersKnown(w) && PortsListed(w) && Shows(w, w')
    requires t in w.threads && th == w.threads[t] && SetupPoint(th.at) && SetupEffect(w, w', t, th)
    ensures PendingListed(w')
  {
    hide Hidden, LogKnown;
    if th.at.HasPort? && th.port.Some? { ListsOwnPort(w, w', t, th); }
    forall c | c in w'.reg.pendingPorts ensures ListedUnder(w', c, w'.reg.pendingPorts[c]) && !Seated(w'.conf, w'.reg.pendingPorts[c]) {
      hide FreshNames, CallsKnown, MakersKnown, LentListed, LentOnce, SeatsListed, ActiveListed, ListedUnder, Shows;
      if c in w.reg.pendingPorts && w'.reg.pendingPorts[c] == w.reg.pendingPorts[c] { ListedStays(w, w', c, w.reg.pendingPorts[c]); }
    }
  }

  lemma SetupLentListed(w: World, w': World, t: Tid, th: Thread)
    requires FreshNames(w) && CallsKnown(w) && MakersKnown(w) && PortsListed(w) && Shows(w, w')
    requires t in w.threads && th == w.threads[t] && SetupPoint(th.at) && SetupEffect(w, w', t, th)
    ensures LentListed(w') && LentOnce(w')
  {
    hide Hidden, LogKnown;
    if th.at.HasPort? && th.port.Some? { ListsOwnPort(w, w', t, th); }
    forall u | u in w'.threads && Carries(w'.threads[u].at) ensures u in w.threads && w.threads[u] == w'.threads[u] && ListedUnder(w', w.threads[u].call, w.threads[u].at.lent) {
      assert u != t && u in w.threads;
      ListedStays(w, w', w.threads[u].call, w.threads[u].at.lent);
    }
    hide FreshNames, CallsKnown, MakersKnown, PendingListed, SeatsListed, ActiveListed, ListedUnder, Shows;
  }

  lemma SetupSeatsListed(w: World, w': World, t: Tid, th: Thread)
    requires FreshNames(w) && CallsKnown(w) && MakersKnown(w) && PortsListed(w) && Shows(w, w')
    requires t in w.threads && th == w.threads[t] && SetupPoint(th.at) && SetupEffect(w, w', t, th)
    ensures SeatsListed(w') && ActiveListed(w')
  {
    forall c | c in w.reg.active ensures ListedUnder(w', c, w.conf.slots[w.reg.active[c].slot].port) {
      ListedStays(w, w', c, w.conf.slots[w.reg.active[c].slot].port);
    }
    hide Hidden, FreshNames, CallsKnown, MakersKnown, PendingListed, LentListed, LentOnce, ListedUnder;
  }

  lemma SetupCallsListed(w: World, w': World, t: Tid, th: Thread)
    requires FreshNames(w) && CallsKnown(w) && MakersKnown(w) && CallsListed(w) && Shows(w, w')
    requires t in w.threads && th == w.threads[t] && SetupPoint(th.at) && SetupEffect(w, w', t, th)
    requires Mature(w)
    ensures CallsListed(w')
  {
    hide LogKnown;
  }

  lemma SetupMature(w: World, w': World, t: Tid, th: Thread)
    requires FreshNames(w) && CallsKnown(w) && MakersKnown(w) && Mature(w) && Shows(w, w')
    requires t in w.threads && th == w.threads[t] && SetupPoint(th.at) && SetupEffect(w, w', t, th)
    ensures CallsKnown(w') && Mature(w')
  {
    hide LogKnown, RunsAt;
  }

  // ---------------------------------------------------------------- teardown steps

  lemma TeardownLentListed(w: World, w': World, t: Tid, th: Thread)
    requires FreshNames(w) && LentListed(w) && LentOnce(w) && Shows(w, w')
    requires t in w.threads && th == w.threads[t] && TeardownPoint(th.at) && TeardownEffect(w, w', t, th)
    ensures LentListed(w') && LentOnce(w')
  {
    forall c, p | ListedUnder(w, c, p) ensures ListedUnder(w', c, p) { ListedStays(w, w', c, p); }
    hide Hidden, LogKnown, ListedUnder, Shows, Shaped;
  }

  lemma TeardownPortsListed(w: World, w': World, t: Tid, th: Thread)
    requires FreshNames(w) && PortsListed(w) && Shows(w, w')
    requires t in w.threads && th == w.threads[t] && TeardownPoint(th.at) && TeardownEffect(w, w', t, th)
    ensures PortsListed(w')
  {
    TeardownLentListed(w, w', t, th);
    forall c, p | ListedUnder(w, c, p) ensures ListedUnder(w', c, p) { ListedStays(w, w', c, p); }
    hide Hidden, FreshNames, ListedUnder, LentListed, LentOnce, Framed;
  }

  lemma TeardownCallsListed(w: World, w': World, t: Tid, th: Thread)
    requires FreshNames(w) && CallsKnown(w) && Mature(w) && CallsListed(w) && Shows(w, w')
    requires t in w.threads && th == w.threads[t] && TeardownPoint(th.at) && TeardownEffect(w, w', t, th)
    ensures CallsKnown(w') && Mature(w') && CallsListed(w')
  {
    hide LogKnown;
  }

  // ---------------------------------------------------------------- the other steps

  lemma OtherPendingListed(w: World, w': World, t: Tid, th: Thread, slot: SlotId)
    requires FreshNames(w) && PortsListed(w) && Shows(w, w')
    requires t in w.threads && th == w.threads[t] && !SetupPoint(th.at) && !TeardownPoint(th.at) && OtherEffect(w, w', t, th, slot)
    ensures PendingListed(w')
  {
    forall c, p | ListedUnder(w, c, p) ensures ListedUnder(w', c, p) { ListedStays(w, w', c, p); }
    hide Hidden, LogKnown, ListedUnder;
  }

  lemma OtherLentListed(w: World, w': World, t: Tid, th: Thread, slot: SlotId)
    requires FreshNames(w) && PortsListed(w) && Shows(w, w')
    requires t in w.threads && th == w.threads[t] && !SetupPoint(th.at) && !TeardownPoint(th.at) && OtherEffect(w, w', t, th, slot)
    requires t in w'.threads && w'.threads[t].at.MediaPublish? ==> slot !in w.conf.slots && th.pool.Some?
    ensures LentListed(w')
  {
    forall c, p | ListedUnder(w, c, p) ensures ListedUnder(w', c, p) { ListedStays(w, w', c, p); }
    hide Hidden, LogKnown, ListedUnder;
  }

  lemma OtherLentOnce(w: World, w': World, t: Tid, th: Thread, slot: SlotId)
    requires FreshNames(w) && PortsListed(w) && Shows(w, w')
    requires t in w.threads && th == w.threads[t] && !SetupPoint(th.at) && !TeardownPoint(th.at) && OtherEffect(w, w', t, th, slot)
    ensures LentOnce(w')
  {
    hide Hidden, LogKnown;
  }

  lemma OtherSeatsListed(w: World, w': World, t: Tid, th: Thread, slot: SlotId)
    requires FreshNames(w) && PortsListed(w) && Shows(w, w')
    requires t in w.threads && th == w.threads[t] && !SetupPoint(th.at) && !TeardownPoint(th.at) && OtherEffect(w, w', t, th, slot)
    requires t in w'.threads && w'.threads[t].at.MediaPublish? ==> slot !in w.conf.slots && th.pool.Some?
    ensures SeatsListed(w') && ActiveListed(w')
  {
    forall c, p | ListedUnder(w, c, p) ensures ListedUnder(w', c, p) { ListedStays(w, w', c, p); }
    hide Hidden, LogKnown;
  }

  lemma OtherCallsListed(w: World, w': World, t: Tid, th: Thread, slot: SlotId)
    requires FreshNames(w) && CallsKnown(w) && Mature(w) && CallsListed(w) && Shows(w, w')
    requires t in w.threads && th == w.threads[t] && !SetupPoint(th.at) && !TeardownPoint(th.at) && OtherEffect(w, w', t, th, slot)
    ensures CallsKnown(w') && Mature(w') && CallsListed(w')
  {
    hide LogKnown;
  }

  // ---------------------------------------------------------------- the environment

  lemma EnvLentListed(w: World, a: Action)
    requires FreshNames(w) && PortsListed(w) && Enabled(w, a) && !a.Go? && !a.RemoveCompleted? && Shows(w, Next(w, a))
    ensures LentListed(Next(w, a)) && LentOnce(Next(w, a))
  {
    forall c, p | ListedUnder(w, c, p) ensures ListedUnder(Next(w, a), c, p) { ListedStays(w, Next(w, a), c, p); }
    hide Hidden, LogKnown, ListedUnder, Shaped;
  }

  lemma EnvPortsListed(w: World, a: Action)
    requires FreshNames(w) && PortsListed(w) && Enabled(w, a) && !a.Go? && !a.RemoveCompleted? && Shows(w, Next(w, a))
    ensures PortsListed(Next(w, a))
  {
    EnvLentListed(w, a);
    forall c, p | ListedUnder(w, c, p) ensures ListedUnder(Next(w, a), c, p) { ListedStays(w, Next(w, a), c, p); }
    hide Hidden, LogKnown, ListedUnder, LentListed, LentOnce, FreshNames;
  }

  lemma RemovalLentListed(w: World, slot: SlotId, ok: bool)
    requires FreshNames(w) && RightsAgree(w) && SeatsKnown(w) && PortsListed(w) && slot in w.conf.removing
    requires Shows(w, CompleteRemoval(w, slot, ok))
    ensures LentListed(CompleteRemoval(w, slot, ok)) && LentOnce(CompleteRemoval(w, slot, ok))
  {
    var w' := CompleteRemoval(w, slot, ok);
    forall c, p | ListedUnder(w, c, p) ensures ListedUnder(w', c, p) { ListedStays(w, w', c, p); }
    hide Hidden, LogKnown, ListedUnder, FreedOnce, ActiveListed, PendingListed;
  }

  lemma RemovalPortsListed(w: World, slot: SlotId, ok: bool)
    requires FreshNames(w) && RightsAgree(w) && SeatsKnown(w) && PortsListed(w) && slot in w.conf.removing
    requires Shows(w, CompleteRemoval(w, slot, ok))
    ensures PortsListed(CompleteRemoval(w, slot, ok))
  {
    var w' := CompleteRemoval(w, slot, ok);
    RemovalLentListed(w, slot, ok);
    forall c, p | ListedUnder(w, c, p) ensures ListedUnder(w', c, p) { ListedStays(w, w', c, p); }
    hide Hidden, LogKnown, ListedUnder, LentListed, LentOnce, FreshNames, FreedOnce;
  }

  lemma EnvCallsListed(w: World, a: Action)
    requires FreshNames(w) && MakersKnown(w) && CallsKnown(w) && Mature(w) && CallsListed(w)
    requires Enabled(w, a) && !a.Go? && Shows(w, Next(w, a))
    ensures CallsKnown(Next(w, a)) && Mature(Next(w, a)) && CallsListed(Next(w, a))
  {
  }

  // ---------------------------------------------------------------- every step, every run

  lemma SetupKeepsBelonging(w: World, t: Tid, th: Thread, answer: Answer)
    requires Belonging(w) && t in w.threads && th == w.threads[t] && SetupPoint(th.at)
    requires var w' := SetupStep(w, t, th, answer); Linear(w')
    ensures Belonging(SetupStep(w, t, th, answer))
  {
    hide SetupStep, SetupEffect, Shows, LogKnown, RightsAgree, CallsKnown, MakersKnown, SeatsKnown, Mature, CallsListed;
    hide PendingListed, LentListed, LentOnce, SeatsListed, ActiveListed;
    var w' := SetupStep(w, t, th, answer);
    SetupHasEffect(w, t, th, answer);
    SetupShows(w, w', t, th);
    SetupMakersKnown(w, w', t, th);
    SetupSeatsKnown(w, w', t, th);
    SetupPendingListed(w, w', t, th);
    SetupLentListed(w, w', t, th);
    SetupSeatsListed(w, w', t, th);
    SetupCallsListed(w, w', t, th);
    SetupMature(w, w', t, th);
  }

  lemma TeardownKeepsBelonging(w: World, t: Tid, th: Thread, answer: Answer)
    requires Belonging(w) && t in w.threads && th == w.threads[t] && TeardownPoint(th.at)
    requires var w' := TeardownStep(w, t, th, answer); Linear(w')
    ensures Belonging(TeardownStep(w, t, th, answer))
  {
    hide TeardownStep, TeardownEffect, Shows, LogKnown, RightsAgree, CallsKnown, MakersKnown, SeatsKnown, Mature, CallsListed, PortsListed;
    var w' := TeardownStep(w, t, th, answer);
    TeardownHasEffect(w, t, th, answer);
    TeardownShows(w, w', t, th);
    TeardownMakersKnown(w, w', t, th);
    TeardownSeatsKnown(w, t, th, answer);
    TeardownPortsListed(w, w', t, th);
    TeardownCallsListed(w, w', t, th);
  }

  lemma OtherKeepsBelonging(w: World, t: Tid, th: Thread, answer: Answer, slot: SlotId)
    requires Belonging(w) && t in w.threads && th == w.threads[t] && !SetupPoint(th.at) && !TeardownPoint(th.at)
    requires SlotRule(w, Go(t, answer, slot))
    requires var w' := OtherStep(w, t, th, answer, slot); Linear(w')
    ensures Belonging(OtherStep(w, t, th, answer, slot))
  {
    hide OtherStep, OtherEffect, Shows, LogKnown, RightsAgree, CallsKnown, MakersKnown, SeatsKnown, Mature, CallsListed;
    hide PendingListed, LentListed, LentOnce, SeatsListed, ActiveListed;
    var w' := OtherStep(w, t, th, answer, slot);
    OtherHasEffect(w, t, th, answer, slot);
    OtherShows(w, w', t, th, slot);
    OtherMakersKnown(w, w', t, th, slot);
    AddsFreshSlot(w, t, th, answer, slot);
    forall b | Idle(w, b) ensures Idle(w', b) { OtherIdle(w, t, th, answer, slot, b); }
    OtherSeatsKnown(w, w', t, th, slot);
    OtherPendingListed(w, w', t, th, slot);
    OtherLentListed(w, w', t, th, slot);
    OtherLentOnce(w, w', t, th, slot);
    OtherSeatsListed(w, w', t, th, slot);
    OtherCallsListed(w, w', t, th, slot);
  }

  lemma EnvKeepsBelonging(w: World, a: Action)
    requires Belonging(w) && Enabled(w, a) && !a.Go? && Linear(Next(w, a))
    ensures Belonging(Next(w, a))
  {
    hide Shows, LogKnown, RightsAgree, CallsKnown, MakersKnown, SeatsKnown, Mature, CallsListed, PortsListed;
    EnvShows(w, a);
    EnvMakersKnown(w, a);
    EnvCallsListed(w, a);
    if a.RemoveCompleted? {
      RemovalSeatsKnown(w, a.slot, a.ok);
      RemovalPortsListed(w, a.slot, a.ok);
    } else {
      EnvSeatsKnown(w, a);
      EnvPortsListed(w, a);
    }
  }

  lemma StepKeepsBelonging(w: World, a: Action)
    requires Belonging(w) && Enabled(w, a) && SlotRule(w, a)
    ensures Belonging(Next(w, a))
  {
    hide SetupStep, TeardownStep, OtherStep, LogKnown, RightsAgree, CallsKnown, MakersKnown, SeatsKnown, Mature, CallsListed, PortsListed;
    StepKeepsLinear(w, a);
    if a.Go? {
      var th := w.threads[a.t];
      if SetupPoint(th.at) { SetupKeepsBelonging(w, a.t, th, a.answer); }
      else if TeardownPoint(th.at) { TeardownKeepsBelonging(w, a.t, th, a.answer); }
      else { OtherKeepsBelonging(w, a.t, th, a.answer, a.slot); }
    } else {
      EnvKeepsBelonging(w, a);
    }
  }

  lemma InitIsBelonging(maxCalls: nat)
    ensures Belonging(Init(maxCalls))
  {
    InitIsLinear(maxCalls);
  }
}
