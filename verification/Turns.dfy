/**
 Calls that follow each other under one id keep out of each other's way, as long as they take turns.

 A setup that owns its id empties the maps under it when it gives up, lock by lock.  `TurnRule` says that
 no later call of the id is registering meanwhile.  Running the code between two awaits without
 interruption keeps it (`SegmentsTakeTurns`); the locks alone do not.
 */
module Turns {
  import opened Wrappers
  import opened CallMachine
  import opened Effects
  import opened Ownership
  import opened Orphans
  import opened MediaAttachment
  import opened Belongings

  // ---------------------------------------------------------------- assumptions

  /** After `register_pending_port` and before the entry in `pending_setups`. */
  predicate MidListing(at: Point) {
    at.Listed? || at.Listening? || at.Numbered?
  }

  /** A teardown by call id that has maps still to empty. */
  predicate Sweeping(at: Point) {
    (at.Unlisted? && at.owns) || at.TakingPending? || at.TakingActive? || at.Closing? ||
    ((at.Resolving? || at.Removing? || at.FallingBack?) && at.kind == Abort(true))
  }

  /** About to give up an id that is still its own. */
  predicate Leaving(w: World, th: Thread) {
    (th.at.Aborting? || th.at.Connected?) && Owns(w.mgr, th.call, th.at.gen)
  }

  predicate TurnRule(w: World, a: Action) {
    a.Go? && a.t.Setup? && a.t in w.threads ==>
      forall u :: u in w.threads && u.Setup? && u != a.t && w.threads[u].call == w.threads[a.t].call ==>
        && (Leaving(w, w.threads[a.t]) ==> !MidListing(w.threads[u].at))
        && (w.threads[a.t].at.HasPort? ==> !Sweeping(w.threads[u].at))
  }

  /** What runs without an await, in a setup task and in the main loop. */
  predicate InSegment(t: Tid, at: Point) {
    match t
    case Setup(_) => at.HasPort? || MidListing(at) || at.Registered? || Committing(at) || TeardownPoint(at)
    case Main => !at.LookingUp?
    case Worker(_) => false
  }

  predicate SegmentRule(w: World, a: Action) {
    forall u :: u in w.threads && InSegment(u, w.threads[u].at) ==> a.Go? && a.t == u
  }

  /** A scheduler that switches at awaits only keeps both scheduling rules. */
  lemma SegmentsTakeTurns(w: World, a: Action)
    requires SegmentRule(w, a)
    ensures SerialRule(w, a) && TurnRule(w, a)
  {
  }

  predicate LockRules(w: World, a: Action) {
    CallRules(w, a) && SlotRule(w, a)
  }

  predicate TurnRules(w: World, a: Action) {
    LockRules(w, a) && TurnRule(w, a)
  }

  // ---------------------------------------------------------------- the invariant

  /** Call `j` has no entry yet. */
  predicate Unregistered(w: World, j: Instance) {
    j !in w.rights.makers ||
    (Setup(j) in w.threads && (w.threads[Setup(j)].at.HasPort? || MidListing(w.threads[Setup(j)].at)))
  }

  predicate Later(dialed: seq<CallId>, i: Instance, j: Instance) {
    i < j < |dialed| && dialed[i] == dialed[j]
  }

  /** Once a later call has registered, an id is not the earlier one's any more ... */
  ghost predicate EntriesLast(w: World) {
    forall c, j: Instance :: c in w.mgr.pending && Later(w.sip.dialed, w.mgr.pending[c].who, j) ==> Unregistered(w, j)
  }

  /** ... while a setup empties the maps, no later call of its id has listed anything ... */
  ghost predicate SweepsAlone(w: World) {
    forall i: Instance, j: Instance :: Setup(i) in w.threads && Sweeping(w.threads[Setup(i)].at) && Later(w.sip.dialed, i, j) ==> Hidden(w, j)
  }

  /** ... and while the main loop does, they are still on the channel. */
  ghost predicate MainAlone(w: World) {
    Main in w.threads && TeardownPoint(w.threads[Main].at) && w.threads[Main].port.Some? ==>
      var p := w.threads[Main].port.value;
      && p < |w.rights.makers| && w.rights.makers[p] < |w.sip.dialed| && w.sip.dialed[w.rights.makers[p]] == w.threads[Main].call
      && forall j: Instance :: Later(w.sip.dialed, w.rights.makers[p], j) ==> j < |w.sip.rang| && w.sip.rang[j] >= w.sip.taken
  }

  ghost predicate InTurn(w: World) {
    Belonging(w) && Orderly(w) && EntriesLast(w) && SweepsAlone(w) && MainAlone(w)
  }

  // ---------------------------------------------------------------- setup steps

  /** A setup that has not answered is the last of its id. */
  lemma NoneLater(w: World, i: Instance, j: Instance)
    requires LatestKnown(w.sip) && Latest(w) && Setup(i) in w.threads && BeforeAnswer(w.threads[Setup(i)].at)
    ensures !Later(w.sip.dialed, i, j)
  {
    assert j < |w.sip.dialed| ==> w.sip.dialed[j] in w.sip.latest && j <= w.sip.latest[w.sip.dialed[j]];
  }

  /** No step but a registration registers a call. */
  lemma SetupUnregistered(w: World, w': World, t: Tid, th: Thread, j: Instance)
    requires FreshNames(w) && MakersKnown(w) && t in w.threads && th == w.threads[t] && SetupPoint(th.at) && SetupEffect(w, w', t, th)
    requires Unregistered(w, j) && !(th.at.Numbered? && t == Setup(j))
    ensures Unregistered(w', j)
  {
    hide LogKnown, Shaped;
  }

  lemma SetupEntriesLast(w: World, w': World, t: Tid, th: Thread)
    requires FreshNames(w) && MakersKnown(w) && LatestKnown(w.sip) && Latest(w) && CallsKnown(w) && GenerationsKnown(w) && EntriesLast(w)
    requires t in w.threads && th == w.threads[t] && SetupPoint(th.at) && SetupEffect(w, w', t, th)
    ensures EntriesLast(w')
  {
    forall c, j: Instance | c in w'.mgr.pending && Later(w'.sip.dialed, w'.mgr.pending[c].who, j) ensures Unregistered(w', j) {
      hide Unregistered, Shaped, LogKnown, MakersKnown;
      if th.at.Numbered? && c == th.call {
        NoneLater(w, t.who, j);
      } else {
        SetupUnregistered(w, w', t, th, j);
      }
    }
  }

  /** No step but its own listing shows a call. */
  lemma SetupHides(w: World, w': World, t: Tid, th: Thread, j: Instance)
    requires FreshNames(w) && MakersKnown(w) && t in w.threads && th == w.threads[t] && SetupPoint(th.at) && SetupEffect(w, w', t, th)
    requires Hidden(w, j) && !(th.at.HasPort? && t == Setup(j))
    ensures Hidden(w', j)
  {
    hide LogKnown, Shaped;
  }

  /** A setup that leaves in its turn leaves before any later call of its id has listed a port. */
  lemma LeavesAlone(w: World, t: Tid, th: Thread, j: Instance)
    requires FreshNames(w) && CallsKnown(w) && GenerationsKnown(w) && EntriesLast(w)
    requires t in w.threads && t.Setup? && th == w.threads[t] && Leaving(w, th) && TurnRule(w, Go(t, Yes, 0)) && Later(w.sip.dialed, t.who, j)
    ensures Hidden(w, j)
  {
    hide LogKnown, Shaped;
    assert w.mgr.pending[th.call].who == t.who;
    assert Unregistered(w, j);
  }

  lemma SetupSweepsAlone(w: World, w': World, t: Tid, th: Thread)
    requires FreshNames(w) && MakersKnown(w) && CallsKnown(w) && GenerationsKnown(w) && EntriesLast(w) && SweepsAlone(w)
    requires t in w.threads && th == w.threads[t] && SetupPoint(th.at) && SetupEffect(w, w', t, th) && TurnRule(w, Go(t, Yes, 0))
    ensures SweepsAlone(w')
  {
    forall i: Instance, j: Instance | Setup(i) in w'.threads && Sweeping(w'.threads[Setup(i)].at) && Later(w'.sip.dialed, i, j) ensures Hidden(w', j) {
      hide Hidden, LogKnown, MakersKnown, GenerationsKnown, EntriesLast, Shaped;
      if t == Setup(i) && !th.at.Unlisted? { LeavesAlone(w, t, th, j); }
      SetupHides(w, w', t, th, j);
    }
  }

  lemma SetupMainAlone(w: World, w': World, t: Tid, th: Thread)
    requires FreshNames(w) && MainAlone(w) && t in w.threads && th == w.threads[t] && SetupPoint(th.at) && SetupEffect(w, w', t, th)
    ensures MainAlone(w')
  {
    hide LogKnown, Shaped;
  }

  // ---------------------------------------------------------------- the other steps

  lemma TeardownAlone(w: World, w': World, t: Tid, th: Thread)
    requires FreshNames(w) && EntriesLast(w) && SweepsAlone(w)
    requires t in w.threads && th == w.threads[t] && TeardownPoint(th.at) && TeardownEffect(w, w', t, th)
    requires t.Setup? && t in w'.threads && Sweeping(w'.threads[t].at) ==> Sweeping(th.at)
    ensures EntriesLast(w') && SweepsAlone(w')
  {
    hide LogKnown, Shaped;
    forall c, j: Instance | c in w'.mgr.pending && Later(w'.sip.dialed, w'.mgr.pending[c].who, j) ensures Unregistered(w', j) {
      assert c in w.mgr.pending && Later(w.sip.dialed, w.mgr.pending[c].who, j);
      assert Unregistered(w, j);
    }
  }

  lemma TeardownMainAlone(w: World, w': World, t: Tid, th: Thread)
    requires FreshNames(w) && MainAlone(w) && t in w.threads && th == w.threads[t] && TeardownPoint(th.at) && TeardownEffect(w, w', t, th)
    ensures MainAlone(w')
  {
    hide LogKnown, Shaped;
  }

  /** A teardown starts no sweep. */
  lemma SweepsOn(w: World, t: Tid, th: Thread, answer: Answer)
    requires Acts(w, t, th) && TeardownPoint(th.at)
    ensures var w' := TeardownStep(w, t, th, answer); t in w'.threads && Sweeping(w'.threads[t].at) ==> Sweeping(th.at)
  {
  }

  lemma OtherAlone(w: World, w': World, t: Tid, th: Thread, slot: SlotId)
    requires FreshNames(w) && EntriesLast(w) && SweepsAlone(w)
    requires t in w.threads && th == w.threads[t] && !SetupPoint(th.at) && !TeardownPoint(th.at) && OtherEffect(w, w', t, th, slot)
    ensures EntriesLast(w') && SweepsAlone(w')
  {
    hide LogKnown, Shaped;
    forall c, j: Instance | c in w'.mgr.pending && Later(w'.sip.dialed, w'.mgr.pending[c].who, j) ensures Unregistered(w', j) {
      assert c in w.mgr.pending && Later(w.sip.dialed, w.mgr.pending[c].who, j);
      assert Unregistered(w, j);
    }
  }

  /** The session under the id of an ended call is that call's. */
  lemma EndsOwnSession(w: World, th: Thread)
    requires FreshNames(w) && InOrder(w.sip) && EndsKnown(w) && SessionsKnown(w)
    requires Main in w.threads && th == w.threads[Main] && th.at.LookingUp? && th.call in w.mgr.sessions
    ensures w.mgr.sessions[th.call].who == th.at.who
  {
  }

  lemma OtherMainAlone(w: World, w': World, t: Tid, th: Thread, slot: SlotId)
    requires FreshNames(w) && MakersKnown(w) && InOrder(w.sip) && EndsKnown(w) && SessionsKnown(w) && MainAlone(w)
    requires t in w.threads && th == w.threads[t] && !SetupPoint(th.at) && !TeardownPoint(th.at) && OtherEffect(w, w', t, th, slot)
    ensures MainAlone(w')
  {
    hide LogKnown;
    if th.at.LookingUp? && th.call in w.mgr.sessions { EndsOwnSession(w, th); }
  }

  lemma EnvAlone(w: World, a: Action)
    requires FreshNames(w) && MakersKnown(w) && CallsKnown(w) && GenerationsKnown(w) && EntriesLast(w) && SweepsAlone(w)
    requires Enabled(w, a) && !a.Go?
    ensures EntriesLast(Next(w, a)) && SweepsAlone(Next(w, a))
  {
    hide Shaped;
    var w' := Next(w, a);
    forall c, j: Instance | c in w'.mgr.pending && Later(w'.sip.dialed, w'.mgr.pending[c].who, j) ensures Unregistered(w', j) {
      if j < |w.sip.dialed| {
        assert Later(w.sip.dialed, w.mgr.pending[c].who, j);
        assert Unregistered(w, j);
      }
    }
    forall i: Instance, j: Instance | Setup(i) in w'.threads && Sweeping(w'.threads[Setup(i)].at) && Later(w'.sip.dialed, i, j) ensures Hidden(w', j) {
      if j < |w.sip.dialed| {
        assert Later(w.sip.dialed, i, j);
        assert Hidden(w, j);
      }
    }
  }

  lemma EnvMainAlone(w: World, a: Action)
    requires FreshNames(w) && MainAlone(w) && Enabled(w, a) && !a.Go?
    ensures MainAlone(Next(w, a))
  {
    hide Shaped;
  }

  // ---------------------------------------------------------------- every step, every run

  lemma TurnRulesAreCallRules(w: World, a: Action)
    requires TurnRules(w, a)
    ensures CallRules(w, a) && SlotRule(w, a)
  {
  }

  lemma TurnsWhoeverAnswers(w: World, a: Action)
    requires TurnRules(w, a) && a.Go?
    ensures TurnRule(w, Go(a.t, Yes, 0))
  {
  }

  lemma StepKeepsTurns(w: World, a: Action)
    requires InTurn(w) && Enabled(w, a) && TurnRules(w, a)
    ensures InTurn(Next(w, a))
  {
    hide SetupStep, TeardownStep, OtherStep, SetupEffect, TeardownEffect, OtherEffect, TurnRules, EntriesLast, SweepsAlone, MainAlone;
    hide InOrder, LatestKnown, EndsKnown, Latest, EntriesKnown, TokensKnown, SessionsKnown, GenerationsKnown, CallsKnown, LogKnown;
    hide RightsAgree, MakersKnown, SeatsKnown, Mature, PortsListed, CallsListed, CallRules, SlotRule;
    TurnRulesAreCallRules(w, a);
    StepKeepsBelonging(w, a);
    StepKeepsOrderly(w, a);
    if a.Go? {
      var t, th, w' := a.t, w.threads[a.t], Next(w, a);
      if SetupPoint(th.at) {
        SetupHasEffect(w, t, th, a.answer);
        TurnsWhoeverAnswers(w, a);
        SetupEntriesLast(w, w', t, th);
        SetupSweepsAlone(w, w', t, th);
        SetupMainAlone(w, w', t, th);
      } else if TeardownPoint(th.at) {
        TeardownHasEffect(w, t, th, a.answer);
        SweepsOn(w, t, th, a.answer);
        TeardownAlone(w, w', t, th);
        TeardownMainAlone(w, w', t, th);
      } else {
        OtherHasEffect(w, t, th, a.answer, a.slot);
        OtherAlone(w, w', t, th, a.slot);
        OtherMainAlone(w, w', t, th, a.slot);
      }
    } else {
      EnvAlone(w, a);
      EnvMainAlone(w, a);
    }
  }

  // ---------------------------------------------------------------- main result

  predicate Kept<T(==)>(m: map<CallId, T>, m': map<CallId, T>, c: CallId) {
    c in m' && c in m && m'[c] == m[c]
  }

  /** What call `owner` has under `c` may go in a step of call `i`: `i` has the same id and is no earlier. */
  predicate May(w: World, c: CallId, owner: Instance, i: Instance) {
    owner <= i < |w.sip.dialed| && w.sip.dialed[owner] == c && w.sip.dialed[i] == c
  }

  predicate MayPort(w: World, c: CallId, p: PortId, i: Instance) {
    p < |w.rights.makers| && May(w, c, w.rights.makers[p], i)
  }

  ghost predicate YieldsPending(w: World, w': World, i: Instance) {
    forall c :: c in w.reg.pendingPorts && !Kept(w.reg.pendingPorts, w'.reg.pendingPorts, c) ==> MayPort(w, c, w.reg.pendingPorts[c], i)
  }

  ghost predicate YieldsActive(w: World, w': World, i: Instance) {
    forall c :: c in w.reg.active && !Kept(w.reg.active, w'.reg.active, c) ==>
      w.reg.active[c].slot in w.conf.slots && MayPort(w, c, w.conf.slots[w.reg.active[c].slot].port, i)
  }

  ghost predicate YieldsNotifiers(w: World, w': World, i: Instance) {
    forall c :: c in w.reg.readyTx && !Kept(w.reg.readyTx, w'.reg.readyTx, c) ==> May(w, c, w.reg.readyTx[c], i)
  }

  /** Entries and sessions may also be replaced, but only the call's own are removed. */
  ghost predicate YieldsCalls(w: World, w': World, i: Instance) {
    && (forall c :: c in w.mgr.pending && !Kept(w.mgr.pending, w'.mgr.pending, c) ==>
          May(w, c, w.mgr.pending[c].who, i) && (c !in w'.mgr.pending ==> w.mgr.pending[c].who == i))
    && (forall c :: c in w.mgr.sessions && !Kept(w.mgr.sessions, w'.mgr.sessions, c) ==>
          May(w, c, w.mgr.sessions[c].who, i) && (c !in w'.mgr.sessions ==> w.mgr.sessions[c].who == i))
  }

  /** Whatever the step takes out of a map or replaces there, for any id, belongs to call `i` itself or to
      an earlier call of its id; a later call, and a call of another id, loses nothing. */
  ghost predicate Yields(w: World, w': World, i: Instance) {
    YieldsPending(w, w', i) && YieldsActive(w, w', i) && YieldsNotifiers(w, w', i) && YieldsCalls(w, w', i)
  }

  /** The call a setup task, or the main loop at a disconnect, works for. */
  function WorksFor(w: World, t: Tid): Option<Instance>
    requires t in w.threads
  {
    var th := w.threads[t];
    match t
    case Setup(i) => Some(i)
    case Main =>
      if th.at.LookingUp? || th.at.Cancelling? then Some(th.at.who)
      else if th.port.Some? && th.port.value < |w.rights.makers| then Some(w.rights.makers[th.port.value])
      else None
    case Worker(_) => None
  }

  /** Earlier calls of an id are no later than its last one. */
  lemma LastMay(w: World, c: CallId, owner: Instance, i: Instance)
    requires LatestKnown(w.sip) && LastOfId(w.sip, i) && w.sip.dialed[i] == c && owner < |w.sip.dialed| && w.sip.dialed[owner] == c
    ensures May(w, c, owner, i)
  {
  }

  lemma SetupYieldsPorts(w: World, w': World, t: Tid, th: Thread)
    requires FreshNames(w) && LatestKnown(w.sip) && Latest(w) && CallsKnown(w) && PendingListed(w) && CallsListed(w)
    requires t in w.threads && th == w.threads[t] && SetupPoint(th.at) && SetupEffect(w, w', t, th)
    ensures YieldsPending(w, w', t.who) && YieldsActive(w, w', t.who) && YieldsNotifiers(w, w', t.who)
  {
    hide LogKnown, Shaped, Hidden, LatestKnown;
    if th.at.HasPort? && th.call in w.reg.pendingPorts { LastMay(w, th.call, w.rights.makers[w.reg.pendingPorts[th.call]], t.who); }
    if th.at.Listed? && th.call in w.reg.readyTx { LastMay(w, th.call, w.reg.readyTx[th.call], t.who); }
  }

  /** No session is in the way of one being stored. */
  lemma StoresAfter(w: World, t: Tid, th: Thread)
    requires InOrder(w.sip) && EndsKnown(w) && CallsKnown(w) && TokensKnown(w) && SessionsKnown(w)
    requires t in w.threads && t.Setup? && th == w.threads[t] && th.at.Storing? && th.call in w.mgr.sessions
    ensures May(w, th.call, w.mgr.sessions[th.call].who, t.who)
  {
  }

  lemma SetupYieldsCalls(w: World, w': World, t: Tid, th: Thread)
    requires FreshNames(w) && Orderly(w)
    requires t in w.threads && th == w.threads[t] && SetupPoint(th.at) && SetupEffect(w, w', t, th)
    ensures YieldsCalls(w, w', t.who)
  {
    hide LogKnown, Shaped, InOrder, EndsKnown, TokensKnown, EntriesKnown, SessionsKnown, LatestKnown;
    if th.at.Storing? && th.call in w.mgr.sessions { StoresAfter(w, t, th); }
    if th.at.Numbered? && th.call in w.mgr.pending { LastMay(w, th.call, w.mgr.pending[th.call].who, t.who); }
  }

  /** No later call of the id of `i` has listed anything. */
  ghost predicate Alone(w: World, i: Instance, c: CallId) {
    i < |w.sip.dialed| && w.sip.dialed[i] == c && forall j: Instance :: Later(w.sip.dialed, i, j) ==> Hidden(w, j)
  }

  lemma MainIsAlone(w: World)
    requires FreshNames(w) && MakersKnown(w) && MainAlone(w)
    requires Main in w.threads && TeardownPoint(w.threads[Main].at) && w.threads[Main].port.Some?
    ensures WorksFor(w, Main).Some? && Alone(w, WorksFor(w, Main).value, w.threads[Main].call)
  {
  }

  /** Each map is emptied at its own point of a teardown. */
  lemma TakesAtItsPoint(w: World, t: Tid, th: Thread, answer: Answer)
    requires Acts(w, t, th) && TeardownPoint(th.at)
    ensures var w' := TeardownStep(w, t, th, answer);
      && (!th.at.TakingPending? ==> w'.reg.pendingPorts == w.reg.pendingPorts)
      && (!th.at.TakingActive? ==> w'.reg.active == w.reg.active)
      && (!th.at.Closing? ==> w'.reg.readyTx == w.reg.readyTx)
  {
  }

  lemma TeardownYields(w: World, w': World, t: Tid, th: Thread, i: Instance)
    requires PendingListed(w) && ActiveListed(w) && CallsListed(w) && Alone(w, i, th.call)
    requires TeardownPoint(th.at) && TeardownEffect(w, w', t, th)
    ensures Yields(w, w', i)
  {
    hide Hidden, Framed;
  }

  lemma SweepIsAlone(w: World, t: Tid, th: Thread)
    requires FreshNames(w) && CallsKnown(w) && SweepsAlone(w) && t in w.threads && t.Setup? && th == w.threads[t] && Sweeping(th.at)
    ensures Alone(w, t.who, th.call)
  {
    hide Hidden, LogKnown, Shaped;
  }

  lemma StillIsSame(w: World, w': World, t: Tid, th: Thread)
    requires TeardownEffect(w, w', t, th)
    requires w'.reg.pendingPorts == w.reg.pendingPorts && w'.reg.active == w.reg.active && w'.reg.readyTx == w.reg.readyTx
    ensures SameMaps(w, w')
  {
  }

  lemma NothingYields(w: World, w': World, i: Instance)
    requires SameMaps(w, w')
    ensures Yields(w, w', i)
  {
  }

  /** `Setup(i)`, or the main loop for call `i`, at a teardown step: it is alone, or it touches no map. */
  lemma SweepYields(w: World, t: Tid, th: Thread, answer: Answer)
    requires InTurn(w) && t in w.threads && th == w.threads[t] && TeardownPoint(th.at)
    ensures var w' := TeardownStep(w, t, th, answer);
      if WorksFor(w, t).Some? then Yields(w, w', WorksFor(w, t).value) else SameMaps(w, w')
  {
    hide TeardownStep, TeardownEffect, Yields, Alone, MainAlone, EntriesLast, SweepsAlone;
    hide InOrder, LatestKnown, EndsKnown, Latest, Standing, LogKnown, RightsAgree, MakersKnown, SeatsKnown, Mature, PendingListed, LentListed, LentOnce, SeatsListed, ActiveListed, CallsListed;
    var w' := TeardownStep(w, t, th, answer);
    TeardownHasEffect(w, t, th, answer);
    TakesAtItsPoint(w, t, th, answer);
    if Sweeping(th.at) && t.Setup? {
      SweepIsAlone(w, t, th);
      TeardownYields(w, w', t, th, t.who);
    } else if t == Main && th.port.Some? {
      MainIsAlone(w);
      TeardownYields(w, w', t, th, WorksFor(w, t).value);
    } else {
      StillIsSame(w, w', t, th);
      if WorksFor(w, t).Some? { NothingYields(w, w', WorksFor(w, t).value); }
    }
  }

  lemma LookUpYields(w: World, w': World, th: Thread, slot: SlotId)
    requires th.at.LookingUp? && OtherEffect(w, w', Main, th, slot) && th.at.who < |w.sip.dialed| && th.call == w.sip.dialed[th.at.who]
    requires th.call in w.mgr.sessions ==> w.mgr.sessions[th.call].who == th.at.who
    ensures Yields(w, w', th.at.who)
  {
    hide Framed;
  }

  lemma CancelYields(w: World, w': World, th: Thread, slot: SlotId)
    requires th.at.Cancelling? && OtherEffect(w, w', Main, th, slot)
    ensures SameMaps(w, w')
  {
    hide Framed;
  }

  lemma MainYields(w: World, w': World, th: Thread, slot: SlotId)
    requires FreshNames(w) && InOrder(w.sip) && EndsKnown(w) && SessionsKnown(w)
    requires Main in w.threads && th == w.threads[Main] && (th.at.LookingUp? || th.at.Cancelling?) && OtherEffect(w, w', Main, th, slot)
    ensures Yields(w, w', th.at.who)
  {
    hide OtherEffect, InOrder, SessionsKnown, FreshNames, Yields, SameMaps;
    if th.at.LookingUp? {
      if th.call in w.mgr.sessions { EndsOwnSession(w, th); }
      LookUpYields(w, w', th, slot);
    } else {
      CancelYields(w, w', th, slot);
      NothingYields(w, w', th.at.who);
    }
  }

  lemma StepYields(w: World, t: Tid, answer: Answer, slot: SlotId)
    requires InTurn(w) && !t.Worker? && Permitted(w, t, answer) && TurnRules(w, Go(t, answer, slot))
    ensures var w' := Advance(w, t, answer, slot);
      if WorksFor(w, t).Some? then Yields(w, w', WorksFor(w, t).value) else SameMaps(w, w')
  {
    hide SetupStep, TeardownStep, OtherStep, SetupEffect, TeardownEffect, OtherEffect, TurnRules, EntriesLast, SweepsAlone, MainAlone;
    hide InOrder, LatestKnown, EndsKnown, Latest, EntriesKnown, TokensKnown, SessionsKnown, GenerationsKnown, CallsKnown, LogKnown;
    hide RightsAgree, MakersKnown, SeatsKnown, Mature, PendingListed, LentListed, LentOnce, SeatsListed, ActiveListed, CallsListed, SameMaps;
    hide YieldsPending, YieldsActive, YieldsNotifiers, YieldsCalls;
    var th, w' := w.threads[t], Advance(w, t, answer, slot);
    if SetupPoint(th.at) {
      SetupHasEffect(w, t, th, answer);
      SetupYieldsPorts(w, w', t, th);
      SetupYieldsCalls(w, w', t, th);
    } else if TeardownPoint(th.at) {
      SweepYields(w, t, th, answer);
    } else {
      OtherHasEffect(w, t, th, answer, slot);
      MainYields(w, w', th, slot);
    }
  }

  lemma {:induction false} RunKeepsTurns(w: World, actions: seq<Action>)
    requires InTurn(w) && IsRun(TurnRules, w, actions) && IsRun(Free, w, actions)
    ensures InTurn(After(w, actions))
    decreases |actions|
  {
    hide InTurn;
    if actions != [] {
      StepKeepsTurns(w, actions[0]);
      RunKeepsTurns(Next(w, actions[0]), actions[1..]);
    }
  }

  lemma ReachableIsInTurn(maxCalls: nat, actions: seq<Action>)
    requires IsRun(TurnRules, Init(maxCalls), actions)
    ensures IsRun(Free, Init(maxCalls), actions) && InTurn(After(Init(maxCalls), actions))
  {
    hide Belonging, Orderly;
    AnyRunIsFree(TurnRules, Init(maxCalls), actions);
    InitIsBelonging(maxCalls);
    InitIsOrderly(maxCalls);
    RunKeepsTurns(Init(maxCalls), actions);
  }

  /** In every run in which calls take turns, no step of a setup task or of the main loop takes anything
      from a later call of its id, or from a call of another id, wherever its own setup or teardown is. */
  lemma LaterCallsKeepTheirs(maxCalls: nat, actions: seq<Action>, t: Tid, answer: Answer, slot: SlotId)
    requires IsRun(TurnRules, Init(maxCalls), actions)
    ensures IsRun(Free, Init(maxCalls), actions)
    ensures var w := After(Init(maxCalls), actions);
      !t.Worker? && Permitted(w, t, answer) && TurnRules(w, Go(t, answer, slot)) ==>
        var w' := Next(w, Go(t, answer, slot));
        if WorksFor(w, t).Some? then Yields(w, w', WorksFor(w, t).value) else SameMaps(w, w')
  {
    hide InTurn, Yields, SameMaps, TurnRules, Advance;
    ReachableIsInTurn(maxCalls, actions);
    var w := After(Init(maxCalls), actions);
    if !t.Worker? && Permitted(w, t, answer) && TurnRules(w, Go(t, answer, slot)) { StepYields(w, t, answer, slot); }
  }
}
