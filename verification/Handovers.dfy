/**
 What can happen when an id is handed over from one call to the next, as concrete runs.
 */
module Handovers {
  import opened Wrappers
  import opened CallMachine
  import opened Orphans
  import opened Turns
  import opened Scripts

  lemma InitRests(maxCalls: nat)
    requires maxCalls > 0
    ensures var w := Init(maxCalls); Resting(w) && ReuseRule(w, Ring(0)) && |w.mgr.sessions| + |w.mgr.pending| < w.mgr.maxCalls
  {
  }

  /** The first call, answered and waiting for its media. */
  ghost predicate FirstWaits(w: World, maxCalls: nat) {
    && Resting(w) && w.threads == map[Setup(0) := Thread(AwaitingMedia(0), 0, Some(0), None)] && w.workers == 0
    && w.sip.line == map[0 := 0] && w.sip.dialed == [0] && w.sip.rang == [0] && w.sip.handled == {} && |w.sip.log| == 1
    && w.mgr == Manager(maxCalls, map[], map[0 := Entry(0, 0)], {}, [0])
    && w.reg == Registries(map[0 := 0], map[], map[0 := 0], {}, map[], map[]) && w.conf == Conference(map[], {})
    && w.rights.makers == [0] && w.rights.portAt == map[0 := AtThread(Setup(0))] && w.rights.pools == 0 && w.rights.seatedWhenDestroyed == {}
  }

  lemma FirstSignsOn(turns: bool, maxCalls: nat) returns (actions: seq<Action>, w: World)
    requires maxCalls > 0
    ensures Reaches(Under(turns), Init(maxCalls), actions, w) && FirstWaits(w, maxCalls)
  {
    hide Reaches;
    InitRests(maxCalls);
    actions, w := SignsOn(turns, Init(maxCalls), 0);
  }

  /** ... has hung up, and its setup has just given up its id. */
  ghost predicate FirstGivesUp(w: World) {
    && Resting(w) && w.threads == map[Setup(0) := Thread(TakingPending(Abort(true)), 0, Some(0), None)]
    && w.sip.line == map[] && w.sip.dialed == [0] && w.sip.rang == [0] && |w.sip.log| == 2
    && w.mgr == Manager(1, map[], map[], {0}, [0])
    && w.reg == Registries(map[0 := 0], map[], map[0 := 0], {}, map[], map[]) && w.conf == Conference(map[], {})
    && w.rights.makers == [0]
  }

  lemma GivesUp(w: World) returns (actions: seq<Action>, w': World)
    requires FirstWaits(w, 1)
    ensures Reaches(Under(false), w, actions, w') && FirstGivesUp(w')
  {
    hide Reaches, LockRules, TurnRules;
    var first, w1 := IsCancelled(false, w, 0);
    var w2 := Goes(false, w1, 0, Cancel);
    w' := Goes(false, w2, 0, Yes);
    assert map[0 := Entry(0, 0)] - {0} == map[] && map[0 := 0] - {0} == map[];
    ReachesJoin(Under(false), w, first, w1, [Go(Setup(0), Cancel, 0)], w2);
    ReachesJoin(Under(false), w, first + [Go(Setup(0), Cancel, 0)], w2, [Go(Setup(0), Yes, 0)], w');
    actions := first + [Go(Setup(0), Cancel, 0)] + [Go(Setup(0), Yes, 0)];
  }

  /** Meanwhile a second call of the id has signed on. */
  ghost predicate SecondListed(w: World) {
    && w.threads == map[Setup(0) := Thread(TakingPending(Abort(true)), 0, Some(0), None),
                        Setup(1) := Thread(AwaitingMedia(1), 0, Some(1), None)]
    && w.mgr.pending == map[0 := Entry(1, 1)] && w.reg.pendingPorts == map[0 := 1] && w.reg.readyTx == map[0 := 1]
    && w.reg.active == map[] && w.reg.fired == {} && w.rights.makers == [0, 1]
  }

  lemma SecondSignsOn(w: World) returns (actions: seq<Action>, w': World)
    requires FirstGivesUp(w)
    ensures Reaches(Under(false), w, actions, w') && SecondListed(w')
  {
    hide Reaches;
    actions, w' := SignsOn(false, w, 0);
  }

  /** The first setup's sweep takes the port of the second ... */
  lemma SweepsPort(w: World) returns (actions: seq<Action>, w': World)
    requires SecondListed(w)
    ensures Reaches(Under(false), w, actions, w')
    ensures w'.threads == map[Setup(0) := Thread(Resolving(Abort(true), true, None), 0, Some(0), None),
                              Setup(1) := Thread(AwaitingMedia(1), 0, Some(1), None)]
    ensures w'.mgr == w.mgr && w'.reg == w.reg.(pendingPorts := map[])
    ensures forall k :: 0 <= k < |actions| ==> actions[k] == Go(Setup(0), Yes, 0)
  {
    hide Reaches, LockRules, TurnRules, SetupStep, Resolve, RegisterCleanup, AskRemove, FallBack, Close;
    var a := [Go(Setup(0), Yes, 0)];
    var w1 := Goes(false, w, 0, Yes);
    assert w1.threads == map[Setup(0) := Thread(TakingActive(Abort(true), true), 0, Some(0), None),
                             Setup(1) := Thread(AwaitingMedia(1), 0, Some(1), None)];
    w' := Goes(false, w1, 0, Yes);
    ReachesJoin(Under(false), w, a, w1, a, w');
    actions := a + a;
    assert map[0 := 1] - {0} == map[];
  }

  lemma FreesOwnPort(w: World) returns (w': World)
    requires w.threads == map[Setup(0) := Thread(Resolving(Abort(true), true, None), 0, Some(0), None),
                              Setup(1) := Thread(AwaitingMedia(1), 0, Some(1), None)]
    ensures Reaches(Under(false), w, [Go(Setup(0), Yes, 0)], w') && w'.mgr == w.mgr && w'.reg == w.reg
    ensures w'.threads == map[Setup(0) := Thread(Closing, 0, None, None), Setup(1) := Thread(AwaitingMedia(1), 0, Some(1), None)]
  {
    hide Reaches, LockRules, TurnRules, SetupStep;
    w' := Goes(false, w, 0, Yes);
  }

  /** ... and its notifier. */
  lemma SweepsNotifier(w: World) returns (w': World)
    requires w.threads == map[Setup(0) := Thread(Closing, 0, None, None), Setup(1) := Thread(AwaitingMedia(1), 0, Some(1), None)]
    requires w.reg.readyTx == map[0 := 1]
    ensures Reaches(Under(false), w, [Go(Setup(0), Yes, 0)], w')
    ensures w'.mgr == w.mgr && w'.reg == w.reg.(readyTx := map[])
    ensures w'.threads == map[Setup(1) := Thread(AwaitingMedia(1), 0, Some(1), None)]
  {
    hide Reaches, LockRules, TurnRules, SetupStep;
    w' := Goes(false, w, 0, Yes);
    assert map[0 := 1] - {0} == map[];
  }

  lemma Sweeps(w: World) returns (actions: seq<Action>, w': World)
    requires SecondListed(w)
    ensures Reaches(Under(false), w, actions, w')
    ensures w'.threads == map[Setup(1) := Thread(AwaitingMedia(1), 0, Some(1), None)]
    ensures w'.mgr == w.mgr && w'.reg == w.reg.(pendingPorts := map[], readyTx := map[])
    ensures forall k :: 0 <= k < |actions| ==> actions[k] == Go(Setup(0), Yes, 0)
  {
    hide Reaches;
    var a1, w1 := SweepsPort(w);
    var w2 := FreesOwnPort(w1);
    var one := [Go(Setup(0), Yes, 0)];
    w' := SweepsNotifier(w2);
    ReachesJoin(Under(false), w1, one, w2, one, w');
    ReachesJoin(Under(false), w, a1, w1, one + one, w');
    actions := a1 + (one + one);
  }

  /** Without turns, an abort empties the maps of a later call: that call still has its entry, but its
      port and its notifier are gone, so its setup takes the channel for closed. */
  lemma AbortTakesFromLaterCall() returns (before: seq<Action>, after: seq<Action>)
    ensures IsRun(LockRules, Init(1), before + after) && IsRun(Free, Init(1), before) && IsRun(Free, Init(1), before + after)
    ensures SecondListed(After(Init(1), before))
    ensures forall k :: 0 <= k < |after| ==> after[k].Go? && after[k].t == Setup(0)
    ensures var w := After(Init(1), before + after);
      && w.threads == map[Setup(1) := Thread(AwaitingMedia(1), 0, Some(1), None)] && w.mgr.pending == map[0 := Entry(1, 1)]
      && w.reg.pendingPorts == map[] && w.reg.readyTx == map[] && Permitted(w, Setup(1), No)
  {
    var b1, w1 := FirstSignsOn(false, 1);
    var b2, w2 := GivesUp(w1);
    var b3, w3 := SecondSignsOn(w2);
    var w4;
    after, w4 := Sweeps(w3);
    hide FirstWaits, FirstGivesUp, Resting;
    before := b1 + (b2 + b3);
    ReachesJoin(Under(false), w1, b2, w2, b3, w3);
    ReachesJoin(Under(false), Init(1), b1, w1, b2 + b3, w3);
    ReachesJoin(Under(false), Init(1), before, w3, after, w4);
  }

  /** The first call is attached in slot 7, has hung up, and its setup is in the middle of its commit. */
  ghost predicate FirstCommits(w: World) {
    && Resting(w) && w.threads == map[Setup(0) := Thread(Unlisted(0, true), 0, Some(0), None)] && w.workers == 1
    && w.sip.line == map[] && w.sip.dialed == [0] && w.sip.rang == [0] && |w.sip.log| == 2
    && w.mgr == Manager(1, map[], map[], {0}, [0])
    && w.reg == Registries(map[], map[0 := Media(7, 0)], map[], {0}, map[], map[]) && w.conf == Conference(map[7 := Seat(0, 0)], {})
    && w.rights.makers == [0] && w.rights.portAt == map[0 := AtThread(Setup(0))] && w.rights.pools == 1 && w.rights.seatedWhenDestroyed == {}
  }

  /** Attached in slot 7, and connected. */
  ghost predicate FirstConnected(w: World) {
    && Resting(w) && w.threads == map[Setup(0) := Thread(Connected(0), 0, Some(0), None)] && w.workers == 1
    && w.sip.line == map[0 := 0] && w.sip.dialed == [0] && w.sip.rang == [0] && w.sip.handled == {} && |w.sip.log| == 1
    && w.mgr == Manager(1, map[], map[0 := Entry(0, 0)], {}, [0])
    && w.reg == Registries(map[], map[0 := Media(7, 0)], map[], {0}, map[], map[]) && w.conf == Conference(map[7 := Seat(0, 0)], {})
    && w.rights.makers == [0] && w.rights.portAt == map[0 := AtThread(Setup(0))] && w.rights.pools == 1 && w.rights.seatedWhenDestroyed == {}
  }

  lemma FirstConnects(w: World) returns (actions: seq<Action>, w': World)
    requires FirstWaits(w, 1)
    ensures Reaches(Under(false), w, actions, w') && FirstConnected(w')
  {
    hide Reaches, LockRules, TurnRules;
    var first, w1 := Attaches(false, w, 0, 7);
    var w2 := Goes(false, w1, 0, Skip);
    w' := Goes(false, w2, 0, Yes);
    assert map[0 := 0] - {0} == map[];
    ReachesJoin(Under(false), w, first, w1, [Go(Setup(0), Skip, 0)], w2);
    ReachesJoin(Under(false), w, first + [Go(Setup(0), Skip, 0)], w2, [Go(Setup(0), Yes, 0)], w');
    actions := first + [Go(Setup(0), Skip, 0)] + [Go(Setup(0), Yes, 0)];
  }

  lemma CommitsLate(w: World) returns (actions: seq<Action>, w': World)
    requires FirstConnected(w)
    ensures Reaches(Under(false), w, actions, w') && FirstCommits(w')
  {
    hide Reaches;
    var first, w1 := IsCancelled(false, w, 0);
    w' := Next(w1, Go(Setup(0), Yes, 0));
    assert map[0 := Entry(0, 0)] - {0} == map[] && map[0 := 0] - {0} == map[];
    ReachesThen(Under(false), w, first, w1, Go(Setup(0), Yes, 0));
    actions := first + [Go(Setup(0), Yes, 0)];
  }

  /** A second call of the id has been attached in slot 8. */
  ghost predicate SecondAttached(w: World) {
    && w.threads == map[Setup(0) := Thread(Unlisted(0, true), 0, Some(0), None), Setup(1) := Thread(AwaitingMedia(1), 0, Some(1), None)]
    && w.mgr.pending == map[0 := Entry(1, 1)] && w.mgr.cancelled == {0} && w.workers == 2
    && w.reg == Registries(map[], map[0 := Media(8, 1)], map[], {0, 1}, map[], map[])
    && w.conf == Conference(map[7 := Seat(0, 0), 8 := Seat(1, 1)], {})
    && w.rights.makers == [0, 1] && w.rights.seatedWhenDestroyed == {}
  }

  ghost predicate SecondReady(w: World) {
    && w.threads == map[Setup(0) := Thread(Unlisted(0, true), 0, Some(0), None), Setup(1) := Thread(AwaitingMedia(1), 0, Some(1), None)]
    && w.mgr.pending == map[0 := Entry(1, 1)] && w.mgr.cancelled == {0} && w.workers == 1
    && w.reg == Registries(map[0 := 1], map[0 := Media(7, 0)], map[0 := 1], {0}, map[], map[])
    && w.conf == Conference(map[7 := Seat(0, 0)], {})
    && w.rights.makers == [0, 1] && w.rights.pools == 1 && w.rights.seatedWhenDestroyed == {}
  }

  lemma SecondGetsReady(w: World) returns (actions: seq<Action>, w': World)
    requires FirstCommits(w)
    ensures Reaches(Under(false), w, actions, w') && SecondReady(w')
  {
    hide Reaches;
    actions, w' := SignsOn(false, w, 0);
  }

  lemma SecondAttaches(w: World) returns (actions: seq<Action>, w': World)
    requires SecondReady(w)
    ensures Reaches(Under(false), w, actions, w') && SecondAttached(w')
  {
    hide Reaches;
    actions, w' := Attaches(false, w, 0, 8);
    assert map[0 := 1] - {0} == map[];
  }

  /** The first setup's late cancel has the second call's slot removed, with its own port as the cleanup. */
  ghost predicate WrongSlotRemoved(w: World) {
    && w.threads == map[Setup(1) := Thread(AwaitingMedia(1), 0, Some(1), None)] && w.workers == 2
    && w.mgr.pending == map[0 := Entry(1, 1)] && w.reg.active == map[] && w.reg.cleanup == map[8 := Cleanup(0, Some(1))]
    && w.conf == Conference(map[7 := Seat(0, 0), 8 := Seat(1, 1)], {8}) && w.rights.seatedWhenDestroyed == {}
  }

  lemma TakesWrongSlot(w: World) returns (actions: seq<Action>, w': World)
    requires SecondAttached(w)
    ensures Reaches(Under(false), w, actions, w')
    ensures w'.threads == map[Setup(0) := Thread(Resolving(LateCancel, false, Some(8)), 0, Some(0), Some(1)),
                              Setup(1) := Thread(AwaitingMedia(1), 0, Some(1), None)]
    ensures w'.mgr == w.mgr && w'.workers == 2 && w'.reg == w.reg.(active := map[]) && w'.conf == w.conf && w'.rights.seatedWhenDestroyed == {}
    ensures forall k :: 0 <= k < |actions| ==> actions[k] == Go(Setup(0), Yes, 0)
  {
    hide Reaches, LockRules, TurnRules;
    var a := [Go(Setup(0), Yes, 0)];
    var w1 := Goes(false, w, 0, Yes);
    w' := Goes(false, w1, 0, Yes);
    assert map[0 := Media(8, 1)] - {0} == map[];
    ReachesJoin(Under(false), w, a, w1, a, w');
    actions := a + a;
  }

  lemma RegistersWrongSlot(w: World) returns (w': World)
    requires w.threads == map[Setup(0) := Thread(Resolving(LateCancel, false, Some(8)), 0, Some(0), Some(1)),
                              Setup(1) := Thread(AwaitingMedia(1), 0, Some(1), None)]
    requires w.reg.cleanup == map[] && w.rights.seatedWhenDestroyed == {}
    ensures Reaches(Under(false), w, [Go(Setup(0), Yes, 0)], w')
    ensures w'.threads == map[Setup(0) := Thread(Removing(LateCancel, 8), 0, None, None), Setup(1) := Thread(AwaitingMedia(1), 0, Some(1), None)]
    ensures w'.mgr == w.mgr && w'.workers == w.workers && w'.conf == w.conf && w'.rights.seatedWhenDestroyed == {}
    ensures w'.reg == w.reg.(cleanup := map[8 := Cleanup(0, Some(1))])
  {
    hide Reaches, LockRules, TurnRules, SetupStep, TakePendingPort, TakeActive, AskRemove, FallBack, Close;
    w' := Goes(false, w, 0, Yes);
  }

  lemma RemovesWrongSlot(w: World) returns (actions: seq<Action>, w': World)
    requires w.threads == map[Setup(0) := Thread(Resolving(LateCancel, false, Some(8)), 0, Some(0), Some(1)),
                              Setup(1) := Thread(AwaitingMedia(1), 0, Some(1), None)]
    requires w.mgr.pending == map[0 := Entry(1, 1)] && w.workers == 2 && w.reg.active == map[] && w.reg.cleanup == map[]
    requires w.conf == Conference(map[7 := Seat(0, 0), 8 := Seat(1, 1)], {}) && w.rights.seatedWhenDestroyed == {}
    ensures Reaches(Under(false), w, actions, w') && WrongSlotRemoved(w')
    ensures forall k :: 0 <= k < |actions| ==> actions[k] == Go(Setup(0), Yes, 0)
  {
    hide Reaches, LockRules, TurnRules, SetupStep, TakePendingPort, TakeActive, Resolve, RegisterCleanup, FallBack, Close;
    var a := [Go(Setup(0), Yes, 0)];
    var w1 := RegistersWrongSlot(w);
    w' := Goes(false, w1, 0, Yes);
    ReachesJoin(Under(false), w, a, w1, a, w');
    actions := a + a;
  }

  lemma CommitIsOvertaken() returns (actions: seq<Action>, w: World)
    ensures Reaches(Under(false), Init(1), actions, w) && SecondAttached(w)
  {
    var b1, w1 := FirstSignsOn(false, 1);
    var b2, w2 := FirstConnects(w1);
    var b3, w3 := CommitsLate(w2);
    var b4, w4 := SecondGetsReady(w3);
    var b5;
    b5, w := SecondAttaches(w4);
    hide Reaches, FirstWaits, FirstConnected, FirstCommits, SecondReady;
    ReachesJoin(Under(false), w3, b4, w4, b5, w);
    ReachesJoin(Under(false), w2, b3, w3, b4 + b5, w);
    ReachesJoin(Under(false), w1, b2, w2, b3 + (b4 + b5), w);
    ReachesJoin(Under(false), Init(1), b1, w1, b2 + (b3 + (b4 + b5)), w);
    actions := b1 + (b2 + (b3 + (b4 + b5)));
  }

  lemma WrongRemovalCompletes(w: World) returns (actions: seq<Action>, w': World)
    requires WrongSlotRemoved(w)
    ensures Reaches(Under(false), w, actions, w')
    ensures w'.threads == map[Setup(1) := Thread(AwaitingMedia(1), 0, Some(1), None), Worker(2) := Thread(OpDone(8, true), NO_CALL, None, None)]
    ensures w'.conf == Conference(map[7 := Seat(0, 0)], {}) && w'.reg == w.reg && w'.rights == w.rights
  {
    w' := Next(w, RemoveCompleted(8, true));
    Nothing(false, w);
    hide Reaches;
    ReachesThen(Under(false), w, [], w, RemoveCompleted(8, true));
    actions := [] + [RemoveCompleted(8, true)];
  }

  lemma FreesWrongPort(w: World) returns (actions: seq<Action>, w': World)
    requires w.threads == map[Setup(1) := Thread(AwaitingMedia(1), 0, Some(1), None), Worker(2) := Thread(OpDone(8, true), NO_CALL, None, None)]
    requires w.conf == Conference(map[7 := Seat(0, 0)], {}) && w.reg.cleanup == map[8 := Cleanup(0, Some(1))] && w.rights.seatedWhenDestroyed == {}
    ensures Reaches(Under(false), w, actions, w')
    ensures w'.rights.seatedWhenDestroyed == {0} && w'.conf == w.conf
  {
    hide Reaches, LockRules, TurnRules, SetupStep, TeardownStep;
    var a := [Go(Worker(2), Yes, 0)];
    var w1 := Calls(false, w, 2, 0);
    w' := Calls(false, w1, 2, 0);
    assert w.conf.slots[7].port == 0;
    ReachesJoin(Under(false), w, a, w1, a, w');
    actions := a + a;
  }

  /** Without turns, a late cancel takes the media of a later call: it asks for the removal of that call's
      slot and registers its own port as the cleanup; when the removal completes, the port is freed although
      it still sits in another slot. */
  lemma LateCancelTakesFromLaterCall() returns (before: seq<Action>, after: seq<Action>, done: seq<Action>)
    ensures IsRun(LockRules, Init(1), before + after) && IsRun(Free, Init(1), before) && IsRun(Free, Init(1), before + after)
    ensures SecondAttached(After(Init(1), before))
    ensures forall k :: 0 <= k < |after| ==> after[k].Go? && after[k].t == Setup(0)
    ensures WrongSlotRemoved(After(Init(1), before + after))
    ensures IsRun(LockRules, Init(1), before + after + done) && IsRun(Free, Init(1), before + after + done)
    ensures var w := After(Init(1), before + after + done);
      w.rights.seatedWhenDestroyed == {0} && w.conf.slots == map[7 := Seat(0, 0)]
  {
    var w0;
    before, w0 := CommitIsOvertaken();
    var a1, w1 := TakesWrongSlot(w0);
    var a2, w2 := RemovesWrongSlot(w1);
    var d1, w3 := WrongRemovalCompletes(w2);
    var d2, w4 := FreesWrongPort(w3);
    after, done := a1 + a2, d1 + d2;
    ReachesJoin(Under(false), w0, a1, w1, a2, w2);
    ReachesJoin(Under(false), Init(1), before, w0, after, w2);
    ReachesJoin(Under(false), w2, d1, w3, d2, w4);
    ReachesJoin(Under(false), Init(1), before + after, w2, done, w4);
  }

  // ---------------------------------------------------------------- what taking turns does not keep

  /** The first call is attached and cancelled, but its setup has not noticed; a second call of the id has
      signed on and hung up. */
  ghost predicate BothCancelled(w: World) {
    && w.threads == map[Setup(0) := Thread(AwaitingMedia(0), 0, Some(0), None), Setup(1) := Thread(AwaitingMedia(1), 0, Some(1), None)]
    && w.mgr.pending == map[0 := Entry(1, 1)] && w.mgr.cancelled == {0, 1}
    && 0 in w.reg.pendingPorts && w.reg.pendingPorts[0] == 1 && w.reg.active == map[0 := Media(7, 0)] && w.conf.slots == map[7 := Seat(0, 0)]
    && w.rights.makers == [0, 1]
  }

  lemma FirstLosesItsId(w: World) returns (actions: seq<Action>, w': World)
    requires FirstWaits(w, 2)
    ensures Reaches(Under(true), w, actions, w')
    ensures Resting(w') && w'.threads == w.threads && w'.sip.line == map[] && w'.sip.dialed == [0] && w'.sip.rang == [0]
    ensures w'.mgr == w.mgr.(cancelled := {0}) && w'.reg.active == map[0 := Media(7, 0)] && w'.conf.slots == map[7 := Seat(0, 0)]
    ensures w'.rights.makers == [0] && w'.workers == 1 && |w'.sip.log| == 2
  {
    hide Reaches;
    var a1, w1 := Attaches(true, w, 0, 7);
    var a2;
    a2, w' := IsCancelled(true, w1, 0);
    ReachesJoin(Under(true), w, a1, w1, a2, w');
    actions := a1 + a2;
    assert map[0 := 0] - {0} == map[];
  }

  /** A second call of the id is waiting as well. */
  ghost predicate BothWait(w: World) {
    && Resting(w)
    && w.threads == map[Setup(0) := Thread(AwaitingMedia(0), 0, Some(0), None), Setup(1) := Thread(AwaitingMedia(1), 0, Some(1), None)]
    && w.sip.line == map[0 := 1] && w.mgr == Manager(2, map[], map[0 := Entry(1, 1)], {0}, [0, 1])
    && 0 in w.reg.pendingPorts && w.reg.pendingPorts[0] == 1 && w.reg.active == map[0 := Media(7, 0)] && w.conf.slots == map[7 := Seat(0, 0)]
    && w.rights.makers == [0, 1]
  }

  lemma SecondWaits(w: World) returns (actions: seq<Action>, w': World)
    requires Resting(w) && w.threads == map[Setup(0) := Thread(AwaitingMedia(0), 0, Some(0), None)]
    requires w.sip.line == map[] && w.sip.dialed == [0] && w.sip.rang == [0] && |w.sip.log| == 2
    requires w.mgr == Manager(2, map[], map[0 := Entry(0, 0)], {0}, [0])
    requires w.reg.active == map[0 := Media(7, 0)] && w.conf.slots == map[7 := Seat(0, 0)] && w.rights.makers == [0]
    ensures Reaches(Under(true), w, actions, w') && BothWait(w')
  {
    hide Reaches;
    actions, w' := SignsOn(true, w, 0);
  }

  lemma SecondIsCancelled(w: World) returns (actions: seq<Action>, w': World)
    requires BothWait(w)
    ensures Reaches(Under(true), w, actions, w') && BothCancelled(w')
  {
    hide Reaches;
    actions, w' := IsCancelled(true, w, 0);
  }

  lemma SecondGivesUp(w: World) returns (actions: seq<Action>, w': World)
    requires BothCancelled(w)
    ensures Reaches(Under(true), w, actions, w')
    ensures w'.threads == w.threads[Setup(1) := Thread(TakingPending(Abort(true)), 0, Some(1), None)]
    ensures w'.mgr == w.mgr.(pending := map[]) && w'.reg == w.reg && w'.conf == w.conf && w'.rights == w.rights
  {
    hide Reaches, LockRules, TurnRules;
    var w1 := Goes(true, w, 1, Cancel);
    w' := Goes(true, w1, 1, Yes);
    ReachesJoin(Under(true), w, [Go(Setup(1), Cancel, 0)], w1, [Go(Setup(1), Yes, 0)], w');
    actions := [Go(Setup(1), Cancel, 0)] + [Go(Setup(1), Yes, 0)];
    assert map[0 := Entry(1, 1)] - {0} == map[];
  }

  lemma SecondTakesPort(w: World) returns (w': World)
    requires w.threads == map[Setup(0) := Thread(AwaitingMedia(0), 0, Some(0), None),
                              Setup(1) := Thread(TakingPending(Abort(true)), 0, Some(1), None)]
    requires 0 in w.reg.pendingPorts
    ensures Reaches(Under(true), w, [Go(Setup(1), Yes, 0)], w')
    ensures w'.threads == map[Setup(0) := Thread(AwaitingMedia(0), 0, Some(0), None),
                              Setup(1) := Thread(TakingActive(Abort(true), true), 0, Some(1), None)]
    ensures w'.reg == w.reg.(pendingPorts := w.reg.pendingPorts - {0}) && w'.conf == w.conf && w'.rights == w.rights
  {
    hide Reaches, LockRules, TurnRules, SetupStep, TakeActive, Resolve, RegisterCleanup, AskRemove, FallBack, Close;
    w' := Goes(true, w, 1, Yes);
  }

  lemma SecondTakesMedia(w: World) returns (w': World)
    requires w.threads == map[Setup(0) := Thread(AwaitingMedia(0), 0, Some(0), None),
                              Setup(1) := Thread(TakingActive(Abort(true), true), 0, Some(1), None)]
    requires w.reg.active == map[0 := Media(7, 0)]
    ensures Reaches(Under(true), w, [Go(Setup(1), Yes, 0)], w')
    ensures w'.threads == map[Setup(0) := Thread(AwaitingMedia(0), 0, Some(0), None),
                              Setup(1) := Thread(Resolving(Abort(true), true, Some(7)), 0, Some(1), Some(0))]
    ensures w'.reg.active == map[] && w'.conf == w.conf && w'.rights.makers == w.rights.makers
  {
    hide Reaches, LockRules, TurnRules, SetupStep;
    w' := Goes(true, w, 1, Yes);
    assert map[0 := Media(7, 0)] - {0} == map[];
  }

  lemma SecondSweeps(w: World) returns (actions: seq<Action>, w': World)
    requires BothCancelled(w)
    ensures Reaches(Under(true), w, actions, w') && w'.reg.active == map[]
    ensures At(w', Setup(0), AwaitingMedia(0)) && At(w', Setup(1), Resolving(Abort(true), true, Some(7)))
  {
    hide Reaches;
    var a1, w1 := SecondGivesUp(w);
    var w2 := SecondTakesPort(w1);
    w' := SecondTakesMedia(w2);
    var one := [Go(Setup(1), Yes, 0)];
    ReachesJoin(Under(true), w1, one, w2, one, w');
    ReachesJoin(Under(true), w, a1, w1, one + one, w');
    actions := a1 + (one + one);
  }

  /** Even in turns, a call may take what an earlier call of its id has left, while that call's setup still
      runs: here the second call's abort takes the media of the first, whose port sits in slot 7. */
  lemma AbortTakesFromEarlierCall() returns (before: seq<Action>, after: seq<Action>)
    ensures IsRun(TurnRules, Init(2), before + after) && IsRun(Free, Init(2), before) && IsRun(Free, Init(2), before + after)
    ensures BothCancelled(After(Init(2), before))
    ensures var w := After(Init(2), before + after);
      At(w, Setup(0), AwaitingMedia(0)) && At(w, Setup(1), Resolving(Abort(true), true, Some(7))) && w.reg.active == map[]
  {
    var b1, w1 := FirstSignsOn(true, 2);
    var b2, w2 := FirstLosesItsId(w1);
    var b3, w3 := SecondWaits(w2);
    var b4, w4 := SecondIsCancelled(w3);
    var w5;
    after, w5 := SecondSweeps(w4);
    hide FirstWaits, BothWait, Resting;
    before := b1 + (b2 + (b3 + b4));
    ReachesJoin(Under(true), w2, b3, w3, b4, w4);
    ReachesJoin(Under(true), w1, b2, w2, b3 + b4, w4);
    ReachesJoin(Under(true), Init(2), b1, w1, b2 + (b3 + b4), w4);
    ReachesJoin(Under(true), Init(2), before, w4, after, w5);
  }
}
