/**
 One call from its ring to its last release, as a run that keeps every rule assumed anywhere: so the
 rules can be kept, and the results about runs under them are about something.
 */
module Walkthrough {
  import opened Wrappers
  import opened CallMachine
  import opened Orphans
  import opened MediaAttachment
  import opened Leaks
  import opened Turns

  predicate Rules(w: World, a: Action) {
    LeakRules(w, a) && CappedRules(w, a) && TurnRule(w, a) && SegmentRule(w, a)
  }

  /** `a` may be taken in `w` under every rule, and leads to `w'`. */
  ghost predicate Takes(w: World, a: Action, w': World) {
    Enabled(w, a) && Rules(w, a) && Next(w, a) == w'
  }

  /** While one thread runs alone, its steps keep every rule that does not concern them. */
  lemma LoneStepKeepsRules(w: World, t: Tid, answer: Answer, slot: SlotId)
    requires t in w.threads && (forall u :: u in w.threads && InCallback(w.threads[u].at) ==> u == t)
    requires !w.threads[t].at.Registered? && !w.threads[t].at.LookingUp? && !w.threads[t].at.Connected?
    requires !w.threads[t].at.MediaAdd? && (w.threads[t].at.Removing? ==> answer.Yes?)
    requires forall u :: u in w.threads && u != t ==> u.Setup? && w.threads[u].at.AwaitingMedia?
    ensures Rules(w, Go(t, answer, slot))
  {
  }

  /** So may all of `actions`, in order. */
  ghost predicate Leads(w: World, actions: seq<Action>, w': World) {
    Reaches(Rules, w, actions, w')
  }

  lemma LeadsJoin(w: World, first: seq<Action>, w1: World, rest: seq<Action>, w2: World)
    requires Leads(w, first, w1) && Leads(w1, rest, w2)
    ensures Leads(w, first + rest, w2)
  {
    ReachesJoin(Rules, w, first, w1, rest, w2);
  }

  lemma LeadsTwo(w: World, a: Action, w1: World, b: Action, w2: World)
    requires Takes(w, a, w1) && Takes(w1, b, w2)
    ensures Leads(w, [a, b], w2)
  {
    ReachesFirst(Rules, w1, b, [], w2);
    assert [b] + [] == [b] && [a] + [b] == [a, b];
    ReachesFirst(Rules, w, a, [b], w2);
  }

  function Mine(answer: Answer): Action { Go(Setup(0), answer, 0) }
  function Loop(answer: Answer): Action { Go(Main, answer, 0) }
  function Callback(n: nat, slot: SlotId): Action { Go(Worker(n), Yes, slot) }

  const SLOT: SlotId := 7

  // ---------------------------------------------------------------- the call, two steps at a time

  function OneThread(w: World, t: Tid, at: Point, call: CallId, port: Option<PortId>, pool: Option<PoolId>): World {
    w.(threads := map[t := Thread(at, call, port, pool)])
  }

  const RANG: Sip := Sip(map[0 := 0], {}, [IncomingCall(0, 0)], 1, [0], map[0 := 0], [0], map[], {})

  lemma Rings(w: World) returns (w': World)
    requires w == Init(1)
    ensures Leads(w, [Ring(0), Dispatch], w')
    ensures w' == OneThread(w, Setup(0), Spawned, 0, None, None).(sip := RANG)
  {
    var w1 := Next(w, Ring(0));
    w' := Next(w1, Dispatch);
    LeadsTwo(w, Ring(0), w1, Dispatch, w');
  }

  lemma MakesPort(w: World) returns (w': World)
    requires w == OneThread(Init(1), Setup(0), Spawned, 0, None, None).(sip := RANG)
    ensures Leads(w, [Mine(Yes), Mine(Yes)], w')
    ensures w' == OneThread(w, Setup(0), HasPort, 0, Some(0), None)
                  .(rights := w.rights.(makers := [0], portAt := map[0 := AtThread(Setup(0))]))
  {
    hide Rules;
    LoneStepKeepsRules(w, Setup(0), Yes, 0);
    var w1 := Next(w, Mine(Yes));
    LoneStepKeepsRules(w1, Setup(0), Yes, 0);
    w' := Next(w1, Mine(Yes));
    LeadsTwo(w, Mine(Yes), w1, Mine(Yes), w');
  }

  /** A setup alone in the system, at `at`, with its port. */
  ghost predicate SetupAlone(w: World, at: Point) {
    w.sip.(answered := {}) == RANG && w.threads == map[Setup(0) := Thread(at, 0, Some(0), None)] &&
    w.conf.removing == {} && w.mgr.maxCalls == 1
  }

  lemma ListsPort(w: World) returns (w': World)
    requires SetupAlone(w, HasPort)
    ensures Leads(w, [Mine(Yes), Mine(Yes)], w')
    ensures w' == OneThread(w, Setup(0), Listening, 0, Some(0), None)
                  .(reg := w.reg.(pendingPorts := w.reg.pendingPorts[0 := 0], readyTx := w.reg.readyTx[0 := 0]))
  {
    hide Rules;
    LoneStepKeepsRules(w, Setup(0), Yes, 0);
    var w1 := Next(w, Mine(Yes));
    LoneStepKeepsRules(w1, Setup(0), Yes, 0);
    w' := Next(w1, Mine(Yes));
    LeadsTwo(w, Mine(Yes), w1, Mine(Yes), w');
  }

  lemma Registers(w: World) returns (w': World)
    requires SetupAlone(w, Listening)
    ensures Leads(w, [Mine(Yes), Mine(Yes)], w')
    ensures var g := |w.mgr.issued|;
      w' == OneThread(w, Setup(0), Registered(g), 0, Some(0), None)
            .(mgr := w.mgr.(issued := w.mgr.issued + [0], pending := w.mgr.pending[0 := Entry(g, 0)]))
  {
    hide Rules;
    LoneStepKeepsRules(w, Setup(0), Yes, 0);
    var w1 := Next(w, Mine(Yes));
    LoneStepKeepsRules(w1, Setup(0), Yes, 0);
    w' := Next(w1, Mine(Yes));
    LeadsTwo(w, Mine(Yes), w1, Mine(Yes), w');
  }

  lemma PicksUp(w: World) returns (w': World)
    requires SetupAlone(w, Registered(0))
    ensures Takes(w, Mine(Yes), w')
    ensures w' == OneThread(w, Setup(0), AwaitingMedia(0), 0, Some(0), None).(sip := w.sip.(answered := w.sip.answered + {0}))
  {
    w' := Next(w, Mine(Yes));
  }

  lemma Answers(w: World) returns (w': World)
    requires SetupAlone(w, Registered(0)) && w.workers == 0
    ensures Leads(w, [Mine(Yes), MediaState(0)], w')
    ensures w' == w.(sip := w.sip.(answered := w.sip.answered + {0}), workers := 1,
                     threads := map[Setup(0) := Thread(AwaitingMedia(0), 0, Some(0), None), Worker(0) := Thread(MediaTake, 0, None, None)])
  {
    var w1 := PicksUp(w);
    w' := Next(w1, MediaState(0));
    LeadsTwo(w, Mine(Yes), w1, MediaState(0), w');
    hide Leads, SetupStep;
  }

  /** The media callback runs while the setup waits. */
  ghost predicate Attaching(w: World, at: Point, pool: Option<PoolId>) {
    && w.threads == map[Setup(0) := Thread(AwaitingMedia(0), 0, Some(0), None), Worker(0) := Thread(at, 0, None, pool)]
    && w.workers == 1 && w.conf.removing == {}
  }

  function WithCallback(w: World, at: Point, pool: Option<PoolId>): World {
    w.(threads := map[Setup(0) := Thread(AwaitingMedia(0), 0, Some(0), None), Worker(0) := Thread(at, 0, None, pool)])
  }

  lemma BorrowsPort(w: World) returns (w': World)
    requires Attaching(w, MediaTake, None) && w.reg.pendingPorts == map[0 := 0] && w.reg.lentTo == map[]
    ensures Takes(w, Callback(0, SLOT), w')
    ensures w' == WithCallback(w, MediaPool(0), None).(reg := w.reg.(pendingPorts := map[], lentTo := map[0 := Worker(0)]))
  {
    hide Rules;
    LoneStepKeepsRules(w, Worker(0), Yes, SLOT);
    w' := Next(w, Callback(0, SLOT));
    assert map[0 := 0] - {0} == map[];
  }

  lemma TakesPort(w: World) returns (w': World)
    requires Attaching(w, MediaTake, None) && w.reg.pendingPorts == map[0 := 0] && w.reg.lentTo == map[] && w.rights.pools == 0
    ensures Leads(w, [Callback(0, SLOT), Callback(0, SLOT)], w')
    ensures w' == WithCallback(w, MediaAdd(0), Some(0))
                  .(reg := w.reg.(pendingPorts := map[], lentTo := map[0 := Worker(0)]),
                    rights := w.rights.(pools := 1, poolAt := w.rights.poolAt[0 := AtThread(Worker(0))]))
  {
    hide Rules, Leads;
    var w1 := BorrowsPort(w);
    LoneStepKeepsRules(w1, Worker(0), Yes, SLOT);
    w' := Next(w1, Callback(0, SLOT));
    LeadsTwo(w, Callback(0, SLOT), w1, Callback(0, SLOT), w');
  }

  lemma AddKeepsRules(w: World)
    requires Attaching(w, MediaAdd(0), Some(0)) && w.conf.slots == map[]
    ensures Rules(w, Callback(0, SLOT))
  {
  }

  lemma AddsPort(w: World) returns (w': World)
    requires Attaching(w, MediaAdd(0), Some(0)) && w.conf.slots == map[] && w.reg.active == map[] && w.reg.lentTo == map[0 := Worker(0)]
    ensures Leads(w, [Callback(0, SLOT), Callback(0, SLOT)], w')
    ensures w' == WithCallback(w, MediaNotify, None)
                  .(reg := w.reg.(active := map[0 := Media(SLOT, 0)], lentTo := map[]),
                    conf := w.conf.(slots := map[SLOT := Seat(0, 0)]),
                    rights := w.rights.(poolAt := w.rights.poolAt[0 := AtActive(0)]))
  {
    hide Rules, Leads;
    AddKeepsRules(w);
    var w1 := Next(w, Callback(0, SLOT));
    LoneStepKeepsRules(w1, Worker(0), Yes, SLOT);
    w' := Next(w1, Callback(0, SLOT));
    assert map[0 := Worker(0)] - {0} == map[];
    LeadsTwo(w, Callback(0, SLOT), w1, Callback(0, SLOT), w');
  }

  lemma FiresNotifier(w: World) returns (w': World)
    requires Attaching(w, MediaNotify, None) && w.reg.readyTx == map[0 := 0] && w.reg.fired == {}
    ensures Takes(w, Callback(0, SLOT), w')
    ensures w' == OneThread(w, Setup(0), AwaitingMedia(0), 0, Some(0), None).(reg := w.reg.(readyTx := map[], fired := {0}))
  {
    hide Rules;
    LoneStepKeepsRules(w, Worker(0), Yes, SLOT);
    w' := Next(w, Callback(0, SLOT));
    assert map[0 := 0] - {0} == map[];
    assert w'.threads == map[Setup(0) := Thread(AwaitingMedia(0), 0, Some(0), None)];
  }

  lemma Notifies(w: World) returns (w': World)
    requires Attaching(w, MediaNotify, None) && w.reg.readyTx == map[0 := 0] && w.reg.fired == {}
    ensures Leads(w, [Callback(0, SLOT), Mine(Skip)], w')
    ensures w' == OneThread(w, Setup(0), Connecting(0), 0, Some(0), None).(reg := w.reg.(readyTx := map[], fired := {0}))
  {
    hide Rules;
    var w1 := FiresNotifier(w);
    LoneStepKeepsRules(w1, Setup(0), Skip, 0);
    w' := Next(w1, Mine(Skip));
    LeadsTwo(w, Callback(0, SLOT), w1, Mine(Skip), w');
  }

  lemma Connects(w: World) returns (w': World)
    requires SetupAlone(w, Connecting(0)) && w.mgr.pending == map[0 := Entry(0, 0)]
    ensures Leads(w, [Mine(Yes), Mine(Yes)], w')
    ensures w' == OneThread(w, Setup(0), Unlisted(0, true), 0, Some(0), None).(mgr := w.mgr.(pending := map[]))
  {
    hide Leads;
    var w1 := Next(w, Mine(Yes));
    w' := Next(w1, Mine(Yes));
    assert map[0 := Entry(0, 0)] - {0} == map[];
    LeadsTwo(w, Mine(Yes), w1, Mine(Yes), w');
  }

  lemma Stores(w: World) returns (w': World)
    requires SetupAlone(w, Unlisted(0, true)) && w.mgr.cancelled == {} && w.mgr.sessions == map[] && w.rights.portAt == map[0 := AtThread(Setup(0))]
    ensures Leads(w, [Mine(Yes), Mine(Yes)], w')
    ensures w' == w.(threads := map[], mgr := w.mgr.(sessions := map[0 := Session(0, 0)]),
                     rights := w.rights.(portAt := map[0 := AtSession(0)]))
  {
    hide Leads, Rules;
    LoneStepKeepsRules(w, Setup(0), Yes, 0);
    var w1 := Next(w, Mine(Yes));
    LoneStepKeepsRules(w1, Setup(0), Yes, 0);
    w' := Next(w1, Mine(Yes));
    assert w1.threads - {Setup(0)} == map[];
    LeadsTwo(w, Mine(Yes), w1, Mine(Yes), w');
  }

  lemma HangsUp(w: World) returns (w': World)
    requires w.threads == map[] && w.sip == RANG.(answered := {0})
    ensures Leads(w, [HangUp(0), Dispatch], w')
    ensures w' == OneThread(w, Main, LookingUp(0), 0, None, None)
                  .(sip := w.sip.(line := map[], log := [IncomingCall(0, 0), Disconnected(0, 0)], taken := 2, hung := map[0 := 1]))
  {
    var w1 := Next(w, HangUp(0));
    w' := Next(w1, Dispatch);
    assert map[0 := 0] - {0} == map[];
    LeadsTwo(w, HangUp(0), w1, Dispatch, w');
  }

  lemma LookUpKeepsRules(w: World)
    requires w.threads == map[Main := Thread(LookingUp(0), 0, None, None)]
    ensures Rules(w, Loop(Yes))
  {
  }

  lemma LooksUp(w: World) returns (w': World)
    requires w.threads == map[Main := Thread(LookingUp(0), 0, None, None)] && w.mgr.sessions == map[0 := Session(0, 0)]
    requires w.rights.portAt == map[0 := AtSession(0)] && w.reg.pendingPorts == map[]
    ensures Leads(w, [Loop(Yes), Loop(Yes)], w')
    ensures w' == OneThread(w, Main, TakingActive(EndSession, false), 0, Some(0), None)
                  .(sip := w.sip.(handled := w.sip.handled + {0}), mgr := w.mgr.(sessions := map[]),
                    rights := w.rights.(portAt := map[0 := AtThread(Main)]))
  {
    hide Rules, Leads;
    LookUpKeepsRules(w);
    var w1 := Next(w, Loop(Yes));
    LoneStepKeepsRules(w1, Main, Yes, 0);
    w' := Next(w1, Loop(Yes));
    assert map[0 := Session(0, 0)] - {0} == map[];
    LeadsTwo(w, Loop(Yes), w1, Loop(Yes), w');
  }

  lemma FindsMedia(w: World) returns (w': World)
    requires w.threads == map[Main := Thread(TakingActive(EndSession, false), 0, Some(0), None)]
    requires w.reg.active == map[0 := Media(SLOT, 0)] && w.rights.poolAt == map[0 := AtActive(0)]
    ensures Takes(w, Loop(Yes), w')
    ensures w' == OneThread(w, Main, Resolving(EndSession, false, Some(SLOT)), 0, Some(0), Some(0))
                  .(reg := w.reg.(active := map[]), rights := w.rights.(poolAt := map[0 := AtThread(Main)]))
  {
    hide Rules;
    LoneStepKeepsRules(w, Main, Yes, 0);
    w' := Next(w, Loop(Yes));
    assert map[0 := Media(SLOT, 0)] - {0} == map[];
  }

  lemma Resolves(w: World) returns (w': World)
    requires w.threads == map[Main := Thread(TakingActive(EndSession, false), 0, Some(0), None)]
    requires w.reg.active == map[0 := Media(SLOT, 0)] && w.reg.cleanup == map[]
    requires w.rights.portAt == map[0 := AtThread(Main)] && w.rights.poolAt == map[0 := AtActive(0)]
    ensures Leads(w, [Loop(Yes), Loop(Yes)], w')
    ensures w' == OneThread(w, Main, Removing(EndSession, SLOT), 0, None, None)
                  .(reg := w.reg.(active := map[], cleanup := map[SLOT := Cleanup(0, Some(0))]),
                    rights := w.rights.(portAt := map[0 := AtCleanup(SLOT)], poolAt := map[0 := AtCleanup(SLOT)]))
  {
    hide Rules, Leads;
    var w1 := FindsMedia(w);
    LoneStepKeepsRules(w1, Main, Yes, 0);
    w' := Next(w1, Loop(Yes));
    LeadsTwo(w, Loop(Yes), w1, Loop(Yes), w');
  }

  lemma Removes(w: World) returns (w': World)
    requires w.threads == map[Main := Thread(Removing(EndSession, SLOT), 0, None, None)] && w.workers == 1
    requires w.conf == Conference(map[SLOT := Seat(0, 0)], {})
    ensures Leads(w, [Loop(Yes), RemoveCompleted(SLOT, true)], w')
    ensures w' == OneThread(w, Worker(1), OpDone(SLOT, true), NO_CALL, None, None).(workers := 2, conf := Conference(map[], {}))
  {
    var w1 := Next(w, Loop(Yes));
    assert w.threads - {Main} == map[];
    w' := Next(w1, RemoveCompleted(SLOT, true));
    assert map[SLOT := Seat(0, 0)] - {SLOT} == map[];
    assert {} + {SLOT} - {SLOT} == {};
    LeadsTwo(w, Loop(Yes), w1, RemoveCompleted(SLOT, true), w');
  }

  lemma TakesCleanup(w: World) returns (w': World)
    requires w.threads == map[Worker(1) := Thread(OpDone(SLOT, true), NO_CALL, None, None)]
    requires w.reg.cleanup == map[SLOT := Cleanup(0, Some(0))]
    ensures Takes(w, Callback(1, 0), w')
    ensures w' == OneThread(w, Worker(1), Disposing, NO_CALL, Some(0), Some(0))
                  .(reg := w.reg.(cleanup := map[]), rights := Handed(w.rights, Some(0), Some(0), AtThread(Worker(1))))
  {
    hide Rules;
    LoneStepKeepsRules(w, Worker(1), Yes, 0);
    w' := Next(w, Callback(1, 0));
    assert map[SLOT := Cleanup(0, Some(0))] - {SLOT} == map[];
  }

  lemma Frees(w: World) returns (w': World)
    requires w.threads == map[Worker(1) := Thread(OpDone(SLOT, true), NO_CALL, None, None)] && w.conf == Conference(map[], {})
    requires w.reg.cleanup == map[SLOT := Cleanup(0, Some(0))]
    ensures Leads(w, [Callback(1, 0), Callback(1, 0)], w')
    ensures Quiescent(w'.(mgr := w.mgr.(sessions := map[]))) && w'.mgr == w.mgr
    ensures w'.rights.destroys == w.rights.destroys + [0] && w'.rights.releases == w.rights.releases + [0]
  {
    hide Rules;
    var w1 := TakesCleanup(w);
    LoneStepKeepsRules(w1, Worker(1), Yes, 0);
    w' := Next(w1, Callback(1, 0));
    assert w1.threads - {Worker(1)} == map[];
    LeadsTwo(w, Callback(1, 0), w1, Callback(1, 0), w');
  }

  // ---------------------------------------------------------------- the whole call

  lemma SignsUp() returns (actions: seq<Action>, w: World)
    ensures Leads(Init(1), actions, w) && Attaching(w, MediaTake, None)
    ensures w.sip == RANG.(answered := {0}) && w.mgr == Manager(1, map[], map[0 := Entry(0, 0)], {}, [0])
    ensures w.reg == Registries(map[0 := 0], map[], map[0 := 0], {}, map[], map[]) && w.conf == Conference(map[], {})
    ensures w.rights == Rights.Rights([0], map[0 := AtThread(Setup(0))], 0, map[], [], [], {})
  {
    var i := Init(1);
    var w1 := Rings(i);
    var w2 := MakesPort(w1);
    var w3 := ListsPort(w2);
    var w4 := Registers(w3);
    w := Answers(w4);
    hide Leads;
    var mine, last := [Mine(Yes), Mine(Yes)], [Mine(Yes), MediaState(0)];
    LeadsJoin(w3, mine, w4, last, w);
    LeadsJoin(w2, mine, w3, mine + last, w);
    LeadsJoin(w1, mine, w2, mine + (mine + last), w);
    LeadsJoin(i, [Ring(0), Dispatch], w1, mine + (mine + (mine + last)), w);
    actions := [Ring(0), Dispatch] + (mine + (mine + (mine + last)));
  }

  lemma Attaches(w: World) returns (actions: seq<Action>, w': World)
    requires Attaching(w, MediaTake, None)
    requires w.sip == RANG.(answered := {0}) && w.mgr == Manager(1, map[], map[0 := Entry(0, 0)], {}, [0])
    requires w.reg == Registries(map[0 := 0], map[], map[0 := 0], {}, map[], map[]) && w.conf == Conference(map[], {})
    requires w.rights == Rights.Rights([0], map[0 := AtThread(Setup(0))], 0, map[], [], [], {})
    ensures Leads(w, actions, w')
    ensures w' == OneThread(w, Setup(0), Connecting(0), 0, Some(0), None)
                  .(reg := Registries(map[], map[0 := Media(SLOT, 0)], map[], {0}, map[], map[]),
                    conf := Conference(map[SLOT := Seat(0, 0)], {}),
                    rights := w.rights.(pools := 1, poolAt := map[0 := AtActive(0)]))
  {
    var w1 := TakesPort(w);
    var w2 := AddsPort(w1);
    w' := Notifies(w2);
    hide Leads;
    var back, last := [Callback(0, SLOT), Callback(0, SLOT)], [Callback(0, SLOT), Mine(Skip)];
    LeadsJoin(w1, back, w2, last, w');
    LeadsJoin(w, back, w1, back + last, w');
    actions := back + (back + last);
  }

  lemma SetsUp() returns (actions: seq<Action>, w: World)
    ensures Leads(Init(1), actions, w) && w.threads == map[] && w.sip == RANG.(answered := {0})
    ensures w.mgr.sessions == map[0 := Session(0, 0)] && w.workers == 1 && w.conf == Conference(map[SLOT := Seat(0, 0)], {})
    ensures w.reg.active == map[0 := Media(SLOT, 0)] && w.reg.cleanup == map[] && w.reg.pendingPorts == map[]
    ensures w.rights.portAt == map[0 := AtSession(0)] && w.rights.poolAt == map[0 := AtActive(0)]
    ensures w.rights.destroys == w.rights.releases == []
  {
    var first, w1 := SignsUp();
    var second, w2 := Attaches(w1);
    var w3 := Connects(w2);
    w := Stores(w3);
    hide Leads;
    var mine := [Mine(Yes), Mine(Yes)];
    LeadsJoin(w2, mine, w3, mine, w);
    LeadsJoin(w1, second, w2, mine + mine, w);
    LeadsJoin(Init(1), first, w1, second + (mine + mine), w);
    actions := first + (second + (mine + mine));
  }

  lemma TearsDown(w: World) returns (actions: seq<Action>, w': World)
    requires w.threads == map[] && w.sip == RANG.(answered := {0})
    requires w.mgr.sessions == map[0 := Session(0, 0)] && w.workers == 1 && w.conf == Conference(map[SLOT := Seat(0, 0)], {})
    requires w.reg.active == map[0 := Media(SLOT, 0)] && w.reg.cleanup == map[] && w.reg.pendingPorts == map[]
    requires w.rights.portAt == map[0 := AtSession(0)] && w.rights.poolAt == map[0 := AtActive(0)]
    ensures Leads(w, actions, w') && Quiescent(w')
    ensures w'.rights.destroys == w.rights.destroys + [0] && w'.rights.releases == w.rights.releases + [0]
  {
    var w1 := HangsUp(w);
    var w2 := LooksUp(w1);
    var w3 := Resolves(w2);
    var w4 := Removes(w3);
    w' := Frees(w4);
    hide Leads;
    var loop := [Loop(Yes), Loop(Yes)];
    LeadsJoin(w3, [Loop(Yes), RemoveCompleted(SLOT, true)], w4, [Callback(1, 0), Callback(1, 0)], w');
    actions := [Loop(Yes), RemoveCompleted(SLOT, true)] + [Callback(1, 0), Callback(1, 0)];
    LeadsJoin(w2, loop, w3, actions, w');
    LeadsJoin(w1, loop, w2, loop + actions, w');
    LeadsJoin(w, [HangUp(0), Dispatch], w1, loop + (loop + actions), w');
    actions := [HangUp(0), Dispatch] + (loop + (loop + actions));
  }

  /** Under all the rules a call can be set up, stored, hung up and torn down, with its port destroyed
      and its pool released at the end. */
  lemma ACallGoesThrough() returns (before: seq<Action>, after: seq<Action>)
    ensures IsRun(Rules, Init(1), before + after) && IsRun(Free, Init(1), before) && IsRun(Free, Init(1), before + after)
    ensures 0 in After(Init(1), before).mgr.sessions
    ensures var w := After(Init(1), before + after); Quiescent(w) && w.rights.destroys == [0] && w.rights.releases == [0]
  {
    var w, w';
    before, w := SetsUp();
    after, w' := TearsDown(w);
    LeadsJoin(Init(1), before, w, after, w');
  }
}
