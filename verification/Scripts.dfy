/**
 Stretches of a run, from any state in which they can be taken: a call signs on, is attached, hangs up
 and is cancelled.  Together they make the runs of the other modules.
 */
module Scripts {
  import opened Wrappers
  import opened CallMachine
  import opened Orphans
  import opened MediaAttachment
  import opened Turns

  /** Whether calls take turns. */
  function Under(turns: bool): Rule {
    if turns then TurnRules else LockRules
  }

  /** No other call of the id is at a point that `TurnRule` is about. */
  predicate Clear(w: World, i: Instance, c: CallId) {
    forall u :: u in w.threads && u.Setup? && u != Setup(i) && w.threads[u].call == c ==>
      !MidListing(w.threads[u].at) && !Sweeping(w.threads[u].at)
  }

  // ---------------------------------------------------------------- single steps

  /** Steps of a setup task that no rule concerns. */
  predicate Unruled(at: Point) {
    !at.Registered? && !at.Connected? && (SetupPoint(at) || TeardownPoint(at))
  }

  lemma Goes(turns: bool, w: World, i: Instance, answer: Answer) returns (w': World)
    requires Permitted(w, Setup(i), answer) && Unruled(w.threads[Setup(i)].at)
    requires turns ==> Clear(w, i, w.threads[Setup(i)].call)
    ensures Reaches(Under(turns), w, [Go(Setup(i), answer, 0)], w')
    ensures var th := w.threads[Setup(i)];
      w' == if SetupPoint(th.at) then SetupStep(w, Setup(i), th, answer) else TeardownStep(w, Setup(i), th, answer)
  {
    hide SetupStep, TeardownStep;
    var a := Go(Setup(i), answer, 0);
    w' := Next(w, a);
    ReachesThen(Under(turns), w, [], w, a);
    assert [] + [a] == [a];
  }

  // ---------------------------------------------------------------- a call arrives

  /** The main loop is at rest: it has taken every event. */
  predicate Resting(w: World) {
    w.sip.taken == |w.sip.log| && Main !in w.threads
  }

  lemma Arrives(turns: bool, w: World, c: CallId) returns (actions: seq<Action>, w': World)
    requires Resting(w) && ReuseRule(w, Ring(c))
    ensures Reaches(Under(turns), w, actions, w') && Resting(w')
    ensures w' == w.(sip := RingIn(w.sip, c).(taken := w.sip.taken + 1),
                     threads := w.threads[Setup(|w.sip.dialed|) := Thread(Spawned, c, None, None)])
  {
    actions := [Ring(c), Dispatch];
    var w1 := Next(w, Ring(c));
    w' := Next(w1, Dispatch);
    ReachesThen(Under(turns), w, [], w, Ring(c));
    ReachesThen(Under(turns), w, [Ring(c)], w1, Dispatch);
    assert [] + [Ring(c)] == [Ring(c)] && [Ring(c)] + [Dispatch] == actions;
  }

  /** What a setup has done by the time it asks for its number: made its port and listed it. */
  function HavingPort(w: World, i: Instance, c: CallId): World {
    var p := |w.rights.makers|;
    w.(threads := w.threads[Setup(i) := Thread(HasPort, c, Some(p), None)],
       rights := w.rights.(makers := w.rights.makers + [i], portAt := w.rights.portAt[p := AtThread(Setup(i))]))
  }

  lemma MakesPort(turns: bool, w: World, i: Instance, c: CallId) returns (actions: seq<Action>, w': World)
    requires Setup(i) in w.threads && w.threads[Setup(i)] == Thread(Spawned, c, None, None)
    requires |w.mgr.sessions| + |w.mgr.pending| < w.mgr.maxCalls && (turns ==> Clear(w, i, c))
    ensures Reaches(Under(turns), w, actions, w') && w' == HavingPort(w, i, c)
  {
    hide Reaches, LockRules, TurnRules;
    var a := [Go(Setup(i), Yes, 0)];
    var w1 := Goes(turns, w, i, Yes);
    assert w1.threads == w.threads[Setup(i) := Thread(Admitted, c, None, None)];
    w' := Goes(turns, w1, i, Yes);
    ReachesJoin(Under(turns), w, a, w1, a, w');
    actions := a + a;
    assert w'.threads == HavingPort(w, i, c).threads;
  }

  lemma ListsPort(turns: bool, w: World, i: Instance, c: CallId, p: PortId) returns (actions: seq<Action>, w': World)
    requires Setup(i) in w.threads && w.threads[Setup(i)] == Thread(HasPort, c, Some(p), None) && (turns ==> Clear(w, i, c))
    ensures Reaches(Under(turns), w, actions, w')
    ensures w' == w.(threads := w.threads[Setup(i) := Thread(Listening, c, Some(p), None)],
                     reg := w.reg.(pendingPorts := w.reg.pendingPorts[c := p], readyTx := w.reg.readyTx[c := i]))
  {
    hide Reaches, LockRules, TurnRules;
    var a := [Go(Setup(i), Yes, 0)];
    var w1 := Goes(turns, w, i, Yes);
    assert w1.threads == w.threads[Setup(i) := Thread(Listed, c, Some(p), None)];
    w' := Goes(turns, w1, i, Yes);
    ReachesJoin(Under(turns), w, a, w1, a, w');
    actions := a + a;
    assert w'.threads == w.threads[Setup(i) := Thread(Listening, c, Some(p), None)];
  }

  lemma Answers(turns: bool, w: World, i: Instance, c: CallId, p: PortId) returns (actions: seq<Action>, w': World)
    requires Setup(i) in w.threads && w.threads[Setup(i)] == Thread(Listening, c, Some(p), None)
    requires c in w.sip.line && w.sip.line[c] == i && (turns ==> Clear(w, i, c))
    ensures Reaches(Under(turns), w, actions, w')
    ensures var g := |w.mgr.issued|;
      w' == w.(threads := w.threads[Setup(i) := Thread(AwaitingMedia(g), c, Some(p), None)],
               sip := w.sip.(answered := w.sip.answered + {i}),
               mgr := w.mgr.(issued := w.mgr.issued + [i], pending := w.mgr.pending[c := Entry(g, i)]))
  {
    hide Reaches;
    var a := [Go(Setup(i), Yes, 0)];
    var w1 := Goes(turns, w, i, Yes);
    var w2 := Goes(turns, w1, i, Yes);
    w' := Next(w2, a[0]);
    ReachesJoin(Under(turns), w, a, w1, a, w2);
    ReachesThen(Under(turns), w, a + a, w2, a[0]);
    actions := a + a + a;
    assert w'.threads == w.threads[Setup(i) := Thread(AwaitingMedia(|w.mgr.issued|), c, Some(p), None)];
  }

  lemma ArrivesWithPort(turns: bool, w: World, c: CallId) returns (actions: seq<Action>, w': World)
    requires Resting(w) && ReuseRule(w, Ring(c)) && |w.mgr.sessions| + |w.mgr.pending| < w.mgr.maxCalls
    requires turns ==> Clear(w, |w.sip.dialed|, c)
    ensures Reaches(Under(turns), w, actions, w') && Resting(w')
    ensures w' == HavingPort(w.(sip := RingIn(w.sip, c).(taken := w.sip.taken + 1)), |w.sip.dialed|, c)
  {
    var a1, w1 := Arrives(turns, w, c);
    var a2;
    a2, w' := MakesPort(turns, w1, |w.sip.dialed|, c);
    hide Reaches, LockRules, TurnRules, RingIn;
    ReachesJoin(Under(turns), w, a1, w1, a2, w');
    actions := a1 + a2;
    assert w'.threads == w.threads[Setup(|w.sip.dialed|) := Thread(HasPort, c, Some(|w.rights.makers|), None)];
  }

  lemma RegistersPort(turns: bool, w: World, i: Instance, c: CallId, p: PortId) returns (actions: seq<Action>, w': World)
    requires Setup(i) in w.threads && w.threads[Setup(i)] == Thread(HasPort, c, Some(p), None) && (turns ==> Clear(w, i, c))
    requires c in w.sip.line && w.sip.line[c] == i
    ensures Reaches(Under(turns), w, actions, w')
    ensures var g := |w.mgr.issued|;
      w' == w.(threads := w.threads[Setup(i) := Thread(AwaitingMedia(g), c, Some(p), None)],
               sip := w.sip.(answered := w.sip.answered + {i}),
               mgr := w.mgr.(issued := w.mgr.issued + [i], pending := w.mgr.pending[c := Entry(g, i)]),
               reg := w.reg.(pendingPorts := w.reg.pendingPorts[c := p], readyTx := w.reg.readyTx[c := i]))
  {
    var a1, w1 := ListsPort(turns, w, i, c, p);
    var a2;
    a2, w' := Answers(turns, w1, i, c, p);
    hide Reaches, LockRules, TurnRules;
    ReachesJoin(Under(turns), w, a1, w1, a2, w');
    actions := a1 + a2;
    assert w'.threads == w.threads[Setup(i) := Thread(AwaitingMedia(|w.mgr.issued|), c, Some(p), None)];
  }

  lemma SignsOn(turns: bool, w: World, c: CallId) returns (actions: seq<Action>, w': World)
    requires Resting(w) && ReuseRule(w, Ring(c)) && |w.mgr.sessions| + |w.mgr.pending| < w.mgr.maxCalls
    requires turns ==> Clear(w, |w.sip.dialed|, c)
    ensures Reaches(Under(turns), w, actions, w') && Resting(w')
    ensures var i, p, g := |w.sip.dialed|, |w.rights.makers|, |w.mgr.issued|;
      w' == w.(threads := w.threads[Setup(i) := Thread(AwaitingMedia(g), c, Some(p), None)],
               sip := RingIn(w.sip, c).(taken := w.sip.taken + 1, answered := w.sip.answered + {i}),
               mgr := w.mgr.(issued := w.mgr.issued + [i], pending := w.mgr.pending[c := Entry(g, i)]),
               reg := w.reg.(pendingPorts := w.reg.pendingPorts[c := p], readyTx := w.reg.readyTx[c := i]),
               rights := w.rights.(makers := w.rights.makers + [i], portAt := w.rights.portAt[p := AtThread(Setup(i))]))
  {
    hide Reaches, LockRules, TurnRules, ReuseRule;
    var i := |w.sip.dialed|;
    var a1, w1 := ArrivesWithPort(turns, w, c);
    var a2;
    a2, w' := RegistersPort(turns, w1, i, c, |w.rights.makers|);
    ReachesJoin(Under(turns), w, a1, w1, a2, w');
    actions := a1 + a2;
    assert w'.threads == w.threads[Setup(i) := Thread(AwaitingMedia(|w.mgr.issued|), c, Some(|w.rights.makers|), None)];
  }

  // ---------------------------------------------------------------- its media, and its end

  predicate FreeSlot(w: World, slot: SlotId) {
    slot !in w.conf.slots && slot !in w.conf.removing &&
    (forall t :: t in w.threads ==>
       !(w.threads[t].at.Removing? && w.threads[t].at.slot == slot) && !(w.threads[t].at.OpDone? && w.threads[t].at.slot == slot))
  }

  /** A step of a new callback, which no rule but `SlotRule` concerns. */
  lemma Calls(turns: bool, w: World, n: nat, slot: SlotId) returns (w': World)
    requires Worker(n) in w.threads && Shaped(Worker(n), w.threads[Worker(n)])
    requires w.threads[Worker(n)].at.MediaAdd? ==> FreeSlot(w, slot)
    ensures Reaches(Under(turns), w, [Go(Worker(n), Yes, slot)], w')
    ensures w' == OtherStep(w, Worker(n), w.threads[Worker(n)], Yes, slot)
  {
    hide OtherStep;
    var a := Go(Worker(n), Yes, slot);
    w' := Next(w, a);
    ReachesThen(Under(turns), w, [], w, a);
    assert [] + [a] == [a];
  }

  /** A callback takes the pending port of `c` ... */
  lemma Borrows(turns: bool, w: World, c: CallId) returns (actions: seq<Action>, w': World)
    requires c in w.reg.pendingPorts && Worker(w.workers) !in w.threads
    ensures Reaches(Under(turns), w, actions, w')
    ensures var p, t := w.reg.pendingPorts[c], Worker(w.workers);
      w' == w.(threads := w.threads[t := Thread(MediaPool(p), c, None, None)], workers := w.workers + 1,
               reg := w.reg.(pendingPorts := w.reg.pendingPorts - {c}, lentTo := w.reg.lentTo[c := t]))
  {
    var w1 := Next(w, MediaState(c));
    w' := Calls(turns, w1, w.workers, 0);
    Nothing(turns, w);
    hide Reaches;
    ReachesThen(Under(turns), w, [], w, MediaState(c));
    ReachesJoin(Under(turns), w, [] + [MediaState(c)], w1, [Go(Worker(w.workers), Yes, 0)], w');
    actions := [] + [MediaState(c)] + [Go(Worker(w.workers), Yes, 0)];
    assert w'.threads == w.threads[Worker(w.workers) := Thread(MediaPool(w.reg.pendingPorts[c]), c, None, None)];
  }

  /** ... adds it to the conference bridge ... */
  lemma Adds(turns: bool, w: World, n: nat, c: CallId, p: PortId, slot: SlotId) returns (actions: seq<Action>, w': World)
    requires Worker(n) in w.threads && w.threads[Worker(n)] == Thread(MediaPool(p), c, None, None) && FreeSlot(w, slot)
    ensures Reaches(Under(turns), w, actions, w')
    ensures var b := w.rights.pools;
      w' == w.(threads := w.threads[Worker(n) := Thread(MediaPublish(p, slot), c, None, Some(b))],
               conf := w.conf.(slots := w.conf.slots[slot := Seat(p, b)]),
               rights := w.rights.(pools := b + 1, poolAt := w.rights.poolAt[b := AtThread(Worker(n))]))
  {
    hide Reaches;
    var a := [Go(Worker(n), Yes, slot)];
    var w1 := Calls(turns, w, n, slot);
    w' := Calls(turns, w1, n, slot);
    ReachesJoin(Under(turns), w, a, w1, a, w');
    actions := a + a;
    assert w'.threads == w.threads[Worker(n) := Thread(MediaPublish(p, slot), c, None, Some(w.rights.pools))];
  }

  lemma Nothing(turns: bool, w: World)
    ensures Reaches(Under(turns), w, [], w)
  {
  }

  /** ... and publishes it. */
  lemma Publishes(turns: bool, w: World, c: CallId, slot: SlotId) returns (actions: seq<Action>, w': World)
    requires c in w.reg.pendingPorts && FreeSlot(w, slot) && Worker(w.workers) !in w.threads
    ensures Reaches(Under(turns), w, actions, w')
    ensures var p, t, b := w.reg.pendingPorts[c], Worker(w.workers), w.rights.pools;
      && w'.threads == w.threads[t := Thread(MediaNotify, c, None, None)] && w'.workers == w.workers + 1
      && w'.sip == w.sip && w'.mgr == w.mgr
      && w'.reg == w.reg.(pendingPorts := w.reg.pendingPorts - {c}, lentTo := w.reg.lentTo - {c}, active := w.reg.active[c := Media(slot, b)])
      && w'.conf == w.conf.(slots := w.conf.slots[slot := Seat(p, b)])
      && w'.rights.makers == w.rights.makers && w'.rights.pools == b + 1 && w'.rights.portAt == w.rights.portAt
      && w'.rights.seatedWhenDestroyed == w.rights.seatedWhenDestroyed
  {
    hide Reaches;
    var n := w.workers;
    var a1, w1 := Borrows(turns, w, c);
    var a2, w2 := Adds(turns, w1, n, c, w.reg.pendingPorts[c], slot);
    w' := Calls(turns, w2, n, slot);
    ReachesJoin(Under(turns), w1, a2, w2, [Go(Worker(n), Yes, slot)], w');
    actions := a1 + (a2 + [Go(Worker(n), Yes, slot)]);
    ReachesJoin(Under(turns), w, a1, w1, a2 + [Go(Worker(n), Yes, slot)], w');
    assert w'.reg.lentTo == w.reg.lentTo - {c};
    assert w'.threads == w.threads[Worker(w.workers) := Thread(MediaNotify, c, None, None)];
  }

  lemma Attaches(turns: bool, w: World, c: CallId, slot: SlotId) returns (actions: seq<Action>, w': World)
    requires c in w.reg.pendingPorts && c in w.reg.readyTx && FreeSlot(w, slot) && Worker(w.workers) !in w.threads
    ensures Reaches(Under(turns), w, actions, w')
    ensures var p, b := w.reg.pendingPorts[c], w.rights.pools;
      && w'.threads == w.threads && w'.workers == w.workers + 1 && w'.sip == w.sip && w'.mgr == w.mgr
      && w'.reg == w.reg.(pendingPorts := w.reg.pendingPorts - {c}, lentTo := w.reg.lentTo - {c}, active := w.reg.active[c := Media(slot, b)],
                          readyTx := w.reg.readyTx - {c}, fired := w.reg.fired + {w.reg.readyTx[c]})
      && w'.conf == w.conf.(slots := w.conf.slots[slot := Seat(p, b)])
      && w'.rights.makers == w.rights.makers && w'.rights.pools == b + 1 && w'.rights.portAt == w.rights.portAt
      && w'.rights.seatedWhenDestroyed == w.rights.seatedWhenDestroyed
  {
    var first, w1 := Publishes(turns, w, c, slot);
    w' := Calls(turns, w1, w.workers, slot);
    hide Reaches;
    actions := first + [Go(Worker(w.workers), Yes, slot)];
    ReachesJoin(Under(turns), w, first, w1, [Go(Worker(w.workers), Yes, slot)], w');
    assert w'.threads == w.threads;
  }

  lemma HangsUp(turns: bool, w: World, c: CallId) returns (actions: seq<Action>, w': World)
    requires Resting(w) && c in w.sip.line
    ensures Reaches(Under(turns), w, actions, w')
    ensures w' == w.(sip := HangUpCall(w.sip, c).(taken := w.sip.taken + 1),
                     threads := w.threads[Main := Thread(LookingUp(w.sip.line[c]), c, None, None)])
  {
    actions := [HangUp(c), Dispatch];
    var w1 := Next(w, HangUp(c));
    w' := Next(w1, Dispatch);
    ReachesThen(Under(turns), w, [], w, HangUp(c));
    ReachesThen(Under(turns), w, [HangUp(c)], w1, Dispatch);
    assert [] + [HangUp(c)] == [HangUp(c)] && [HangUp(c)] + [Dispatch] == actions;
  }

  /** The main loop finds no session, and cancels the setup under the id. */
  lemma FindsNoSession(turns: bool, w: World, c: CallId, i: Instance) returns (actions: seq<Action>, w': World)
    requires Main in w.threads && w.threads[Main] == Thread(LookingUp(i), c, None, None) && c !in w.mgr.sessions && c in w.mgr.pending
    requires Setup(i) in w.threads ==> !Committing(w.threads[Setup(i)].at)
    ensures Reaches(Under(turns), w, actions, w')
    ensures w' == w.(threads := w.threads - {Main}, sip := w.sip.(handled := w.sip.handled + {i}),
                     mgr := w.mgr.(cancelled := w.mgr.cancelled + {w.mgr.pending[c].who}))
  {
    var a := Go(Main, Yes, 0);
    var w1 := Next(w, a);
    w' := Next(w1, a);
    Nothing(turns, w);
    hide Reaches;
    ReachesThen(Under(turns), w, [], w, a);
    ReachesThen(Under(turns), w, [] + [a], w1, a);
    actions := [] + [a] + [a];
    assert w'.threads == w.threads - {Main};
  }

  /** The call hangs up before its session is stored: the setup under its id is cancelled. */
  lemma IsCancelled(turns: bool, w: World, c: CallId) returns (actions: seq<Action>, w': World)
    requires Resting(w) && c in w.sip.line && c !in w.mgr.sessions && c in w.mgr.pending
    requires Setup(w.sip.line[c]) in w.threads ==> !Committing(w.threads[Setup(w.sip.line[c])].at)
    ensures Reaches(Under(turns), w, actions, w') && Resting(w')
    ensures w' == w.(sip := HangUpCall(w.sip, c).(taken := w.sip.taken + 1, handled := w.sip.handled + {w.sip.line[c]}),
                     mgr := w.mgr.(cancelled := w.mgr.cancelled + {w.mgr.pending[c].who}))
  {
    hide Reaches;
    var a1, w1 := HangsUp(turns, w, c);
    var a2;
    a2, w' := FindsNoSession(turns, w1, c, w.sip.line[c]);
    ReachesJoin(Under(turns), w, a1, w1, a2, w');
    actions := a1 + a2;
    assert w'.threads == w.threads;
  }
}
