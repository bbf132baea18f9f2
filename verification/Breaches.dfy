/**
 The scheduling rules are exact: a step that breaks one of them, and no other rule, has a continuation in
 which what the rule protects is lost.
 */
module Breaches {
  import opened Wrappers
  import opened CallMachine
  import opened Ownership
  import opened Orphans
  import opened MediaAttachment
  import opened Belongings
  import opened Turns
  import opened Scripts
  import opened Handovers

  // ---------------------------------------------------------------- without `SerialRule`

  /** The call rules but for the scheduler's. */
  predicate Unserialized(w: World, a: Action) {
    AnswerRule(w, a) && ReuseRule(w, a)
  }

  /** The first setup has taken its entry out, and the main loop starts on the end of its call. */
  lemma UnlistsThenHangsUp(w: World) returns (actions: seq<Action>, w': World)
    requires FirstConnected(w)
    ensures Reaches(Unserialized, w, actions, w')
    ensures w'.threads == map[Setup(0) := Thread(Unlisted(0, true), 0, Some(0), None), Main := Thread(LookingUp(0), 0, None, None)]
    ensures w'.mgr == w.mgr.(pending := map[]) && w'.sip.handled == {}
  {
    hide Reaches;
    var w1 := Next(w, Go(Setup(0), Yes, 0));
    var second;
    second, w' := HangsUp(false, w1, 0);
    assert map[0 := Entry(0, 0)] - {0} == map[];
    Still(w);
    ReachesThen(Unserialized, w, [], w, Go(Setup(0), Yes, 0));
    ReachesUnder(Under(false), Unserialized, w1, second, w');
    ReachesJoin(Unserialized, w, [] + [Go(Setup(0), Yes, 0)], w1, second, w');
    actions := [] + [Go(Setup(0), Yes, 0)] + second;
  }

  /** It finds no session, and no entry to cancel. */
  lemma FindsNothing(w: World) returns (actions: seq<Action>, w': World)
    requires w.threads == map[Setup(0) := Thread(Unlisted(0, true), 0, Some(0), None), Main := Thread(LookingUp(0), 0, None, None)]
    requires w.mgr.sessions == map[] && w.mgr.pending == map[]
    ensures Reaches(Unserialized, w, actions, w')
    ensures w'.threads == map[Setup(0) := Thread(Unlisted(0, true), 0, Some(0), None)]
    ensures w'.mgr == w.mgr && w'.sip == w.sip.(handled := w.sip.handled + {0})
  {
    var a := Go(Main, Yes, 0);
    var w1 := Next(w, a);
    w' := Next(w1, a);
    Still(w);
    hide Reaches;
    ReachesThen(Unserialized, w, [], w, a);
    ReachesThen(Unserialized, w, [] + [a], w1, a);
    actions := [] + [a] + [a];
  }

  lemma LooksUpTooSoon(w: World) returns (actions: seq<Action>, w': World)
    requires FirstConnected(w)
    ensures Reaches(Unserialized, w, actions, w') && Doomed(w', 0)
  {
    hide Reaches;
    var a1, w1 := UnlistsThenHangsUp(w);
    var a2;
    a2, w' := FindsNothing(w1);
    ReachesJoin(Unserialized, w, a1, w1, a2, w');
    actions := a1 + a2;
  }

  lemma Still(w: World)
    ensures Reaches(Unserialized, w, [], w)
  {
  }

  /** A doomed setup's own steps, which nothing blocks and no other rule concerns, leave an orphan. */
  lemma DoomedRunsOn(w: World, i: Instance) returns (actions: seq<Action>, w': World)
    requires Doomed(w, i)
    ensures Reaches(Unserialized, w, actions, w') && Orphaned(w', i)
    ensures forall k :: 0 <= k < |actions| ==> actions[k] == Go(Setup(i), Yes, 0)
  {
    var a, w1 := Go(Setup(i), Yes, 0), w;
    actions := [];
    Still(w);
    DoomedBecomesOrphan(w, i);
    hide Reaches;
    if w.threads[Setup(i)].at.Unlisted? {
      w1 := Next(w, a);
      ReachesThen(Unserialized, w, actions, w, a);
      actions := actions + [a];
    }
    DoomedBecomesOrphan(w1, i);
    w' := Next(w1, a);
    ReachesThen(Unserialized, w, actions, w1, a);
    actions := actions + [a];
  }

  /** Without `SerialRule` a call's end can be looked up and its session stored afterwards. */
  lemma ASessionIsOrphaned() returns (actions: seq<Action>)
    ensures IsRun(Unserialized, Init(1), actions) && IsRun(Free, Init(1), actions)
    ensures Orphaned(After(Init(1), actions), 0)
  {
    var a1, w1 := FirstSignsOn(false, 1);
    var a2, w2 := FirstConnects(w1);
    var a3, w3 := LooksUpTooSoon(w2);
    hide FirstConnected, FirstWaits;
    var a4, w4 := DoomedRunsOn(w3, 0);
    ReachesUnder(Under(false), Unserialized, Init(1), a1, w1);
    ReachesUnder(Under(false), Unserialized, w1, a2, w2);
    ReachesJoin(Unserialized, w2, a3, w3, a4, w4);
    ReachesJoin(Unserialized, w1, a2, w2, a3 + a4, w4);
    ReachesJoin(Unserialized, Init(1), a1, w1, a2 + (a3 + a4), w4);
    actions := a1 + (a2 + (a3 + a4));
  }

  lemma BreachDooms(w: World, a: Action) returns (i: Instance)
    requires Orderly(w) && Enabled(w, a) && !SerialRule(w, a)
    ensures Doomed(Next(w, a), i)
  {
    hide Doomed, InOrder, LatestKnown, Latest, LogKnown;
    var th := w.threads[a.t];
    if th.at.LookingUp? {
      i := th.at.who;
      LookUpDuringCommitDooms(w, th);
    } else {
      i := a.t.who;
      CommitDuringLookUpDooms(w, a.t, th);
    }
  }

  /** `SerialRule` is exact: after any run that keeps the call rules, a step that breaks it and no other has
      a continuation, by the setup's own steps alone, in which a session outlives its call. */
  lemma BreakingSerialOrphans(maxCalls: nat, actions: seq<Action>, a: Action) returns (i: Instance, more: seq<Action>)
    requires IsRun(CallRules, Init(maxCalls), actions) && IsRun(Free, Init(maxCalls), actions)
    requires var w := After(Init(maxCalls), actions); Enabled(w, a) && Unserialized(w, a) && !SerialRule(w, a)
    ensures forall k :: 0 <= k < |more| ==> more[k] == Go(Setup(i), Yes, 0)
    ensures IsRun(Unserialized, Init(maxCalls), actions + [a] + more) && IsRun(Free, Init(maxCalls), actions + [a] + more)
    ensures Orphaned(After(Init(maxCalls), actions + [a] + more), i)
  {
    hide Orderly, Doomed, Orphaned, SerialRule;
    var w := After(Init(maxCalls), actions);
    ReachableIsOrderly(maxCalls, actions);
    i := BreachDooms(w, a);
    var w2;
    more, w2 := DoomedRunsOn(Next(w, a), i);
    ReachesUnder(CallRules, Unserialized, Init(maxCalls), actions, w);
    ReachesThen(Unserialized, Init(maxCalls), actions, w, a);
    ReachesJoin(Unserialized, Init(maxCalls), actions + [a], Next(w, a), more, w2);
  }

  // ---------------------------------------------------------------- without `TurnRule`

  /** `Setup(i)` and the step `a` break the rule against the later call `j`: one leaves, or is emptying
      the maps, while the other registers. */
  predicate Breaks(w: World, a: Action, i: Instance, j: Instance) {
    && i != j && Setup(i) in w.threads && Setup(j) in w.threads && w.threads[Setup(i)].call == w.threads[Setup(j)].call && a.Go?
    && ((a.t == Setup(i) && Leaving(w, w.threads[a.t]) && MidListing(w.threads[Setup(j)].at)) ||
        (a.t == Setup(j) && w.threads[a.t].at.HasPort? && Sweeping(w.threads[Setup(i)].at)))
  }

  lemma SomebodyBreaks(w: World, a: Action)
    requires !TurnRule(w, a)
    ensures exists i, j :: Breaks(w, a, i, j)
  {
    var u :| u in w.threads && u.Setup? && u != a.t && w.threads[u].call == w.threads[a.t].call &&
             ((Leaving(w, w.threads[a.t]) && MidListing(w.threads[u].at)) || (w.threads[a.t].at.HasPort? && Sweeping(w.threads[u].at)));
    if Leaving(w, w.threads[a.t]) && MidListing(w.threads[u].at) {
      assert Breaks(w, a, a.t.who, u.who);
    } else {
      assert Breaks(w, a, u.who, a.t.who);
    }
  }

  /** The port `p` under `c` was made for call `j`, which is later than the call of `Setup(i)`. */
  predicate Rivals(w: World, i: Instance, j: Instance, c: CallId, p: PortId) {
    && Setup(i) in w.threads && Shaped(Setup(i), w.threads[Setup(i)]) && w.threads[Setup(i)].call == c
    && Later(w.sip.dialed, i, j) && w.sip.dialed[i] == c && p < |w.rights.makers| && w.rights.makers[p] == j
  }

  predicate Pending(w: World, c: CallId, p: PortId) {
    c in w.reg.pendingPorts && w.reg.pendingPorts[c] == p
  }

  /** A callback for `c` has the port. */
  predicate Carried(w: World, n: nat, c: CallId, p: PortId) {
    && Worker(n) in w.threads && Shaped(Worker(n), w.threads[Worker(n)])
    && var th := w.threads[Worker(n)];
      && Carries(th.at) && th.call == c && th.at.lent == p
      && (th.at.MediaPublish? ==> th.at.slot in w.conf.slots && w.conf.slots[th.at.slot].port == p)
  }

  predicate Published(w: World, c: CallId, p: PortId) {
    c in w.reg.active && w.reg.active[c].slot in w.conf.slots && w.conf.slots[w.reg.active[c].slot].port == p
  }

  /** The port is registered under `c`, or with a callback for `c`. */
  ghost predicate Findable(w: World, c: CallId, p: PortId) {
    Pending(w, c, p) || Published(w, c, p) || exists n: nat :: Carried(w, n, c, p)
  }

  predicate Exposed(w: World, i: Instance, j: Instance, c: CallId, p: PortId) {
    Rivals(w, i, j, c, p) && Pending(w, c, p)
  }

  /** The next step of `Setup(i)` takes something from a later call. */
  ghost predicate Takes(w: World, i: Instance) {
    var a := Go(Setup(i), Yes, 0);
    Enabled(w, a) && LockRules(w, a) && !Yields(w, Next(w, a), i)
  }

  lemma TakesPort(w: World, i: Instance, j: Instance, c: CallId, p: PortId)
    requires Exposed(w, i, j, c, p) && w.threads[Setup(i)].at.TakingPending?
    ensures Takes(w, i)
  {
    assert !Kept(w.reg.pendingPorts, Next(w, Go(Setup(i), Yes, 0)).reg.pendingPorts, c) && !MayPort(w, c, p, i);
  }

  lemma TakesMedia(w: World, i: Instance, j: Instance, c: CallId, p: PortId)
    requires Rivals(w, i, j, c, p) && Published(w, c, p) && w.threads[Setup(i)].at.TakingActive?
    ensures Takes(w, i)
  {
    assert !Kept(w.reg.active, Next(w, Go(Setup(i), Yes, 0)).reg.active, c);
  }

  lemma TakesNotifier(w: World, i: Instance, j: Instance, c: CallId)
    requires Setup(i) in w.threads && Shaped(Setup(i), w.threads[Setup(i)]) && w.threads[Setup(i)].call == c && w.threads[Setup(i)].at.Closing?
    requires c in w.reg.readyTx && w.reg.readyTx[c] == j && Later(w.sip.dialed, i, j)
    ensures Takes(w, i)
  {
    assert !Kept(w.reg.readyTx, Next(w, Go(Setup(i), Yes, 0)).reg.readyTx, c);
  }

  lemma {:induction false} BoundedBy(xs: set<int>) returns (n: int)
    ensures forall x :: x in xs ==> x < n
    decreases |xs|
  {
    n := 0;
    if x :| x in xs {
      var m := BoundedBy(xs - {x});
      n := if m <= x then x + 1 else m;
      assert forall y :: y in xs ==> y == x || y in xs - {x};
    }
  }

  lemma SomeSlotIsFree(w: World) returns (slot: SlotId)
    ensures FreeSlot(w, slot)
  {
    var asked := set t | t in w.threads && w.threads[t].at.Removing? :: w.threads[t].at.slot;
    var done := set t | t in w.threads && w.threads[t].at.OpDone? :: w.threads[t].at.slot;
    slot := BoundedBy(w.conf.slots.Keys + w.conf.removing + asked + done);
    assert forall t :: t in w.threads && w.threads[t].at.Removing? ==> w.threads[t].at.slot in asked;
    assert forall t :: t in w.threads && w.threads[t].at.OpDone? ==> w.threads[t].at.slot in done;
  }

  /** Other threads are where they were, and so are the calls. */
  ghost predicate Undisturbed(w: World, w': World, t: Tid) {
    && (forall u :: u in w.threads && u != t ==> u in w'.threads && w'.threads[u] == w.threads[u])
    && w'.sip == w.sip && w'.mgr == w.mgr && w'.rights.makers == w.rights.makers
  }

  function StepsToPublish(at: Point): nat {
    if at.MediaPool? then 2 else if at.MediaAdd? then 1 else 0
  }

  /** A callback on its way to publish the port gets one step nearer ... */
  lemma CarriesOn(w: World, n: nat, c: CallId, p: PortId) returns (a: Action, w': World)
    requires Carried(w, n, c, p) && (w.threads[Worker(n)].at.MediaPool? || w.threads[Worker(n)].at.MediaAdd?)
    ensures Reaches(Under(false), w, [a], w') && Undisturbed(w, w', Worker(n))
    ensures Carried(w', n, c, p) && !w'.threads[Worker(n)].at.MediaPutBack?
    ensures StepsToPublish(w'.threads[Worker(n)].at) < StepsToPublish(w.threads[Worker(n)].at)
  {
    hide Reaches;
    var slot := SomeSlotIsFree(w);
    a := Go(Worker(n), Yes, slot);
    w' := Calls(false, w, n, slot);
  }

  lemma PublishesNow(w: World, n: nat, c: CallId, p: PortId) returns (a: Action, w': World)
    requires Carried(w, n, c, p) && w.threads[Worker(n)].at.MediaPublish?
    ensures Reaches(Under(false), w, [a], w') && Undisturbed(w, w', Worker(n)) && Published(w', c, p)
  {
    hide Reaches;
    a := Go(Worker(n), Yes, 0);
    w' := Calls(false, w, n, 0);
  }

  /** ... and publishes it. */
  lemma {:induction false} CarriesToTheEnd(w: World, n: nat, c: CallId, p: PortId) returns (more: seq<Action>, w': World)
    requires Carried(w, n, c, p) && !w.threads[Worker(n)].at.MediaPutBack?
    ensures Reaches(Under(false), w, more, w') && Undisturbed(w, w', Worker(n)) && Published(w', c, p)
    decreases StepsToPublish(w.threads[Worker(n)].at)
  {
    hide Reaches, Shaped;
    if w.threads[Worker(n)].at.MediaPublish? {
      var a;
      a, w' := PublishesNow(w, n, c, p);
      more := [a];
    } else {
      var a, w1 := CarriesOn(w, n, c, p);
      more, w' := CarriesToTheEnd(w1, n, c, p);
      ReachesJoin(Under(false), w, [a], w1, more, w');
      more := [a] + more;
    }
  }

  /** A callback that failed puts the port back. */
  lemma PutsBack(w: World, n: nat, c: CallId, p: PortId) returns (a: Action, w': World)
    requires Carried(w, n, c, p) && w.threads[Worker(n)].at.MediaPutBack?
    ensures Reaches(Under(false), w, [a], w') && Undisturbed(w, w', Worker(n)) && Pending(w', c, p)
    ensures w'.workers == w.workers && forall u :: u in w'.threads ==> u in w.threads
  {
    hide Reaches;
    a := Go(Worker(n), Yes, 0);
    w' := Calls(false, w, n, 0);
  }

  /** At its turn to take active media, the setup takes the later call's, once a callback has published it. */
  lemma RunsIntoPending(w: World, i: Instance, j: Instance, c: CallId, p: PortId) returns (more: seq<Action>, w': World)
    requires Exposed(w, i, j, c, p) && w.threads[Setup(i)].at.TakingActive? && Worker(w.workers) !in w.threads
    ensures Reaches(Under(false), w, more, w') && Takes(w', i)
  {
    hide Reaches, Takes;
    var slot := SomeSlotIsFree(w);
    more, w' := Publishes(false, w, c, slot);
    TakesMedia(w', i, j, c, p);
  }

  lemma RunsIntoMedia(w: World, i: Instance, j: Instance, c: CallId, p: PortId) returns (more: seq<Action>, w': World)
    requires Rivals(w, i, j, c, p) && Findable(w, c, p) && w.threads[Setup(i)].at.TakingActive? && Worker(w.workers) !in w.threads
    ensures Reaches(Under(false), w, more, w') && Takes(w', i)
  {
    hide Reaches, Takes, Shaped;
    if Pending(w, c, p) {
      more, w' := RunsIntoPending(w, i, j, c, p);
    } else if Published(w, c, p) {
      more, w' := [], w;
      Nothing(false, w);
      TakesMedia(w, i, j, c, p);
    } else {
      var n: nat :| Carried(w, n, c, p);
      if w.threads[Worker(n)].at.MediaPutBack? {
        var a, w1 := PutsBack(w, n, c, p);
        more, w' := RunsIntoPending(w1, i, j, c, p);
        ReachesJoin(Under(false), w, [a], w1, more, w');
        more := [a] + more;
      } else {
        more, w' := CarriesToTheEnd(w, n, c, p);
        TakesMedia(w', i, j, c, p);
      }
    }
  }

  /** A late cancel gets there ... */
  lemma CancelsOn(w: World, i: Instance, j: Instance, c: CallId, p: PortId) returns (w': World)
    requires Rivals(w, i, j, c, p) && Findable(w, c, p) && w.threads[Setup(i)].at.Unlisted? && w.threads[Setup(i)].at.owns && i in w.mgr.cancelled
    ensures Reaches(Under(false), w, [Go(Setup(i), Yes, 0)], w')
    ensures Rivals(w', i, j, c, p) && Findable(w', c, p) && w'.threads[Setup(i)].at.TakingActive? && w'.workers == w.workers
    ensures forall u :: u in w'.threads ==> u in w.threads
  {
    hide Reaches;
    w' := Goes(false, w, i, Yes);
    StillFindable(w, w', i, c, p);
  }

  /** What the setup's own step leaves alone stays registered. */
  lemma StillFindable(w: World, w': World, i: Instance, c: CallId, p: PortId)
    requires Findable(w, c, p) && w'.conf == w.conf && w'.reg.active == w.reg.active
    requires Pending(w, c, p) ==> Pending(w', c, p)
    requires forall u :: u in w.threads && u != Setup(i) ==> u in w'.threads && w'.threads[u] == w.threads[u]
    ensures Findable(w', c, p)
  {
    hide Shaped;
    if n: nat :| Carried(w, n, c, p) {
      assert Carried(w', n, c, p);
    }
  }

  lemma CancelRunsIntoMedia(w: World, i: Instance, j: Instance, c: CallId, p: PortId) returns (more: seq<Action>, w': World)
    requires Rivals(w, i, j, c, p) && Findable(w, c, p) && w.threads[Setup(i)].at.Unlisted? && w.threads[Setup(i)].at.owns && i in w.mgr.cancelled
    requires Worker(w.workers) !in w.threads
    ensures Reaches(Under(false), w, more, w') && Takes(w', i)
  {
    hide Reaches, Takes, Rivals, Findable;
    var w1 := CancelsOn(w, i, j, c, p);
    more, w' := RunsIntoMedia(w1, i, j, c, p);
    ReachesJoin(Under(false), w, [Go(Setup(i), Yes, 0)], w1, more, w');
    more := [Go(Setup(i), Yes, 0)] + more;
  }

  /** ... and so does an abort, unless the port is pending, and it takes that. */
  lemma AbortsOn(w: World, i: Instance, j: Instance, c: CallId, p: PortId) returns (w': World)
    requires Rivals(w, i, j, c, p) && Findable(w, c, p) && !Pending(w, c, p) && w.threads[Setup(i)].at.TakingPending?
    ensures Reaches(Under(false), w, [Go(Setup(i), Yes, 0)], w')
    ensures Rivals(w', i, j, c, p) && Findable(w', c, p) && w'.threads[Setup(i)].at.TakingActive? && w'.workers == w.workers
    ensures forall u :: u in w'.threads ==> u in w.threads
  {
    hide Reaches;
    w' := Goes(false, w, i, Yes);
    StillFindable(w, w', i, c, p);
  }

  lemma AbortRunsIntoPort(w: World, i: Instance, j: Instance, c: CallId, p: PortId) returns (more: seq<Action>, w': World)
    requires Rivals(w, i, j, c, p) && Findable(w, c, p) && w.threads[Setup(i)].at.TakingPending? && Worker(w.workers) !in w.threads
    ensures Reaches(Under(false), w, more, w') && Takes(w', i)
  {
    hide Reaches, Takes, Findable;
    if Pending(w, c, p) {
      more, w' := [], w;
      Nothing(false, w);
      TakesPort(w, i, j, c, p);
    } else {
      var w1 := AbortsOn(w, i, j, c, p);
      more, w' := RunsIntoMedia(w1, i, j, c, p);
      ReachesJoin(Under(false), w, [Go(Setup(i), Yes, 0)], w1, more, w');
      more := [Go(Setup(i), Yes, 0)] + more;
    }
  }

  /** An abort that goes on to drop a notifier gets there. */
  predicate Dropping(at: Point) {
    at.Closing? || ((at.Resolving? || at.Removing? || at.FallingBack?) && at.kind == Abort(true))
  }

  function StepsLeft(at: Point): nat {
    if at.Resolving? then 2 else if at.Removing? || at.FallingBack? then 1 else 0
  }

  /** One step nearer to its notifier. */
  lemma DropsOn(w: World, i: Instance) returns (w': World)
    requires Setup(i) in w.threads && Shaped(Setup(i), w.threads[Setup(i)]) && Dropping(w.threads[Setup(i)].at) && !w.threads[Setup(i)].at.Closing?
    ensures Reaches(Under(false), w, [Go(Setup(i), Yes, 0)], w')
    ensures Setup(i) in w'.threads && Shaped(Setup(i), w'.threads[Setup(i)]) && w'.threads[Setup(i)].call == w.threads[Setup(i)].call
    ensures Dropping(w'.threads[Setup(i)].at) && StepsLeft(w'.threads[Setup(i)].at) < StepsLeft(w.threads[Setup(i)].at)
    ensures w'.reg.readyTx == w.reg.readyTx && w'.sip == w.sip
  {
    hide Reaches;
    w' := Goes(false, w, i, Yes);
  }

  lemma {:induction false} RunsIntoNotifier(w: World, i: Instance, j: Instance, c: CallId) returns (more: seq<Action>, w': World)
    requires Setup(i) in w.threads && Shaped(Setup(i), w.threads[Setup(i)]) && w.threads[Setup(i)].call == c && Dropping(w.threads[Setup(i)].at)
    requires c in w.reg.readyTx && w.reg.readyTx[c] == j && Later(w.sip.dialed, i, j)
    ensures Reaches(Under(false), w, more, w') && Takes(w', i)
    decreases StepsLeft(w.threads[Setup(i)].at)
  {
    hide Reaches, Takes, Shaped;
    if w.threads[Setup(i)].at.Closing? {
      more, w' := [], w;
      Nothing(false, w);
      TakesNotifier(w, i, j, c);
    } else {
      var w1 := DropsOn(w, i);
      more, w' := RunsIntoNotifier(w1, i, j, c);
      ReachesJoin(Under(false), w, [Go(Setup(i), Yes, 0)], w1, more, w');
      more := [Go(Setup(i), Yes, 0)] + more;
    }
  }

  /** What is true of the two calls when the rule is about to be broken. */
  lemma BreachIsKnown(w: World, a: Action, i: Instance, j: Instance)
    requires InTurn(w) && Breaks(w, a, i, j)
    ensures var ti, tj := w.threads[Setup(i)], w.threads[Setup(j)];
      && Later(w.sip.dialed, i, j) && w.sip.dialed[i] == ti.call && Shaped(Setup(i), ti) && Shaped(Setup(j), tj)
      && Worker(w.workers) !in w.threads && (forall n: nat :: Worker(n) in w.threads ==> n < w.workers)
      && tj.port.Some? && tj.port.value < |w.rights.makers| && w.rights.makers[tj.port.value] == j
      && (ti.at.Connected? || ti.at.Unlisted? ==> i in w.mgr.cancelled)
  {
    hide RightsAgree, SeatsKnown, PortsListed, CallsListed, Mature, EntriesLast, SweepsAlone, MainAlone;
  }

  /** `TurnRule` is exact: after any run that keeps all the rules, a step that breaks it and no other, while
      the later call's port is registered under the id or with a callback for it, has a continuation that keeps the other rules and in
      which the earlier call's setup takes something from the later call. */
  lemma BreakingTurnsTakes(maxCalls: nat, actions: seq<Action>, a: Action, i: Instance, j: Instance) returns (more: seq<Action>)
    requires IsRun(TurnRules, Init(maxCalls), actions) && IsRun(Free, Init(maxCalls), actions)
    requires var w := After(Init(maxCalls), actions);
      && Enabled(w, a) && LockRules(w, a) && Breaks(w, a, i, j)
      && (a.t == Setup(i) ==>
            var tj := w.threads[Setup(j)]; tj.port.Some? && Findable(w, tj.call, tj.port.value))
    ensures IsRun(LockRules, Init(maxCalls), actions + [a] + more) && IsRun(Free, Init(maxCalls), actions + [a] + more)
    ensures Takes(After(Init(maxCalls), actions + [a] + more), i)
  {
    hide InTurn, Takes, Breaks;
    var w := After(Init(maxCalls), actions);
    ReachableIsInTurn(maxCalls, actions);
    BreachIsKnown(w, a, i, j);
    var w1 := Next(w, a);
    var w2;
    more, w2 := BreachRunsOn(w, a, i, j);
    ReachesUnder(TurnRules, LockRules, Init(maxCalls), actions, w);
    ReachesThen(Under(false), Init(maxCalls), actions, w, a);
    ReachesJoin(Under(false), Init(maxCalls), actions + [a], w1, more, w2);
  }

  lemma BreachRunsOn(w: World, a: Action, i: Instance, j: Instance) returns (more: seq<Action>, w': World)
    requires InTurn(w) && Enabled(w, a) && LockRules(w, a) && Breaks(w, a, i, j)
    requires a.t == Setup(i) ==>
               var tj := w.threads[Setup(j)]; tj.port.Some? && Findable(w, tj.call, tj.port.value)
    ensures Reaches(Under(false), Next(w, a), more, w') && Takes(w', i)
  {
    hide InTurn, Takes, Reaches, LockRules, TurnRules;
    BreachIsKnown(w, a, i, j);
    if a.t == Setup(i) { more, w' := LeavingRunsOn(w, a, i, j); } else { more, w' := ListingRunsOn(w, a, i, j); }
  }

  /** Leaving touches nothing that is registered. */
  lemma LeavesExposed(w: World, a: Action, i: Instance, j: Instance)
    requires Enabled(w, a) && Breaks(w, a, i, j) && a.t == Setup(i)
    requires var ti, tj := w.threads[Setup(i)], w.threads[Setup(j)];
      && Later(w.sip.dialed, i, j) && w.sip.dialed[i] == ti.call
      && tj.port.Some? && Findable(w, tj.call, tj.port.value)
      && tj.port.value < |w.rights.makers| && w.rights.makers[tj.port.value] == j
    ensures var w1, c, p, at := Next(w, a), w.threads[Setup(i)].call, w.threads[Setup(j)].port.value, w.threads[Setup(i)].at;
      && Rivals(w1, i, j, c, p) && Findable(w1, c, p) && w1.workers == w.workers && w1.mgr.cancelled == w.mgr.cancelled
      && (at.Aborting? ==> w1.threads[Setup(i)].at.TakingPending?)
      && (at.Connected? ==> w1.threads[Setup(i)].at.Unlisted? && w1.threads[Setup(i)].at.owns)
      && (forall u :: u in w1.threads ==> u in w.threads)
  {
    StillFindable(w, Next(w, a), i, w.threads[Setup(i)].call, w.threads[Setup(j)].port.value);
  }

  lemma LeavingRunsOn(w: World, a: Action, i: Instance, j: Instance) returns (more: seq<Action>, w': World)
    requires Enabled(w, a) && Breaks(w, a, i, j) && a.t == Setup(i)
    requires var ti, tj := w.threads[Setup(i)], w.threads[Setup(j)];
      && Later(w.sip.dialed, i, j) && w.sip.dialed[i] == ti.call && Worker(w.workers) !in w.threads
      && tj.port.Some? && Findable(w, tj.call, tj.port.value)
      && tj.port.value < |w.rights.makers| && w.rights.makers[tj.port.value] == j && (ti.at.Connected? ==> i in w.mgr.cancelled)
    ensures Reaches(Under(false), Next(w, a), more, w') && Takes(w', i)
  {
    hide Reaches, LockRules, TurnRules, Takes, Rivals, Findable, Next;
    var c, p := w.threads[Setup(i)].call, w.threads[Setup(j)].port.value;
    LeavesExposed(w, a, i, j);
    if w.threads[Setup(i)].at.Aborting? {
      more, w' := AbortRunsIntoPort(Next(w, a), i, j, c, p);
    } else {
      more, w' := CancelRunsIntoMedia(Next(w, a), i, j, c, p);
    }
  }

  lemma ListingRunsOn(w: World, a: Action, i: Instance, j: Instance) returns (more: seq<Action>, w': World)
    requires Enabled(w, a) && Breaks(w, a, i, j) && a.t == Setup(j)
    requires var ti, tj := w.threads[Setup(i)], w.threads[Setup(j)];
      && Later(w.sip.dialed, i, j) && w.sip.dialed[i] == ti.call && Shaped(Setup(i), ti)
      && (forall n: nat :: Worker(n) in w.threads ==> n < w.workers)
      && tj.port.Some? && tj.port.value < |w.rights.makers| && w.rights.makers[tj.port.value] == j && (ti.at.Unlisted? ==> i in w.mgr.cancelled)
    ensures Reaches(Under(false), Next(w, a), more, w') && Takes(w', i)
  {
    hide Reaches, LockRules, TurnRules, Takes;
    var c, p, at := w.threads[Setup(i)].call, w.threads[Setup(j)].port.value, w.threads[Setup(i)].at;
    var w1 := Next(w, a);
    assert Exposed(w1, i, j, c, p);
    if at.TakingPending? {
      more, w' := [], w1;
      Nothing(false, w1);
      TakesPort(w1, i, j, c, p);
    } else if at.TakingActive? {
      more, w' := RunsIntoMedia(w1, i, j, c, p);
    } else if at.Unlisted? {
      more, w' := CancelRunsIntoMedia(w1, i, j, c, p);
    } else {
      var w2 := Goes(false, w1, j, Yes);
      more, w' := RunsIntoNotifier(w2, i, j, c);
      ReachesJoin(Under(false), w1, [Go(Setup(j), Yes, 0)], w2, more, w');
      more := [Go(Setup(j), Yes, 0)] + more;
    }
  }
}
