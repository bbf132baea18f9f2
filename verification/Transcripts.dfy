/**
 What a setup was told on its way: whether it found room at the gate, and how its answer, its media wait,
 its intro and its connection came out.  Which transcripts may lead to a session, which to an abort, and
 which to nothing at all.  Nothing is assumed of runs.
 */
module Transcripts {
  import opened Wrappers
  import opened CallMachine
  import opened Effects
  import opened Ownership
  import opened Orphans

  datatype Stage = AtGate | AtAnswer | AtMedia | AtIntro | AtConnect
  datatype Reply = Reply(stage: Stage, answer: Answer)

  /** What the action tells setup `i`: room or none at the gate, and the outcome of a call or an await. */
  function ToldBy(w: World, a: Action, i: Instance): seq<Reply> {
    if a.Go? && a.t == Setup(i) && a.t in w.threads then
      match w.threads[a.t].at
      case Spawned => [Reply(AtGate, if |w.mgr.sessions| + |w.mgr.pending| < w.mgr.maxCalls then Yes else No)]
      case Registered(_) => [Reply(AtAnswer, a.answer)]
      case AwaitingMedia(_) => [Reply(AtMedia, a.answer)]
      case PlayingIntro(_) => [Reply(AtIntro, a.answer)]
      case Connecting(_) => [Reply(AtConnect, a.answer)]
      case _ => []
    else []
  }

  function Transcript(w: World, actions: seq<Action>, i: Instance): seq<Reply>
    requires IsRun(Free, w, actions)
    decreases |actions|
  {
    if actions == [] then [] else ToldBy(w, actions[0], i) + Transcript(Next(w, actions[0]), actions[1..], i)
  }

  // ---------------------------------------------------------------- the transcripts there are

  const ADMITTED: seq<Reply> := [Reply(AtGate, Yes)]
  const ANSWERED: seq<Reply> := ADMITTED + [Reply(AtAnswer, Yes)]
  const INTRODUCED: seq<Reply> := ANSWERED + [Reply(AtMedia, Yes)]

  /** Ready to connect: media came, and the intro, if any, was played. */
  predicate Prepared(said: seq<Reply>) {
    said == ANSWERED + [Reply(AtMedia, Skip)] || said == INTRODUCED + [Reply(AtIntro, Yes)]
  }

  /** ... and the connection came about. */
  predicate Completed(said: seq<Reply>) {
    said != [] && Prepared(said[..|said| - 1]) && said[|said| - 1].stage == AtConnect &&
    (said[|said| - 1].answer == Yes || said[|said| - 1].answer == Skip)
  }

  /** Given up while the notifier may still be registered: the answer failed, or the caller left first. */
  predicate GaveUpEarly(said: seq<Reply>) {
    (exists a: Answer :: a != Yes && said == ADMITTED + [Reply(AtAnswer, a)]) || said == ANSWERED + [Reply(AtMedia, Cancel)]
  }

  /** Given up later: the notifier died, the caller left, or the connection failed. */
  predicate GaveUpLate(said: seq<Reply>) {
    || said == ANSWERED + [Reply(AtMedia, No)]
    || said == INTRODUCED + [Reply(AtIntro, Cancel)]
    || (said != [] && Prepared(said[..|said| - 1]) &&
        (said[|said| - 1] == Reply(AtConnect, No) || said[|said| - 1] == Reply(AtConnect, Cancel)))
  }

  // ---------------------------------------------------------------- the invariant

  /** Where a setup with this transcript can be. */
  ghost predicate Tells(at: Point, said: seq<Reply>) {
    match at
    case Spawned => said == []
    case AwaitingMedia(_) => said == ANSWERED
    case PlayingIntro(_) => said == INTRODUCED
    case Connecting(_) => Prepared(said)
    case Connected(_) => Completed(said)
    case Unlisted(_, _) => Completed(said)
    case Storing => Completed(said)
    case Aborting(_, unlisten) => if unlisten then GaveUpEarly(said) else GaveUpLate(said)
    case TakingPending(k) => TornDown(k, said)
    case TakingActive(k, _) => TornDown(k, said)
    case Resolving(k, _, _) => TornDown(k, said)
    case Removing(k, _) => TornDown(k, said)
    case FallingBack(k, _) => TornDown(k, said)
    case Closing => GaveUpEarly(said)
    case _ => said == ADMITTED
  }

  ghost predicate TornDown(k: Kind, said: seq<Reply>) {
    match k
    case Abort(unlisten) => if unlisten then GaveUpEarly(said) else GaveUpLate(said)
    case LateCancel => Completed(said)
    case EndSession => false
  }

  /** Call `i` is in no map, has no port, and has not been answered. */
  ghost predicate NoTrace(w: World, i: Instance) {
    && i !in w.rights.makers && i !in w.sip.answered && i !in w.mgr.issued
    && (forall c :: c in w.mgr.pending ==> w.mgr.pending[c].who != i)
    && (forall c :: c in w.reg.readyTx ==> w.reg.readyTx[c] != i)
    && (forall c :: c in w.mgr.sessions ==> w.mgr.sessions[c].who != i)
  }

  ghost predicate Over(said: seq<Reply>) {
    said == [Reply(AtGate, No)] || Completed(said) || GaveUpEarly(said) || GaveUpLate(said)
  }

  ghost predicate Faithful(w: World, i: Instance, said: seq<Reply>) {
    && (Setup(i) in w.threads ==> Tells(w.threads[Setup(i)].at, said) && (w.threads[Setup(i)].at.Spawned? ==> NoTrace(w, i)))
    && (forall c :: c in w.mgr.sessions && w.mgr.sessions[c].who == i ==> Completed(said))
    && (i >= |w.sip.rang| || w.sip.rang[i] >= w.sip.taken ==> said == [] && NoTrace(w, i))
    && (Setup(i) !in w.threads && i < |w.sip.rang| && w.sip.rang[i] < w.sip.taken ==> Over(said))
    && (said == [Reply(AtGate, No)] ==> NoTrace(w, i) && Setup(i) !in w.threads)
  }

  // ---------------------------------------------------------------- steps of others

  /** Where the channel has the start of each call. */
  ghost predicate RingsKnown(s: Sip) {
    |s.rang| == |s.dialed| && forall i :: 0 <= i < |s.rang| ==> s.rang[i] < |s.log| && s.log[s.rang[i]] == IncomingCall(s.dialed[i], i)
  }

  lemma EnvKeepsRings(w: World, a: Action)
    requires FreshNames(w) && RingsKnown(w.sip) && Enabled(w, a) && !a.Go?
    ensures RingsKnown(Next(w, a).sip)
  {
  }

  lemma DispatchIsFaithful(w: World, i: Instance, said: seq<Reply>)
    requires FreshNames(w) && RingsKnown(w.sip) && Enabled(w, Dispatch) && Faithful(w, i, said)
    ensures Faithful(DispatchEvent(w), i, said)
  {
    hide Over, Completed;
    if i < |w.sip.rang| && w.sip.rang[i] == w.sip.taken { assert w.sip.log[w.sip.taken] == IncomingCall(w.sip.dialed[i], i); }
  }

  lemma EnvIsFaithful(w: World, a: Action, i: Instance, said: seq<Reply>)
    requires FreshNames(w) && RingsKnown(w.sip) && Enabled(w, a) && !a.Go? && Faithful(w, i, said)
    ensures Faithful(Next(w, a), i, said)
  {
    hide Tells, Over, Completed;
    if a.Dispatch? {
      hide Faithful;
      DispatchIsFaithful(w, i, said);
    }
  }

  lemma SetupLeavesOthers(w: World, w': World, t: Tid, th: Thread, i: Instance, said: seq<Reply>)
    requires FreshNames(w) && Acts(w, t, th) && SetupPoint(th.at) && SetupEffect(w, w', t, th) && t != Setup(i) && Faithful(w, i, said)
    ensures Faithful(w', i, said)
  {
    hide Tells, Over, Completed, LogKnown, Shaped;
  }

  lemma TeardownLeavesOthers(w: World, w': World, t: Tid, th: Thread, i: Instance, said: seq<Reply>)
    requires FreshNames(w) && Acts(w, t, th) && TeardownPoint(th.at) && TeardownEffect(w, w', t, th) && t != Setup(i) && Faithful(w, i, said)
    ensures Faithful(w', i, said)
  {
    hide Tells, Over, Completed, LogKnown, Shaped;
  }

  lemma OtherLeavesOthers(w: World, w': World, t: Tid, th: Thread, slot: SlotId, i: Instance, said: seq<Reply>)
    requires FreshNames(w) && Acts(w, t, th) && !SetupPoint(th.at) && !TeardownPoint(th.at) && OtherEffect(w, w', t, th, slot)
    requires Faithful(w, i, said)
    ensures Faithful(w', i, said)
  {
    hide Tells, Over, Completed, LogKnown, Shaped;
  }

  // ---------------------------------------------------------------- the setup's own steps

  lemma Lengths(said: seq<Reply>)
    ensures Prepared(said) ==> 4 <= |said| + 1 <= 5
    ensures Completed(said) ==> 4 <= |said| <= 5
    ensures GaveUpEarly(said) || GaveUpLate(said) ==> |said| > 1
  {
  }

  /** At the gate: room lets it in, none ends it without a trace. */
  lemma GateTells(w: World, t: Tid, th: Thread, said: seq<Reply>)
    requires Acts(w, t, th) && th.at.Spawned? && Faithful(w, t.who, said) && t.Setup?
    requires FreshNames(w)
    ensures Faithful(Gate(w, t, th), t.who, said + ToldBy(w, Go(t, Yes, 0), t.who))
  {
    assert said == [];
    assert [] + ToldBy(w, Go(t, Yes, 0), t.who) == ToldBy(w, Go(t, Yes, 0), t.who);
  }

  /** A step between the calls and awaits says nothing, and leads on or to the end that was decided. */
  lemma QuietTells(w: World, t: Tid, th: Thread, said: seq<Reply>, answer: Answer)
    requires Acts(w, t, th) && SetupPoint(th.at) && t.Setup? && Tells(th.at, said)
    requires !th.at.Spawned? && !th.at.Registered? && !th.at.AwaitingMedia? && !th.at.PlayingIntro? && !th.at.Connecting?
    ensures var w' := SetupStep(w, t, th, answer);
      if t in w'.threads then Tells(w'.threads[t].at, said) else Over(said)
  {
    hide GaveUpEarly, GaveUpLate, Completed;
  }

  /** A call or an await says how it came out, and leads where that takes it. */
  lemma AwaitTells(w: World, t: Tid, th: Thread, said: seq<Reply>, answer: Answer)
    requires Acts(w, t, th) && t.Setup? && Tells(th.at, said) && Permitted(w, t, answer)
    requires th.at.Registered? || th.at.AwaitingMedia? || th.at.PlayingIntro? || th.at.Connecting?
    ensures var w' := SetupStep(w, t, th, answer);
      t in w'.threads && Tells(w'.threads[t].at, said + ToldBy(w, Go(t, answer, 0), t.who))
  {
    var now := said + ToldBy(w, Go(t, answer, 0), t.who);
    assert now[..|now| - 1] == said;
  }

  lemma TeardownTells(w: World, t: Tid, th: Thread, said: seq<Reply>, answer: Answer)
    requires Acts(w, t, th) && TeardownPoint(th.at) && t.Setup? && Tells(th.at, said)
    ensures var w' := TeardownStep(w, t, th, answer);
      if t in w'.threads then Tells(w'.threads[t].at, said) else Over(said)
  {
    hide GaveUpEarly, GaveUpLate, Completed;
  }

  /** The transcript of a setup that still runs is not that of a stored session. */
  lemma StillGoing(at: Point, said: seq<Reply>)
    requires Tells(at, said) && (SetupPoint(at) || TeardownPoint(at)) && !at.Connected? && !at.Unlisted? && !at.Storing?
    requires TeardownPoint(at) ==> at.Closing? || at.kind.Abort?
    ensures !Completed(said) && said != [Reply(AtGate, No)]
  {
  }

  lemma AwaitIsFaithful(w: World, t: Tid, th: Thread, said: seq<Reply>, answer: Answer)
    requires FreshNames(w) && Acts(w, t, th) && t.Setup? && Permitted(w, t, answer) && Faithful(w, t.who, said)
    requires th.at.Registered? || th.at.AwaitingMedia? || th.at.PlayingIntro? || th.at.Connecting?
    ensures Faithful(SetupStep(w, t, th, answer), t.who, said + ToldBy(w, Go(t, answer, 0), t.who))
  {
    SetupHasEffect(w, t, th, answer);
    AwaitTells(w, t, th, said, answer);
    StillGoing(th.at, said);
    Lengths(said);
    assert |ToldBy(w, Go(t, answer, 0), t.who)| == 1 && said != [];
    hide SetupStep, Tells, Over, Completed, GaveUpEarly, GaveUpLate, Prepared, Shaped, ToldBy, LogKnown;
  }

  lemma QuietIsFaithful(w: World, t: Tid, th: Thread, said: seq<Reply>, answer: Answer)
    requires FreshNames(w) && Acts(w, t, th) && SetupPoint(th.at) && t.Setup? && Faithful(w, t.who, said)
    requires !th.at.Spawned? && !th.at.Registered? && !th.at.AwaitingMedia? && !th.at.PlayingIntro? && !th.at.Connecting?
    ensures Faithful(SetupStep(w, t, th, answer), t.who, said)
  {
    SetupHasEffect(w, t, th, answer);
    QuietTells(w, t, th, said, answer);
    assert th.at.Storing? ==> Completed(said);
    hide SetupStep, Tells, Over, Completed, Shaped, LogKnown;
  }

  lemma TeardownIsFaithful(w: World, t: Tid, th: Thread, said: seq<Reply>, answer: Answer)
    requires FreshNames(w) && Acts(w, t, th) && TeardownPoint(th.at) && t.Setup? && Faithful(w, t.who, said)
    ensures Faithful(TeardownStep(w, t, th, answer), t.who, said)
  {
    TeardownHasEffect(w, t, th, answer);
    TeardownTells(w, t, th, said, answer);
    hide TeardownStep, Tells, Over, Completed, Shaped, LogKnown;
  }

  // ---------------------------------------------------------------- every step, every run

  lemma OwnStepIsFaithful(w: World, t: Tid, answer: Answer, slot: SlotId, said: seq<Reply>)
    requires FreshNames(w) && t.Setup? && Permitted(w, t, answer) && Faithful(w, t.who, said)
    ensures Faithful(Next(w, Go(t, answer, slot)), t.who, said + ToldBy(w, Go(t, answer, slot), t.who))
  {
    hide SetupStep, TeardownStep, Faithful, LogKnown;
    var th := w.threads[t];
    if th.at.Spawned? {
      GateIsStep(w, t, th, answer);
      GateTells(w, t, th, said);
    } else if th.at.Registered? || th.at.AwaitingMedia? || th.at.PlayingIntro? || th.at.Connecting? {
      AwaitIsFaithful(w, t, th, said, answer);
    } else {
      assert said + [] == said;
      if SetupPoint(th.at) { QuietIsFaithful(w, t, th, said, answer); } else { TeardownIsFaithful(w, t, th, said, answer); }
    }
  }

  lemma GateIsStep(w: World, t: Tid, th: Thread, answer: Answer)
    requires Acts(w, t, th) && th.at.Spawned?
    ensures SetupStep(w, t, th, answer) == Gate(w, t, th)
  {
  }

  lemma StepIsFaithful(w: World, a: Action, i: Instance, said: seq<Reply>)
    requires FreshNames(w) && RingsKnown(w.sip) && Enabled(w, a) && Faithful(w, i, said)
    ensures FreshNames(Next(w, a)) && RingsKnown(Next(w, a).sip) && Faithful(Next(w, a), i, said + ToldBy(w, a, i))
  {
    hide Faithful, Advance, LogKnown, ToldBy;
    StepKeepsNames(w, a);
    if !a.Go? {
      EnvKeepsRings(w, a);
      EnvIsFaithful(w, a, i, said);
      SaysNothing(w, a, i, said);
    } else {
      AdvanceFrame(w, a.t, a.answer, a.slot);
      if a.t == Setup(i) {
        OwnStepIsFaithful(w, a.t, a.answer, a.slot, said);
      } else {
        SaysNothing(w, a, i, said);
        OthersAreFaithful(w, a, i, said);
      }
    }
  }

  lemma SaysNothing(w: World, a: Action, i: Instance, said: seq<Reply>)
    requires !a.Go? || a.t != Setup(i)
    ensures said + ToldBy(w, a, i) == said
  {
  }

  lemma OthersAreFaithful(w: World, a: Action, i: Instance, said: seq<Reply>)
    requires FreshNames(w) && Enabled(w, a) && a.Go? && a.t != Setup(i) && Faithful(w, i, said)
    ensures Faithful(Next(w, a), i, said)
  {
    hide SetupStep, TeardownStep, OtherStep, SetupEffect, TeardownEffect, OtherEffect, Faithful, LogKnown;
    var t, th, w' := a.t, w.threads[a.t], Next(w, a);
    if SetupPoint(th.at) {
      SetupHasEffect(w, t, th, a.answer);
      SetupLeavesOthers(w, w', t, th, i, said);
    } else if TeardownPoint(th.at) {
      TeardownHasEffect(w, t, th, a.answer);
      TeardownLeavesOthers(w, w', t, th, i, said);
    } else {
      OtherHasEffect(w, t, th, a.answer, a.slot);
      OtherLeavesOthers(w, w', t, th, a.slot, i, said);
    }
  }

  lemma {:induction false} RunIsFaithful(w: World, actions: seq<Action>, i: Instance, said: seq<Reply>)
    requires FreshNames(w) && RingsKnown(w.sip) && Faithful(w, i, said) && IsRun(Free, w, actions)
    ensures FreshNames(After(w, actions)) && Faithful(After(w, actions), i, said + Transcript(w, actions, i))
    decreases |actions|
  {
    hide Faithful, FreshNames, RingsKnown;
    if actions == [] {
      assert said + [] == said;
    } else {
      var a, w', rest := actions[0], Next(w, actions[0]), actions[1..];
      StepIsFaithful(w, a, i, said);
      RunIsFaithful(w', rest, i, said + ToldBy(w, a, i));
      assert said + ToldBy(w, a, i) + Transcript(w', rest, i) == said + Transcript(w, actions, i);
    }
  }

  lemma ReachableIsFaithful(maxCalls: nat, actions: seq<Action>, i: Instance)
    requires IsRun(Free, Init(maxCalls), actions)
    ensures FreshNames(After(Init(maxCalls), actions))
    ensures Faithful(After(Init(maxCalls), actions), i, Transcript(Init(maxCalls), actions, i))
  {
    InitIsLinear(maxCalls);
    RunIsFaithful(Init(maxCalls), actions, i, []);
    assert [] + Transcript(Init(maxCalls), actions, i) == Transcript(Init(maxCalls), actions, i);
  }

  // ---------------------------------------------------------------- main results

  /** Stored, or past the last await on the way there. */
  ghost predicate Accepted(w: World, i: Instance) {
    (Setup(i) in w.threads &&
     (w.threads[Setup(i)].at.Connected? || w.threads[Setup(i)].at.Unlisted? || w.threads[Setup(i)].at.Storing?)) ||
    exists c :: c in w.mgr.sessions && w.mgr.sessions[c].who == i
  }

  lemma CompletedIsSpelled(said: seq<Reply>)
    requires Completed(said)
    ensures said[|said| - 1] == Reply(AtConnect, Yes) || said[|said| - 1] == Reply(AtConnect, Skip)
    ensures said == [Reply(AtGate, Yes), Reply(AtAnswer, Yes), Reply(AtMedia, Skip), said[|said| - 1]] ||
            said == [Reply(AtGate, Yes), Reply(AtAnswer, Yes), Reply(AtMedia, Yes), Reply(AtIntro, Yes), said[|said| - 1]]
  {
    var front, last := said[..|said| - 1], said[|said| - 1];
    assert said == front + [last];
    assert front == [Reply(AtGate, Yes), Reply(AtAnswer, Yes), Reply(AtMedia, Skip)] ||
           front == [Reply(AtGate, Yes), Reply(AtAnswer, Yes), Reply(AtMedia, Yes), Reply(AtIntro, Yes)];
  }

  /** A session is stored only for a setup that found room, whose call was answered, whose media came, whose
      intro was played if there was one, and whose connection came about, and that was told nothing else; and
      so says each point after the connection. */
  lemma SessionsAreEarned(maxCalls: nat, actions: seq<Action>, i: Instance)
    requires IsRun(Free, Init(maxCalls), actions) && Accepted(After(Init(maxCalls), actions), i)
    ensures var said := Transcript(Init(maxCalls), actions, i);
      && said != [] && (said[|said| - 1] == Reply(AtConnect, Yes) || said[|said| - 1] == Reply(AtConnect, Skip))
      && (said == [Reply(AtGate, Yes), Reply(AtAnswer, Yes), Reply(AtMedia, Skip), said[|said| - 1]] ||
          said == [Reply(AtGate, Yes), Reply(AtAnswer, Yes), Reply(AtMedia, Yes), Reply(AtIntro, Yes), said[|said| - 1]])
  {
    ReachableIsFaithful(maxCalls, actions, i);
    hide Completed, GaveUpEarly, GaveUpLate, Over, NoTrace, Prepared;
    CompletedIsSpelled(Transcript(Init(maxCalls), actions, i));
  }

  /** No room, a failed answer, a dead notifier, a failed connection, or a caller who has left. */
  predicate Refusal(r: Reply) {
    r.answer == Cancel || (r.answer == No && r.stage != AtIntro) || (r.stage == AtAnswer && r.answer != Yes)
  }

  lemma {:induction false} Continued(w: World, actions: seq<Action>, more: seq<Action>, i: Instance)
    requires IsRun(Free, w, actions + more)
    ensures IsRun(Free, w, actions) && Transcript(w, actions, i) <= Transcript(w, actions + more, i)
    decreases |actions|
  {
    if actions == [] {
    } else {
      assert (actions + more)[1..] == actions[1..] + more;
      Continued(Next(w, actions[0]), actions[1..], more, i);
    }
  }

  /** Once a setup has been refused, whether at the gate or by the outcome of a call or an await, no later
      state stores a session of its call. */
  lemma RefusedNeverStores(maxCalls: nat, actions: seq<Action>, more: seq<Action>, i: Instance, r: Reply)
    requires IsRun(Free, Init(maxCalls), actions + more) && IsRun(Free, Init(maxCalls), actions)
    requires r in Transcript(Init(maxCalls), actions, i) && Refusal(r)
    ensures !Accepted(After(Init(maxCalls), actions + more), i)
  {
    hide Accepted;
    Continued(Init(maxCalls), actions, more, i);
    var said := Transcript(Init(maxCalls), actions + more, i);
    assert r in said;
    if Accepted(After(Init(maxCalls), actions + more), i) {
      SessionsAreEarned(maxCalls, actions + more, i);
    }
  }

  /** A caller refused at the gate leaves nothing: no port, no entry, no notifier, no answer, no thread; and
      the gate refuses exactly if sessions and pending setups are as many as the limit. */
  lemma NoRoomNoTrace(maxCalls: nat, actions: seq<Action>, i: Instance, slot: SlotId, answer: Answer)
    requires IsRun(Free, Init(maxCalls), actions)
    ensures var w := After(Init(maxCalls), actions);
      && (Transcript(Init(maxCalls), actions, i) == [Reply(AtGate, No)] ==> NoTrace(w, i) && Setup(i) !in w.threads)
      && (At(w, Setup(i), Spawned) && Permitted(w, Setup(i), answer) ==>
            var w' := Next(w, Go(Setup(i), answer, slot));
            Setup(i) in w'.threads <==> |w.mgr.sessions| + |w.mgr.pending| < w.mgr.maxCalls)
  {
    ReachableIsFaithful(maxCalls, actions, i);
    hide Completed, GaveUpEarly, GaveUpLate, NoTrace, Over;
  }

  /** A setup that takes its port down itself gave up: before its media wait was over, and then it drops its
      notifier too; or later, and then it does not.  One that is gone had no room, gave up, or was connected. */
  lemma AbortsHaveReasons(maxCalls: nat, actions: seq<Action>, i: Instance)
    requires IsRun(Free, Init(maxCalls), actions)
    ensures var w, said := After(Init(maxCalls), actions), Transcript(Init(maxCalls), actions, i);
      && (Setup(i) in w.threads ==>
            var at := w.threads[Setup(i)].at;
            && (at.Closing? || (at.Aborting? && at.unlisten) || (TeardownPoint(at) && !at.Closing? && at.kind == Abort(true)) ==> GaveUpEarly(said))
            && ((at.Aborting? && !at.unlisten) || (TeardownPoint(at) && !at.Closing? && at.kind == Abort(false)) ==> GaveUpLate(said)))
      && (Setup(i) !in w.threads && i < |w.sip.rang| && w.sip.rang[i] < w.sip.taken ==>
            said == [Reply(AtGate, No)] || GaveUpEarly(said) || GaveUpLate(said) || Completed(said))
  {
    ReachableIsFaithful(maxCalls, actions, i);
    hide Completed, GaveUpEarly, GaveUpLate, NoTrace;
  }
}
