/**
 The runtime's Healthy / Recovering / Cooldown machine and its retry bursts.

 Steps of callers, of syntheses that succeed or fail, and of any number of bursts interleave under the
 lock of the state.  Time is in milliseconds; timers are punctual, so the clock does not pass the
 deadline of a check or a sleep before its burst has moved.
 */
module Availability {
  const ATTEMPTS: nat := 4
  const CHECK_TIMEOUT: nat := 250
  const RETRY_INTERVAL: nat := 100
  const COOLDOWN: nat := 300_000

  // ---------------------------------------------------------------- one burst, on its own

  /** The time `n` checks take, each cut off at the timeout, with a pause between any two. */
  function Spent(took: seq<nat>, n: nat): (ms: nat)
    requires n <= |took|
    ensures ms <= n * 250 + (if n == 0 then 0 else n - 1) * 100
  {
    if n == 0 then 0
    else Spent(took, n - 1) + (if n > 1 then 100 else 0) + (if took[n - 1] <= 250 then took[n - 1] else 250)
  }

  /** The n-th health check answers `answers[n]` after `took[n]` ms, cut off at the timeout. */
  method RetryBurst(answers: seq<bool>, took: seq<nat>) returns (recovered: bool, checks: nat, elapsed: nat)
    requires |answers| == |took| == 4
    ensures recovered <==> exists n :: 0 <= n < 4 && answers[n] && took[n] <= 250
    ensures 1 <= checks <= 4
    ensures forall n :: 0 <= n < checks - 1 ==> !(answers[n] && took[n] <= 250)
    ensures recovered ==> answers[checks - 1] && took[checks - 1] <= 250
    ensures !recovered ==> checks == 4
    ensures elapsed == Spent(took, checks) <= 1300
  {
    checks, elapsed := 0, 0;
    while checks < ATTEMPTS
      invariant checks <= ATTEMPTS
      invariant forall n :: 0 <= n < checks ==> !(answers[n] && took[n] <= CHECK_TIMEOUT)
      invariant elapsed == Spent(took, checks) + if 0 < checks < ATTEMPTS then RETRY_INTERVAL else 0
    {
      checks := checks + 1;
      elapsed := elapsed + if took[checks - 1] <= CHECK_TIMEOUT then took[checks - 1] else CHECK_TIMEOUT;
      if answers[checks - 1] && took[checks - 1] <= CHECK_TIMEOUT { return true, checks, elapsed; }
      if checks < ATTEMPTS { elapsed := elapsed + RETRY_INTERVAL; }
    }
    return false, checks, elapsed;
  }

  // ---------------------------------------------------------------- the machine

  datatype State = Healthy | Recovering | Cooldown(until: nat)

  datatype Phase =
    | Checking(deadline: nat)
    | Sleeping(deadline: nat)
    | Ending(recovered: bool, at: nat)

  /** History: when the burst began, how often the state had been settled by then, how many syntheses
      had succeeded, and whether no other burst was running. */
  datatype Burst = Burst(phase: Phase, checks: nat, began: nat, mark: nat, successes: nat, alone: bool)

  /** History: `settled` counts the writes that end a recovery, by a success or by the end of a burst. */
  datatype World = World(state: State, bursts: map<nat, Burst>, begun: nat, now: nat, settled: nat, successes: nat)

  const START := World(Healthy, map[], 0, 0, 0, 0)

  datatype Action = Tick | Ask | Succeed | Fail | Check(b: nat, healthy: bool) | Wake(b: nat) | End(b: nat)

  predicate Accepts(w: World) {
    w.state.Healthy? || (w.state.Cooldown? && w.now >= w.state.until)
  }

  function AskRuntime(w: World): World {
    if Accepts(w) then w.(state := Healthy) else w
  }

  function FailRuntime(w: World): World {
    if Accepts(w) then
      w.(state := Recovering, begun := w.begun + 1,
         bursts := w.bursts[w.begun := Burst(Checking(w.now + CHECK_TIMEOUT), 0, w.now, w.settled, w.successes, w.bursts == map[])])
    else w
  }

  function FinishCheck(w: World, b: nat, healthy: bool): World
    requires b in w.bursts
  {
    var burst := w.bursts[b];
    var phase := if healthy || burst.checks + 1 >= ATTEMPTS then Ending(healthy, w.now) else Sleeping(w.now + RETRY_INTERVAL);
    w.(bursts := w.bursts[b := burst.(phase := phase, checks := burst.checks + 1)])
  }

  function EndBurst(w: World, b: nat): World
    requires b in w.bursts && w.bursts[b].phase.Ending?
  {
    w.(state := if w.bursts[b].phase.recovered then Healthy else Cooldown(w.now + COOLDOWN),
       bursts := w.bursts - {b}, settled := w.settled + 1)
  }

  predicate Enabled(w: World, a: Action) {
    match a
    case Tick => forall b :: b in w.bursts && !w.bursts[b].phase.Ending? ==> w.now < w.bursts[b].phase.deadline
    case Check(b, _) => b in w.bursts && w.bursts[b].phase.Checking?
    case Wake(b) => b in w.bursts && w.bursts[b].phase.Sleeping? && w.now >= w.bursts[b].phase.deadline
    case End(b) => b in w.bursts && w.bursts[b].phase.Ending?
    case _ => true
  }

  function Next(w: World, a: Action): World
    requires Enabled(w, a)
  {
    match a
    case Tick => w.(now := w.now + 1)
    case Ask => AskRuntime(w)
    case Succeed => w.(state := Healthy, settled := w.settled + 1, successes := w.successes + 1)
    case Fail => FailRuntime(w)
    case Check(b, healthy) => FinishCheck(w, b, healthy)
    case Wake(b) => w.(bursts := w.bursts[b := w.bursts[b].(phase := Checking(w.now + CHECK_TIMEOUT))])
    case End(b) => EndBurst(w, b)
  }

  predicate IsRun(w: World, actions: seq<Action>)
    decreases |actions|
  {
    actions == [] || (Enabled(w, actions[0]) && IsRun(Next(w, actions[0]), actions[1..]))
  }

  function After(w: World, actions: seq<Action>): World
    requires IsRun(w, actions)
    decreases |actions|
  {
    if actions == [] then w else After(Next(w, actions[0]), actions[1..])
  }

  // ---------------------------------------------------------------- the invariant

  /** How far each burst can and must be after its checks so far. */
  predicate OnTime(burst: Burst, now: nat) {
    var least, most := burst.began + burst.checks * 100, burst.began + burst.checks * 350;
    match burst.phase
    case Checking(d) => burst.checks < 4 && now <= d && least <= now && d <= most + 250
    case Sleeping(d) => 1 <= burst.checks < 4 && now <= d && least <= d <= most
    case Ending(recovered, at) =>
      1 <= burst.checks <= 4 && least - 100 <= at <= now && at <= most - 100 && (!recovered ==> burst.checks == 4)
  }

  ghost predicate Timely(w: World) {
    forall b :: b in w.bursts ==> OnTime(w.bursts[b], w.now)
  }

  /** The runtime is recovering exactly while the latest burst runs and nothing has settled since it
      began; and no two running bursts began between the same settlements. */
  ghost predicate Owned(w: World) {
    && (forall b :: b in w.bursts ==> b < w.begun && w.bursts[b].mark <= w.settled && w.bursts[b].successes <= w.successes)
    && (forall b, c :: b in w.bursts && c in w.bursts && b != c ==> w.bursts[b].mark != w.bursts[c].mark)
    && (w.state.Recovering? ==> exists b :: b in w.bursts && w.bursts[b].mark == w.settled)
    && (forall b :: b in w.bursts && w.bursts[b].mark == w.settled ==> w.state.Recovering?)
  }

  /** A burst that began alone, with no success since, is still alone. */
  ghost predicate Solitary(w: World) {
    forall b :: b in w.bursts && w.bursts[b].alone && w.bursts[b].successes == w.successes ==>
      w.bursts[b].mark == w.settled && (forall c :: c in w.bursts ==> c == b)
  }

  lemma StepKeepsTimely(w: World, a: Action)
    requires Timely(w) && Enabled(w, a)
    ensures Timely(Next(w, a))
  {
  }

  lemma StepKeepsOwned(w: World, a: Action)
    requires Owned(w) && Enabled(w, a)
    ensures Owned(Next(w, a))
  {
    var w' := Next(w, a);
    if w'.state.Recovering? {
      if a.Fail? && Accepts(w) {
        assert w.begun in w'.bursts && w'.bursts[w.begun].mark == w'.settled;
      } else {
        var b :| b in w.bursts && w.bursts[b].mark == w.settled;
        assert b in w'.bursts && w'.bursts[b].mark == w'.settled;
      }
    }
  }

  lemma StepKeepsSolitary(w: World, a: Action)
    requires Owned(w) && Solitary(w) && Enabled(w, a)
    ensures Solitary(Next(w, a))
  {
  }

  lemma {:induction false} RunKeepsAll(w: World, actions: seq<Action>)
    requires Timely(w) && Owned(w) && Solitary(w) && IsRun(w, actions)
    ensures var w' := After(w, actions); Timely(w') && Owned(w') && Solitary(w')
    decreases |actions|
  {
    if actions != [] {
      StepKeepsTimely(w, actions[0]);
      StepKeepsOwned(w, actions[0]);
      StepKeepsSolitary(w, actions[0]);
      RunKeepsAll(Next(w, actions[0]), actions[1..]);
    }
  }

  // ---------------------------------------------------------------- main results

  /** The runtime is Recovering exactly while a burst runs that nothing has settled; so it never stays
      Recovering without one. */
  lemma RecoveringMeansRetrying(actions: seq<Action>)
    requires IsRun(START, actions)
    ensures var w := After(START, actions);
      w.state.Recovering? <==> exists b :: b in w.bursts && w.bursts[b].mark == w.settled
  {
    RunKeepsAll(START, actions);
  }

  /** Every burst ends after at most 4 checks and 1300 ms, with 100 ms between any two checks, a failed one
      only after all 4, and its last write is then possible and leaves Healthy or Cooldown. */
  lemma BurstsAreShort(actions: seq<Action>, b: nat)
    requires IsRun(START, actions)
    ensures var w := After(START, actions);
      b in w.bursts ==>
        && w.bursts[b].checks <= 4
        && (!w.bursts[b].phase.Ending? ==> w.now <= w.bursts[b].began + 1300)
        && (w.bursts[b].phase.Ending? ==>
              && w.bursts[b].began + (w.bursts[b].checks - 1) * 100 <= w.bursts[b].phase.at <= w.bursts[b].began + 1300
              && (!w.bursts[b].phase.recovered ==> w.bursts[b].checks == 4)
              && Enabled(w, End(b)) && !Next(w, End(b)).state.Recovering?)
  {
    RunKeepsAll(START, actions);
  }

  /** If a burst began while no other ran, and no synthesis has succeeded since, it is still the only one. */
  lemma NoSecondBurst(actions: seq<Action>, b: nat, c: nat)
    requires IsRun(START, actions)
    ensures var w := After(START, actions);
      b in w.bursts && w.bursts[b].alone && w.bursts[b].successes == w.successes && c in w.bursts ==> c == b
  {
    RunKeepsAll(START, actions);
  }

  /** In general a second burst can begin exactly when something has settled since every running one
      began, and a cooldown so written is over. */
  lemma SecondBurstNeedsSettling(actions: seq<Action>)
    requires IsRun(START, actions)
    ensures var w := After(START, actions);
      Next(w, Fail).bursts != w.bursts <==>
        && (forall b :: b in w.bursts ==> w.bursts[b].mark < w.settled)
        && (w.state.Cooldown? ==> w.now >= w.state.until)
  {
    RunKeepsAll(START, actions);
    var w := After(START, actions);
    assert Accepts(w) ==> w.begun in Next(w, Fail).bursts && w.begun !in w.bursts;
  }

  const OVERLAP: seq<Action> := [Fail, Succeed, Fail, Check(0, true), End(0), Fail]

  /** Without the guard it fails: an earlier burst that ends while a later one runs lets a third begin,
      though no synthesis has succeeded since the second began. */
  lemma EarlierBurstLetsAnotherBegin()
    ensures IsRun(START, OVERLAP)
    ensures var w := After(START, OVERLAP);
      && 1 in w.bursts && 2 in w.bursts
      && w.bursts[1].successes == w.bursts[2].successes == w.successes && !w.bursts[1].alone
  {
    var w1 := Next(START, Fail);
    var w2 := Next(w1, Succeed);
    var w3 := Next(w2, Fail);
    var w4 := Next(w3, Check(0, true));
    var w5 := Next(w4, End(0));
    var w6 := Next(w5, Fail);
    assert 0 in w2.bursts && w2.bursts != map[];
    assert OVERLAP[1..] == [Succeed, Fail, Check(0, true), End(0), Fail];
    assert OVERLAP[1..][1..] == [Fail, Check(0, true), End(0), Fail];
    assert OVERLAP[1..][1..][1..] == [Check(0, true), End(0), Fail];
    assert OVERLAP[1..][1..][1..][1..] == [End(0), Fail];
    assert OVERLAP[1..][1..][1..][1..][1..] == [Fail];
    assert OVERLAP[1..][1..][1..][1..][1..][1..] == [];
    RunOne(w6, []);
    RunOne(w5, [Fail]);
    RunOne(w4, [End(0), Fail]);
    RunOne(w3, OVERLAP[3..]);
    RunOne(w2, OVERLAP[2..]);
    RunOne(w1, OVERLAP[1..]);
    RunOne(START, OVERLAP);
  }

  /** One step of `After`. */
  lemma RunOne(w: World, actions: seq<Action>)
    requires actions != [] ==> Enabled(w, actions[0]) && IsRun(Next(w, actions[0]), actions[1..])
    ensures IsRun(w, actions)
    ensures After(w, actions) == if actions == [] then w else After(Next(w, actions[0]), actions[1..])
  {
  }

  // ---------------------------------------------------------------- what a run has recorded

  /** How things stand after the last write that mattered: nothing yet, a success or a burst with a healthy
      check, a burst without one that ended at `since`, or a burst that has begun since. */
  datatype Verdict = Fresh | Well | Down(since: nat) | Trying

  /** The answers of each burst's checks, in order, and the verdict. */
  datatype Record = Record(answers: map<nat, seq<bool>>, verdict: Verdict)

  const NOTHING := Record(map[], Fresh)

  function Note(w: World, a: Action, r: Record): Record
    requires Enabled(w, a)
  {
    match a
    case Succeed => r.(verdict := Well)
    case Fail =>
      if Next(w, Fail).begun > w.begun then Record(r.answers[w.begun := []], Trying) else r
    case Check(b, healthy) => r.(answers := r.answers[b := (if b in r.answers then r.answers[b] else []) + [healthy]])
    case End(b) => r.(verdict := if b in r.answers && true in r.answers[b] then Well else Down(w.now))
    case _ => r
  }

  function Recorded(w: World, actions: seq<Action>, r: Record): Record
    requires IsRun(w, actions)
    decreases |actions|
  {
    if actions == [] then r else Recorded(Next(w, actions[0]), actions[1..], Note(w, actions[0], r))
  }

  /** A burst checks until a check is healthy, at most four times, and it has recovered exactly if one was. */
  predicate Answers(burst: Burst, answers: seq<bool>) {
    && |answers| == burst.checks <= 4
    && (forall k :: 0 <= k < |answers| - 1 ==> !answers[k])
    && (if burst.phase.Ending? then
          |answers| > 0 && (burst.phase.recovered <==> answers[|answers| - 1]) && (!burst.phase.recovered ==> |answers| == 4)
        else |answers| < 4 && true !in answers)
  }

  ghost predicate VerdictHolds(w: World, v: Verdict) {
    match v
    case Fresh => w.state.Healthy?
    case Well => w.state.Healthy?
    case Trying => w.state.Recovering?
    case Down(t) => t <= w.now && (w.state == Cooldown(t + 300_000) || (w.state.Healthy? && w.now >= t + 300_000))
  }

  ghost predicate Consistent(w: World, r: Record) {
    && (forall b :: b in r.answers ==> b < w.begun)
    && (forall b :: b in w.bursts ==> b in r.answers && b < w.begun && Answers(w.bursts[b], r.answers[b]))
    && VerdictHolds(w, r.verdict)
  }

  lemma StepIsConsistent(w: World, a: Action, r: Record)
    requires Consistent(w, r) && Enabled(w, a)
    ensures Consistent(Next(w, a), Note(w, a, r))
  {
  }

  lemma {:induction false} RunIsConsistent(w: World, actions: seq<Action>, r: Record)
    requires Consistent(w, r) && IsRun(w, actions)
    ensures Consistent(After(w, actions), Recorded(w, actions, r))
    decreases |actions|
  {
    if actions != [] {
      StepIsConsistent(w, actions[0], r);
      RunIsConsistent(Next(w, actions[0]), actions[1..], Note(w, actions[0], r));
    }
  }

  /** After a burst without a healthy check has ended at time `t`, the runtime refuses new phrases, and no
      failure begins a burst, until five minutes later, and then it accepts again; after a success, or a
      burst with a healthy check, it accepts at once; and either holds until the next burst begins.  A call that is accepted leaves it
      healthy. */
  lemma CooldownLasts(actions: seq<Action>)
    requires IsRun(START, actions)
    ensures var w := After(START, actions); Next(w, Ask).state.Healthy? <==> Accepts(w)
    ensures var w, r := After(START, actions), Recorded(START, actions, NOTHING);
      match r.verdict
      case Fresh => Accepts(w) && Next(w, Fail).bursts != w.bursts
      case Well => Accepts(w) && Next(w, Fail).bursts != w.bursts
      case Trying => !Accepts(w) && Next(w, Fail) == w
      case Down(t) => if w.now < t + 300_000 then !Accepts(w) && Next(w, Fail) == w else Accepts(w) && Next(w, Fail).bursts != w.bursts
  {
    RunIsConsistent(START, actions, NOTHING);
    RunKeepsAll(START, actions);
    var w := After(START, actions);
    assert Accepts(w) ==> w.begun in Next(w, Fail).bursts && w.begun !in w.bursts;
  }

  /** A burst ends well exactly if its last check was healthy, and badly only after four that were not. */
  lemma BurstsGoByTheirChecks(actions: seq<Action>, b: nat)
    requires IsRun(START, actions)
    ensures var w, r := After(START, actions), Recorded(START, actions, NOTHING);
      b in w.bursts ==> b in r.answers && Answers(w.bursts[b], r.answers[b])
  {
    RunIsConsistent(START, actions, NOTHING);
  }
}
