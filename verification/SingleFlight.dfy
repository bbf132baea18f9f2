/**
 One synthesis per phrase at a time: `synthesize_phrase` and its background tasks as a transition
 system.  A step is what a caller or a task does under one lock, one channel operation, or one await
 outcome; callers and tasks interleave freely, and a caller may be dropped wherever it awaits.

 What a synthesis returns, whether the runtime accepts a new one, and how long recording its outcome
 takes come from the environment.  Background tasks run to completion: nothing aborts them.
 */
module SingleFlight {
  import opened Wrappers
  import opened PhraseCache

  type TaskId = nat
  type CallerId = nat
  type Outcome = Result<Pcm, string>

  /** Where a caller's result came from; `ChannelClosed` is the error for a task that died silently. */
  datatype Source = FromCache | FromTask(task: TaskId) | Refused | ChannelClosed

  datatype CallerPoint =
    | ReadingCache
    | ReadingTable
    | AskingRuntime
    | Joining
    | Spawning(task: TaskId)
    | Waiting(task: TaskId)
    | Returned(result: Outcome, source: Source)

  datatype TaskPoint =
    | Launching(launcher: CallerId)
    | Synthesizing
    | Caching(pcm: Pcm)
    | Recording(result: Outcome)
    | Sending(result: Outcome)
    | Removing

  datatype Caller = Caller(key: Key, at: CallerPoint)
  datatype Task = Task(key: Key, at: TaskPoint)

  /** The watch channel of a task.  History: its key, and what its synthesis returned. */
  datatype Channel = Channel(key: Key, made: Option<Outcome>, value: Option<Outcome>, closed: bool)

  /** History: every insertion into the cache, in order. */
  datatype World = World(
    cache: Cache,
    inFlight: map<Key, TaskId>,
    tasks: map<TaskId, Task>,
    channels: seq<Channel>,
    callers: map<CallerId, Caller>,
    asked: nat,
    puts: seq<(Key, Pcm)>)

  const START := World(EMPTY, map[], map[], [], map[], 0, [])

  datatype Action =
    | Ask(key: Key)
    | Drive(caller: CallerId, accepted: bool)
    | Drop(caller: CallerId)
    | Work(task: TaskId, made: Outcome)

  // ---------------------------------------------------------------- steps

  function Goto(w: World, c: CallerId, at: CallerPoint): World
    requires c in w.callers
  {
    w.(callers := w.callers[c := w.callers[c].(at := at)])
  }

  function ReadCache(w: World, c: CallerId, key: Key): World
    requires c in w.callers
  {
    if key in w.cache.values
    then Goto(w, c, Returned(Ok(w.cache.values[key]), FromCache)).(cache := Fetch(w.cache, key))
    else Goto(w, c, ReadingTable)
  }

  function ReadTable(w: World, c: CallerId, key: Key): World
    requires c in w.callers
  {
    if key in w.inFlight then Goto(w, c, Waiting(w.inFlight[key])) else Goto(w, c, AskingRuntime)
  }

  /** Under the table's lock: join the running task, or enter a new one. */
  function Join(w: World, c: CallerId, key: Key): World
    requires c in w.callers
  {
    if key in w.inFlight then Goto(w, c, Waiting(w.inFlight[key])) else
    var i := |w.channels|;
    Goto(w, c, Spawning(i))
    .(inFlight := w.inFlight[key := i],
      channels := w.channels + [Channel(key, None, None, false)],
      tasks := w.tasks[i := Task(key, Launching(c))])
  }

  function Spawn(w: World, c: CallerId, i: TaskId): World
    requires c in w.callers && i in w.tasks
  {
    Goto(w, c, Waiting(i)).(tasks := w.tasks[i := w.tasks[i].(at := Synthesizing)])
  }

  /** A value that was sent is seen even after the sender is gone. */
  function Await(w: World, c: CallerId, i: TaskId): World
    requires c in w.callers && i < |w.channels|
  {
    if w.channels[i].value.Some? then Goto(w, c, Returned(w.channels[i].value.value, FromTask(i)))
    else Goto(w, c, Returned(Err("background synthesis channel closed"), ChannelClosed))
  }

  function CallerStep(w: World, c: CallerId, accepted: bool): World
    requires Enabled(w, Drive(c, accepted))
  {
    var caller := w.callers[c];
    match caller.at
    case ReadingCache => ReadCache(w, c, caller.key)
    case ReadingTable => ReadTable(w, c, caller.key)
    case AskingRuntime => Goto(w, c, if accepted then Joining else Returned(Err("unavailable"), Refused))
    case Joining => Join(w, c, caller.key)
    case Spawning(i) => Spawn(w, c, i)
    case Waiting(i) => Await(w, c, i)
  }

  function Move(w: World, i: TaskId, at: TaskPoint): World
    requires i in w.tasks
  {
    w.(tasks := w.tasks[i := w.tasks[i].(at := at)])
  }

  function TaskStep(w: World, i: TaskId, made: Outcome): World
    requires Enabled(w, Work(i, made))
  {
    var task := w.tasks[i];
    match task.at
    case Synthesizing =>
      Move(w, i, if made.Ok? then Caching(made.value) else Recording(made))
      .(channels := w.channels[i := w.channels[i].(made := Some(made))])
    case Caching(pcm) =>
      Move(w, i, Recording(Ok(pcm))).(cache := Put(w.cache, task.key, pcm), puts := w.puts + [(task.key, pcm)])
    case Recording(r) => Move(w, i, Sending(r))
    case Sending(r) => Move(w, i, Removing).(channels := w.channels[i := w.channels[i].(value := Some(r))])
    case Removing =>
      w.(inFlight := w.inFlight - {task.key}, tasks := w.tasks - {i},
         channels := w.channels[i := w.channels[i].(closed := true)])
  }

  predicate Enabled(w: World, a: Action) {
    match a
    case Ask(_) => true
    case Drive(c, _) =>
      c in w.callers &&
      (match w.callers[c].at
       case Returned(_, _) => false
       case Spawning(i) => i in w.tasks
       case Waiting(i) => i < |w.channels| && (w.channels[i].value.Some? || w.channels[i].closed)
       case _ => true)
    case Drop(c) => c in w.callers && !w.callers[c].at.Spawning?
    case Work(i, _) => i in w.tasks && i < |w.channels| && !w.tasks[i].at.Launching?
  }

  function Next(w: World, a: Action): World
    requires Enabled(w, a)
  {
    match a
    case Ask(key) => w.(callers := w.callers[w.asked := Caller(key, ReadingCache)], asked := w.asked + 1)
    case Drive(c, accepted) => CallerStep(w, c, accepted)
    case Drop(c) => w.(callers := w.callers - {c})
    case Work(i, made) => TaskStep(w, i, made)
  }

  predicate IsRun(w: World, actions: seq<Action>)
    decreases |actions|
  {
    actions == [] || (Enabled(w, actions[0]) && IsRun(Next(w, actions[0]), actions[1..]))
  }

  function After(w: World, actions: seq<Action>): World
    requires IsRun(w, actions)
    decreases |actions|
  {
    if actions == [] then w else After(Next(w, actions[0]), actions[1..])
  }

  // ---------------------------------------------------------------- the invariant

  /** The table lists exactly the live tasks, each under its own key. */
  ghost predicate TableKnown(w: World) {
    && (forall k :: k in w.inFlight ==> w.inFlight[k] in w.tasks && w.tasks[w.inFlight[k]].key == k)
    && (forall i :: i in w.tasks ==> w.tasks[i].key in w.inFlight && w.inFlight[w.tasks[i].key] == i)
  }

  /** A channel shows how far its task has come. */
  predicate Live(ch: Channel, task: Task) {
    && ch.key == task.key && !ch.closed
    && (ch.value.Some? <==> task.at.Removing?)
    && (ch.made.Some? <==> !task.at.Launching? && !task.at.Synthesizing?)
    && (task.at.Caching? ==> ch.made == Some(Ok(task.at.pcm)))
    && (task.at.Recording? || task.at.Sending? ==> ch.made == Some(task.at.result))
  }

  /** Every running task's channel does ... */
  ghost predicate LiveChannels(w: World) {
    forall i :: i in w.tasks ==> i < |w.channels| && Live(w.channels[i], w.tasks[i])
  }

  /** ... and a task is gone only after its result was sent. */
  ghost predicate SentChannels(w: World) {
    forall i :: 0 <= i < |w.channels| ==>
      && (i !in w.tasks ==> w.channels[i].closed && w.channels[i].value.Some?)
      && (w.channels[i].value.Some? ==> w.channels[i].value == w.channels[i].made)
  }

  ghost predicate ChannelsKnown(w: World) {
    LiveChannels(w) && SentChannels(w)
  }

  /** Results are cached before they are recorded, so before they are sent. */
  ghost predicate PutsKnown(w: World) {
    && (forall k :: k in w.cache.values ==> (k, w.cache.values[k]) in w.puts)
    && (forall i :: i in w.tasks && (w.tasks[i].at.Recording? || w.tasks[i].at.Sending?) && w.tasks[i].at.result.Ok? ==>
          (w.tasks[i].key, w.tasks[i].at.result.value) in w.puts)
    && (forall i :: 0 <= i < |w.channels| && w.channels[i].value.Some? && w.channels[i].value.value.Ok? ==>
          (w.channels[i].key, w.channels[i].value.value.value) in w.puts)
  }

  ghost predicate CallersKnown(w: World) {
    && (forall c :: c in w.callers ==> c < w.asked)
    && (forall c :: c in w.callers && w.callers[c].at.Waiting? ==>
          w.callers[c].at.task < |w.channels| && w.channels[w.callers[c].at.task].key == w.callers[c].key)
    && (forall c :: c in w.callers && w.callers[c].at.Spawning? ==>
          var i := w.callers[c].at.task;
          i in w.tasks && w.tasks[i] == Task(w.callers[c].key, Launching(c)))
    && (forall i :: i in w.tasks && w.tasks[i].at.Launching? ==>
          w.tasks[i].at.launcher in w.callers && w.callers[w.tasks[i].at.launcher].at == Spawning(i))
  }

  /** What a finished call returned, and why. */
  ghost predicate Justified(w: World, key: Key, result: Outcome, source: Source) {
    match source
    case FromCache => result.Ok? && (key, result.value) in w.puts
    case FromTask(i) =>
      && i < |w.channels| && w.channels[i].key == key
      && w.channels[i].value == w.channels[i].made == Some(result)
      && (result.Ok? ==> (key, result.value) in w.puts)
    case Refused => result.Err?
    case ChannelClosed => false
  }

  ghost predicate ResultsKnown(w: World) {
    forall c :: c in w.callers && w.callers[c].at.Returned? ==>
      Justified(w, w.callers[c].key, w.callers[c].at.result, w.callers[c].at.source)
  }

  ghost predicate Known(w: World) {
    TableKnown(w) && ChannelsKnown(w) && PutsKnown(w) && CallersKnown(w) && ResultsKnown(w)
  }

  lemma JoinKeepsTable(w: World, c: CallerId)
    requires TableKnown(w) && ChannelsKnown(w) && c in w.callers && w.callers[c].at.Joining?
    ensures TableKnown(Join(w, c, w.callers[c].key))
  {
  }

  lemma CallerKeepsTable(w: World, c: CallerId, accepted: bool)
    requires TableKnown(w) && ChannelsKnown(w) && CallersKnown(w) && Enabled(w, Drive(c, accepted))
    ensures TableKnown(CallerStep(w, c, accepted))
  {
    if w.callers[c].at.Joining? {
      hide TableKnown, ChannelsKnown, CallersKnown, Join;
      JoinKeepsTable(w, c);
    }
  }

  lemma JoinKeepsLive(w: World, c: CallerId)
    requires ChannelsKnown(w) && c in w.callers && w.callers[c].at.Joining?
    ensures LiveChannels(Join(w, c, w.callers[c].key))
  {
  }

  lemma SpawnKeepsLive(w: World, c: CallerId)
    requires ChannelsKnown(w) && CallersKnown(w) && c in w.callers && w.callers[c].at.Spawning?
    ensures LiveChannels(Spawn(w, c, w.callers[c].at.task))
  {
  }

  lemma SameChannels(w: World, w': World)
    requires LiveChannels(w) && w'.tasks == w.tasks && w'.channels == w.channels
    ensures LiveChannels(w')
  {
  }

  lemma CallerKeepsChannelsLive(w: World, c: CallerId, accepted: bool)
    requires ChannelsKnown(w) && CallersKnown(w) && Enabled(w, Drive(c, accepted))
    ensures LiveChannels(CallerStep(w, c, accepted))
  {
    hide LiveChannels, SentChannels, CallersKnown, Join, Spawn;
    if w.callers[c].at.Joining? { JoinKeepsLive(w, c); }
    else if w.callers[c].at.Spawning? { SpawnKeepsLive(w, c); }
    else { SameChannels(w, CallerStep(w, c, accepted)); }
  }

  lemma CallerKeepsChannelsSent(w: World, c: CallerId, accepted: bool)
    requires ChannelsKnown(w) && CallersKnown(w) && Enabled(w, Drive(c, accepted))
    ensures SentChannels(CallerStep(w, c, accepted))
  {
  }

  lemma CallerKeepsChannels(w: World, c: CallerId, accepted: bool)
    requires ChannelsKnown(w) && CallersKnown(w) && Enabled(w, Drive(c, accepted))
    ensures ChannelsKnown(CallerStep(w, c, accepted))
  {
    hide LiveChannels, SentChannels;
    CallerKeepsChannelsLive(w, c, accepted);
    CallerKeepsChannelsSent(w, c, accepted);
  }

  lemma CallerKeepsPuts(w: World, c: CallerId, accepted: bool)
    requires PutsKnown(w) && ChannelsKnown(w) && Enabled(w, Drive(c, accepted))
    ensures PutsKnown(CallerStep(w, c, accepted))
  {
  }

  lemma JoinKeepsCallers(w: World, c: CallerId)
    requires ChannelsKnown(w) && TableKnown(w) && CallersKnown(w) && c in w.callers && w.callers[c].at.Joining?
    ensures CallersKnown(Join(w, c, w.callers[c].key))
  {
    hide SentChannels;
  }

  lemma SpawnKeepsCallers(w: World, c: CallerId)
    requires CallersKnown(w) && ChannelsKnown(w) && c in w.callers && w.callers[c].at.Spawning?
    ensures CallersKnown(Spawn(w, c, w.callers[c].at.task))
  {
  }

  /** A caller that neither enters nor launches a task. */
  lemma GotoKeepsCallers(w: World, c: CallerId, at: CallerPoint)
    requires CallersKnown(w) && c in w.callers && !w.callers[c].at.Spawning? && !at.Spawning?
    requires at.Waiting? ==> at.task < |w.channels| && w.channels[at.task].key == w.callers[c].key
    ensures CallersKnown(Goto(w, c, at))
  {
  }

  /** Where a caller that neither enters nor launches a task goes. */
  lemma CallerGoes(w: World, c: CallerId, accepted: bool) returns (at: CallerPoint)
    requires TableKnown(w) && ChannelsKnown(w) && Enabled(w, Drive(c, accepted)) && !w.callers[c].at.Joining? && !w.callers[c].at.Spawning?
    ensures !at.Spawning? && (at.Waiting? ==> at.task < |w.channels| && w.channels[at.task].key == w.callers[c].key)
    ensures var w', g := CallerStep(w, c, accepted), Goto(w, c, at);
      w'.callers == g.callers && w'.tasks == g.tasks && w'.channels == g.channels && w'.asked == g.asked
  {
    at := CallerStep(w, c, accepted).callers[c].at;
  }

  lemma CallerKeepsCallers(w: World, c: CallerId, accepted: bool)
    requires TableKnown(w) && ChannelsKnown(w) && CallersKnown(w) && Enabled(w, Drive(c, accepted))
    ensures CallersKnown(CallerStep(w, c, accepted))
  {
    hide TableKnown, ChannelsKnown, CallersKnown, Join, Spawn;
    if w.callers[c].at.Joining? { JoinKeepsCallers(w, c); }
    else if w.callers[c].at.Spawning? { SpawnKeepsCallers(w, c); }
    else {
      var at := CallerGoes(w, c, accepted);
      GotoKeepsCallers(w, c, at);
      SameCallers(Goto(w, c, at), CallerStep(w, c, accepted));
    }
  }

  lemma SameCallers(w: World, w': World)
    requires CallersKnown(w) && w'.callers == w.callers && w'.tasks == w.tasks && w'.channels == w.channels && w'.asked == w.asked
    ensures CallersKnown(w')
  {
  }

  lemma CallerKeepsResults(w: World, c: CallerId, accepted: bool)
    requires ChannelsKnown(w) && PutsKnown(w) && CallersKnown(w) && ResultsKnown(w) && Enabled(w, Drive(c, accepted))
    ensures ResultsKnown(CallerStep(w, c, accepted))
  {
  }

  lemma TaskKeepsTable(w: World, i: TaskId, made: Outcome)
    requires TableKnown(w) && Enabled(w, Work(i, made))
    ensures TableKnown(TaskStep(w, i, made))
  {
  }

  /** A task's step touches its own channel only, and keeps it live. */
  lemma TaskStaysLive(w: World, i: TaskId, made: Outcome)
    requires ChannelsKnown(w) && Enabled(w, Work(i, made))
    ensures var w' := TaskStep(w, i, made);
      && |w'.channels| == |w.channels| && (i in w'.tasks ==> Live(w'.channels[i], w'.tasks[i]))
      && (forall j :: j in w'.tasks && j != i ==> j in w.tasks && w'.tasks[j] == w.tasks[j])
      && (forall j :: 0 <= j < |w.channels| && j != i ==> w'.channels[j] == w.channels[j])
  {
  }

  lemma TaskKeepsChannelsLive(w: World, i: TaskId, made: Outcome)
    requires ChannelsKnown(w) && Enabled(w, Work(i, made))
    ensures LiveChannels(TaskStep(w, i, made))
  {
    hide TaskStep, Live;
    TaskStaysLive(w, i, made);
  }

  lemma TaskKeepsChannelsSent(w: World, i: TaskId, made: Outcome)
    requires ChannelsKnown(w) && Enabled(w, Work(i, made))
    ensures SentChannels(TaskStep(w, i, made))
  {
  }

  lemma TaskKeepsChannels(w: World, i: TaskId, made: Outcome)
    requires ChannelsKnown(w) && Enabled(w, Work(i, made))
    ensures ChannelsKnown(TaskStep(w, i, made))
  {
    hide LiveChannels, SentChannels;
    TaskKeepsChannelsLive(w, i, made);
    TaskKeepsChannelsSent(w, i, made);
  }

  lemma TaskKeepsPuts(w: World, i: TaskId, made: Outcome)
    requires ChannelsKnown(w) && PutsKnown(w) && Enabled(w, Work(i, made))
    ensures PutsKnown(TaskStep(w, i, made))
  {
  }

  lemma TaskKeepsCallers(w: World, i: TaskId, made: Outcome)
    requires ChannelsKnown(w) && CallersKnown(w) && Enabled(w, Work(i, made))
    ensures CallersKnown(TaskStep(w, i, made))
  {
  }

  lemma TaskKeepsResults(w: World, i: TaskId, made: Outcome)
    requires ChannelsKnown(w) && ResultsKnown(w) && Enabled(w, Work(i, made))
    ensures ResultsKnown(TaskStep(w, i, made))
  {
  }

  lemma CallsKeepKnown(w: World, a: Action)
    requires Known(w) && Enabled(w, a) && (a.Ask? || a.Drop?)
    ensures Known(Next(w, a))
  {
  }

  lemma StepKeepsKnown(w: World, a: Action)
    requires Known(w) && Enabled(w, a)
    ensures Known(Next(w, a))
  {
    hide TableKnown, ChannelsKnown, PutsKnown, CallersKnown, ResultsKnown, CallerStep, TaskStep;
    match a
    case Drive(c, accepted) =>
      CallerKeepsTable(w, c, accepted);
      CallerKeepsChannels(w, c, accepted);
      CallerKeepsPuts(w, c, accepted);
      CallerKeepsCallers(w, c, accepted);
      CallerKeepsResults(w, c, accepted);
    case Work(i, made) =>
      TaskKeepsTable(w, i, made);
      TaskKeepsChannels(w, i, made);
      TaskKeepsPuts(w, i, made);
      TaskKeepsCallers(w, i, made);
      TaskKeepsResults(w, i, made);
    case Ask(_) => CallsKeepKnown(w, a);
    case Drop(_) => CallsKeepKnown(w, a);
  }

  lemma {:induction false} RunKeepsKnown(w: World, actions: seq<Action>)
    requires Known(w) && IsRun(w, actions)
    ensures Known(After(w, actions))
    decreases |actions|
  {
    if actions != [] {
      StepKeepsKnown(w, actions[0]);
      RunKeepsKnown(Next(w, actions[0]), actions[1..]);
    }
  }

  // ---------------------------------------------------------------- main results

  /** The keys in the table are one to one with the syntheses under way, so no key has two. */
  lemma OneSynthesisPerKey(actions: seq<Action>, i: TaskId, j: TaskId)
    requires IsRun(START, actions)
    ensures var w := After(START, actions);
      && TableKnown(w)
      && (i in w.tasks && j in w.tasks && w.tasks[i].key == w.tasks[j].key ==> i == j)
  {
    RunKeepsKnown(START, actions);
  }

  /** Whoever joined a task gets what that task's synthesis returned, never the closed-channel error;
      and any successful result, joined or cached, was put in the cache under its key first. */
  lemma EveryResultIsJustified(actions: seq<Action>, c: CallerId)
    requires IsRun(START, actions)
    ensures var w := After(START, actions);
      c in w.callers && w.callers[c].at.Returned? ==>
        Justified(w, w.callers[c].key, w.callers[c].at.result, w.callers[c].at.source)
  {
    RunKeepsKnown(START, actions);
  }

  /** A task that waits for its launch has a caller about to launch it, and any other can move; so no
      key is stuck in the table. */
  lemma NoTaskIsStuck(actions: seq<Action>, i: TaskId)
    requires IsRun(START, actions)
    ensures var w := After(START, actions);
      i in w.tasks ==>
        if w.tasks[i].at.Launching? then
          Enabled(w, Drive(w.tasks[i].at.launcher, true)) && CallerStep(w, w.tasks[i].at.launcher, true).tasks[i].at == Synthesizing
        else forall made :: Enabled(w, Work(i, made))
  {
    RunKeepsKnown(START, actions);
  }

  /** Every step of a task but the last takes it further, so each has at most five. */
  function StepsLeft(at: TaskPoint): nat {
    match at
    case Launching(_) => 6
    case Synthesizing => 5
    case Caching(_) => 4
    case Recording(_) => 3
    case Sending(_) => 2
    case Removing => 1
  }

  lemma TasksFinish(w: World, i: TaskId, made: Outcome)
    requires Known(w) && Enabled(w, Work(i, made))
    ensures var w' := TaskStep(w, i, made);
      if i in w'.tasks then StepsLeft(w'.tasks[i].at) < StepsLeft(w.tasks[i].at) else w.tasks[i].key !in w'.inFlight
  {
  }

  // ---------------------------------------------------------------- what a caller was told

  /** What the cache, the table and the runtime answer one caller, and the task it launched. */
  datatype Reply =
    | Hit(value: Pcm)
    | Missed
    | Running(task: TaskId)
    | NotRunning
    | RuntimeSays(accepted: bool)
    | Launched(task: TaskId)

  function ToldBy(w: World, a: Action, c: CallerId): seq<Reply> {
    if a.Drive? && a.caller == c && c in w.callers then
      var key := w.callers[c].key;
      match w.callers[c].at
      case ReadingCache => if key in w.cache.values then [Hit(w.cache.values[key])] else [Missed]
      case ReadingTable => if key in w.inFlight then [Running(w.inFlight[key])] else [NotRunning]
      case AskingRuntime => [RuntimeSays(a.accepted)]
      case Joining => if key in w.inFlight then [Running(w.inFlight[key])] else [Launched(|w.channels|)]
      case _ => []
    else []
  }

  function Transcript(w: World, actions: seq<Action>, c: CallerId): seq<Reply>
    requires IsRun(w, actions)
    decreases |actions|
  {
    if actions == [] then [] else ToldBy(w, actions[0], c) + Transcript(Next(w, actions[0]), actions[1..], c)
  }

  predicate WaitsFor(said: seq<Reply>, i: TaskId) {
    || said == [Missed, Running(i)]
    || said == [Missed, NotRunning, RuntimeSays(true), Running(i)]
    || said == [Missed, NotRunning, RuntimeSays(true), Launched(i)]
  }

  predicate Tells(at: CallerPoint, said: seq<Reply>) {
    match at
    case ReadingCache => said == []
    case ReadingTable => said == [Missed]
    case AskingRuntime => said == [Missed, NotRunning]
    case Joining => said == [Missed, NotRunning, RuntimeSays(true)]
    case Spawning(i) => said == [Missed, NotRunning, RuntimeSays(true), Launched(i)]
    case Waiting(i) => WaitsFor(said, i)
    case Returned(r, source) =>
      match source
      case FromCache => r.Ok? && said == [Hit(r.value)]
      case FromTask(i) => WaitsFor(said, i)
      case Refused => said == [Missed, NotRunning, RuntimeSays(false)]
      case ChannelClosed => true
  }

  /** A caller that has been dropped was told what it would have been told so far. */
  ghost predicate Consistent(w: World, c: CallerId, said: seq<Reply>) {
    && (c in w.callers ==> Tells(w.callers[c].at, said))
    && (c >= w.asked ==> c !in w.callers && said == [])
    && (forall k :: 0 <= k < |said| && said[k].Launched? ==>
          said[k].task < |w.channels| && said == [Missed, NotRunning, RuntimeSays(true), Launched(said[k].task)])
  }

  lemma JoinIsConsistent(w: World, c: CallerId, said: seq<Reply>)
    requires c in w.callers && w.callers[c].at.Joining? && Consistent(w, c, said) && (forall d :: d in w.callers ==> d < w.asked)
    ensures Consistent(Join(w, c, w.callers[c].key), c, said + ToldBy(w, Drive(c, true), c))
  {
  }

  /** What a caller that enters no task is told takes it where that leads. */
  lemma DriveTells(w: World, c: CallerId, accepted: bool, said: seq<Reply>)
    requires Enabled(w, Drive(c, accepted)) && !w.callers[c].at.Joining? && Tells(w.callers[c].at, said)
    ensures var w', told := CallerStep(w, c, accepted), ToldBy(w, Drive(c, accepted), c);
      && c in w'.callers && Tells(w'.callers[c].at, said + told) && w'.channels == w.channels && w'.asked == w.asked
      && (forall k :: 0 <= k < |told| ==> !told[k].Launched?) && (told == [] || said == [] || said == [Missed] || said == [Missed, NotRunning])
  {
    if w.callers[c].at.Spawning? || w.callers[c].at.Waiting? { assert said + [] == said; }
  }

  lemma DriveIsConsistent(w: World, c: CallerId, accepted: bool, said: seq<Reply>)
    requires ChannelsKnown(w) && Enabled(w, Drive(c, accepted)) && Consistent(w, c, said) && (forall d :: d in w.callers ==> d < w.asked)
    ensures Consistent(CallerStep(w, c, accepted), c, said + ToldBy(w, Drive(c, accepted), c))
  {
    if w.callers[c].at.Joining? {
      JoinIsConsistent(w, c, said);
      hide Join, Consistent, ChannelsKnown;
    } else {
      DriveTells(w, c, accepted, said);
      assert said + [] == said;
      hide CallerStep, ToldBy, Tells, ChannelsKnown, Enabled;
    }
  }

  lemma OthersAreConsistent(w: World, a: Action, c: CallerId, said: seq<Reply>)
    requires ChannelsKnown(w) && CallersKnown(w) && Enabled(w, a) && Consistent(w, c, said) && !(a.Drive? && a.caller == c)
    ensures Consistent(Next(w, a), c, said)
  {
  }

  lemma {:induction false} RunIsConsistent(w: World, actions: seq<Action>, c: CallerId, said: seq<Reply>)
    requires Known(w) && Consistent(w, c, said) && IsRun(w, actions)
    ensures Known(After(w, actions)) && Consistent(After(w, actions), c, said + Transcript(w, actions, c))
    decreases |actions|
  {
    hide TableKnown, ChannelsKnown, PutsKnown, CallersKnown, ResultsKnown, Consistent;
    if actions == [] {
      assert said + [] == said;
    } else {
      var a, w', rest := actions[0], Next(w, actions[0]), actions[1..];
      StepKeepsKnown(w, a);
      StepIsConsistent(w, a, c, said);
      RunIsConsistent(w', rest, c, said + ToldBy(w, a, c));
      assert said + ToldBy(w, a, c) + Transcript(w', rest, c) == said + Transcript(w, actions, c);
    }
  }

  lemma StepIsConsistent(w: World, a: Action, c: CallerId, said: seq<Reply>)
    requires Known(w) && Enabled(w, a) && Consistent(w, c, said)
    ensures Consistent(Next(w, a), c, said + ToldBy(w, a, c))
  {
    hide Consistent, CallerStep, TaskStep, TableKnown, ChannelsKnown, PutsKnown, ResultsKnown;
    if a.Drive? && a.caller == c {
      DriveIsConsistent(w, c, a.accepted, said);
    } else {
      assert said + [] == said;
      OthersAreConsistent(w, a, c, said);
    }
  }

  lemma ReachableIsConsistent(actions: seq<Action>, c: CallerId)
    requires IsRun(START, actions)
    ensures Known(After(START, actions)) && Consistent(After(START, actions), c, Transcript(START, actions, c))
  {
    RunIsConsistent(START, actions, c, []);
    assert [] + Transcript(START, actions, c) == Transcript(START, actions, c);
  }

  /** What a call has come to is decided by what it was told.  A hit is returned; a refusal by the runtime, and
      nothing else, is an error of its own; and a call that the runtime accepts, or that finds its phrase being
      synthesized, waits for that task, its own or another's, and returns its result. */
  lemma CallsGoByWhatTheyAreTold(actions: seq<Action>, c: CallerId)
    requires IsRun(START, actions)
    ensures var w, said := After(START, actions), Transcript(START, actions, c);
      c in w.callers ==>
        var at := w.callers[c].at;
        && (RuntimeSays(false) in said <==> at.Returned? && at.source.Refused?)
        && (at.Returned? && at.source.Refused? ==> at.result.Err? && said == [Missed, NotRunning, RuntimeSays(false)])
        && (at.Returned? && at.source.FromCache? <==> |said| == 1 && said[0].Hit?)
        && (at.Returned? && at.source.FromCache? ==> at.result == Ok(said[0].value))
        && (RuntimeSays(true) in said ==> at.Joining? || at.Spawning? || at.Waiting? || (at.Returned? && at.source.FromTask?))
        && (at.Returned? && at.source.FromTask? ==>
              var i := at.source.task;
              && (Running(i) in said || Launched(i) in said)
              && i < |w.channels| && w.channels[i].made == Some(at.result))
  {
    ReachableIsConsistent(actions, c);
  }

  lemma LaunchesNow(w: World, a: Action, i: TaskId) returns (c: CallerId)
    requires Enabled(w, a) && |w.channels| <= i < |Next(w, a).channels|
    ensures ToldBy(w, a, c) == [Launched(i)]
  {
    c := a.caller;
  }

  lemma {:induction false} LauncherAmong(w: World, actions: seq<Action>, i: TaskId) returns (c: CallerId)
    requires IsRun(w, actions) && Known(w) && |w.channels| <= i < |After(w, actions).channels|
    ensures Launched(i) in Transcript(w, actions, c)
    decreases |actions|
  {
    var a, w', rest := actions[0], Next(w, actions[0]), actions[1..];
    StepKeepsKnown(w, a);
    if i < |w'.channels| {
      c := LaunchesNow(w, a, i);
      assert Transcript(w, actions, c)[0] == Launched(i);
    } else {
      c := LauncherAmong(w', rest, i);
      var k :| 0 <= k < |Transcript(w', rest, c)| && Transcript(w', rest, c)[k] == Launched(i);
      assert Transcript(w, actions, c)[|ToldBy(w, a, c)| + k] == Launched(i);
    }
  }

  /** Every task was launched by a caller that found nothing cached and nothing running, and that the runtime
      accepted. */
  lemma TasksAreAccepted(actions: seq<Action>, i: TaskId) returns (c: CallerId)
    requires IsRun(START, actions) && i < |After(START, actions).channels|
    ensures Transcript(START, actions, c) == [Missed, NotRunning, RuntimeSays(true), Launched(i)]
  {
    c := LauncherAmong(START, actions, i);
    ReachableIsConsistent(actions, c);
  }

  // ---------------------------------------------------------------- two callers, one synthesis

  ghost predicate Reaches(w: World, actions: seq<Action>, w': World) {
    IsRun(w, actions) && After(w, actions) == w'
  }

  lemma ReachesFirst(w: World, a: Action, rest: seq<Action>, w': World)
    requires Enabled(w, a) && Reaches(Next(w, a), rest, w')
    ensures Reaches(w, [a] + rest, w')
  {
    assert ([a] + rest)[1..] == rest;
  }

  lemma {:induction false} ReachesJoin(w: World, first: seq<Action>, w1: World, rest: seq<Action>, w2: World)
    requires Reaches(w, first, w1) && Reaches(w1, rest, w2)
    ensures Reaches(w, first + rest, w2)
    decreases |first|
  {
    if first == [] {
      assert first + rest == rest;
    } else {
      assert (first + rest)[1..] == first[1..] + rest;
      ReachesJoin(Next(w, first[0]), first[1..], w1, rest, w2);
    }
  }

  lemma ReachesTwo(w: World, a: Action, b: Action)
    requires Enabled(w, a) && Enabled(Next(w, a), b)
    ensures Reaches(w, [a, b], Next(Next(w, a), b))
  {
    ReachesFirst(Next(w, a), b, [], Next(Next(w, a), b));
    ReachesFirst(w, a, [b], Next(Next(w, a), b));
    assert [b] + [] == [b] && [a] + [b] == [a, b];
  }

  /** Two callers of one phrase, while nothing is cached. */
  ghost predicate Pair(w: World, first: CallerPoint, second: CallerPoint, key: Key) {
    && w.callers == map[0 := Caller(key, first), 1 := Caller(key, second)] && w.asked == 2
  }

  lemma BothAsk(key: Key) returns (actions: seq<Action>, w: World)
    ensures Reaches(START, actions, w) && Pair(w, ReadingCache, ReadingCache, key)
    ensures w.cache == EMPTY && w.inFlight == map[] && w.tasks == map[] && w.channels == [] && w.puts == []
  {
    actions := [Ask(key), Ask(key)];
    ReachesTwo(START, Ask(key), Ask(key));
    w := Next(Next(START, Ask(key)), Ask(key));
  }

  lemma FirstMisses(w: World, key: Key) returns (actions: seq<Action>, w': World)
    requires Pair(w, ReadingCache, ReadingCache, key) && w.cache == EMPTY && w.inFlight == map[]
    ensures Reaches(w, actions, w') && w' == w.(callers := w'.callers) && Pair(w', AskingRuntime, ReadingCache, key)
  {
    actions := [Drive(0, true), Drive(0, true)];
    ReachesTwo(w, Drive(0, true), Drive(0, true));
    w' := Next(Next(w, Drive(0, true)), Drive(0, true));
  }

  lemma FirstEnters(w: World, key: Key) returns (actions: seq<Action>, w': World)
    requires Pair(w, AskingRuntime, ReadingCache, key) && w.inFlight == map[] && w.tasks == map[] && w.channels == []
    ensures Reaches(w, actions, w') && Pair(w', Spawning(0), ReadingCache, key) && w'.cache == w.cache && w'.puts == w.puts
    ensures w'.inFlight == map[key := 0] && w'.tasks == map[0 := Task(key, Launching(0))] && w'.channels == [Channel(key, None, None, false)]
  {
    actions := [Drive(0, true), Drive(0, true)];
    ReachesTwo(w, Drive(0, true), Drive(0, true));
    w' := Next(Next(w, Drive(0, true)), Drive(0, true));
  }

  lemma SecondJoins(w: World, key: Key) returns (actions: seq<Action>, w': World)
    requires Pair(w, Waiting(0), ReadingCache, key) && w.cache == EMPTY && w.inFlight == map[key := 0]
    ensures Reaches(w, actions, w') && w' == w.(callers := w'.callers) && Pair(w', Waiting(0), Waiting(0), key)
  {
    actions := [Drive(1, true), Drive(1, true)];
    ReachesTwo(w, Drive(1, true), Drive(1, true));
    w' := Next(Next(w, Drive(1, true)), Drive(1, true));
  }

  lemma FirstLaunches(w: World, key: Key) returns (w': World)
    requires Pair(w, Spawning(0), ReadingCache, key) && w.tasks == map[0 := Task(key, Launching(0))]
    ensures Reaches(w, [Drive(0, true)], w') && Pair(w', Waiting(0), ReadingCache, key)
    ensures w' == w.(callers := w'.callers, tasks := map[0 := Task(key, Synthesizing)])
  {
    w' := Next(w, Drive(0, true));
    ReachesFirst(w, Drive(0, true), [], w');
    assert [Drive(0, true)] + [] == [Drive(0, true)];
  }

  lemma TaskCaches(w: World, key: Key, pcm: Pcm) returns (actions: seq<Action>, w': World)
    requires w.tasks == map[0 := Task(key, Synthesizing)] && w.channels == [Channel(key, None, None, false)]
    ensures Reaches(w, actions, w') && w'.callers == w.callers && w'.asked == w.asked && w'.puts == w.puts + [(key, pcm)] && w'.cache == Put(w.cache, key, pcm)
    ensures w'.tasks == map[0 := Task(key, Recording(Ok(pcm)))] && w'.channels == [Channel(key, Some(Ok(pcm)), None, false)]
  {
    actions := [Work(0, Ok(pcm)), Work(0, Ok(pcm))];
    ReachesTwo(w, Work(0, Ok(pcm)), Work(0, Ok(pcm)));
    w' := Next(Next(w, Work(0, Ok(pcm))), Work(0, Ok(pcm)));
  }

  lemma TaskSends(w: World, key: Key, pcm: Pcm) returns (actions: seq<Action>, w': World)
    requires w.tasks == map[0 := Task(key, Recording(Ok(pcm)))] && w.channels == [Channel(key, Some(Ok(pcm)), None, false)]
    ensures Reaches(w, actions, w') && w'.callers == w.callers && w'.asked == w.asked && w'.puts == w.puts && w'.cache == w.cache
    ensures w'.channels == [Channel(key, Some(Ok(pcm)), Some(Ok(pcm)), false)]
  {
    actions := [Work(0, Ok(pcm)), Work(0, Ok(pcm))];
    ReachesTwo(w, Work(0, Ok(pcm)), Work(0, Ok(pcm)));
    w' := Next(Next(w, Work(0, Ok(pcm))), Work(0, Ok(pcm)));
  }

  lemma BothReturn(w: World, key: Key, pcm: Pcm) returns (actions: seq<Action>, w': World)
    requires Pair(w, Waiting(0), Waiting(0), key) && w.channels == [Channel(key, Some(Ok(pcm)), Some(Ok(pcm)), false)]
    ensures Reaches(w, actions, w') && Pair(w', Returned(Ok(pcm), FromTask(0)), Returned(Ok(pcm), FromTask(0)), key)
    ensures w'.channels == w.channels && w'.puts == w.puts
  {
    actions := [Drive(0, true), Drive(1, true)];
    ReachesTwo(w, Drive(0, true), Drive(1, true));
    w' := Next(Next(w, Drive(0, true)), Drive(1, true));
  }

  lemma PhraseIsLaunched(key: Key) returns (actions: seq<Action>, w: World)
    ensures Reaches(START, actions, w) && Pair(w, Waiting(0), Waiting(0), key) && w.puts == []
    ensures w.tasks == map[0 := Task(key, Synthesizing)] && w.channels == [Channel(key, None, None, false)]
  {
    var a1, w1 := BothAsk(key);
    hide Reaches;
    var a2, w2 := FirstMisses(w1, key);
    var a3, w3 := FirstEnters(w2, key);
    var w4 := FirstLaunches(w3, key);
    var a5;
    a5, w := SecondJoins(w4, key);
    ReachesJoin(w3, [Drive(0, true)], w4, a5, w);
    ReachesJoin(w2, a3, w3, [Drive(0, true)] + a5, w);
    ReachesJoin(w1, a2, w2, a3 + ([Drive(0, true)] + a5), w);
    ReachesJoin(START, a1, w1, a2 + (a3 + ([Drive(0, true)] + a5)), w);
    actions := a1 + (a2 + (a3 + ([Drive(0, true)] + a5)));
  }

  /** A phrase asked for twice at once is synthesized once, and both callers get the result. */
  lemma TwoCallersShareOneSynthesis(key: Key, pcm: Pcm) returns (actions: seq<Action>)
    ensures IsRun(START, actions)
    ensures var w := After(START, actions);
      && w.callers == map[0 := Caller(key, Returned(Ok(pcm), FromTask(0))), 1 := Caller(key, Returned(Ok(pcm), FromTask(0)))]
      && |w.channels| == 1 && w.puts == [(key, pcm)]
  {
    var a1, w1 := PhraseIsLaunched(key);
    var a2, w2 := TaskCaches(w1, key, pcm);
    var a3, w3 := TaskSends(w2, key, pcm);
    var a4, w4 := BothReturn(w3, key, pcm);
    ReachesJoin(w2, a3, w3, a4, w4);
    ReachesJoin(w1, a2, w2, a3 + a4, w4);
    ReachesJoin(START, a1, w1, a2 + (a3 + a4), w4);
    actions := a1 + (a2 + (a3 + a4));
  }
}
