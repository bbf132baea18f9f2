/**
 Call setup, call teardown and media-port ownership as a transition system at lock granularity.

 Every thread of the program (the setup task of a call, the main event loop, a pjsip callback, a
 deferred-cleanup thread) is a program point with its local variables, and one step is one lock
 acquisition, one foreign call or one await outcome.  Steps of different threads interleave freely.
 What pjsip and the network answer arrives with the action that takes the step.
 */
module CallMachine {
  import opened Wrappers

  type CallId = int
  type SlotId = int
  type Instance = nat
  type Generation = nat
  type PortId = nat
  type PoolId = nat

  /** pjsua's invalid id, for a thread that works for no call. */
  const NO_CALL: CallId := -1

  /** What pjsip's callbacks put on the event channel. */
  datatype Event =
    | IncomingCall(call: CallId, who: Instance)
    | Disconnected(call: CallId, who: Instance)

  /** A `pending_setups` entry.  The cancellation token is named by the setup that created it. */
  datatype Entry = Entry(gen: Generation, who: Instance)
  datatype Media = Media(slot: SlotId, pool: PoolId)
  datatype Cleanup = Cleanup(port: PortId, pool: Option<PoolId>)
  datatype Session = Session(who: Instance, port: PortId)

  /** The three ways a port is torn down; `unlisten` asks for the media-ready notifier to go too. */
  datatype Kind = Abort(unlisten: bool) | LateCancel | EndSession

  /** Program points, with the locals that only they need. */
  datatype Point =
    // setup task: on_incoming_call
    | Spawned
    | Admitted
    | HasPort
    | Listed
    | Listening
    | Numbered(gen: Generation)
    | Registered(gen: Generation)
    | AwaitingMedia(gen: Generation)
    | PlayingIntro(gen: Generation)
    | Connecting(gen: Generation)
    | Connected(gen: Generation)
    | Unlisted(gen: Generation, owns: bool)
    | Storing
    | Aborting(gen: Generation, unlisten: bool)
    // teardown of one port, by a setup task or by the main loop
    | TakingPending(kind: Kind)
    | TakingActive(kind: Kind, wasPending: bool)
    | Resolving(kind: Kind, wasPending: bool, found: Option<SlotId>)
    | Removing(kind: Kind, slot: SlotId)
    | FallingBack(kind: Kind, slot: SlotId)
    | Closing
    // main loop: on_call_disconnected
    | LookingUp(who: Instance)
    | Cancelling(who: Instance)
    // pjsip callback: on_call_media_state
    | MediaTake
    | MediaPool(lent: PortId)
    | MediaAdd(lent: PortId)
    | MediaPublish(lent: PortId, slot: SlotId)
    | MediaNotify
    | MediaPutBack(lent: PortId)
    // pjsip callback: on_conf_op_completed
    | OpDone(slot: SlotId, ok: bool)
    // either callback's or DeferredCleanup's last act
    | Disposing

  /** A thread: where it is, the call it works for, the port it must still dispose of and the pool it
      must still release.  Callbacks only borrow a port, so a lent pointer is not in `port`. */
  datatype Thread = Thread(at: Point, call: CallId, port: Option<PortId>, pool: Option<PoolId>)

  datatype Tid = Setup(who: Instance) | Main | Worker(n: nat)

  /** Where the right to destroy a port, or to release a pool, is at the moment. */
  datatype Place =
    | AtThread(t: Tid)
    | AtSession(call: CallId)
    | AtActive(call: CallId)
    | AtCleanup(slot: SlotId)
    | Spent
    | Abandoned

  /** pjsip's call table, and the event channel: all events ever sent and how many the main loop took.
      History: the id each call instance dialed, the latest instance of each id, where on the channel its
      start and end are, and whose disconnect has reached the session lookup. */
  datatype Sip = Sip(
    line: map<CallId, Instance>,
    answered: set<Instance>,
    log: seq<Event>,
    taken: nat,
    dialed: seq<CallId>,
    latest: map<CallId, Instance>,
    rang: seq<nat>,
    hung: map<Instance, nat>,
    handled: set<Instance>)

  /** SessionManager; `issued[g]` is the setup that drew generation `g`, so `|issued|` comes next. */
  datatype Manager = Manager(
    maxCalls: nat,
    sessions: map<CallId, Session>,
    pending: map<CallId, Entry>,
    cancelled: set<Instance>,
    issued: seq<Instance>)

  /** The global registries of callbacks.rs; `fired` are the notifiers that were sent.  History: the
      callback that has taken the pending port of a call and not yet published it or put it back. */
  datatype Registries = Registries(
    pendingPorts: map<CallId, PortId>,
    active: map<CallId, Media>,
    readyTx: map<CallId, Instance>,
    fired: set<Instance>,
    cleanup: map<SlotId, Cleanup>,
    lentTo: map<CallId, Tid>)

  /** pjmedia's conference bridge: the port and the pool in each slot, and the removals under way. */
  datatype Seat = Seat(port: PortId, pool: PoolId)
  datatype Conference = Conference(slots: map<SlotId, Seat>, removing: set<SlotId>)

  /** History: who created each port, where each right is, every free in order, and the ports that were
      still in a conference slot when they were destroyed. */
  datatype Rights = Rights(
    makers: seq<Instance>,
    portAt: map<PortId, Place>,
    pools: nat,
    poolAt: map<PoolId, Place>,
    destroys: seq<PortId>,
    releases: seq<PoolId>,
    seatedWhenDestroyed: set<PortId>)

  datatype World = World(
    sip: Sip,
    threads: map<Tid, Thread>,
    workers: nat,
    mgr: Manager,
    reg: Registries,
    conf: Conference,
    rights: Rights)

  function Init(maxCalls: nat): World {
    World(Sip(map[], {}, [], 0, [], map[], [], map[], {}), map[], 0, Manager(maxCalls, map[], map[], {}, []),
          Registries(map[], map[], map[], {}, map[], map[]), Conference(map[], {}),
          Rights([], map[], 0, map[], [], [], {}))
  }

  /** What the environment answers at a step that asks it something. */
  datatype Answer = Yes | Skip | No | Cancel

  datatype Action =
    | Ring(call: CallId)
    | HangUp(call: CallId)
    | Dispatch
    | MediaState(call: CallId)
    | RemoveCompleted(slot: SlotId, ok: bool)
    | Go(t: Tid, answer: Answer, slot: SlotId)

  // ---------------------------------------------------------------- rights

  function Moved(where: map<nat, Place>, what: Option<nat>, to: Place): map<nat, Place> {
    match what
    case None => where
    case Some(x) => where[x := to]
  }

  function Handed(r: Rights, port: Option<PortId>, pool: Option<PoolId>, to: Place): Rights {
    r.(portAt := Moved(r.portAt, port, to), poolAt := Moved(r.poolAt, pool, to))
  }

  predicate Seated(conf: Conference, p: PortId) {
    exists s :: s in conf.slots && conf.slots[s].port == p
  }

  /** `destroy_custom_port`, remembering whether the port was in a conference slot. */
  function Destroy(r: Rights, conf: Conference, port: Option<PortId>): Rights {
    match port
    case None => r
    case Some(p) =>
      r.(portAt := r.portAt[p := Spent], destroys := r.destroys + [p],
         seatedWhenDestroyed := r.seatedWhenDestroyed + if Seated(conf, p) then {p} else {})
  }

  /** `pj_pool_release`. */
  function Release(r: Rights, pool: Option<PoolId>): Rights {
    match pool
    case None => r
    case Some(b) => r.(poolAt := r.poolAt[b := Spent], releases := r.releases + [b])
  }

  /** `DeferredCleanup::spawn_deferred`, given what becomes of the other threads. */
  function Defer(w: World, others: map<Tid, Thread>, port: Option<PortId>, pool: Option<PoolId>): World {
    var t := Worker(w.workers);
    w.(threads := others[t := Thread(Disposing, NO_CALL, port, pool)], workers := w.workers + 1,
       rights := Handed(w.rights, port, pool, AtThread(t)))
  }

  function Goto(w: World, t: Tid, th: Thread, at: Point): World {
    w.(threads := w.threads[t := th.(at := at)])
  }

  // ---------------------------------------------------------------- setup task

  /** The gate reads both maps under both locks; a refused caller's task returns. */
  function Gate(w: World, t: Tid, th: Thread): World {
    if |w.mgr.sessions| + |w.mgr.pending| >= w.mgr.maxCalls then w.(threads := w.threads - {t})
    else Goto(w, t, th, Admitted)
  }

  function MakePort(w: World, t: Tid, th: Thread): World
    requires t.Setup?
  {
    var p := |w.rights.makers|;
    w.(threads := w.threads[t := Thread(HasPort, th.call, Some(p), None)],
       rights := w.rights.(makers := w.rights.makers + [t.who], portAt := w.rights.portAt[p := AtThread(t)]))
  }

  function ListPort(w: World, t: Tid, th: Thread): World
    requires th.port.Some?
  {
    Goto(w, t, th, Listed)
    .(reg := w.reg.(pendingPorts := w.reg.pendingPorts[th.call := th.port.value]))
  }

  function Listen(w: World, t: Tid, th: Thread): World
    requires t.Setup?
  {
    Goto(w, t, th, Listening).(reg := w.reg.(readyTx := w.reg.readyTx[th.call := t.who]))
  }

  function TakeNumber(w: World, t: Tid, th: Thread): World
    requires t.Setup?
  {
    Goto(w, t, th, Numbered(|w.mgr.issued|)).(mgr := w.mgr.(issued := w.mgr.issued + [t.who]))
  }

  function Register(w: World, t: Tid, th: Thread, gen: Generation): World
    requires t.Setup?
  {
    Goto(w, t, th, Registered(gen))
    .(mgr := w.mgr.(pending := w.mgr.pending[th.call := Entry(gen, t.who)]))
  }

  function AnswerCall(w: World, t: Tid, th: Thread, gen: Generation, answer: Answer): World
    requires t.Setup?
  {
    if answer.Yes?
    then Goto(w, t, th, AwaitingMedia(gen)).(sip := w.sip.(answered := w.sip.answered + {t.who}))
    else Goto(w, t, th, Aborting(gen, true))
  }

  /** Where each await leads: media ready (with or without an intro to play), failure, cancelled. */
  function AfterAwait(at: Point, answer: Answer): Point
    requires at.AwaitingMedia? || at.PlayingIntro? || at.Connecting?
  {
    match at
    case AwaitingMedia(g) =>
      (match answer
       case Yes => PlayingIntro(g)
       case Skip => Connecting(g)
       case No => Aborting(g, false)
       case Cancel => Aborting(g, true))
    case PlayingIntro(g) => if answer.Cancel? then Aborting(g, false) else Connecting(g)
    case Connecting(g) => if answer.No? || answer.Cancel? then Aborting(g, false) else Connected(g)
  }

  /** The test inside `remove_pending_setup`. */
  predicate Owns(m: Manager, call: CallId, gen: Generation) {
    call in m.pending && m.pending[call].gen == gen
  }

  function RemovePending(m: Manager, call: CallId, gen: Generation): Manager {
    if Owns(m, call, gen) then m.(pending := m.pending - {call}) else m
  }

  function Unlist(w: World, t: Tid, th: Thread, gen: Generation): World {
    Goto(w, t, th, Unlisted(gen, Owns(w.mgr, th.call, gen)))
    .(mgr := RemovePending(w.mgr, th.call, gen))
  }

  function CheckToken(w: World, t: Tid, th: Thread, owns: bool): World
    requires t.Setup?
  {
    if t.who !in w.mgr.cancelled then Goto(w, t, th, Storing)
    else if owns then Goto(w, t, th, TakingActive(LateCancel, false))
    else Defer(w, w.threads - {t}, th.port, None)
  }

  /** A session already stored under the id is dropped, and with it the only handle to its port. */
  function Store(w: World, t: Tid, th: Thread): World
    requires t.Setup? && th.port.Some?
  {
    var dropped := if th.call in w.mgr.sessions then Some(w.mgr.sessions[th.call].port) else None;
    w.(threads := w.threads - {t},
       mgr := w.mgr.(sessions := w.mgr.sessions[th.call := Session(t.who, th.port.value)]),
       rights := w.rights.(portAt := Moved(w.rights.portAt, dropped, Abandoned)[th.port.value := AtSession(th.call)]))
  }

  function AbortSetup(w: World, t: Tid, th: Thread, gen: Generation, unlisten: bool): World {
    if Owns(w.mgr, th.call, gen)
    then Goto(w, t, th, TakingPending(Abort(unlisten))).(mgr := RemovePending(w.mgr, th.call, gen))
    else Defer(w, w.threads - {t}, th.port, None)
  }

  // ---------------------------------------------------------------- teardown

  /** The threads once `t` has dealt with its port: an abort may still have to drop the notifier. */
  function Finished(w: World, t: Tid, call: CallId, kind: Kind): map<Tid, Thread> {
    if kind.Abort? && kind.unlisten then w.threads[t := Thread(Closing, call, None, None)]
    else w.threads - {t}
  }

  function TakePendingPort(w: World, t: Tid, th: Thread, kind: Kind): World {
    Goto(w, t, th, TakingActive(kind, th.call in w.reg.pendingPorts))
    .(reg := w.reg.(pendingPorts := w.reg.pendingPorts - {th.call}))
  }

  function TakeActive(w: World, t: Tid, th: Thread, kind: Kind, wasPending: bool): World {
    if th.call in w.reg.active then
      var m := w.reg.active[th.call];
      w.(threads := w.threads[t := Thread(Resolving(kind, wasPending, Some(m.slot)), th.call, th.port, Some(m.pool))],
         reg := w.reg.(active := w.reg.active - {th.call}),
         rights := Handed(w.rights, None, Some(m.pool), AtThread(t)))
    else Goto(w, t, th, Resolving(kind, wasPending, None))
  }

  /** A cleanup already registered for the slot is dropped. */
  function RegisterCleanup(w: World, t: Tid, th: Thread, kind: Kind, slot: SlotId): World
    requires th.port.Some?
  {
    var r := if slot in w.reg.cleanup
             then Handed(w.rights, Some(w.reg.cleanup[slot].port), w.reg.cleanup[slot].pool, Abandoned)
             else w.rights;
    w.(threads := w.threads[t := Thread(Removing(kind, slot), th.call, None, None)],
       reg := w.reg.(cleanup := w.reg.cleanup[slot := Cleanup(th.port.value, th.pool)]),
       rights := Handed(r, th.port, th.pool, AtCleanup(slot)))
  }

  function Resolve(w: World, t: Tid, th: Thread, kind: Kind, wasPending: bool, found: Option<SlotId>): World
    requires th.port.Some?
  {
    var others := Finished(w, t, th.call, kind);
    if wasPending then
      w.(threads := others, rights := Handed(Destroy(w.rights, w.conf, th.port), None, th.pool, Abandoned))
    else if found.Some? then RegisterCleanup(w, t, th, kind, found.value)
    else if kind.Abort? then Defer(w, others, th.port, None)
    else w.(threads := others, rights := Handed(w.rights, th.port, None, Abandoned))
  }

  /** `pjsua_conf_remove_port`: accepted for asynchronous removal, or refused. */
  function AskRemove(w: World, t: Tid, th: Thread, kind: Kind, slot: SlotId, answer: Answer): World {
    if answer.Yes?
    then w.(threads := Finished(w, t, th.call, kind), conf := w.conf.(removing := w.conf.removing + {slot}))
    else Goto(w, t, th, FallingBack(kind, slot))
  }

  function FallBack(w: World, t: Tid, th: Thread, kind: Kind, slot: SlotId): World {
    var others := Finished(w, t, th.call, kind);
    if slot in w.reg.cleanup then
      Defer(w, others, Some(w.reg.cleanup[slot].port), w.reg.cleanup[slot].pool)
      .(reg := w.reg.(cleanup := w.reg.cleanup - {slot}))
    else w.(threads := others)
  }

  function Close(w: World, t: Tid, th: Thread): World {
    w.(threads := w.threads - {t}, reg := w.reg.(readyTx := w.reg.readyTx - {th.call}))
  }

  // ---------------------------------------------------------------- main loop

  function LookUp(w: World, t: Tid, th: Thread, who: Instance): World {
    var sip := w.sip.(handled := w.sip.handled + {who});
    if th.call in w.mgr.sessions then
      var p := w.mgr.sessions[th.call].port;
      w.(sip := sip,
         threads := w.threads[t := Thread(TakingPending(EndSession), th.call, Some(p), None)],
         mgr := w.mgr.(sessions := w.mgr.sessions - {th.call}),
         rights := Handed(w.rights, Some(p), None, AtThread(t)))
    else Goto(w, t, th, Cancelling(who)).(sip := sip)
  }

  function CancelPending(w: World, t: Tid, th: Thread): World {
    w.(threads := w.threads - {t},
       mgr := if th.call in w.mgr.pending
              then w.mgr.(cancelled := w.mgr.cancelled + {w.mgr.pending[th.call].who}) else w.mgr)
  }

  // ---------------------------------------------------------------- pjsip callbacks

  function TakeForMedia(w: World, t: Tid, th: Thread): World {
    if th.call in w.reg.pendingPorts
    then Goto(w, t, th, MediaPool(w.reg.pendingPorts[th.call]))
         .(reg := w.reg.(pendingPorts := w.reg.pendingPorts - {th.call}, lentTo := w.reg.lentTo[th.call := t]))
    else w.(threads := w.threads - {t})
  }

  /** No conference port yet, or no pool, sends the port back to the registry. */
  function MakePool(w: World, t: Tid, th: Thread, lent: PortId, answer: Answer): World {
    var b := w.rights.pools;
    if answer.Yes?
    then w.(threads := w.threads[t := Thread(MediaAdd(lent), th.call, None, Some(b))],
            rights := w.rights.(pools := b + 1, poolAt := w.rights.poolAt[b := AtThread(t)]))
    else Goto(w, t, th, MediaPutBack(lent))
  }

  function AddPort(w: World, t: Tid, th: Thread, lent: PortId, answer: Answer, slot: SlotId): World
    requires th.pool.Some?
  {
    if answer.Yes?
    then Goto(w, t, th, MediaPublish(lent, slot)).(conf := w.conf.(slots := w.conf.slots[slot := Seat(lent, th.pool.value)]))
    else w.(threads := w.threads[t := Thread(MediaPutBack(lent), th.call, None, None)],
            rights := Release(w.rights, th.pool))
  }

  /** Active media already published for the call is dropped, and with it its pool. */
  function Publish(w: World, t: Tid, th: Thread, slot: SlotId): World
    requires th.pool.Some?
  {
    var dropped := if th.call in w.reg.active then Some(w.reg.active[th.call].pool) else None;
    w.(threads := w.threads[t := Thread(MediaNotify, th.call, None, None)],
       reg := w.reg.(active := w.reg.active[th.call := Media(slot, th.pool.value)],
                     lentTo := w.reg.lentTo - {th.call}),
       rights := w.rights.(poolAt := Moved(w.rights.poolAt, dropped, Abandoned)[th.pool.value := AtActive(th.call)]))
  }

  function Notify(w: World, t: Tid, th: Thread): World {
    var c := th.call;
    w.(threads := w.threads - {t},
       reg := if c in w.reg.readyTx
              then w.reg.(fired := w.reg.fired + {w.reg.readyTx[c]}, readyTx := w.reg.readyTx - {c})
              else w.reg)
  }

  function PutBack(w: World, t: Tid, th: Thread, lent: PortId): World {
    w.(threads := w.threads - {t},
       reg := w.reg.(pendingPorts := w.reg.pendingPorts[th.call := lent],
                     lentTo := w.reg.lentTo - {th.call}))
  }

  /** A failed removal drops the cleanup entry without freeing anything. */
  function OperationDone(w: World, t: Tid, slot: SlotId, ok: bool): World {
    if slot !in w.reg.cleanup then w.(threads := w.threads - {t}) else
    var c := w.reg.cleanup[slot];
    w.(threads := if ok then w.threads[t := Thread(Disposing, NO_CALL, Some(c.port), c.pool)] else w.threads - {t},
       reg := w.reg.(cleanup := w.reg.cleanup - {slot}),
       rights := Handed(w.rights, Some(c.port), c.pool, if ok then AtThread(t) else Abandoned))
  }

  function Dispose(w: World, t: Tid, th: Thread): World {
    w.(threads := w.threads - {t}, rights := Release(Destroy(w.rights, w.conf, th.port), th.pool))
  }

  // ---------------------------------------------------------------- the transition system

  /** Points of the setup task before its first teardown step. */
  predicate SetupPoint(at: Point) {
    at.Spawned? || at.Admitted? || at.HasPort? || at.Listed? || at.Listening? || at.Numbered? ||
    at.Registered? || at.AwaitingMedia? || at.PlayingIntro? || at.Connecting? || at.Connected? ||
    at.Unlisted? || at.Storing? || at.Aborting?
  }

  /** Points at which a thread has a port to dispose of, and a pool to release. */
  predicate HoldsPortAt(at: Point) {
    (SetupPoint(at) && !at.Spawned? && !at.Admitted?) ||
    at.TakingPending? || at.TakingActive? || at.Resolving? || at.Disposing?
  }

  predicate MayHoldPoolAt(at: Point) {
    at.MediaAdd? || at.MediaPublish? || at.Disposing? || (at.Resolving? && at.found.Some?)
  }

  predicate TeardownPoint(at: Point) {
    at.TakingPending? || at.TakingActive? || at.Resolving? || at.Removing? || at.FallingBack? || at.Closing?
  }

  /** Which thread reaches which point: ending a session is the main loop's teardown. */
  predicate RunsAt(t: Tid, at: Point) {
    match t
    case Setup(_) => SetupPoint(at) || (TeardownPoint(at) && (at.Closing? || !at.kind.EndSession?))
    case Main => at.LookingUp? || at.Cancelling? || (TeardownPoint(at) && !at.Closing? && at.kind.EndSession?)
    case Worker(_) => !SetupPoint(at) && !TeardownPoint(at) && !at.LookingUp? && !at.Cancelling?
  }

  /** The locals a thread has at each point. */
  predicate Shaped(t: Tid, th: Thread) {
    && RunsAt(t, th.at)
    && th.port.Some? == HoldsPortAt(th.at)
    && (th.pool.Some? ==> MayHoldPoolAt(th.at))
    && (th.at.MediaAdd? || th.at.MediaPublish? || (th.at.Resolving? && th.at.found.Some?) ==> th.pool.Some?)
  }

  /** May thread `t` take its next step with this answer?  Only awaits can be blocked. */
  predicate Permitted(w: World, t: Tid, answer: Answer) {
    t in w.threads && Shaped(t, w.threads[t]) &&
    match w.threads[t].at
    case AwaitingMedia(_) =>
      (match answer
       case Cancel => t.who in w.mgr.cancelled
       case No => t.who !in w.reg.fired && forall c :: c in w.reg.readyTx ==> w.reg.readyTx[c] != t.who
       case _ => t.who in w.reg.fired)
    case PlayingIntro(_) => answer.Yes? || (answer.Cancel? && t.who in w.mgr.cancelled)
    case Connecting(_) => answer.Cancel? ==> t.who in w.mgr.cancelled
    case _ => true
  }

  predicate Enabled(w: World, a: Action) {
    match a
    case Ring(_) => true
    case HangUp(c) => c in w.sip.line
    case Dispatch => w.sip.taken < |w.sip.log| && Main !in w.threads
    case MediaState(_) => true
    case RemoveCompleted(slot, _) => slot in w.conf.removing
    case Go(t, answer, _) => Permitted(w, t, answer)
  }

  function SetupStep(w: World, t: Tid, th: Thread, answer: Answer): World
    requires SetupPoint(th.at) && Shaped(t, th)
  {
    match th.at
    case Spawned => Gate(w, t, th)
    case Admitted => MakePort(w, t, th)
    case HasPort => ListPort(w, t, th)
    case Listed => Listen(w, t, th)
    case Listening => TakeNumber(w, t, th)
    case Numbered(g) => Register(w, t, th, g)
    case Registered(g) => AnswerCall(w, t, th, g, answer)
    case AwaitingMedia(_) => Goto(w, t, th, AfterAwait(th.at, answer))
    case PlayingIntro(_) => Goto(w, t, th, AfterAwait(th.at, answer))
    case Connecting(_) => Goto(w, t, th, AfterAwait(th.at, answer))
    case Connected(g) => Unlist(w, t, th, g)
    case Unlisted(_, owns) => CheckToken(w, t, th, owns)
    case Storing => Store(w, t, th)
    case Aborting(g, unlisten) => AbortSetup(w, t, th, g, unlisten)
  }

  function TeardownStep(w: World, t: Tid, th: Thread, answer: Answer): World
    requires TeardownPoint(th.at) && Shaped(t, th)
  {
    match th.at
    case TakingPending(k) => TakePendingPort(w, t, th, k)
    case TakingActive(k, was) => TakeActive(w, t, th, k, was)
    case Resolving(k, was, found) => Resolve(w, t, th, k, was, found)
    case Removing(k, s) => AskRemove(w, t, th, k, s, answer)
    case FallingBack(k, s) => FallBack(w, t, th, k, s)
    case Closing => Close(w, t, th)
  }

  function OtherStep(w: World, t: Tid, th: Thread, answer: Answer, slot: SlotId): World
    requires !SetupPoint(th.at) && !TeardownPoint(th.at) && Shaped(t, th)
  {
    match th.at
    case LookingUp(i) => LookUp(w, t, th, i)
    case Cancelling(_) => CancelPending(w, t, th)
    case MediaTake => TakeForMedia(w, t, th)
    case MediaPool(p) => MakePool(w, t, th, p, answer)
    case MediaAdd(p) => AddPort(w, t, th, p, answer, slot)
    case MediaPublish(_, s) => Publish(w, t, th, s)
    case MediaNotify => Notify(w, t, th)
    case MediaPutBack(p) => PutBack(w, t, th, p)
    case OpDone(s, ok) => OperationDone(w, t, s, ok)
    case Disposing => Dispose(w, t, th)
  }

  function Advance(w: World, t: Tid, answer: Answer, slot: SlotId): World
    requires Permitted(w, t, answer)
  {
    var th := w.threads[t];
    if SetupPoint(th.at) then SetupStep(w, t, th, answer)
    else if TeardownPoint(th.at) then TeardownStep(w, t, th, answer)
    else OtherStep(w, t, th, answer, slot)
  }

  /** pjsip reports a call; each report is a fresh call instance, whatever its id. */
  function RingIn(s: Sip, c: CallId): Sip {
    var i := |s.dialed|;
    s.(line := s.line[c := i], log := s.log + [IncomingCall(c, i)],
       dialed := s.dialed + [c], latest := s.latest[c := i], rang := s.rang + [|s.log|])
  }

  function HangUpCall(s: Sip, c: CallId): Sip
    requires c in s.line
  {
    s.(line := s.line - {c}, log := s.log + [Disconnected(c, s.line[c])], hung := s.hung[s.line[c] := |s.log|])
  }

  /** The main loop takes the next event: spawn a setup task, or handle the disconnect itself. */
  function DispatchEvent(w: World): World
    requires w.sip.taken < |w.sip.log|
  {
    var e := w.sip.log[w.sip.taken];
    w.(sip := w.sip.(taken := w.sip.taken + 1),
       threads := if e.IncomingCall?
                  then w.threads[Setup(e.who) := Thread(Spawned, e.call, None, None)]
                  else w.threads[Main := Thread(LookingUp(e.who), e.call, None, None)])
  }

  /** A new pjsip callback. */
  function Start(w: World, at: Point, call: CallId): World {
    w.(threads := w.threads[Worker(w.workers) := Thread(at, call, None, None)], workers := w.workers + 1)
  }

  function CompleteRemoval(w: World, slot: SlotId, ok: bool): World {
    Start(w, OpDone(slot, ok), NO_CALL)
    .(conf := Conference(if ok then w.conf.slots - {slot} else w.conf.slots, w.conf.removing - {slot}))
  }

  function Next(w: World, a: Action): World
    requires Enabled(w, a)
  {
    match a
    case Ring(c) => w.(sip := RingIn(w.sip, c))
    case HangUp(c) => w.(sip := HangUpCall(w.sip, c))
    case Dispatch => DispatchEvent(w)
    case MediaState(c) => Start(w, MediaTake, c)
    case RemoveCompleted(slot, ok) => CompleteRemoval(w, slot, ok)
    case Go(t, answer, slot) => Advance(w, t, answer, slot)
  }

  // ---------------------------------------------------------------- runs

  /** An assumption about the environment or the scheduler: which actions it allows in a state. */
  type Rule = (World, Action) -> bool

  predicate Free(w: World, a: Action) { true }

  /** `actions` is a run from `w`: each action enabled, and allowed by `rule`, where it is taken. */
  predicate IsRun(rule: Rule, w: World, actions: seq<Action>)
    decreases |actions|
  {
    actions == [] ||
    (Enabled(w, actions[0]) && rule(w, actions[0]) && IsRun(rule, Next(w, actions[0]), actions[1..]))
  }

  function After(w: World, actions: seq<Action>): World
    requires IsRun(Free, w, actions)
    decreases |actions|
  {
    if actions == [] then w else After(Next(w, actions[0]), actions[1..])
  }

  lemma {:induction false} AnyRunIsFree(rule: Rule, w: World, actions: seq<Action>)
    requires IsRun(rule, w, actions)
    ensures IsRun(Free, w, actions)
    decreases |actions|
  {
    if actions != [] {
      AnyRunIsFree(rule, Next(w, actions[0]), actions[1..]);
    }
  }

  /** `actions` is a run under `rule` from `w` to `w'`. */
  ghost predicate Reaches(rule: Rule, w: World, actions: seq<Action>, w': World) {
    IsRun(rule, w, actions) && IsRun(Free, w, actions) && After(w, actions) == w'
  }

  lemma ReachesFirst(rule: Rule, w: World, a: Action, rest: seq<Action>, w': World)
    requires Enabled(w, a) && rule(w, a) && Reaches(rule, Next(w, a), rest, w')
    ensures Reaches(rule, w, [a] + rest, w')
  {
    assert ([a] + rest)[1..] == rest;
  }

  lemma {:induction false} ReachesJoin(rule: Rule, w: World, first: seq<Action>, w1: World, rest: seq<Action>, w2: World)
    requires Reaches(rule, w, first, w1) && Reaches(rule, w1, rest, w2)
    ensures Reaches(rule, w, first + rest, w2)
    decreases |first|
  {
    if first == [] {
      assert first + rest == rest;
    } else {
      assert (first + rest)[1..] == first[1..] + rest;
      ReachesJoin(rule, Next(w, first[0]), first[1..], w1, rest, w2);
    }
  }

  lemma ReachesThen(rule: Rule, w: World, actions: seq<Action>, w1: World, a: Action)
    requires Reaches(rule, w, actions, w1) && Enabled(w1, a) && rule(w1, a)
    ensures Reaches(rule, w, actions + [a], Next(w1, a))
  {
    ReachesFirst(rule, w1, a, [], Next(w1, a));
    assert [a] + [] == [a];
    ReachesJoin(rule, w, actions, w1, [a], Next(w1, a));
  }

  lemma {:induction false} ReachesUnder(strong: Rule, weak: Rule, w: World, actions: seq<Action>, w': World)
    requires Reaches(strong, w, actions, w') && forall v, a :: strong(v, a) ==> weak(v, a)
    ensures Reaches(weak, w, actions, w')
    decreases |actions|
  {
    if actions != [] {
      ReachesUnder(strong, weak, Next(w, actions[0]), actions[1..], w');
    }
  }
}
