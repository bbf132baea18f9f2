/**
 No session outlives its call, and the two maps the call gate counts never share an id.

 Assumed of the environment: answering an ended call fails (`AnswerRule`), and a call id is handed out
 again only after its call ended and the setup that served it has answered or returned (`ReuseRule`).
 Assumed of the scheduler: `SerialRule`, which says only that the main loop's two lookups for a
 disconnect and the commit of the same call do not overlap.
 */
module Orphans {
  import opened Wrappers
  import opened CallMachine
  import opened Effects
  import opened Ownership

  // ---------------------------------------------------------------- assumptions

  predicate BeforeAnswer(at: Point) {
    at.Spawned? || at.Admitted? || at.HasPort? || at.Listed? || at.Listening? || at.Numbered? || at.Registered?
  }

  /** Answered and not yet at the commit: the setup is in, or between, its awaits. */
  predicate Waiting(at: Point) {
    at.AwaitingMedia? || at.PlayingIntro? || at.Connecting? || at.Connected?
  }

  /** After `remove_pending_setup` and before `sessions.insert`. */
  predicate Committing(at: Point) {
    at.Unlisted? || at.Storing?
  }

  predicate At(w: World, t: Tid, at: Point) {
    t in w.threads && w.threads[t].at == at
  }

  predicate AnswerRule(w: World, a: Action) {
    a.Go? && a.answer.Yes? && a.t.Setup? && a.t in w.threads && w.threads[a.t].at.Registered? ==>
      w.threads[a.t].call in w.sip.line && w.sip.line[w.threads[a.t].call] == a.t.who
  }

  predicate ReuseRule(w: World, a: Action) {
    a.Ring? ==>
      && a.call !in w.sip.line
      && (forall j :: 0 <= j < |w.sip.dialed| && j < |w.sip.rang| && w.sip.dialed[j] == a.call ==> w.sip.rang[j] < w.sip.taken)
      && (forall t :: t in w.threads && w.threads[t].call == a.call ==> !BeforeAnswer(w.threads[t].at))
  }

  predicate SerialRule(w: World, a: Action) {
    a.Go? && a.t in w.threads ==>
      && (w.threads[a.t].at.LookingUp? ==>
            var s := Setup(w.threads[a.t].at.who);
            s in w.threads ==> !Committing(w.threads[s].at))
      && (w.threads[a.t].at.Connected? && a.t.Setup? ==> !At(w, Main, Cancelling(a.t.who)))
  }

  predicate CallRules(w: World, a: Action) {
    AnswerRule(w, a) && ReuseRule(w, a) && SerialRule(w, a)
  }

  // ---------------------------------------------------------------- the invariant

  /** No later call dialed the id of `i`. */
  predicate LastOfId(s: Sip, i: Instance) {
    i < |s.dialed| && s.dialed[i] in s.latest && s.latest[s.dialed[i]] == i
  }

  /** Setup tasks know their call. */
  ghost predicate CallsKnown(w: World) {
    (forall i: Instance :: Setup(i) in w.threads ==> i < |w.sip.dialed| && w.threads[Setup(i)].call == w.sip.dialed[i])
  }

  /** Instances of one id follow each other: the end of one is on the channel before the next starts. */
  ghost predicate InOrder(s: Sip) {
    && |s.rang| == |s.dialed|
    && (forall c :: c in s.line ==> s.line[c] !in s.hung)
    && (forall i :: 0 <= i < |s.dialed| && i !in s.hung ==> s.dialed[i] in s.line && s.line[s.dialed[i]] == i)
    && (forall i: Instance :: i in s.hung ==> i < |s.dialed| && s.hung[i] < |s.log| && s.rang[i] < s.hung[i] && s.log[s.hung[i]] == Disconnected(s.dialed[i], i))
    && (forall k :: 0 <= k < |s.log| && s.log[k].Disconnected? ==> s.log[k].who in s.hung && s.hung[s.log[k].who] == k)
    && (forall i, j :: 0 <= i < j < |s.dialed| && s.dialed[i] == s.dialed[j] ==> i in s.hung && s.hung[i] < s.rang[j])
  }

  /** `latest` is what its name says, and a call on the line is the latest of its id. */
  ghost predicate LatestKnown(s: Sip) {
    && (forall c :: c in s.latest ==> s.latest[c] < |s.dialed| && s.dialed[s.latest[c]] == c)
    && (forall i :: 0 <= i < |s.dialed| ==> s.dialed[i] in s.latest && i <= s.latest[s.dialed[i]])
    && (forall c :: c in s.line ==> c in s.latest && s.latest[c] == s.line[c])
  }

  /** The main loop handles ends one at a time, in the order of the channel. */
  ghost predicate EndsKnown(w: World) {
    && (Main in w.threads && (w.threads[Main].at.LookingUp? || w.threads[Main].at.Cancelling?) ==>
          var i := w.threads[Main].at.who;
          && i in w.sip.hung && w.sip.hung[i] == w.sip.taken - 1
          && i < |w.sip.dialed| && w.threads[Main].call == w.sip.dialed[i])
    && (forall i: Instance :: i in w.sip.handled <==>
          i in w.sip.hung && w.sip.hung[i] < w.sip.taken && !At(w, Main, LookingUp(i)))
  }

  /** A call not yet answered, or not yet taken from the channel, is the last of its id. */
  ghost predicate Latest(w: World) {
    && (forall i: Instance :: Setup(i) in w.threads && BeforeAnswer(w.threads[Setup(i)].at) ==> LastOfId(w.sip, i))
    && (forall i: Instance :: i < |w.sip.rang| && w.sip.rang[i] >= w.sip.taken ==> LastOfId(w.sip, i))
  }

  function GenOf(at: Point): Option<Generation> {
    match at
    case Numbered(g) => Some(g)
    case Registered(g) => Some(g)
    case AwaitingMedia(g) => Some(g)
    case PlayingIntro(g) => Some(g)
    case Connecting(g) => Some(g)
    case Connected(g) => Some(g)
    case Unlisted(g, _) => Some(g)
    case Aborting(g, _) => Some(g)
    case _ => None
  }

  /** Every generation in use was issued to the setup that uses it. */
  ghost predicate GenerationsKnown(w: World) {
    && (forall i: Instance :: Setup(i) in w.threads && GenOf(w.threads[Setup(i)].at).Some? ==>
          var g := GenOf(w.threads[Setup(i)].at).value;
          g < |w.mgr.issued| && w.mgr.issued[g] == i)
    && (forall c :: c in w.mgr.pending ==>
          var e := w.mgr.pending[c];
          && e.gen < |w.mgr.issued| && w.mgr.issued[e.gen] == e.who
          && e.who < |w.sip.dialed| && w.sip.dialed[e.who] == c && e.who < |w.sip.rang| && w.sip.rang[e.who] < w.sip.taken)
  }

  predicate Cancels(w: World, i: Instance) {
    Main in w.threads && w.threads[Main].at == Cancelling(i)
  }

  /** A registered setup still owns its entry until its disconnect is handled; a commit has none left. */
  ghost predicate EntriesKnown(w: World) {
    forall i: Instance :: Setup(i) in w.threads && (i !in w.sip.handled || Cancels(w, i)) ==>
      var th := w.threads[Setup(i)];
      && (th.at.Registered? || Waiting(th.at) ==>
            th.call in w.mgr.pending && w.mgr.pending[th.call] == Entry(GenOf(th.at).value, i))
      && (Committing(th.at) ==> th.call !in w.mgr.pending)
      && (th.at.Unlisted? ==> th.at.owns)
  }

  /** Once its disconnect is handled, a setup that could still commit has been, or is being, cancelled. */
  ghost predicate TokensKnown(w: World) {
    && (forall i :: i in w.mgr.cancelled ==> i in w.sip.handled && !Cancels(w, i))
    && (forall i: Instance :: Setup(i) in w.threads && i in w.sip.handled ==>
          var at := w.threads[Setup(i)].at;
          && (Waiting(at) ==> i in w.mgr.cancelled || Cancels(w, i))
          && (at.Unlisted? ==> i in w.mgr.cancelled)
          && !at.Storing?)
  }

  /** A stored session belongs to a dispatched call whose disconnect has not been looked up. */
  ghost predicate SessionsKnown(w: World) {
    forall c :: c in w.mgr.sessions ==>
      var i := w.mgr.sessions[c].who;
      && i < |w.sip.dialed| && w.sip.dialed[i] == c && Setup(i) !in w.threads
      && i < |w.sip.rang| && w.sip.rang[i] < w.sip.taken && i !in w.sip.handled && c !in w.mgr.pending
  }

  /** Who stands where: entries, tokens and sessions. */
  ghost predicate Standing(w: World) {
    CallsKnown(w) && GenerationsKnown(w) && EntriesKnown(w) && TokensKnown(w) && SessionsKnown(w)
  }

  ghost predicate Orderly(w: World) {
    FreshNames(w) && InOrder(w.sip) && LatestKnown(w.sip) && EndsKnown(w) && Latest(w) && Standing(w)
  }

  // ---------------------------------------------------------------- events

  lemma RingKeepsLatest(s: Sip, c: CallId)
    requires LatestKnown(s) && LogKnown(s) && c !in s.line
    ensures LatestKnown(RingIn(s, c))
  {
  }

  lemma RingFollows(s: Sip, c: CallId, i: Instance, j: Instance)
    requires LogKnown(s) && InOrder(s) && c !in s.line
    requires var s' := RingIn(s, c); i < j < |s'.dialed| && s'.dialed[i] == s'.dialed[j]
    ensures var s' := RingIn(s, c); i in s'.hung && s'.hung[i] < s'.rang[j]
  {
  }

  lemma RingInOrder(s: Sip, c: CallId)
    requires LogKnown(s) && InOrder(s) && c !in s.line
    ensures InOrder(RingIn(s, c))
  {
    var s' := RingIn(s, c);
    forall i, j | 0 <= i < j < |s'.dialed| && s'.dialed[i] == s'.dialed[j] ensures i in s'.hung && s'.hung[i] < s'.rang[j] {
      RingFollows(s, c, i, j);
    }
  }

  lemma HangUpInOrder(s: Sip, c: CallId)
    requires LogKnown(s) && InOrder(s) && c in s.line
    ensures InOrder(HangUpCall(s, c))
  {
    hide Shaped;
  }

  lemma HangUpKeepsLatest(s: Sip, c: CallId)
    requires LatestKnown(s) && c in s.line
    ensures LatestKnown(HangUpCall(s, c))
  {
  }

  lemma RingKeepsEnds(w: World, c: CallId)
    requires FreshNames(w) && InOrder(w.sip) && CallsKnown(w) && EndsKnown(w) && Latest(w) && ReuseRule(w, Ring(c))
    ensures var w' := w.(sip := RingIn(w.sip, c)); EndsKnown(w')
  {
  }

  lemma RingKeepsLast(w: World, c: CallId)
    requires FreshNames(w) && InOrder(w.sip) && CallsKnown(w) && EndsKnown(w) && Latest(w) && ReuseRule(w, Ring(c))
    ensures var w' := w.(sip := RingIn(w.sip, c)); Latest(w')
  {
  }

  lemma RingKeepsTokens(w: World, c: CallId)
    requires FreshNames(w) && Standing(w) && ReuseRule(w, Ring(c))
    ensures Standing(w.(sip := RingIn(w.sip, c)))
  {
  }

  lemma HangUpKeepsEnds(w: World, c: CallId)
    requires FreshNames(w) && InOrder(w.sip) && EndsKnown(w) && Latest(w) && c in w.sip.line
    ensures var w' := w.(sip := HangUpCall(w.sip, c)); EndsKnown(w') && Latest(w')
  {
  }

  lemma HangUpKeepsTokens(w: World, c: CallId)
    requires FreshNames(w) && Standing(w) && c in w.sip.line
    ensures Standing(w.(sip := HangUpCall(w.sip, c)))
  {
  }

  lemma DispatchKeepsEnds(w: World)
    requires FreshNames(w) && InOrder(w.sip) && EndsKnown(w) && Latest(w) && Enabled(w, Dispatch)
    ensures var w' := DispatchEvent(w); EndsKnown(w') && Latest(w')
  {
    hide RunsAt;
  }

  lemma DispatchKeepsTokens(w: World)
    requires FreshNames(w) && Standing(w) && Enabled(w, Dispatch)
    ensures Standing(DispatchEvent(w))
  {
  }

  // ---------------------------------------------------------------- steps that change no call's standing

  /** A thread went from `a` to `b` without gaining a generation, a rank or a lookup. */
  predicate Fades(a: Point, b: Point) {
    && (GenOf(b).Some? ==> GenOf(a) == GenOf(b))
    && (BeforeAnswer(b) ==> BeforeAnswer(a))
    && (Waiting(b) ==> Waiting(a))
    && (b.Registered? || Committing(b) || b.LookingUp? || b.Cancelling? ==> a == b)
  }

  ghost predicate Quiet(w: World, w': World) {
    && w'.sip.(answered := w.sip.answered) == w.sip && w'.mgr == w.mgr
    && (Main in w.threads && (w.threads[Main].at.LookingUp? || w.threads[Main].at.Cancelling?) ==>
          Main in w'.threads && w'.threads[Main] == w.threads[Main])
    && (forall t :: t in w'.threads ==>
          t.Worker? ||
          (t in w.threads && w'.threads[t].call == w.threads[t].call && Fades(w.threads[t].at, w'.threads[t].at)))
  }

  lemma QuietKeepsEnds(w: World, w': World)
    requires CallsKnown(w) && EndsKnown(w) && Latest(w) && Quiet(w, w')
    ensures CallsKnown(w') && EndsKnown(w') && Latest(w')
  {
  }

  lemma QuietKeepsTokens(w: World, w': World)
    requires Standing(w) && Quiet(w, w')
    ensures GenerationsKnown(w') && EntriesKnown(w') && TokensKnown(w') && SessionsKnown(w')
  {
  }

  lemma TeardownIsQuiet(w: World, w': World, t: Tid, th: Thread)
    requires Acts(w, t, th) && TeardownPoint(th.at) && TeardownEffect(w, w', t, th)
    ensures Quiet(w, w')
  {
  }

  predicate LoudPoint(at: Point) {
    at.Listening? || at.Numbered? || at.Registered? || at.Connected? || at.Unlisted? || at.Storing? || at.Aborting?
  }

  lemma SetupIsQuiet(w: World, w': World, t: Tid, th: Thread)
    requires Acts(w, t, th) && SetupPoint(th.at) && !LoudPoint(th.at) && SetupEffect(w, w', t, th)
    ensures Quiet(w, w')
  {
  }

  lemma OtherIsQuiet(w: World, w': World, t: Tid, th: Thread, slot: SlotId)
    requires Acts(w, t, th) && !SetupPoint(th.at) && !TeardownPoint(th.at) && OtherEffect(w, w', t, th, slot)
    requires !th.at.LookingUp? && !th.at.Cancelling?
    ensures Quiet(w, w')
  {
  }

  // ---------------------------------------------------------------- the other steps of a setup

  /** What every setup step does to the threads and the channel. */
  ghost predicate Ages(w: World, w': World) {
    && w'.sip.(answered := w.sip.answered) == w.sip
    && (Main in w.threads && (w.threads[Main].at.LookingUp? || w.threads[Main].at.Cancelling?) ==>
          Main in w'.threads && w'.threads[Main] == w.threads[Main])
    && (forall t :: t in w'.threads ==>
          t.Worker? ||
          (t in w.threads && w'.threads[t].call == w.threads[t].call
           && (BeforeAnswer(w'.threads[t].at) ==> BeforeAnswer(w.threads[t].at))
           && (w'.threads[t].at.LookingUp? || w'.threads[t].at.Cancelling? ==> w'.threads[t].at == w.threads[t].at)))
  }

  lemma LoudAges(w: World, w': World, t: Tid, th: Thread)
    requires Acts(w, t, th) && SetupPoint(th.at) && SetupEffect(w, w', t, th)
    ensures Ages(w, w')
  {
  }

  lemma AgingKeepsEnds(w: World, w': World)
    requires CallsKnown(w) && EndsKnown(w) && Latest(w) && Ages(w, w')
    ensures CallsKnown(w') && EndsKnown(w') && Latest(w')
  {
  }

  /** Other calls of the id of `j` are over: handled, and not about to be cancelled. */
  ghost predicate OthersOver(w: World, j: Instance) {
    forall i: Instance :: i < |w.sip.dialed| && j < |w.sip.dialed| && i != j && w.sip.dialed[i] == w.sip.dialed[j] ==>
      i in w.sip.handled && !Cancels(w, i)
  }

  /** A commit or a registration acts for a call that is still the only one of its id. */
  ghost predicate Acting(w: World, t: Tid, th: Thread) {
    Standing(w) && FreshNames(w) && t in w.threads && th == w.threads[t]
  }

  lemma TakeNumberKeepsStanding(w: World, t: Tid, th: Thread)
    requires Acting(w, t, th) && th.at.Listening?
    ensures Standing(TakeNumber(w, t, th))
  {
    hide LogKnown, Shaped;
  }

  lemma RegisterKeepsSessions(w: World, t: Tid, th: Thread)
    requires Acting(w, t, th) && th.at.Numbered? && OthersOver(w, t.who)
    ensures var w' := Register(w, t, th, th.at.gen); CallsKnown(w') && GenerationsKnown(w') && SessionsKnown(w')
  {
  }

  lemma RegisterKeepsTokens(w: World, t: Tid, th: Thread)
    requires Acting(w, t, th) && th.at.Numbered? && OthersOver(w, t.who)
    ensures var w' := Register(w, t, th, th.at.gen); EntriesKnown(w') && TokensKnown(w')
  {
  }

  lemma AnswerKeepsSessions(w: World, t: Tid, th: Thread, answer: Answer)
    requires Acting(w, t, th) && th.at.Registered? && (answer.Yes? ==> t.who !in w.sip.handled)
    ensures var w' := AnswerCall(w, t, th, th.at.gen, answer); CallsKnown(w') && GenerationsKnown(w') && SessionsKnown(w')
  {
    hide LogKnown, Shaped;
  }

  lemma AnswerKeepsTokens(w: World, t: Tid, th: Thread, answer: Answer)
    requires Acting(w, t, th) && th.at.Registered? && (answer.Yes? ==> t.who !in w.sip.handled)
    ensures var w' := AnswerCall(w, t, th, th.at.gen, answer); EntriesKnown(w') && TokensKnown(w')
  {
    hide LogKnown, Shaped;
  }

  lemma UnlistKeepsSessions(w: World, t: Tid, th: Thread)
    requires Acting(w, t, th) && th.at.Connected? && !Cancels(w, t.who)
    ensures var w' := Unlist(w, t, th, th.at.gen); CallsKnown(w') && GenerationsKnown(w') && SessionsKnown(w')
  {
  }

  lemma UnlistKeepsTokens(w: World, t: Tid, th: Thread)
    requires Acting(w, t, th) && th.at.Connected? && !Cancels(w, t.who)
    ensures var w' := Unlist(w, t, th, th.at.gen); EntriesKnown(w') && TokensKnown(w')
  {
  }

  lemma CheckTokenKeepsSessions(w: World, t: Tid, th: Thread)
    requires Acting(w, t, th) && th.at.Unlisted?
    ensures var w' := CheckToken(w, t, th, th.at.owns); CallsKnown(w') && GenerationsKnown(w') && SessionsKnown(w')
  {
    hide FreshNames;
  }

  lemma CheckTokenKeepsTokens(w: World, t: Tid, th: Thread)
    requires Acting(w, t, th) && th.at.Unlisted?
    ensures var w' := CheckToken(w, t, th, th.at.owns); EntriesKnown(w') && TokensKnown(w')
  {
    hide Shaped;
  }

  lemma StoreKeepsSessions(w: World, t: Tid, th: Thread)
    requires Acting(w, t, th) && th.at.Storing?
    ensures var w' := Store(w, t, th); CallsKnown(w') && GenerationsKnown(w') && SessionsKnown(w')
  {
    hide HoldsPortAt, MayHoldPoolAt;
  }

  lemma StoreKeepsTokens(w: World, t: Tid, th: Thread)
    requires Acting(w, t, th) && th.at.Storing?
    ensures var w' := Store(w, t, th); EntriesKnown(w') && TokensKnown(w')
  {
    hide HoldsPortAt, MayHoldPoolAt;
  }

  lemma AbortKeepsSessions(w: World, t: Tid, th: Thread)
    requires Acting(w, t, th) && th.at.Aborting?
    ensures var w' := AbortSetup(w, t, th, th.at.gen, th.at.unlisten); CallsKnown(w') && GenerationsKnown(w') && SessionsKnown(w')
  {
    hide FreshNames;
  }

  lemma AbortKeepsEntries(w: World, t: Tid, th: Thread)
    requires Acting(w, t, th) && th.at.Aborting?
    ensures var w' := AbortSetup(w, t, th, th.at.gen, th.at.unlisten); EntriesKnown(w')
  {
    hide LogKnown;
  }

  lemma AbortKeepsTokens(w: World, t: Tid, th: Thread)
    requires Acting(w, t, th) && th.at.Aborting?
    ensures var w' := AbortSetup(w, t, th, th.at.gen, th.at.unlisten); TokensKnown(w')
  {
    hide LogKnown;
  }

  lemma LookUpKeepsEnds(w: World, th: Thread)
    requires FreshNames(w) && InOrder(w.sip) && EndsKnown(w) && Latest(w) && Main in w.threads && th == w.threads[Main] && th.at.LookingUp?
    ensures var w' := LookUp(w, Main, th, th.at.who); EndsKnown(w')
  {
  }

  lemma LookUpKeepsLast(w: World, th: Thread)
    requires FreshNames(w) && InOrder(w.sip) && EndsKnown(w) && Latest(w) && Main in w.threads && th == w.threads[Main] && th.at.LookingUp?
    ensures var w' := LookUp(w, Main, th, th.at.who); Latest(w')
  {
  }

  lemma LookUpKeepsTokens(w: World, th: Thread)
    requires InOrder(w.sip) && EndsKnown(w) && EntriesKnown(w) && TokensKnown(w)
    requires Main in w.threads && th == w.threads[Main] && th.at.LookingUp? && SerialRule(w, Go(Main, Yes, 0))
    requires SessionsKnown(w) && CallsKnown(w)
    ensures var w' := LookUp(w, Main, th, th.at.who); EntriesKnown(w') && TokensKnown(w')
  {
  }

  lemma LookUpKeepsSessions(w: World, th: Thread)
    requires InOrder(w.sip) && EndsKnown(w) && CallsKnown(w) && GenerationsKnown(w) && SessionsKnown(w)
    requires Main in w.threads && th == w.threads[Main] && th.at.LookingUp?
    ensures var w' := LookUp(w, Main, th, th.at.who); CallsKnown(w') && GenerationsKnown(w') && SessionsKnown(w')
  {
    hide LogKnown;
  }

  lemma CancelKeepsEnds(w: World, th: Thread)
    requires FreshNames(w) && InOrder(w.sip) && EndsKnown(w) && Latest(w) && Main in w.threads && th == w.threads[Main] && th.at.Cancelling?
    ensures var w' := CancelPending(w, Main, th); EndsKnown(w') && Latest(w')
  {
  }

  lemma CancelKeepsSessions(w: World, th: Thread)
    requires FreshNames(w) && InOrder(w.sip) && EndsKnown(w) && Standing(w) && Main in w.threads && th == w.threads[Main] && th.at.Cancelling?
    ensures var w' := CancelPending(w, Main, th); CallsKnown(w') && GenerationsKnown(w') && SessionsKnown(w')
  {
    hide LogKnown, Shaped;
  }

  lemma CancelKeepsEntries(w: World, th: Thread)
    requires FreshNames(w) && InOrder(w.sip) && EndsKnown(w) && Standing(w) && Main in w.threads && th == w.threads[Main] && th.at.Cancelling?
    ensures var w' := CancelPending(w, Main, th); EntriesKnown(w')
  {
    hide LogKnown, Shaped;
  }

  lemma CancelKeepsTokens(w: World, th: Thread)
    requires FreshNames(w) && InOrder(w.sip) && EndsKnown(w) && Standing(w) && Main in w.threads && th == w.threads[Main] && th.at.Cancelling?
    ensures var w' := CancelPending(w, Main, th); TokensKnown(w')
  {
    hide LogKnown, Shaped;
  }

  /** A setup that has not answered is the last of its id, so the others are over. */
  lemma EarlierAreOver(w: World, t: Tid)
    requires Orderly(w) && t in w.threads && t.Setup? && BeforeAnswer(w.threads[t].at)
    ensures OthersOver(w, t.who)
  {
  }

  /** A call that can still be answered is on the line, so its disconnect is not handled. */
  lemma OnLineIsUnhandled(w: World, t: Tid)
    requires InOrder(w.sip) && EndsKnown(w) && AnswerRule(w, Go(t, Yes, 0))
    requires t in w.threads && t.Setup? && w.threads[t].at.Registered?
    ensures t.who !in w.sip.handled
  {
  }

  // ---------------------------------------------------------------- every step, every run

  lemma LoudKeepsStanding(w: World, t: Tid, th: Thread, answer: Answer)
    requires Orderly(w) && CallRules(w, Go(t, answer, 0)) && t in w.threads && th == w.threads[t] && LoudPoint(th.at)
    ensures Standing(SetupStep(w, t, th, answer))
  {
    hide InOrder, EndsKnown, Latest, LatestKnown, LogKnown, CallsKnown, EntriesKnown, GenerationsKnown, SessionsKnown;
    hide TakeNumber, Register, AnswerCall, Unlist, CheckToken, Store, AbortSetup, ReuseRule;
    if th.at.Listening? { TakeNumberKeepsStanding(w, t, th); }
    else if th.at.Numbered? { EarlierAreOver(w, t); RegisterKeepsSessions(w, t, th); RegisterKeepsTokens(w, t, th); }
    else if th.at.Registered? {
      if answer.Yes? { OnLineIsUnhandled(w, t); }
      AnswerKeepsSessions(w, t, th, answer); AnswerKeepsTokens(w, t, th, answer);
    }
    else if th.at.Connected? { UnlistKeepsSessions(w, t, th); UnlistKeepsTokens(w, t, th); }
    else if th.at.Unlisted? { CheckTokenKeepsSessions(w, t, th); CheckTokenKeepsTokens(w, t, th); }
    else if th.at.Storing? { StoreKeepsSessions(w, t, th); StoreKeepsTokens(w, t, th); }
    else { AbortKeepsSessions(w, t, th); AbortKeepsEntries(w, t, th); AbortKeepsTokens(w, t, th); }
  }

  lemma QuietStep(w: World, t: Tid, th: Thread, answer: Answer, slot: SlotId)
    requires Permitted(w, t, answer) && th == w.threads[t] && Worker(w.workers) !in w.threads
    requires !LoudPoint(th.at) && !th.at.LookingUp? && !th.at.Cancelling?
    ensures Quiet(w, Advance(w, t, answer, slot))
  {
    hide SetupStep, TeardownStep, OtherStep, SetupEffect, TeardownEffect, OtherEffect, Quiet;
    var w' := Advance(w, t, answer, slot);
    if SetupPoint(th.at) { SetupHasEffect(w, t, th, answer); SetupIsQuiet(w, w', t, th); }
    else if TeardownPoint(th.at) { TeardownHasEffect(w, t, th, answer); TeardownIsQuiet(w, w', t, th); }
    else { OtherHasEffect(w, t, th, answer, slot); OtherIsQuiet(w, w', t, th, slot); }
  }

  lemma AdvanceKeepsEnds(w: World, t: Tid, th: Thread, answer: Answer, slot: SlotId)
    requires FreshNames(w) && InOrder(w.sip) && CallsKnown(w) && EndsKnown(w) && Latest(w)
    requires Permitted(w, t, answer) && th == w.threads[t]
    ensures EndsKnown(Advance(w, t, answer, slot)) && Latest(Advance(w, t, answer, slot))
  {
    hide SetupStep, TeardownStep, SetupEffect, InOrder, CallsKnown, EndsKnown, Latest, LogKnown;
    var w' := Advance(w, t, answer, slot);
    if LoudPoint(th.at) {
      SetupHasEffect(w, t, th, answer);
      LoudAges(w, w', t, th);
      AgingKeepsEnds(w, w');
    } else if th.at.LookingUp? {
      LookUpKeepsEnds(w, th); LookUpKeepsLast(w, th);
    } else if th.at.Cancelling? {
      CancelKeepsEnds(w, th);
    } else {
      QuietStep(w, t, th, answer, slot);
      QuietKeepsEnds(w, w');
    }
  }

  lemma AdvanceKeepsStanding(w: World, t: Tid, th: Thread, answer: Answer, slot: SlotId)
    requires Orderly(w) && Permitted(w, t, answer) && CallRules(w, Go(t, answer, slot)) && th == w.threads[t]
    ensures Standing(Advance(w, t, answer, slot))
  {
    hide SetupStep, TeardownStep, InOrder, EndsKnown, Latest, LatestKnown, LogKnown, EntriesKnown, TokensKnown, GenerationsKnown, SessionsKnown;
    if LoudPoint(th.at) {
      LoudKeepsStanding(w, t, th, answer);
    } else if th.at.LookingUp? {
      LookUpKeepsTokens(w, th);
      LookUpKeepsSessions(w, th);
    } else if th.at.Cancelling? {
      CancelKeepsSessions(w, th); CancelKeepsEntries(w, th); CancelKeepsTokens(w, th);
    } else {
      QuietStep(w, t, th, answer, slot);
      QuietKeepsEnds(w, Advance(w, t, answer, slot));
      QuietKeepsTokens(w, Advance(w, t, answer, slot));
    }
  }

  lemma SameSip(s: Sip, s': Sip)
    requires s'.(taken := s.taken, answered := s.answered, handled := s.handled) == s && InOrder(s) && LatestKnown(s)
    ensures InOrder(s') && LatestKnown(s')
  {
  }

  lemma StepKeepsOrderly(w: World, a: Action)
    requires Orderly(w) && Enabled(w, a) && CallRules(w, a)
    ensures Orderly(Next(w, a))
  {
    hide LatestKnown, EndsKnown, Latest, EntriesKnown, TokensKnown, GenerationsKnown, SessionsKnown, LogKnown;
    hide Advance, RingIn, HangUpCall;
    StepKeepsNames(w, a);
    match a
    case Ring(c) => RingKeepsLatest(w.sip, c); RingInOrder(w.sip, c); RingKeepsEnds(w, c); RingKeepsLast(w, c); RingKeepsTokens(w, c);
    case HangUp(c) => HangUpInOrder(w.sip, c); HangUpKeepsLatest(w.sip, c); HangUpKeepsEnds(w, c); HangUpKeepsTokens(w, c);
    case Dispatch => SameSip(w.sip, DispatchEvent(w).sip); DispatchKeepsEnds(w); DispatchKeepsTokens(w);
    case MediaState(_) => QuietKeepsEnds(w, Next(w, a)); QuietKeepsTokens(w, Next(w, a));
    case RemoveCompleted(_, _) => QuietKeepsEnds(w, Next(w, a)); QuietKeepsTokens(w, Next(w, a));
    case Go(t, answer, slot) =>
      AdvanceFrame(w, t, answer, slot);
      SameSip(w.sip, Next(w, a).sip);
      AdvanceKeepsEnds(w, t, w.threads[t], answer, slot);
      AdvanceKeepsStanding(w, t, w.threads[t], answer, slot);
  }

  lemma {:induction false} RunKeepsOrderly(w: World, actions: seq<Action>)
    requires Orderly(w) && IsRun(CallRules, w, actions) && IsRun(Free, w, actions)
    ensures Orderly(After(w, actions))
    decreases |actions|
  {
    if actions != [] {
      StepKeepsOrderly(w, actions[0]);
      RunKeepsOrderly(Next(w, actions[0]), actions[1..]);
    }
  }

  lemma InitIsOrderly(maxCalls: nat)
    ensures Orderly(Init(maxCalls))
  {
  }

  lemma ReachableIsOrderly(maxCalls: nat, actions: seq<Action>)
    requires IsRun(CallRules, Init(maxCalls), actions) && IsRun(Free, Init(maxCalls), actions)
    ensures Orderly(After(Init(maxCalls), actions))
  {
    InitIsOrderly(maxCalls);
    RunKeepsOrderly(Init(maxCalls), actions);
  }

  // ---------------------------------------------------------------- main results

  /** A session of a call whose disconnect the main loop has already looked up: no disconnect of its own will
      remove it. */
  ghost predicate Orphaned(w: World, i: Instance) {
    i in w.sip.handled && exists c :: c in w.mgr.sessions && w.mgr.sessions[c].who == i
  }

  lemma NoOrphanedSession(maxCalls: nat, actions: seq<Action>, i: Instance)
    requires IsRun(CallRules, Init(maxCalls), actions)
    ensures IsRun(Free, Init(maxCalls), actions)
    ensures !Orphaned(After(Init(maxCalls), actions), i)
  {
    AnyRunIsFree(CallRules, Init(maxCalls), actions);
    ReachableIsOrderly(maxCalls, actions);
  }

  /** Caught between the main loop's lookups and its own commit, beyond the reach of any cancellation. */
  ghost predicate Doomed(w: World, i: Instance) {
    && Setup(i) in w.threads && Committing(w.threads[Setup(i)].at) && Shaped(Setup(i), w.threads[Setup(i)])
    && i in w.sip.handled && i !in w.mgr.cancelled
    && (forall c :: c in w.mgr.pending ==> w.mgr.pending[c].who != i)
  }

  /** `SerialRule` is exactly what keeps orphans out: a step that breaks it dooms the call it breaks it
      for, either by looking it up in the middle of its commit ... */
  lemma LookUpDuringCommitDooms(w: World, th: Thread)
    requires FreshNames(w) && Standing(w) && EndsKnown(w) && Main in w.threads && th == w.threads[Main] && th.at.LookingUp?
    requires !SerialRule(w, Go(Main, Yes, 0))
    ensures Doomed(LookUp(w, Main, th, th.at.who), th.at.who)
  {
  }

  /** ... or by starting its commit between the two lookups. */
  lemma CommitDuringLookUpDooms(w: World, t: Tid, th: Thread)
    requires Standing(w) && EndsKnown(w) && t in w.threads && th == w.threads[t] && Shaped(t, th) && th.at.Connected? && t.Setup?
    requires !SerialRule(w, Go(t, Yes, 0))
    ensures Doomed(Unlist(w, t, th, th.at.gen), t.who)
  {
  }

  /** A doomed setup stays doomed whatever else happens ... */
  lemma DoomedStaysDoomed(w: World, a: Action, i: Instance)
    requires FreshNames(w) && Doomed(w, i) && Enabled(w, a) && !(a.Go? && a.t == Setup(i))
    ensures Doomed(Next(w, a), i)
  {
    if a.Go? {
      hide SetupStep, TeardownStep, OtherStep, LogKnown;
      var th := w.threads[a.t];
      if SetupPoint(th.at) { SetupHasEffect(w, a.t, th, a.answer); }
      else if TeardownPoint(th.at) { TeardownHasEffect(w, a.t, th, a.answer); }
      else { OtherHasEffect(w, a.t, th, a.answer, a.slot); }
    }
  }

  /** ... and its own two steps, which nothing can block, leave its session an orphan. */
  lemma DoomedBecomesOrphan(w: World, i: Instance)
    requires Doomed(w, i)
    ensures var th := w.threads[Setup(i)];
      && (th.at.Unlisted? ==>
            Doomed(CheckToken(w, Setup(i), th, th.at.owns), i) && At(CheckToken(w, Setup(i), th, th.at.owns), Setup(i), Storing))
      && (th.at.Storing? ==> Orphaned(Store(w, Setup(i), th), i))
  {
    var th := w.threads[Setup(i)];
    if th.at.Storing? {
      var m := Store(w, Setup(i), th).mgr;
      assert th.call in m.sessions && m.sessions[th.call].who == i;
    }
  }

  lemma {:induction false} KeysWithin(keys: set<int>, n: nat)
    requires forall k :: k in keys ==> 0 <= k < n
    ensures |keys| <= n
  {
    if n == 0 {
      forall k | k in keys ensures false { }
      assert keys == {};
    } else {
      KeysWithin(keys - {n - 1}, n - 1);
      assert n - 1 !in keys ==> keys - {n - 1} == keys;
    }
  }

  /** pjsua hands out ids below the configured number of calls. */
  predicate IdRule(w: World, a: Action) {
    a.Ring? ==> 0 <= a.call < w.mgr.maxCalls
  }

  predicate CappedRules(w: World, a: Action) {
    CallRules(w, a) && IdRule(w, a)
  }

  ghost predicate IdsKnown(w: World) {
    forall i :: 0 <= i < |w.sip.dialed| ==> 0 <= w.sip.dialed[i] < w.mgr.maxCalls
  }

  lemma StepKeepsIds(w: World, a: Action)
    requires FreshNames(w) && IdsKnown(w) && Enabled(w, a) && IdRule(w, a)
    ensures IdsKnown(Next(w, a)) && Next(w, a).mgr.maxCalls == w.mgr.maxCalls
  {
    if a.Go? {
      AdvanceFrame(w, a.t, a.answer, a.slot);
    }
  }

  lemma {:induction false} RunKeepsIds(w: World, actions: seq<Action>)
    requires Orderly(w) && IdsKnown(w) && IsRun(CappedRules, w, actions) && IsRun(Free, w, actions)
    ensures var w' := After(w, actions); Orderly(w') && IdsKnown(w') && w'.mgr.maxCalls == w.mgr.maxCalls
    decreases |actions|
  {
    if actions != [] {
      StepKeepsOrderly(w, actions[0]);
      StepKeepsIds(w, actions[0]);
      RunKeepsIds(Next(w, actions[0]), actions[1..]);
    }
  }

  predicate Capped(m: Manager, maxCalls: nat) {
    m.sessions.Keys !! m.pending.Keys && |m.sessions| + |m.pending| <= maxCalls
  }

  lemma CapInState(w: World)
    requires GenerationsKnown(w) && SessionsKnown(w) && IdsKnown(w)
    ensures Capped(w.mgr, w.mgr.maxCalls)
  {
    var m := w.mgr;
    KeysWithin(m.sessions.Keys + m.pending.Keys, m.maxCalls);
    assert |m.sessions| == |m.sessions.Keys| && |m.pending| == |m.pending.Keys|;
  }

  lemma CapAfter(w: World, actions: seq<Action>)
    requires Orderly(w) && IdsKnown(w) && IsRun(CappedRules, w, actions) && IsRun(Free, w, actions)
    ensures Capped(After(w, actions).mgr, w.mgr.maxCalls)
  {
    RunKeepsIds(w, actions);
    CapInState(After(w, actions));
  }

  /** The gate and the registration are separated by awaits, yet no run exceeds the cap, because an id
      is never in both maps. */
  lemma CallCapHolds(maxCalls: nat, actions: seq<Action>)
    requires IsRun(CappedRules, Init(maxCalls), actions)
    ensures IsRun(Free, Init(maxCalls), actions)
    ensures Capped(After(Init(maxCalls), actions).mgr, maxCalls)
  {
    AnyRunIsFree(CappedRules, Init(maxCalls), actions);
    InitIsOrderly(maxCalls);
    CapAfter(Init(maxCalls), actions);
  }

  // ---------------------------------------------------------------- recycled ids

  /** A setup that fails its ownership test, now or when it comes to it: its id has gone to a later generation. */
  predicate Replaced(w: World, i: Instance) {
    Setup(i) in w.threads &&
    var th := w.threads[Setup(i)];
    if th.at.Unlisted? then !th.at.owns
    else (Waiting(th.at) || th.at.Aborting?) && !Owns(w.mgr, th.call, GenOf(th.at).value)
  }

  /** What `on_incoming_call` shares with other calls. */
  predicate SameMaps(w: World, w': World) {
    && w'.mgr.sessions == w.mgr.sessions && w'.mgr.pending == w.mgr.pending
    && w'.reg.pendingPorts == w.reg.pendingPorts && w'.reg.active == w.reg.active && w'.reg.readyTx == w.reg.readyTx
  }

  lemma ReplacedChangesNothing(w: World, i: Instance, th: Thread, answer: Answer)
    requires EntriesKnown(w) && TokensKnown(w) && Replaced(w, i) && th == w.threads[Setup(i)] && Shaped(Setup(i), th)
    ensures SameMaps(w, SetupStep(w, Setup(i), th, answer))
  {
  }

  lemma ReplacedKeepsItself(w: World, i: Instance, th: Thread, answer: Answer)
    requires EntriesKnown(w) && TokensKnown(w) && Replaced(w, i) && th == w.threads[Setup(i)] && Shaped(Setup(i), th)
    ensures var w' := SetupStep(w, Setup(i), th, answer); Setup(i) in w'.threads ==> Replaced(w', i)
  {
    hide SameMaps;
  }

  /** No step of a replaced setup changes any map ... */
  lemma ReplacedSetupIsIsolated(w: World, i: Instance, th: Thread, answer: Answer)
    requires EntriesKnown(w) && TokensKnown(w) && Replaced(w, i) && th == w.threads[Setup(i)] && Shaped(Setup(i), th)
    ensures SameMaps(w, SetupStep(w, Setup(i), th, answer))
    ensures var w' := SetupStep(w, Setup(i), th, answer); Setup(i) in w'.threads ==> Replaced(w', i)
  {
    hide SetupStep, SameMaps;
    ReplacedChangesNothing(w, i, th, answer);
    ReplacedKeepsItself(w, i, th, answer);
  }

  /** ... and no other step gives it its id back. */
  lemma EnvKeepsReplaced(w: World, a: Action, i: Instance)
    requires FreshNames(w) && Enabled(w, a) && Replaced(w, i) && !a.Go?
    ensures Replaced(Next(w, a), i)
  {
  }

  lemma SetupKeepsReplaced(w: World, w': World, t: Tid, th: Thread, i: Instance)
    requires GenerationsKnown(w) && Acts(w, t, th) && SetupPoint(th.at) && SetupEffect(w, w', t, th) && Replaced(w, i) && t != Setup(i)
    ensures Replaced(w', i)
  {
  }

  lemma ReplacedStaysReplaced(w: World, a: Action, i: Instance)
    requires FreshNames(w) && GenerationsKnown(w) && Enabled(w, a) && Replaced(w, i) && !(a.Go? && a.t == Setup(i))
    ensures Replaced(Next(w, a), i)
  {
    if a.Go? {
      hide SetupStep, TeardownStep, OtherStep, LogKnown, SetupEffect, GenerationsKnown, Shaped;
      var th := w.threads[a.t];
      if SetupPoint(th.at) { SetupHasEffect(w, a.t, th, a.answer); SetupKeepsReplaced(w, Next(w, a), a.t, th, i); }
      else if TeardownPoint(th.at) { TeardownHasEffect(w, a.t, th, a.answer); }
      else { OtherHasEffect(w, a.t, th, a.answer, a.slot); }
    } else {
      EnvKeepsReplaced(w, a, i);
    }
  }

  /** So in every run such a setup stays out of the way of all calls for the rest of its life. */
  lemma ReplacedIsIsolatedInRuns(maxCalls: nat, actions: seq<Action>, i: Instance, answer: Answer, slot: SlotId)
    requires IsRun(CallRules, Init(maxCalls), actions)
    ensures IsRun(Free, Init(maxCalls), actions)
    ensures var w := After(Init(maxCalls), actions);
      Replaced(w, i) && Permitted(w, Setup(i), answer) ==>
        var w' := Next(w, Go(Setup(i), answer, slot));
        SameMaps(w, w') && (Setup(i) in w'.threads ==> Replaced(w', i))
  {
    hide SetupStep, SameMaps, TokensKnown, EntriesKnown, Shaped, Latest, LatestKnown, EndsKnown;
    AnyRunIsFree(CallRules, Init(maxCalls), actions);
    ReachableIsOrderly(maxCalls, actions);
    var w := After(Init(maxCalls), actions);
    if Replaced(w, i) && Permitted(w, Setup(i), answer) {
      ReplacedSetupIsIsolated(w, i, w.threads[Setup(i)], answer);
    }
  }

  lemma DisposalIsIsolated(w: World, t: Tid, answer: Answer, slot: SlotId)
    requires Permitted(w, t, answer) && w.threads[t].at.Disposing?
    ensures SameMaps(w, Advance(w, t, answer, slot)) && Advance(w, t, answer, slot).reg.cleanup == w.reg.cleanup
  {
  }
}
