/**
 What is registered under a call id belongs to a live setup of that call: its `pending_setups` entry
 and its media-ready notifier.  So neither outlives the setup, under the rules of media attachment.
 */
module Registrations {
  import opened CallMachine
  import opened Effects
  import opened Ownership
  import opened Orphans
  import opened MediaAttachment

  /** Points of a setup that has an entry. */
  predicate Enters(at: Point) {
    at.Registered? || Waiting(at) || at.Aborting?
  }

  /** Points of a setup whose notifier may still be registered. */
  predicate Listens(at: Point) {
    HasNotifier(at) || at.AwaitingMedia? || (at.Aborting? && at.unlisten) || at.Closing? ||
    (TeardownPoint(at) && !at.Closing? && at.kind == Abort(true))
  }

  ghost predicate EntriesOwned(w: World) {
    forall c :: c in w.mgr.pending ==>
      var t := Setup(w.mgr.pending[c].who); t in w.threads && w.threads[t].call == c && Enters(w.threads[t].at)
  }

  ghost predicate ListenersOwned(w: World) {
    forall c :: c in w.reg.readyTx ==>
      var t := Setup(w.reg.readyTx[c]);
      t in w.threads && w.threads[t].call == c && Listens(w.threads[t].at) && w.reg.readyTx[c] !in w.reg.fired
  }

  ghost predicate Owned(w: World) {
    EntriesOwned(w) && ListenersOwned(w)
  }

  // ---------------------------------------------------------------- setup steps

  lemma SetupKeepsEntries(w: World, w': World, t: Tid, th: Thread)
    requires FreshNames(w) && SingleHolder(w) && EntriesOwned(w)
    requires t in w.threads && th == w.threads[t] && SetupPoint(th.at) && SetupEffect(w, w', t, th)
    ensures EntriesOwned(w')
  {
    hide FreshNames;
  }

  /** The media wait is left only once the notifier is gone, or to drop it. */
  lemma WaitKeepsListener(w: World, t: Tid, th: Thread, answer: Answer, c: CallId)
    requires Permitted(w, t, answer) && th == w.threads[t] && t.Setup? && th.at.AwaitingMedia?
    requires ListenersOwned(w) && c in w.reg.readyTx && w.reg.readyTx[c] == t.who
    ensures var w' := SetupStep(w, t, th, answer); t in w'.threads && Listens(w'.threads[t].at)
  {
  }

  lemma SetupKeepsListeners(w: World, w': World, t: Tid, th: Thread)
    requires FreshNames(w) && SingleHolder(w) && NotifiersKnown(w) && ListenersOwned(w)
    requires t in w.threads && th == w.threads[t] && SetupPoint(th.at) && SetupEffect(w, w', t, th)
    requires th.at.AwaitingMedia? && t.Setup? ==>
               forall c :: c in w.reg.readyTx && w.reg.readyTx[c] == t.who ==> t in w'.threads && Listens(w'.threads[t].at)
    ensures ListenersOwned(w')
  {
    hide LogKnown, Shaped;
  }

  // ---------------------------------------------------------------- the other steps

  /** A teardown that has a notifier to drop is not over before it has. */
  lemma TeardownListens(w: World, t: Tid, th: Thread, answer: Answer)
    requires Acts(w, t, th) && TeardownPoint(th.at)
    ensures var w' := TeardownStep(w, t, th, answer);
      && (th.at.Closing? ==> th.call !in w'.reg.readyTx)
      && (!th.at.Closing? ==> w'.reg.readyTx == w.reg.readyTx)
      && (Listens(th.at) && !th.at.Closing? ==> t in w'.threads && Listens(w'.threads[t].at))
  {
  }

  lemma TeardownKeepsOwned(w: World, w': World, t: Tid, th: Thread)
    requires FreshNames(w) && Owned(w) && t in w.threads && th == w.threads[t] && TeardownPoint(th.at) && TeardownEffect(w, w', t, th)
    requires th.at.Closing? ==> th.call !in w'.reg.readyTx
    requires Listens(th.at) && !th.at.Closing? ==> t in w'.threads && Listens(w'.threads[t].at)
    ensures Owned(w')
  {
  }

  lemma OtherKeepsOwned(w: World, w': World, t: Tid, th: Thread, slot: SlotId)
    requires FreshNames(w) && NotifiersKnown(w) && Owned(w)
    requires t in w.threads && th == w.threads[t] && !SetupPoint(th.at) && !TeardownPoint(th.at) && OtherEffect(w, w', t, th, slot)
    ensures Owned(w')
  {
  }

  lemma EnvKeepsOwned(w: World, a: Action)
    requires FreshNames(w) && Owned(w) && Enabled(w, a) && !a.Go?
    ensures Owned(Next(w, a))
  {
  }

  // ---------------------------------------------------------------- every step

  lemma StepKeepsOwned(w: World, a: Action)
    requires FreshNames(w) && SingleHolder(w) && NotifiersKnown(w) && Owned(w) && Enabled(w, a)
    ensures Owned(Next(w, a))
  {
    if a.Go? {
      hide SetupStep, TeardownStep, OtherStep, SetupEffect, TeardownEffect, OtherEffect, SingleHolder, NotifiersKnown, EntriesOwned, ListenersOwned;
      var t, th, w' := a.t, w.threads[a.t], Next(w, a);
      if SetupPoint(th.at) {
        SetupHasEffect(w, t, th, a.answer);
        SetupKeepsEntries(w, w', t, th);
        if th.at.AwaitingMedia? {
          forall c | c in w.reg.readyTx && w.reg.readyTx[c] == t.who ensures t in w'.threads && Listens(w'.threads[t].at) {
            WaitKeepsListener(w, t, th, a.answer, c);
          }
        }
        SetupKeepsListeners(w, w', t, th);
      } else if TeardownPoint(th.at) {
        TeardownHasEffect(w, t, th, a.answer);
        TeardownListens(w, t, th, a.answer);
        TeardownKeepsOwned(w, w', t, th);
      } else {
        OtherHasEffect(w, t, th, a.answer, a.slot);
        OtherKeepsOwned(w, w', t, th, a.slot);
      }
    } else {
      EnvKeepsOwned(w, a);
    }
  }
}
