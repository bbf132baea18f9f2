/**
 Generations scope `pending_setups`: no two setups ever hold the same one, and the test that guards the
 removal of an entry passes only for the setup the entry belongs to.  Nothing is assumed here.
 */
module Generations {
  import opened Wrappers
  import opened CallMachine
  import opened Effects
  import opened Ownership
  import opened Orphans

  /** Every generation in use, by a setup or in an entry, was issued to the setup that uses it. */
  ghost predicate Issued(w: World) {
    && (forall i: Instance :: Setup(i) in w.threads && GenOf(w.threads[Setup(i)].at).Some? ==>
          var g := GenOf(w.threads[Setup(i)].at).value; g < |w.mgr.issued| && w.mgr.issued[g] == i)
    && (forall c :: c in w.mgr.pending ==> w.mgr.pending[c].gen < |w.mgr.issued| && w.mgr.issued[w.mgr.pending[c].gen] == w.mgr.pending[c].who)
  }

  /** Only drawing a number gives a setup a generation it did not have. */
  lemma DrawsNext(w: World, t: Tid, th: Thread, answer: Answer)
    requires Acts(w, t, th) && SetupPoint(th.at)
    ensures var w' := SetupStep(w, t, th, answer);
      t in w'.threads && GenOf(w'.threads[t].at).Some? ==>
        GenOf(w'.threads[t].at) == if th.at.Listening? then Some(|w.mgr.issued|) else GenOf(th.at)
  {
  }

  lemma SetupKeepsIssued(w: World, w': World, t: Tid, th: Thread)
    requires Issued(w) && Acts(w, t, th) && SetupPoint(th.at) && SetupEffect(w, w', t, th)
    requires t in w'.threads && GenOf(w'.threads[t].at).Some? ==>
               GenOf(w'.threads[t].at) == if th.at.Listening? then Some(|w.mgr.issued|) else GenOf(th.at)
    ensures Issued(w')
  {
  }

  lemma TeardownKeepsIssued(w: World, w': World, t: Tid, th: Thread)
    requires Issued(w) && Acts(w, t, th) && TeardownPoint(th.at) && TeardownEffect(w, w', t, th)
    ensures Issued(w')
  {
  }

  lemma OtherKeepsIssued(w: World, w': World, t: Tid, th: Thread, slot: SlotId)
    requires Issued(w) && Acts(w, t, th) && !SetupPoint(th.at) && !TeardownPoint(th.at) && OtherEffect(w, w', t, th, slot)
    ensures Issued(w')
  {
  }

  lemma EnvKeepsIssued(w: World, a: Action)
    requires FreshNames(w) && Issued(w) && Enabled(w, a) && !a.Go?
    ensures Issued(Next(w, a))
  {
  }

  lemma StepKeepsIssued(w: World, a: Action)
    requires FreshNames(w) && Issued(w) && Enabled(w, a)
    ensures Issued(Next(w, a))
  {
    hide SetupStep, TeardownStep, OtherStep, SetupEffect, TeardownEffect, OtherEffect, LogKnown, Issued, GenOf;
    if a.Go? {
      var t, th := a.t, w.threads[a.t];
      if SetupPoint(th.at) {
        SetupHasEffect(w, t, th, a.answer);
        DrawsNext(w, t, th, a.answer);
        SetupKeepsIssued(w, Next(w, a), t, th);
      } else if TeardownPoint(th.at) {
        TeardownHasEffect(w, t, th, a.answer);
        TeardownKeepsIssued(w, Next(w, a), t, th);
      } else {
        OtherHasEffect(w, t, th, a.answer, a.slot);
        OtherKeepsIssued(w, Next(w, a), t, th, a.slot);
      }
    } else {
      EnvKeepsIssued(w, a);
    }
  }

  lemma {:induction false} RunKeepsIssued(w: World, actions: seq<Action>)
    requires Linear(w) && Issued(w) && IsRun(Free, w, actions)
    ensures Issued(After(w, actions))
    decreases |actions|
  {
    if actions != [] {
      StepKeepsIssued(w, actions[0]);
      StepKeepsLinear(w, actions[0]);
      RunKeepsIssued(Next(w, actions[0]), actions[1..]);
    }
  }

  /** In every run, setups with the same generation are the same, and an entry that a setup's test
      accepts as its own is its own. */
  lemma GenerationsAreUnique(maxCalls: nat, actions: seq<Action>, i: Instance, j: Instance)
    requires IsRun(Free, Init(maxCalls), actions)
    ensures var w := After(Init(maxCalls), actions);
      Setup(i) in w.threads && GenOf(w.threads[Setup(i)].at).Some? ==>
        var th := w.threads[Setup(i)];
        && (Setup(j) in w.threads && GenOf(w.threads[Setup(j)].at) == GenOf(th.at) ==> i == j)
        && (Owns(w.mgr, th.call, GenOf(th.at).value) ==> w.mgr.pending[th.call].who == i)
  {
    InitIsLinear(maxCalls);
    RunKeepsIssued(Init(maxCalls), actions);
  }
}
