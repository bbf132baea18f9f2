/**
 How `synthesize_phrase` and its tasks use the phrase cache: in every interleaving it holds what the calls
 made of it say.
 */
module CachedPhrases {
  import PhraseCache
  import opened SingleFlight

  /** The call of the cache that an action makes. */
  function CacheCall(w: World, a: Action): seq<PhraseCache.Call>
    requires Enabled(w, a)
  {
    match a
    case Drive(c, _) => if w.callers[c].at.ReadingCache? then [PhraseCache.Get(w.callers[c].key)] else []
    case Work(i, _) => if w.tasks[i].at.Caching? then [PhraseCache.Insert(w.tasks[i].key, w.tasks[i].at.pcm)] else []
    case _ => []
  }

  function CacheCalls(w: World, actions: seq<Action>): seq<PhraseCache.Call>
    requires IsRun(w, actions)
    decreases |actions|
  {
    if actions == [] then [] else CacheCall(w, actions[0]) + CacheCalls(Next(w, actions[0]), actions[1..])
  }

  lemma StepIsCall(w: World, a: Action)
    requires Enabled(w, a)
    ensures Next(w, a).cache == if CacheCall(w, a) == [] then w.cache else PhraseCache.Apply(w.cache, CacheCall(w, a)[0])
  {
  }

  lemma OneMoreCall(past: seq<PhraseCache.Call>, call: PhraseCache.Call)
    ensures PhraseCache.After(past + [call]) == PhraseCache.Apply(PhraseCache.After(past), call)
  {
    assert (past + [call])[..|past + [call]| - 1] == past;
  }

  lemma StepCalls(w: World, a: Action, past: seq<PhraseCache.Call>)
    requires Enabled(w, a) && w.cache == PhraseCache.After(past)
    ensures Next(w, a).cache == PhraseCache.After(past + CacheCall(w, a))
  {
    StepIsCall(w, a);
    var calls := CacheCall(w, a);
    assert |calls| <= 1;
    hide *;
    if calls == [] {
      assert past + calls == past;
    } else {
      OneMoreCall(past, calls[0]);
      assert calls == [calls[0]];
    }
  }

  lemma RunGoesOn(w: World, actions: seq<Action>)
    requires actions != [] && IsRun(w, actions)
    ensures Enabled(w, actions[0]) && IsRun(Next(w, actions[0]), actions[1..])
    ensures After(w, actions) == After(Next(w, actions[0]), actions[1..])
    ensures CacheCalls(w, actions) == CacheCall(w, actions[0]) + CacheCalls(Next(w, actions[0]), actions[1..])
  {
  }

  lemma NoCalls(w: World)
    ensures IsRun(w, []) && After(w, []) == w && CacheCalls(w, []) == []
  {
  }

  lemma {:induction false} RunCalls(w: World, actions: seq<Action>, past: seq<PhraseCache.Call>)
    requires IsRun(w, actions) && w.cache == PhraseCache.After(past)
    ensures After(w, actions).cache == PhraseCache.After(past + CacheCalls(w, actions))
    decreases |actions|
  {
    hide *;
    if actions == [] {
      NoCalls(w);
      assert past + [] == past;
    } else {
      RunGoesOn(w, actions);
      var a, w', rest := actions[0], Next(w, actions[0]), actions[1..];
      StepCalls(w, a, past);
      RunCalls(w', rest, past + CacheCall(w, a));
      assert past + CacheCall(w, a) + CacheCalls(w', rest) == past + (CacheCall(w, a) + CacheCalls(w', rest));
    }
  }

  /** In every interleaving the cache holds the last 64 phrases that a call asked it for and found, or that a
      task put there, by when that happened last, each with the value last put there. */
  lemma CacheGoesByItsCalls(actions: seq<Action>)
    requires IsRun(START, actions)
    ensures var calls := CacheCalls(START, actions);
      PhraseCache.Agrees(After(START, actions).cache, PhraseCache.Touched(calls), PhraseCache.Inserted(calls))
  {
    RunCalls(START, actions, []);
    PhraseCache.AgreesWithHistory(CacheCalls(START, actions));
    assert [] + CacheCalls(START, actions) == CacheCalls(START, actions);
  }
}
