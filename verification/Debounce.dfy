/**
 The announcement worker of a call: rapid channel moves are debounced so that only the last of a burst
 is announced, and a channel is not announced twice in a row.

 The stream is the items in order; `quiet[i]` says whether the debounce timer fires after item `i`
 before the next item, or the end of the stream, arrives.
 */
module Debounce {
  import opened Wrappers

  datatype Item = Item(channel: nat, name: Option<string>)

  /** The last item of a burst. */
  predicate BurstFinal(quiet: seq<bool>, debounced: bool, i: nat)
    requires i < |quiet|
  {
    !debounced || quiet[i] || i == |quiet| - 1
  }

  /** The burst-final ones among the first `n` items. */
  function Finals(items: seq<Item>, quiet: seq<bool>, debounced: bool, n: nat): seq<Item>
    requires n <= |items| == |quiet|
  {
    if n == 0 then []
    else Finals(items, quiet, debounced, n - 1) + if BurstFinal(quiet, debounced, n - 1) then [items[n - 1]] else []
  }

  /** Items whose channel differs from that of the last one kept. */
  function DropRepeats(s: seq<Item>): seq<Item> {
    if s == [] then [] else
    var kept, last := DropRepeats(s[..|s| - 1]), s[|s| - 1];
    if kept != [] && kept[|kept| - 1].channel == last.channel then kept else kept + [last]
  }

  // ---------------------------------------------------------------- the worker

  method Announce(items: seq<Item>, quiet: seq<bool>, debounced: bool, spoken: seq<bool>) returns (announced: seq<Item>)
    requires |items| == |quiet| == |spoken|
    ensures announced == DropRepeats(Finals(items, quiet, debounced, |items|))
  {
    var lastAnnounced: Option<nat> := None;
    var next := 0;
    announced := [];
    while next < |items|
      invariant next <= |items|
      invariant announced == DropRepeats(Finals(items, quiet, debounced, next))
      invariant lastAnnounced == if announced == [] then None else Some(announced[|announced| - 1].channel)
      decreases |items| - next
    {
      var latest := items[next];
      ghost var first := next;
      next := next + 1;
      var closed := false;
      if debounced {
        while !quiet[next - 1]
          invariant first < next <= |items| && latest == items[next - 1]
          invariant Finals(items, quiet, debounced, next - 1) == Finals(items, quiet, debounced, first)
          decreases |items| - next
        {
          if next == |items| {
            closed := true;
            break;
          }
          latest := items[next];
          next := next + 1;
        }
      }
      ghost var finals := Finals(items, quiet, debounced, next);
      assert finals[..|finals| - 1] == Finals(items, quiet, debounced, first);
      if lastAnnounced == Some(latest.channel) { continue; }
      lastAnnounced := Some(latest.channel);
      announced := announced + [latest];
      if spoken[next - 1] { continue; }
      if closed { break; }
    }
  }

  // ---------------------------------------------------------------- what is announced

  /** `announced` picks items of the stream by strictly increasing positions. */
  ghost predicate Picks(items: seq<Item>, picked: seq<Item>, at: seq<nat>) {
    && |at| == |picked|
    && (forall k :: 0 <= k < |at| ==> at[k] < |items| && picked[k] == items[at[k]])
    && (forall j, k :: 0 <= j < k < |at| ==> at[j] < at[k])
  }

  /** Place `k` is the last one up to position `i`. */
  ghost predicate LastBy(at: seq<nat>, i: nat, k: nat) {
    k < |at| && at[k] <= i && forall j :: k < j < |at| ==> i < at[j]
  }

  /** After item `i`, the channel last announced is that item's. */
  ghost predicate HeardBy(items: seq<Item>, at: seq<nat>, i: nat)
    requires i < |items|
  {
    exists k: nat :: LastBy(at, i, k) && at[k] < |items| && items[at[k]].channel == items[i].channel
  }

  lemma {:induction false} AnnouncedSoFar(items: seq<Item>, quiet: seq<bool>, debounced: bool, n: nat) returns (at: seq<nat>)
    requires n <= |items| == |quiet|
    ensures Picks(items, DropRepeats(Finals(items, quiet, debounced, n)), at)
    ensures forall k :: 0 <= k < |at| ==> at[k] < n && BurstFinal(quiet, debounced, at[k])
    ensures forall i :: 0 <= i < n && BurstFinal(quiet, debounced, i) ==> HeardBy(items, at, i)
  {
    hide *;
    if n == 0 {
      at := [];
      NothingYet(items, quiet, debounced);
    } else {
      FinalsNext(items, quiet, debounced, n - 1);
      var finals := Finals(items, quiet, debounced, n - 1);
      at := AnnouncedSoFar(items, quiet, debounced, n - 1);
      if BurstFinal(quiet, debounced, n - 1) {
        DropRepeatsNext(finals, items[n - 1]);
        at := OneMore(items, DropRepeats(finals), at, n - 1);
      }
    }
  }

  lemma NothingYet(items: seq<Item>, quiet: seq<bool>, debounced: bool)
    requires |items| == |quiet|
    ensures Picks(items, DropRepeats(Finals(items, quiet, debounced, 0)), [])
  {
  }

  lemma FinalsNext(items: seq<Item>, quiet: seq<bool>, debounced: bool, n: nat)
    requires n < |items| == |quiet|
    ensures Finals(items, quiet, debounced, n + 1) ==
      if BurstFinal(quiet, debounced, n) then Finals(items, quiet, debounced, n) + [items[n]] else Finals(items, quiet, debounced, n)
  {
  }

  lemma DropRepeatsNext(s: seq<Item>, last: Item)
    ensures var kept := DropRepeats(s);
      DropRepeats(s + [last]) == if kept != [] && kept[|kept| - 1].channel == last.channel then kept else kept + [last]
  {
    assert (s + [last])[..|s|] == s;
  }

  /** The place of one more item, unless its channel is that of the last one picked. */
  lemma OneMore(items: seq<Item>, kept: seq<Item>, at: seq<nat>, n: nat) returns (more: seq<nat>)
    requires n < |items| && Picks(items, kept, at) && forall k :: 0 <= k < |at| ==> at[k] < n
    ensures more == at || more == at + [n]
    ensures Picks(items, if kept != [] && kept[|kept| - 1].channel == items[n].channel then kept else kept + [items[n]], more)
    ensures HeardBy(items, more, n) && forall i :: 0 <= i < n && HeardBy(items, at, i) ==> HeardBy(items, more, i)
  {
    if kept != [] && kept[|kept| - 1].channel == items[n].channel {
      more := at;
    } else {
      more := at + [n];
      LaterPlaceKeeps(items, at, n);
    }
    assert LastBy(more, n, |more| - 1);
  }

  lemma LaterPlaceKeeps(items: seq<Item>, at: seq<nat>, last: nat)
    ensures forall i :: 0 <= i < last && i < |items| && HeardBy(items, at, i) ==> HeardBy(items, at + [last], i)
  {
    forall i | 0 <= i < last && i < |items| && HeardBy(items, at, i) ensures HeardBy(items, at + [last], i) {
      var k: nat :| LastBy(at, i, k) && at[k] < |items| && items[at[k]].channel == items[i].channel;
      assert LastBy(at + [last], i, k);
    }
  }

  /** Announcements are last items of bursts, in order, and after each burst its channel is the one last announced. */
  lemma AnnouncedAreBurstFinal(items: seq<Item>, quiet: seq<bool>, debounced: bool) returns (at: seq<nat>)
    requires |items| == |quiet|
    ensures Picks(items, DropRepeats(Finals(items, quiet, debounced, |items|)), at)
    ensures forall k :: 0 <= k < |at| ==> !debounced || quiet[at[k]] || at[k] == |items| - 1
    ensures forall i :: 0 <= i < |items| && (!debounced || quiet[i] || i == |items| - 1) ==> HeardBy(items, at, i)
  {
    at := AnnouncedSoFar(items, quiet, debounced, |items|);
    assert forall i :: 0 <= i < |items| && (!debounced || quiet[i] || i == |items| - 1) ==> BurstFinal(quiet, debounced, i);
  }

  /** No channel is announced twice in a row, and the last announced is the last final. */
  lemma {:induction false} NoRepeats(s: seq<Item>)
    ensures var d := DropRepeats(s);
      && (forall k :: 0 < k < |d| ==> d[k - 1].channel != d[k].channel)
      && (s != [] ==> d != [] && d[|d| - 1].channel == s[|s| - 1].channel)
  {
    if s != [] {
      NoRepeats(s[..|s| - 1]);
    }
  }

  /** Every burst is heard: right after its final item, the channel last announced is that item's. */
  lemma EveryBurstIsHeard(items: seq<Item>, quiet: seq<bool>, debounced: bool, n: nat)
    requires n < |items| == |quiet| && (!debounced || quiet[n] || n == |items| - 1)
    ensures var d := DropRepeats(Finals(items, quiet, debounced, n + 1)); d != [] && d[|d| - 1].channel == items[n].channel
  {
    NoRepeats(Finals(items, quiet, debounced, n + 1));
  }

  /** Once the stream has closed, the channel last announced is that of the last item. */
  lemma LastItemIsAnnounced(items: seq<Item>, quiet: seq<bool>, debounced: bool)
    requires |items| == |quiet| > 0
    ensures var d := DropRepeats(Finals(items, quiet, debounced, |items|));
      d != [] && d[|d| - 1].channel == items[|items| - 1].channel
  {
    EveryBurstIsHeard(items, quiet, debounced, |items| - 1);
  }
}
