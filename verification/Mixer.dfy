/**
 The mixed decoder task: one queue of packets and one of decoded samples per speaker, mixed with queued
 sound effects into one frame per tick.

 `MixedDecoder.Tick` iterates the speakers in any order; what it emits is a clamped sum that has no
 order.  `Life` follows one speaker through any arrivals and ticks and accounts for every packet and
 every sample.  Decoding is foreign: a packet carries what the speaker's decoder will make of it.
 */
module Mixer {
  import opened Wrappers
  import opened SampleRing

  type SpeakerId = nat

  const SPEAKER_IDLE_MS: nat := 5000

  /** `None` if Opus refuses the packet. */
  datatype Packet = Packet(decoded: Option<seq<Sample>>)

  datatype Speaker = Speaker(packets: seq<Packet>, pcm: seq<Sample>, lastPacketAt: nat)

  // ---------------------------------------------------------------- one speaker

  /** Decode until a frame is pending, the queue is empty, or a packet is refused. */
  function Pull(packets: seq<Packet>, pcm: seq<Sample>, frame: nat): (seq<Packet>, seq<Sample>)
    decreases |packets|
  {
    if |pcm| >= frame || packets == [] then (packets, pcm) else
    match packets[0].decoded
    case None => (packets[1..], pcm)
    case Some(s) => Pull(packets[1..], pcm + s, frame)
  }

  function Pulled(s: Speaker, frame: nat): seq<Sample> {
    Pull(s.packets, s.pcm, frame).1
  }

  /** A speaker after a tick has taken up to a frame of samples. */
  function Drain(s: Speaker, frame: nat): Speaker {
    var (packets, pcm) := Pull(s.packets, s.pcm, frame);
    Speaker(packets, pcm[Min(frame, |pcm|)..], s.lastPacketAt)
  }

  /** A full queue drops its oldest packet. */
  function Enqueue(s: Speaker, p: Packet, now: nat, maxPackets: nat): Speaker {
    Speaker((if |s.packets| >= maxPackets && s.packets != [] then s.packets[1..] else s.packets) + [p], s.pcm, now)
  }

  /** Everything the packets decode to, in order. */
  function Decoded(packets: seq<Packet>): seq<Sample> {
    if packets == [] then []
    else Decoded(packets[..|packets| - 1]) + match packets[|packets| - 1].decoded case None => [] case Some(s) => s
  }

  lemma {:induction false} DecodedAppend(a: seq<Packet>, b: seq<Packet>)
    ensures Decoded(a + b) == Decoded(a) + Decoded(b)
  {
    if b == [] {
      assert a + b == a;
    } else {
      assert (a + b)[..|a + b| - 1] == a + b[..|b| - 1];
      DecodedAppend(a, b[..|b| - 1]);
    }
  }

  /** Pulling takes packets from the front only, and adds exactly what they decode to. */
  lemma {:induction false} PullConserves(packets: seq<Packet>, pcm: seq<Sample>, frame: nat)
    ensures var (rest, all) := Pull(packets, pcm, frame);
      && |rest| <= |packets| && rest == packets[|packets| - |rest|..]
      && all == pcm + Decoded(packets[..|packets| - |rest|])
    decreases |packets|
  {
    var (rest, all) := Pull(packets, pcm, frame);
    if |pcm| >= frame || packets == [] {
      assert packets[..0] == [];
    } else if packets[0].decoded.None? {
      assert packets[..1][..0] == [];
    } else {
      var s := packets[0].decoded.value;
      PullConserves(packets[1..], pcm + s, frame);
      var k := |packets| - 1 - |rest|;
      assert packets[..k + 1] == [packets[0]] + packets[1..][..k];
      DecodedAppend([packets[0]], packets[1..][..k]);
      assert [packets[0]][..0] == [];
    }
  }

  /** It takes a packet only while less than a frame is pending and none has been refused, and it stops only
      with a full frame, an empty queue or a refused packet. */
  lemma {:induction false} PullStops(packets: seq<Packet>, pcm: seq<Sample>, frame: nat)
    ensures var (rest, all) := Pull(packets, pcm, frame);
      && |rest| <= |packets|
      && var k := |packets| - |rest|;
         && (forall j :: 0 <= j < k ==> |pcm + Decoded(packets[..j])| < frame && (j < k - 1 ==> packets[j].decoded.Some?))
         && (|all| >= frame || rest == [] || (k > 0 && packets[k - 1].decoded.None?))
    decreases |packets|
  {
    DecodedNone(packets);
    if |pcm| < frame && packets != [] && packets[0].decoded.Some? {
      hide Decoded;
      var s := packets[0].decoded.value;
      PullStops(packets[1..], pcm + s, frame);
      var k := |packets| - |Pull(packets, pcm, frame).0|;
      forall j | 0 <= j < k ensures |pcm + Decoded(packets[..j])| < frame && (j < k - 1 ==> packets[j].decoded.Some?) {
        if j > 0 {
          DecodedFirst(packets, pcm, j);
          assert |pcm + s + Decoded(packets[1..][..j - 1])| < frame && (j < k - 1 ==> packets[1..][j - 1].decoded.Some?);
        }
      }
    }
  }

  lemma DecodedNone(packets: seq<Packet>)
    ensures Decoded(packets[..0]) == []
  {
  }

  lemma DecodedFirst(packets: seq<Packet>, pcm: seq<Sample>, j: nat)
    requires 0 < j <= |packets| && packets[0].decoded.Some?
    ensures pcm + Decoded(packets[..j]) == pcm + packets[0].decoded.value + Decoded(packets[1..][..j - 1])
  {
    assert packets[..j] == [packets[0]] + packets[1..][..j - 1];
    DecodedAppend([packets[0]], packets[1..][..j - 1]);
    assert [packets[0]][..0] == [];
  }

  /** Every packet decodes to at most 120 ms. */
  predicate Bounded(packets: seq<Packet>, maxDecode: nat) {
    forall k :: 0 <= k < |packets| && packets[k].decoded.Some? ==> |packets[k].decoded.value| <= maxDecode
  }

  lemma {:induction false} PullIsBounded(packets: seq<Packet>, pcm: seq<Sample>, frame: nat, maxDecode: nat)
    requires Bounded(packets, maxDecode)
    ensures var all := Pull(packets, pcm, frame).1; |all| == |pcm| || |all| < frame + maxDecode
    decreases |packets|
  {
    if |pcm| < frame && packets != [] && packets[0].decoded.Some? {
      PullIsBounded(packets[1..], pcm + packets[0].decoded.value, frame, maxDecode);
    }
  }

  // ---------------------------------------------------------------- a speaker's life

  datatype Event = Arrival(packet: Packet, at: nat) | Ticked

  /** A speaker with its past: the packets that left its queue, in order, each with whether it was
      decoded or dropped, and the samples that were mixed. */
  datatype Trace = Trace(speaker: Speaker, gone: seq<(Packet, bool)>, mixed: seq<Sample>)

  function Tagged(packets: seq<Packet>, decoded: bool): seq<(Packet, bool)> {
    seq(|packets|, k requires 0 <= k < |packets| => (packets[k], decoded))
  }

  function Happen(t: Trace, e: Event, frame: nat, maxPackets: nat): Trace {
    var s := t.speaker;
    match e
    case Arrival(p, at) =>
      Trace(Enqueue(s, p, at, maxPackets),
            t.gone + (if |s.packets| >= maxPackets && s.packets != [] then [(s.packets[0], false)] else []), t.mixed)
    case Ticked =>
      var (rest, pcm) := Pull(s.packets, s.pcm, frame);
      PullConserves(s.packets, s.pcm, frame);
      Trace(Drain(s, frame), t.gone + Tagged(s.packets[..|s.packets| - |rest|], true), t.mixed + pcm[..Min(frame, |pcm|)])
  }

  function Life(events: seq<Event>, frame: nat, maxPackets: nat): Trace {
    if events == [] then Trace(Speaker([], [], 0), [], [])
    else Happen(Life(events[..|events| - 1], frame, maxPackets), events[|events| - 1], frame, maxPackets)
  }

  function Arrivals(events: seq<Event>): seq<Packet> {
    if events == [] then []
    else Arrivals(events[..|events| - 1]) +
         match events[|events| - 1] case Arrival(p, _) => [p] case Ticked => []
  }

  function Packets(gone: seq<(Packet, bool)>): seq<Packet> {
    seq(|gone|, k requires 0 <= k < |gone| => gone[k].0)
  }

  /** The decoded ones among the packets gone: a subsequence of the arrivals. */
  function Played(gone: seq<(Packet, bool)>): seq<Packet> {
    if gone == [] then []
    else Played(gone[..|gone| - 1]) + if gone[|gone| - 1].1 then [gone[|gone| - 1].0] else []
  }

  lemma {:induction false} PlayedAppend(a: seq<(Packet, bool)>, b: seq<(Packet, bool)>)
    ensures Played(a + b) == Played(a) + Played(b)
  {
    if b == [] {
      assert a + b == a;
    } else {
      assert (a + b)[..|a + b| - 1] == a + b[..|b| - 1];
      PlayedAppend(a, b[..|b| - 1]);
    }
  }

  lemma {:induction false} PlayedTagged(packets: seq<Packet>)
    ensures Played(Tagged(packets, true)) == packets
  {
    if packets != [] {
      assert Tagged(packets, true)[..|packets| - 1] == Tagged(packets[..|packets| - 1], true);
      PlayedTagged(packets[..|packets| - 1]);
    }
  }

  lemma PacketsAppend(a: seq<(Packet, bool)>, b: seq<(Packet, bool)>)
    ensures Packets(a + b) == Packets(a) + Packets(b)
  {
  }

  lemma PacketsTagged(packets: seq<Packet>, decoded: bool)
    ensures Packets(Tagged(packets, decoded)) == packets
  {
  }

  /** Packets: arrived = gone (decoded or dropped, in order of arrival) then queued.
      Samples: decoded = mixed then pending. */
  ghost predicate Accounted(t: Trace, arrivals: seq<Packet>, maxPackets: nat) {
    && arrivals == Packets(t.gone) + t.speaker.packets
    && Decoded(Played(t.gone)) == t.mixed + t.speaker.pcm
    && |t.speaker.packets| <= maxPackets
  }

  lemma ArrivalIsAccounted(t: Trace, p: Packet, at: nat, arrivals: seq<Packet>, frame: nat, maxPackets: nat)
    requires maxPackets > 0 && Accounted(t, arrivals, maxPackets)
    ensures Accounted(Happen(t, Arrival(p, at), frame, maxPackets), arrivals + [p], maxPackets)
  {
    var packets := t.speaker.packets;
    if |packets| >= maxPackets {
      assert packets == [packets[0]] + packets[1..];
      PacketsAppend(t.gone, [(packets[0], false)]);
      PlayedAppend(t.gone, [(packets[0], false)]);
      assert [(packets[0], false)][..0] == [];
      assert Played(t.gone) + [] == Played(t.gone);
      assert Packets(t.gone) + packets + [p] == Packets(t.gone) + [packets[0]] + (packets[1..] + [p]);
    } else {
      assert t.gone + [] == t.gone;
      assert Packets(t.gone) + packets + [p] == Packets(t.gone) + (packets + [p]);
    }
  }

  lemma TickIsAccounted(t: Trace, arrivals: seq<Packet>, frame: nat, maxPackets: nat)
    requires Accounted(t, arrivals, maxPackets)
    ensures Accounted(Happen(t, Ticked, frame, maxPackets), arrivals, maxPackets)
  {
    var s := t.speaker;
    var (rest, pcm) := Pull(s.packets, s.pcm, frame);
    PullConserves(s.packets, s.pcm, frame);
    var popped := s.packets[..|s.packets| - |rest|];
    assert s.packets == popped + rest;
    PacketsAppend(t.gone, Tagged(popped, true));
    PacketsTagged(popped, true);
    PlayedAppend(t.gone, Tagged(popped, true));
    PlayedTagged(popped);
    DecodedAppend(Played(t.gone), popped);
    hide Packets, Played, Decoded, Tagged, Pull;
    Regroup(Packets(t.gone), popped, rest);
    Resplit(t.mixed, s.pcm, Decoded(popped), Min(frame, |pcm|));
  }

  lemma Regroup(a: seq<Packet>, b: seq<Packet>, c: seq<Packet>)
    ensures a + (b + c) == a + b + c
  {
  }

  lemma Resplit(mixed: seq<Sample>, pending: seq<Sample>, more: seq<Sample>, n: nat)
    requires n <= |pending + more|
    ensures mixed + pending + more == mixed + (pending + more)[..n] + (pending + more)[n..]
  {
  }

  /** Over any arrivals and ticks, no packet and no sample is lost or made up, except that a full queue
      drops its oldest packet. */
  lemma {:induction false} LifeIsAccounted(events: seq<Event>, frame: nat, maxPackets: nat)
    requires maxPackets > 0
    ensures Accounted(Life(events, frame, maxPackets), Arrivals(events), maxPackets)
  {
    if events != [] {
      var before, e := events[..|events| - 1], events[|events| - 1];
      LifeIsAccounted(before, frame, maxPackets);
      var t := Life(before, frame, maxPackets);
      if e.Arrival? { ArrivalIsAccounted(t, e.packet, e.at, Arrivals(before), frame, maxPackets); }
      else { TickIsAccounted(t, Arrivals(before), frame, maxPackets); }
    }
  }

  /** When the last packet came. */
  function LastCame(events: seq<Event>): nat {
    if events == [] then 0 else
    match events[|events| - 1]
    case Arrival(_, at) => at
    case Ticked => LastCame(events[..|events| - 1])
  }

  lemma {:induction false} LifeKnowsLastPacket(events: seq<Event>, frame: nat, maxPackets: nat)
    ensures Life(events, frame, maxPackets).speaker.lastPacketAt == LastCame(events)
  {
    if events != [] {
      LifeKnowsLastPacket(events[..|events| - 1], frame, maxPackets);
    }
  }

  lemma QueueIsBounded(t: Trace, arrivals: seq<Packet>, maxPackets: nat, maxDecode: nat)
    requires Accounted(t, arrivals, maxPackets) && Bounded(arrivals, maxDecode)
    ensures Bounded(t.speaker.packets, maxDecode)
  {
    hide Played, Decoded;
    assert arrivals[|t.gone|..] == t.speaker.packets;
  }

  /** A tick leaves less than the longest packet pending, so the sample queue cannot grow. */
  lemma {:induction false} PendingStaysShort(events: seq<Event>, frame: nat, maxPackets: nat, maxDecode: nat)
    requires 0 < frame <= maxDecode && Bounded(Arrivals(events), maxDecode) && maxPackets > 0
    ensures |Life(events, frame, maxPackets).speaker.pcm| < maxDecode
  {
    if events != [] {
      var before, e := events[..|events| - 1], events[|events| - 1];
      var t := Life(before, frame, maxPackets);
      assert Bounded(Arrivals(before), maxDecode) by {
        assert Arrivals(events)[..|Arrivals(before)|] == Arrivals(before);
      }
      PendingStaysShort(before, frame, maxPackets, maxDecode);
      if e.Ticked? {
        LifeIsAccounted(before, frame, maxPackets);
        QueueIsBounded(t, Arrivals(before), maxPackets, maxDecode);
        PullIsBounded(t.speaker.packets, t.speaker.pcm, frame, maxDecode);
      }
    }
  }

  // ---------------------------------------------------------------- the mix

  function SampleAt(pcm: seq<Sample>, i: nat): Sample {
    if i < |pcm| then pcm[i] else 0
  }

  /** The sum of every speaker's i-th pending sample, with no order. */
  ghost function Total(pending: map<SpeakerId, seq<Sample>>, i: nat): int {
    if pending == map[] then 0 else
    var k :| k in pending;
    SampleAt(pending[k], i) + Total(pending - {k}, i)
  }

  /** Any speaker may be taken out first. */
  lemma {:induction false} TotalSplit(pending: map<SpeakerId, seq<Sample>>, k: SpeakerId, i: nat)
    requires k in pending
    ensures Total(pending, i) == SampleAt(pending[k], i) + Total(pending - {k}, i)
    decreases |pending|
  {
    var first :| first in pending && Total(pending, i) == SampleAt(pending[first], i) + Total(pending - {first}, i);
    if first != k {
      TotalSplit(pending - {first}, k, i);
      TotalSplit(pending - {k}, first, i);
      assert pending - {first} - {k} == pending - {k} - {first};
    }
  }

  lemma TotalAdd(pending: map<SpeakerId, seq<Sample>>, k: SpeakerId, pcm: seq<Sample>, i: nat)
    requires k !in pending
    ensures Total(pending[k := pcm], i) == Total(pending, i) + SampleAt(pcm, i)
  {
    TotalSplit(pending[k := pcm], k, i);
    assert pending[k := pcm] - {k} == pending;
  }

  /** With at most 65535 sources, the sound queue among them, every sum on the way fits 32 bits. */
  lemma {:induction false} TotalIsBounded(pending: map<SpeakerId, seq<Sample>>, i: nat)
    ensures -0x8000 * |pending| <= Total(pending, i) <= 0x7fff * |pending|
    decreases |pending|
  {
    if pending != map[] {
      var k :| k in pending;
      TotalSplit(pending, k, i);
      TotalIsBounded(pending - {k}, i);
    }
  }

  lemma AccumulatorFits(pending: map<SpeakerId, seq<Sample>>, sound: seq<Sample>, i: nat)
    requires |pending| + 1 <= 65535
    ensures -0x8000_0000 <= Total(pending, i) < 0x8000_0000
    ensures -0x8000_0000 <= Total(pending, i) + SampleAt(sound, i) < 0x8000_0000
  {
    TotalIsBounded(pending, i);
  }

  /** A sum that the 32-bit accumulator can hold. */
  predicate Fits(x: int) {
    -0x8000_0000 <= x < 0x8000_0000
  }

  /** The sums sample by sample. */
  ghost function Sums(pending: map<SpeakerId, seq<Sample>>, frame: nat): seq<int> {
    seq(frame, i requires i >= 0 => Total(pending, i))
  }

  function Added(acc: seq<int>, pcm: seq<Sample>): seq<int> {
    seq(|acc|, i requires 0 <= i < |acc| => acc[i] + SampleAt(pcm, i))
  }

  predicate AllFit(acc: seq<int>) {
    forall i :: 0 <= i < |acc| ==> Fits(acc[i])
  }

  lemma AddNothing(acc: seq<int>)
    ensures Added(acc, []) == acc
  {
  }

  lemma SumsOfNone(frame: nat)
    ensures Sums(map[], frame) == seq(frame, i => 0)
  {
  }

  lemma SumsAdd(pending: map<SpeakerId, seq<Sample>>, k: SpeakerId, pcm: seq<Sample>, frame: nat)
    requires k !in pending
    ensures Added(Sums(pending, frame), pcm) == Sums(pending[k := pcm], frame)
  {
    forall i | 0 <= i < frame ensures Total(pending, i) + SampleAt(pcm, i) == Total(pending[k := pcm], i) {
      TotalAdd(pending, k, pcm, i);
    }
    hide Total, SampleAt;
  }

  /** With fewer than 65535 speakers every sum fits ... */
  lemma SumsFit(pending: map<SpeakerId, seq<Sample>>, speakers: map<SpeakerId, Speaker>, frame: nat)
    requires pending.Keys <= speakers.Keys && |speakers| < 65535
    ensures AllFit(Sums(pending, frame))
  {
    KeysSubset(pending.Keys, speakers.Keys);
    assert |pending| == |pending.Keys| && |speakers| == |speakers.Keys|;
    forall i: nat ensures Fits(Total(pending, i)) { AccumulatorFits(pending, [], i); }
  }

  /** ... also with a sound added. */
  lemma SumsFitWithSound(speakers: map<SpeakerId, Speaker>, sound: seq<Sample>, frame: nat)
    requires |speakers| < 65535
    ensures AllFit(Added(Sums(AllPulled(speakers, frame), frame), sound))
  {
    var pending := AllPulled(speakers, frame);
    assert pending.Keys == speakers.Keys;
    assert |pending| == |pending.Keys| && |speakers| == |speakers.Keys|;
    forall i: nat ensures Fits(Total(pending, i) + SampleAt(sound, i)) { AccumulatorFits(pending, sound, i); }
  }

  /** The speakers of `done` after their part of a tick, the others before it. */
  function DrainedOf(before: map<SpeakerId, Speaker>, done: set<SpeakerId>, frame: nat): map<SpeakerId, Speaker> {
    map id | id in before :: if id in done then Drain(before[id], frame) else before[id]
  }

  function PulledOf(before: map<SpeakerId, Speaker>, done: set<SpeakerId>, frame: nat): map<SpeakerId, seq<Sample>> {
    map id | id in before && id in done :: Pulled(before[id], frame)
  }

  function StaleOf(before: map<SpeakerId, Speaker>, done: set<SpeakerId>, frame: nat, now: nat): set<SpeakerId> {
    set id | id in before && id in done && Stale(before[id], frame, now)
  }

  ghost predicate HeardOf(before: map<SpeakerId, Speaker>, done: set<SpeakerId>, frame: nat) {
    exists id :: id in before && id in done && Pulled(before[id], frame) != []
  }

  /** One more speaker done. */
  lemma OneMore(before: map<SpeakerId, Speaker>, done: set<SpeakerId>, id: SpeakerId, frame: nat, now: nat)
    requires id in before && id !in done
    ensures id in DrainedOf(before, done, frame) && DrainedOf(before, done, frame)[id] == before[id]
    ensures DrainedOf(before, done + {id}, frame) == DrainedOf(before, done, frame)[id := Drain(before[id], frame)]
    ensures id !in PulledOf(before, done, frame)
    ensures PulledOf(before, done + {id}, frame) == PulledOf(before, done, frame)[id := Pulled(before[id], frame)]
    ensures StaleOf(before, done + {id}, frame, now) ==
              StaleOf(before, done, frame, now) + if Stale(before[id], frame, now) then {id} else {}
    ensures HeardOf(before, done + {id}, frame) <==> HeardOf(before, done, frame) || Pulled(before[id], frame) != []
  {
    hide Drain, Pulled, Stale;
  }

  lemma NoneYet(before: map<SpeakerId, Speaker>, frame: nat, now: nat)
    ensures DrainedOf(before, {}, frame) == before && PulledOf(before, {}, frame) == map[]
    ensures StaleOf(before, {}, frame, now) == {} && !HeardOf(before, {}, frame)
  {
    hide Drain, Pulled, Stale;
  }

  lemma AllDone(before: map<SpeakerId, Speaker>, frame: nat, now: nat)
    ensures PulledOf(before, before.Keys, frame) == AllPulled(before, frame)
    ensures DrainedOf(before, before.Keys, frame) - StaleOf(before, before.Keys, frame, now) == Swept(before, now, frame)
  {
    hide Drain, Pulled, Stale;
  }

  lemma KeysOfPulled(before: map<SpeakerId, Speaker>, done: set<SpeakerId>, frame: nat)
    ensures PulledOf(before, done, frame).Keys <= before.Keys
  {
  }

  lemma {:induction false} KeysSubset(a: set<SpeakerId>, b: set<SpeakerId>)
    requires a <= b
    ensures |a| <= |b|
  {
    if k :| k in a { KeysSubset(a - {k}, b - {k}); }
  }

  function Clamp(x: int): Sample {
    if x < -0x8000 then -0x8000 else if x > 0x7fff then 0x7fff else x
  }

  /** `s` is the 16-bit value nearest to `x`. */
  predicate Saturates(s: int, x: int) {
    (-32768 <= x <= 32767 ==> s == x) && (x > 32767 ==> s == 32767) && (x < -32768 ==> s == -32768)
  }

  /** Sample by sample, the frame is the sum of the speakers and the sound, as near as 16 bits come. */
  ghost predicate Mixes(mixed: seq<Sample>, pending: map<SpeakerId, seq<Sample>>, sound: seq<Sample>, frame: nat) {
    |mixed| == frame &&
    forall i :: 0 <= i < frame ==> Saturates(mixed[i], Total(pending, i) + if i < |sound| then sound[i] else 0)
  }

  lemma MixSaturates(pending: map<SpeakerId, seq<Sample>>, sound: seq<Sample>, frame: nat)
    ensures Mixes(MixOf(pending, sound, frame), pending, sound, frame)
  {
    hide Total;
  }

  function Clamped(acc: seq<int>): seq<Sample> {
    seq(|acc|, i requires 0 <= i < |acc| => Clamp(acc[i]))
  }

  lemma MixIsClamped(pending: map<SpeakerId, seq<Sample>>, sound: seq<Sample>, frame: nat)
    ensures Clamped(Added(Sums(pending, frame), sound)) == MixOf(pending, sound, frame)
  {
    hide Total, Clamp, SampleAt;
  }

  ghost function MixOf(pending: map<SpeakerId, seq<Sample>>, sound: seq<Sample>, frame: nat): seq<Sample> {
    seq(frame, i requires i >= 0 => Clamp(Total(pending, i) + SampleAt(sound, i)))
  }

  function AllPulled(speakers: map<SpeakerId, Speaker>, frame: nat): map<SpeakerId, seq<Sample>> {
    map id | id in speakers :: Pulled(speakers[id], frame)
  }

  ghost predicate Audible(speakers: map<SpeakerId, Speaker>, sound: seq<Sample>, frame: nat) {
    sound != [] || exists id :: id in speakers && Pulled(speakers[id], frame) != []
  }

  /** Nothing queued, nothing pending, and nothing heard for more than five seconds. */
  predicate Stale(s: Speaker, frame: nat, now: nat) {
    Pulled(s, frame) == [] && Pull(s.packets, s.pcm, frame).0 == [] && now > s.lastPacketAt + SPEAKER_IDLE_MS
  }

  /** A speaker removed as stale has been played in full: every packet left the queue, and every sample
      was mixed. */
  lemma RemovalDiscardsNothing(events: seq<Event>, frame: nat, maxPackets: nat, now: nat)
    requires maxPackets > 0 && Stale(Life(events, frame, maxPackets).speaker, frame, now)
    ensures var t := Happen(Life(events, frame, maxPackets), Ticked, frame, maxPackets);
      Packets(t.gone) == Arrivals(events) && t.mixed == Decoded(Played(t.gone))
  {
    LifeIsAccounted(events, frame, maxPackets);
    var t := Life(events, frame, maxPackets);
    TickIsAccounted(t, Arrivals(events), frame, maxPackets);
    var t' := Happen(t, Ticked, frame, maxPackets);
    assert t'.speaker.packets == [] && t'.speaker.pcm == [];
    assert t'.mixed + [] == t'.mixed && Packets(t'.gone) + [] == Packets(t'.gone);
  }

  // ---------------------------------------------------------------- all speakers

  function Arrived(speakers: map<SpeakerId, Speaker>, id: SpeakerId, p: Packet, now: nat, decoderMade: bool, maxPackets: nat): map<SpeakerId, Speaker> {
    if id in speakers then speakers[id := Enqueue(speakers[id], p, now, maxPackets)]
    else if decoderMade then speakers[id := Enqueue(Speaker([], [], now), p, now, maxPackets)]
    else speakers
  }

  function Swept(speakers: map<SpeakerId, Speaker>, now: nat, frame: nat): map<SpeakerId, Speaker> {
    map id | id in speakers && !Stale(speakers[id], frame, now) :: Drain(speakers[id], frame)
  }

  /** A tick removes exactly the speakers that, once it has decoded what it could, have nothing pending and
      nothing queued, and whose last packet came more than five seconds ago. */
  lemma SilentSpeakersGo(speakers: map<SpeakerId, Speaker>, id: SpeakerId, now: nat, frame: nat)
    requires id in speakers
    ensures var (rest, pcm) := Pull(speakers[id].packets, speakers[id].pcm, frame);
      id !in Swept(speakers, now, frame) <==> rest == [] && pcm == [] && now - speakers[id].lastPacketAt > 5000
  {
  }

  datatype Input = Came(id: SpeakerId, packet: Packet, at: nat, decoderMade: bool) | TickAt(now: nat)

  function SpeakersAfter(inputs: seq<Input>, frame: nat, maxPackets: nat): map<SpeakerId, Speaker> {
    if inputs == [] then map[] else
    var before := SpeakersAfter(inputs[..|inputs| - 1], frame, maxPackets);
    match inputs[|inputs| - 1]
    case Came(id, p, at, made) => Arrived(before, id, p, at, made, maxPackets)
    case TickAt(now) => Swept(before, now, frame)
  }

  /** What befell one speaker: the packets for which there was a decoder, and all ticks. */
  function EventsOf(inputs: seq<Input>, id: SpeakerId, frame: nat, maxPackets: nat): seq<Event> {
    if inputs == [] then [] else
    var before := inputs[..|inputs| - 1];
    EventsOf(before, id, frame, maxPackets) +
    match inputs[|inputs| - 1]
    case Came(other, p, at, made) =>
      if other == id && (id in SpeakersAfter(before, frame, maxPackets) || made) then [Arrival(p, at)] else []
    case TickAt(_) => [Ticked]
  }

  /** An entry is its speaker's life so far, through removals and new beginnings; and a speaker without an
      entry has nothing queued and nothing pending. */
  ghost predicate Lives(speakers: map<SpeakerId, Speaker>, id: SpeakerId, s: Speaker) {
    if id in speakers then speakers[id] == s else s.packets == [] && s.pcm == []
  }

  lemma LivesOn(events: seq<Event>, e: Event, frame: nat, maxPackets: nat)
    ensures Life(events + [e], frame, maxPackets) == Happen(Life(events, frame, maxPackets), e, frame, maxPackets)
  {
    assert (events + [e])[..|events + [e]| - 1] == events;
  }

  lemma {:induction false} EntryIsItsLife(inputs: seq<Input>, id: SpeakerId, frame: nat, maxPackets: nat)
    requires maxPackets > 0
    ensures Lives(SpeakersAfter(inputs, frame, maxPackets), id, Life(EventsOf(inputs, id, frame, maxPackets), frame, maxPackets).speaker)
  {
    if inputs != [] {
      var before, e := inputs[..|inputs| - 1], inputs[|inputs| - 1];
      EntryIsItsLife(before, id, frame, maxPackets);
      var events := EventsOf(before, id, frame, maxPackets);
      if e.TickAt? {
        LivesOn(events, Ticked, frame, maxPackets);
      } else {
        LivesOn(events, Arrival(e.packet, e.at), frame, maxPackets);
        assert events + [] == events;
      }
    }
  }

  /** A ring took a prefix of `sent`; the rest, lost, found it full. */
  ghost predicate Queued(sent: seq<Sample>, before: seq<Sample>, after: seq<Sample>, lost: int, full: bool) {
    0 <= lost <= |sent| && after == before + sent[..|sent| - lost] && (lost > 0 ==> full)
  }

  lemma NothingQueued(accepted: seq<Sample>, full: bool)
    ensures Queued([], accepted, accepted, 0, full)
  {
  }

  class MixedDecoder {
    const frame: nat
    const maxPackets: nat
    const out: Ring
    var speakers: map<SpeakerId, Speaker>
    var soundQueue: seq<Sample>
    var mixAccum: array<int>
    var droppedSamples: nat
    /** History: every packet and tick handled. */
    ghost var inputs: seq<Input>

    ghost predicate Valid()
      reads this, out
    {
      frame > 0 && maxPackets > 0 && mixAccum.Length == frame && out.Valid()
    }

    ghost predicate Recorded()
      reads this
    {
      speakers == SpeakersAfter(inputs, frame, maxPackets)
    }

    /** Whatever has come and gone, every speaker's packets and samples are accounted for, and it is known when
        its last packet came. */
    lemma SpeakersAreAccounted(id: SpeakerId)
      requires Valid() && Recorded()
      ensures var events := EventsOf(inputs, id, frame, maxPackets);
        var t := Life(events, frame, maxPackets);
        && Lives(speakers, id, t.speaker) && Accounted(t, Arrivals(events), maxPackets)
        && (id in speakers ==> speakers[id].lastPacketAt == LastCame(events))
    {
      LifeKnowsLastPacket(EventsOf(inputs, id, frame, maxPackets), frame, maxPackets);
      EntryIsItsLife(inputs, id, frame, maxPackets);
      LifeIsAccounted(EventsOf(inputs, id, frame, maxPackets), frame, maxPackets);
    }

    /** 10 ms of samples; twice the jitter allowance of packets, and at least four. */
    constructor (sampleRate: nat, jitterFrames: nat, out: Ring)
      requires sampleRate >= 100 && out.Valid()
      ensures Valid() && Recorded() && fresh(mixAccum) && speakers == map[] && soundQueue == [] && inputs == []
      ensures this.out == out && droppedSamples == 0
      ensures frame == sampleRate * 10 / 1000 && maxPackets >= 4 && maxPackets >= 2 * jitterFrames
    {
      frame := sampleRate * 10 / 1000;
      maxPackets := if jitterFrames * 2 < 4 then 4 else jitterFrames * 2;
      speakers, soundQueue, inputs, droppedSamples, this.out := map[], [], [], 0, out;
      mixAccum := new int[sampleRate * 10 / 1000];
    }

    /** A packet arrives; the first of a speaker needs a decoder. */
    method Arrive(id: SpeakerId, packet: Packet, now: nat, decoderMade: bool)
      requires Valid() && Recorded()
      modifies `speakers, `inputs
      ensures Valid() && Recorded() && inputs == old(inputs) + [Came(id, packet, now, decoderMade)]
      ensures speakers == Arrived(old(speakers), id, packet, now, decoderMade, maxPackets)
    {
      inputs := inputs + [Came(id, packet, now, decoderMade)];
      assert inputs[..|inputs| - 1] == old(inputs);
      if id !in speakers {
        if !decoderMade { return; }
        speakers := speakers[id := Speaker([], [], now)];
      }
      var state := speakers[id];
      var packets := state.packets;
      if |packets| >= maxPackets { packets := packets[1..]; }
      speakers := speakers[id := Speaker(packets + [packet], state.pcm, now)];
    }

    method QueueSound(pcm: seq<Sample>)
      requires Valid()
      modifies `soundQueue
      ensures Valid() && (old(Recorded()) ==> Recorded()) && soundQueue == old(soundQueue) + pcm
    {
      soundQueue := soundQueue + pcm;
    }

    /** The inner decode loop of a tick. */
    method Fill(s: Speaker) returns (packets: seq<Packet>, pcm: seq<Sample>)
      ensures (packets, pcm) == Pull(s.packets, s.pcm, frame)
    {
      packets, pcm := s.packets, s.pcm;
      while |pcm| < frame && packets != []
        invariant Pull(packets, pcm, frame) == Pull(s.packets, s.pcm, frame)
        decreases |packets|
      {
        var packet := packets[0];
        packets := packets[1..];
        match packet.decoded {
          case None => return;
          case Some(samples) => pcm := pcm + samples;
        }
      }
    }

    /** Pop up to a frame of samples into the accumulator. */
    method Accumulate(pcm: seq<Sample>) returns (rest: seq<Sample>)
      requires Valid()
      modifies mixAccum
      ensures rest == pcm[Min(frame, |pcm|)..]
      ensures mixAccum[..] == Added(old(mixAccum[..]), pcm)
    {
      rest := pcm;
      var n := Min(frame, |pcm|);
      for idx := 0 to n
        invariant rest == pcm[idx..]
        invariant forall i :: 0 <= i < idx ==> mixAccum[i] == old(mixAccum[i]) + pcm[i]
        invariant forall i :: idx <= i < frame ==> mixAccum[i] == old(mixAccum[i])
      {
        mixAccum[idx] := mixAccum[idx] + rest[0];
        rest := rest[1..];
      }
    }

    /** One speaker's part of a tick. */
    method MixSpeaker(id: SpeakerId, now: nat) returns (heard: bool, stale: bool)
      requires Valid() && id in speakers
      modifies `speakers, mixAccum
      ensures Valid() && mixAccum == old(mixAccum)
      ensures speakers == old(speakers)[id := Drain(old(speakers)[id], frame)]
      ensures mixAccum[..] == Added(old(mixAccum[..]), Pulled(old(speakers)[id], frame))
      ensures heard <==> Pulled(old(speakers)[id], frame) != []
      ensures stale <==> Stale(old(speakers)[id], frame, now)
    {
      var state := speakers[id];
      var packets, pcm := Fill(state);
      if pcm == [] {
        speakers := speakers[id := Speaker(packets, pcm, state.lastPacketAt)];
        return false, packets == [] && now > state.lastPacketAt + SPEAKER_IDLE_MS;
      }
      var rest := Accumulate(pcm);
      speakers := speakers[id := Speaker(packets, rest, state.lastPacketAt)];
      return true, false;
    }

    /** All speakers into an accumulator of zeros, in the arbitrary order of a hash map.  With fewer than
        65535 of them no sum on the way overflows. */
    method MixSpeakers(now: nat) returns (active: nat, stale: set<SpeakerId>)
      requires Valid() && mixAccum[..] == seq(frame, i => 0)
      modifies `speakers, mixAccum
      ensures Valid() && mixAccum == old(mixAccum)
      ensures var before := old(speakers);
        && speakers == DrainedOf(before, before.Keys, frame) && stale == StaleOf(before, before.Keys, frame, now)
        && mixAccum[..] == Sums(PulledOf(before, before.Keys, frame), frame)
        && (active > 0 <==> HeardOf(before, before.Keys, frame))
    {
      hide Pulled, Drain, Stale, Sums, Added, AllFit, DrainedOf, PulledOf, StaleOf, HeardOf;
      ghost var before := speakers;
      ghost var done: set<SpeakerId> := {};
      var todo := speakers.Keys;
      active, stale := 0, {};
      NoneYet(before, frame, now);
      SumsOfNone(frame);
      if |before| < 65535 { SumsFit(map[], before, frame); }
      while todo != {}
        invariant Valid() && mixAccum == old(mixAccum)
        invariant todo <= before.Keys && done == before.Keys - todo
        invariant speakers == DrainedOf(before, done, frame) && stale == StaleOf(before, done, frame, now)
        invariant mixAccum[..] == Sums(PulledOf(before, done, frame), frame)
        invariant |before| < 65535 ==> AllFit(mixAccum[..])
        invariant active > 0 <==> HeardOf(before, done, frame)
      {
        var id :| id in todo;
        OneMore(before, done, id, frame, now);
        SumsAdd(PulledOf(before, done, frame), id, Pulled(before[id], frame), frame);
        var heard, idle := MixSpeaker(id, now);
        todo := todo - {id};
        done := done + {id};
        if heard { active := active + 1; }
        if idle { stale := stale + {id}; }
        if |before| < 65535 { KeysOfPulled(before, done, frame); SumsFit(PulledOf(before, done, frame), before, frame); }
      }
      assert done == before.Keys;
    }

    /** Clamp the accumulator to 16 bits. */
    method Emit() returns (mixedFrame: seq<Sample>)
      requires Valid()
      ensures mixedFrame == Clamped(mixAccum[..])
    {
      mixedFrame := [];
      for idx := 0 to frame
        invariant |mixedFrame| == idx
        invariant forall i :: 0 <= i < idx ==> mixedFrame[i] == Clamp(mixAccum[i])
      {
        mixedFrame := mixedFrame + [Clamp(mixAccum[idx])];
      }
    }

    /** The frame goes to the port's ring, which may refuse part of it. */
    method Send(mixed: seq<Sample>)
      requires Valid()
      modifies out, `droppedSamples
      ensures Valid() && out.delivered == old(out.delivered)
      ensures Queued(mixed, old(out.accepted), out.accepted, droppedSamples - old(droppedSamples), |out.contents| == out.capacity)
    {
      var written := out.PushSlice(mixed);
      if written < |mixed| { droppedSamples := droppedSamples + (|mixed| - written); }
    }

    /** One tick. */
    method Tick(now: nat) returns (mixed: Option<seq<Sample>>)
      requires Valid() && Recorded()
      modifies this, mixAccum, out
      ensures Valid() && Recorded() && mixAccum == old(mixAccum) && inputs == old(inputs) + [TickAt(now)]
      ensures mixed == if Audible(old(speakers), old(soundQueue), frame)
                       then Some(MixOf(AllPulled(old(speakers), frame), old(soundQueue), frame)) else None
      ensures mixed.Some? ==> Mixes(mixed.value, AllPulled(old(speakers), frame), old(soundQueue), frame)
      ensures |old(speakers)| < 65535 ==> AllFit(mixAccum[..])
      ensures soundQueue == old(soundQueue)[Min(frame, |old(soundQueue)|)..]
      ensures speakers == Swept(old(speakers), now, frame)
      ensures Queued(if mixed.Some? then mixed.value else [], old(out.accepted), out.accepted,
                     droppedSamples - old(droppedSamples), |out.contents| == out.capacity)
    {
      hide Mixes, MixOf, Swept, Audible, AllPulled, AllFit, Queued;
      MixSaturates(AllPulled(speakers, frame), soundQueue, frame);
      mixed := Mix(now);
      inputs := inputs + [TickAt(now)];
      assert inputs[..|inputs| - 1] == old(inputs);
      NothingQueued(out.accepted, |out.contents| == out.capacity);
      if mixed.Some? { Send(mixed.value); }
    }

    /** What a tick does before it has something to send. */
    method Mix(now: nat) returns (mixed: Option<seq<Sample>>)
      requires Valid()
      modifies `speakers, `soundQueue, mixAccum
      ensures Valid() && mixAccum == old(mixAccum)
      ensures mixed == if Audible(old(speakers), old(soundQueue), frame)
                       then Some(MixOf(AllPulled(old(speakers), frame), old(soundQueue), frame)) else None
      ensures |old(speakers)| < 65535 ==> AllFit(mixAccum[..])
      ensures soundQueue == old(soundQueue)[Min(frame, |old(soundQueue)|)..]
      ensures speakers == Swept(old(speakers), now, frame)
    {
      hide Pulled, Drain, Stale, Sums, Added, AllFit, DrainedOf, PulledOf, StaleOf, Swept, AllPulled, Clamped, MixOf;
      forall i | 0 <= i < mixAccum.Length { mixAccum[i] := 0; }
      assert mixAccum[..] == seq(frame, i => 0);
      var active, stale := MixSpeakers(now);
      AllDone(old(speakers), frame, now);
      speakers := speakers - stale;
      var hasSound := soundQueue != [];
      AddNothing(mixAccum[..]);
      if hasSound { soundQueue := Accumulate(soundQueue); }
      if |old(speakers)| < 65535 { SumsFitWithSound(old(speakers), old(soundQueue), frame); }
      if active == 0 && !hasSound { return None; }
      var mixedFrame := Emit();
      MixIsClamped(AllPulled(old(speakers), frame), old(soundQueue), frame);
      mixed := Some(mixedFrame);
    }
  }
}
