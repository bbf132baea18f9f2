/**
 The encoder task's transmit gate, and the sequence numbers of the frames it sends to Mumble.

 The gate is a loop over frames with a flag and a hold counter; `GateAt` says what it decides for a
 frame by looking only at which of the last 21 frames were loud.
 */
module TransmitGate {
  /** 200 ms of 10 ms frames. */
  const HOLD_FRAMES: nat := 20

  datatype TransmitState = Transmitting | Terminator | Silent
  datatype Send = Sent | Full | Closed

  /** A frame: whether its average magnitude reaches the threshold, whether Opus encodes it, and what
      the queue says to it. */
  datatype Frame = Frame(loud: bool, encodes: bool, send: Send)

  datatype Packet = Packet(number: nat, frame: nat, terminator: bool)

  // ---------------------------------------------------------------- loudness

  function Magnitude(pcm: seq<int>): nat {
    if pcm == [] then 0 else Magnitude(pcm[..|pcm| - 1]) + (var s := pcm[|pcm| - 1]; if s < 0 then -s else s)
  }

  /** Average magnitude at least 0.001 of full scale, in exact arithmetic. */
  predicate Loud(pcm: seq<int>) {
    1000 * Magnitude(pcm) >= 32767 * |pcm|
  }

  /** It is the sum of the absolute values, in any grouping. */
  lemma {:induction false} MagnitudeAdds(a: seq<int>, b: seq<int>, x: int)
    ensures Magnitude(a + b) == Magnitude(a) + Magnitude(b) && Magnitude([x]) == if x < 0 then -x else x
  {
    if b == [] {
      assert a + b == a;
    } else {
      assert (a + b)[..|a + b| - 1] == a + b[..|b| - 1];
      MagnitudeAdds(a, b[..|b| - 1], x);
    }
  }

  function Steady(level: int, n: nat): seq<int> {
    seq(n, i => level)
  }

  lemma {:induction false} SteadyMagnitude(level: int, n: nat)
    requires level >= 0
    ensures Magnitude(Steady(level, n)) == Magnitude(Steady(-level, n)) == level * n
  {
    if n > 0 {
      assert Steady(level, n)[..n - 1] == Steady(level, n - 1);
      assert Steady(-level, n)[..n - 1] == Steady(-level, n - 1);
      SteadyMagnitude(level, n - 1);
      assert level * n == level * (n - 1) + level;
    }
  }

  /** The threshold lies between a steady 32 and a steady 33, of 32767. */
  lemma SteadyIsLoud(level: int, n: nat)
    requires level >= 0 && n > 0
    ensures Loud(Steady(level, n)) <==> level >= 33
    ensures Loud(Steady(-level, n)) <==> level >= 33
  {
    SteadyMagnitude(level, n);
    assert 1000 * (level * n) == (1000 * level) * n;
    if level >= 33 { Scales(32767, 1000 * level, n); } else { ScalesStrictly(1000 * level, 32767, n); }
  }

  lemma Scales(a: nat, b: nat, n: nat)
    requires a <= b
    ensures a * n <= b * n
  {
  }

  lemma ScalesStrictly(a: nat, b: nat, n: nat)
    requires a < b && n > 0
    ensures a * n < b * n
  {
  }

  // ---------------------------------------------------------------- the window rule

  predicate RecentlyLoud(frames: seq<Frame>, i: nat)
    requires i < |frames|
  {
    exists j :: 0 <= j <= i && i - HOLD_FRAMES <= j && frames[j].loud
  }

  function GateAt(frames: seq<Frame>, i: nat): TransmitState
    requires i < |frames|
  {
    if RecentlyLoud(frames, i) then Transmitting
    else if i > HOLD_FRAMES && frames[i - HOLD_FRAMES - 1].loud then Terminator
    else Silent
  }

  /** `last` is the last loud frame of the first `n`, or -1. */
  predicate LastLoud(frames: seq<Frame>, n: nat, last: int)
    requires n <= |frames|
  {
    -1 <= last < n && (last >= 0 ==> frames[last].loud) && forall i :: last < i < n ==> !frames[i].loud
  }

  /** The window rule in terms of how long ago the last loud frame was. */
  lemma GateByLastLoud(frames: seq<Frame>, i: nat, last: int)
    requires i < |frames| && LastLoud(frames, i + 1, last)
    ensures GateAt(frames, i) ==
      if last >= 0 && i - last <= 20 then Transmitting else if last >= 0 && i - last == 21 then Terminator else Silent
  {
  }

  lemma NextLastLoud(frames: seq<Frame>, i: nat, last: int)
    requires i < |frames| && LastLoud(frames, i, last)
    ensures LastLoud(frames, i + 1, if frames[i].loud then i else last)
  {
  }

  /** A terminator is sent exactly at the end of a talk spurt, so each spurt has one and no more. */
  lemma SpurtsEndOnce(frames: seq<Frame>, i: nat)
    requires i < |frames|
    ensures GateAt(frames, i) == Terminator <==>
              i > 0 && GateAt(frames, i - 1) == Transmitting && GateAt(frames, i) != Transmitting
  {
    if GateAt(frames, i) == Terminator {
      assert frames[i - HOLD_FRAMES - 1].loud;
      assert RecentlyLoud(frames, i - 1);
    }
  }

  /** Two terminators have a loud frame between them, and voice from there to the second. */
  lemma TerminatorsAreFarApart(frames: seq<Frame>, i: nat, j: nat, k: nat)
    requires i < j < |frames| && GateAt(frames, i) == Terminator && GateAt(frames, j) == Terminator
    requires j - HOLD_FRAMES - 1 <= k < j
    ensures i < j - HOLD_FRAMES - 1 && frames[j - HOLD_FRAMES - 1].loud && GateAt(frames, k) == Transmitting
  {
    assert frames[j - HOLD_FRAMES - 1].loud;
    assert RecentlyLoud(frames, k);
  }

  // ---------------------------------------------------------------- what is sent

  /** The frame reaches the encoder and comes out of it. */
  predicate Encodes(frames: seq<Frame>, i: nat)
    requires i < |frames|
  {
    GateAt(frames, i) != Silent && frames[i].encodes
  }

  /** How many of the first `n` frames have been encoded: the number the next one gets. */
  function Encoded(frames: seq<Frame>, n: nat): nat
    requires n <= |frames|
  {
    if n == 0 then 0 else Encoded(frames, n - 1) + if Encodes(frames, n - 1) then 1 else 0
  }

  function Dropped(frames: seq<Frame>, n: nat): nat
    requires n <= |frames|
  {
    if n == 0 then 0 else Dropped(frames, n - 1) + if Encodes(frames, n - 1) && frames[n - 1].send.Full? then 1 else 0
  }

  /** The packets the first `n` frames put on the queue. */
  function Traffic(frames: seq<Frame>, n: nat): seq<Packet>
    requires n <= |frames|
  {
    if n == 0 then []
    else Traffic(frames, n - 1) +
         if Encodes(frames, n - 1) && frames[n - 1].send.Sent?
         then [Packet(Encoded(frames, n - 1), n - 1, GateAt(frames, n - 1) == Terminator)] else []
  }

  predicate Open(frames: seq<Frame>, n: nat)
    requires n <= |frames|
  {
    forall i :: 0 <= i < n && Encodes(frames, i) ==> !frames[i].send.Closed?
  }

  /** The decisions for the first `n` frames. */
  function Decisions(frames: seq<Frame>, n: nat): (states: seq<TransmitState>)
    requires n <= |frames|
    ensures |states| == n && forall i :: 0 <= i < n ==> states[i] == GateAt(frames, i)
  {
    if n == 0 then [] else Decisions(frames, n - 1) + [GateAt(frames, n - 1)]
  }

  /** What one more frame adds to the queue and to the counts. */
  lemma TrafficNext(frames: seq<Frame>, n: nat)
    requires n < |frames|
    ensures Decisions(frames, n + 1) == Decisions(frames, n) + [GateAt(frames, n)]
    ensures Encoded(frames, n + 1) == Encoded(frames, n) + if Encodes(frames, n) then 1 else 0
    ensures Dropped(frames, n + 1) == Dropped(frames, n) + if Encodes(frames, n) && frames[n].send.Full? then 1 else 0
    ensures Traffic(frames, n + 1) == Traffic(frames, n) +
      if Encodes(frames, n) && frames[n].send.Sent? then [Packet(Encoded(frames, n), n, GateAt(frames, n) == Terminator)] else []
  {
  }

  lemma OpenNext(frames: seq<Frame>, n: nat)
    requires n < |frames| && Open(frames, n) && (Encodes(frames, n) ==> !frames[n].send.Closed?)
    ensures Open(frames, n + 1)
  {
  }

  /** Every encoded frame is queued or counted as dropped. */
  lemma {:induction false} EncodedIsQueuedOrDropped(frames: seq<Frame>, n: nat)
    requires n <= |frames| && Open(frames, n)
    ensures Encoded(frames, n) == |Traffic(frames, n)| + Dropped(frames, n)
  {
    if n > 0 {
      EncodedIsQueuedOrDropped(frames, n - 1);
    }
  }

  /** The packets of the first `n` frames: each numbered by the frames encoded before it, in order. */
  ghost predicate InSequence(frames: seq<Frame>, n: nat, t: seq<Packet>)
    requires n <= |frames|
  {
    && (forall k :: 0 <= k < |t| ==> t[k].frame < n && t[k].number == Encoded(frames, t[k].frame) < Encoded(frames, n))
    && (forall k :: 0 <= k < |t| ==> (t[k].terminator <==> GateAt(frames, t[k].frame) == Terminator))
    && (forall j, k :: 0 <= j < k < |t| ==> t[j].number < t[k].number && t[j].frame < t[k].frame)
  }

  /** Numbers and frames on the queue strictly increase; a gap in the numbers is a dropped frame. */
  lemma {:induction false} NumbersIncrease(frames: seq<Frame>, n: nat)
    requires n <= |frames|
    ensures InSequence(frames, n, Traffic(frames, n))
  {
    hide GateAt;
    if n > 0 {
      NumbersIncrease(frames, n - 1);
      var before := Traffic(frames, n - 1);
      if Encodes(frames, n - 1) && frames[n - 1].send.Sent? {
        assert Traffic(frames, n) == before + [Packet(Encoded(frames, n - 1), n - 1, GateAt(frames, n - 1) == Terminator)];
      } else {
        assert Traffic(frames, n) == before;
      }
    }
  }

  /** The frames among the first `n` that are to be sent and come out of the encoder. */
  ghost function SpokenBefore(frames: seq<Frame>, n: nat): set<nat>
    requires n <= |frames|
  {
    set j | 0 <= j < n && GateAt(frames, j) != Silent && frames[j].encodes
  }

  /** The frame is to be sent, comes out of the encoder, and the queue takes it. */
  predicate Heard(frames: seq<Frame>, i: nat)
    requires i < |frames|
  {
    GateAt(frames, i) != Silent && frames[i].encodes && frames[i].send.Sent?
  }

  /** The packet of frame `i`: the end of a spurt if the gate said so, and numbered by those spoken before it. */
  ghost predicate Carries(frames: seq<Frame>, i: nat, packet: Packet)
    requires i < |frames|
  {
    && packet.frame == i && packet.number == |SpokenBefore(frames, i)|
    && (packet.terminator <==> GateAt(frames, i) == Terminator)
  }

  /** The queue after `n` frames: one packet for each frame that was heard, in order. */
  ghost predicate QueueOf(frames: seq<Frame>, n: nat, queue: seq<Packet>)
    requires n <= |frames|
  {
    && (forall k :: 0 <= k < |queue| ==>
          queue[k].frame < n && Heard(frames, queue[k].frame) && Carries(frames, queue[k].frame, queue[k]))
    && (forall i :: 0 <= i < n && Heard(frames, i) ==> exists k :: 0 <= k < |queue| && queue[k].frame == i)
    && (forall j, k :: 0 <= j < k < |queue| ==> queue[j].frame < queue[k].frame)
  }

  lemma {:induction false} EncodedCountsSpoken(frames: seq<Frame>, n: nat)
    requires n <= |frames|
    ensures Encoded(frames, n) == |SpokenBefore(frames, n)|
  {
    if n == 0 {
      assert SpokenBefore(frames, 0) == {};
    } else {
      EncodedCountsSpoken(frames, n - 1);
      assert SpokenBefore(frames, n) == SpokenBefore(frames, n - 1) + if Encodes(frames, n - 1) then {n - 1} else {};
    }
  }

  lemma {:induction false} HeardIsQueued(frames: seq<Frame>, n: nat, i: nat)
    requires i < n <= |frames| && Heard(frames, i)
    ensures exists k :: 0 <= k < |Traffic(frames, n)| && Traffic(frames, n)[k].frame == i
  {
    hide GateAt;
    TrafficNext(frames, n - 1);
    var before, after := Traffic(frames, n - 1), Traffic(frames, n);
    if i < n - 1 {
      HeardIsQueued(frames, n - 1, i);
      var k :| 0 <= k < |before| && before[k].frame == i;
      assert after[k] == before[k];
    } else {
      assert after[|before|].frame == i;
    }
  }

  lemma {:induction false} QueuedIsHeard(frames: seq<Frame>, n: nat, k: nat)
    requires n <= |frames| && k < |Traffic(frames, n)|
    ensures Traffic(frames, n)[k].frame < n && Heard(frames, Traffic(frames, n)[k].frame)
  {
    hide GateAt;
    TrafficNext(frames, n - 1);
    if k < |Traffic(frames, n - 1)| {
      QueuedIsHeard(frames, n - 1, k);
    }
  }

  /** Everything that is to be heard is put on the queue, and nothing else. */
  lemma TrafficIsQueueOf(frames: seq<Frame>, n: nat)
    requires n <= |frames|
    ensures QueueOf(frames, n, Traffic(frames, n))
  {
    hide GateAt, Traffic, Encoded, SpokenBefore, Heard;
    NumbersIncrease(frames, n);
    var queue := Traffic(frames, n);
    forall k | 0 <= k < |queue|
      ensures queue[k].frame < n && Heard(frames, queue[k].frame) && Carries(frames, queue[k].frame, queue[k])
    {
      QueuedIsHeard(frames, n, k);
      EncodedCountsSpoken(frames, queue[k].frame);
    }
    forall i | 0 <= i < n && Heard(frames, i) ensures exists k :: 0 <= k < |queue| && queue[k].frame == i {
      HeardIsQueued(frames, n, i);
    }
  }

  // ---------------------------------------------------------------- the loop

  /** The flag and the counter after `n` frames, by the last loud one. */
  ghost predicate Holds(frames: seq<Frame>, n: nat, last: int, wasTransmitting: bool, holdFrames: nat)
    requires n <= |frames|
  {
    && LastLoud(frames, n, last)
    && (wasTransmitting <==> last >= 0 && n - 1 - last <= HOLD_FRAMES)
    && holdFrames == if wasTransmitting then n - 1 - last else 0
  }

  /** The gate on one frame. */
  method Decide(loud: bool, wasTransmitting: bool, holdFrames: nat, ghost frames: seq<Frame>, ghost i: nat, ghost last: int)
    returns (state: TransmitState, was: bool, hold: nat)
    requires i < |frames| && frames[i].loud == loud && Holds(frames, i, last, wasTransmitting, holdFrames)
    ensures state == GateAt(frames, i) && Holds(frames, i + 1, if loud then i else last, was, hold)
  {
    hide GateAt;
    NextLastLoud(frames, i, last);
    GateByLastLoud(frames, i, if loud then i else last);
    was, hold := wasTransmitting, holdFrames;
    if loud {
      hold, was := 0, true;
      state := Transmitting;
    } else if was && hold < HOLD_FRAMES {
      hold := hold + 1;
      state := Transmitting;
    } else if was {
      was, hold := false, 0;
      state := Terminator;
    } else {
      state := Silent;
    }
  }

  /** The encoder task over the frames it reads, up to the one that finds the queue closed, if any. */
  method RunEncoder(frames: seq<Frame>) returns (states: seq<TransmitState>, queue: seq<Packet>, number: nat, dropped: nat, handled: nat)
    ensures handled <= |states| <= |frames| && Open(frames, handled) && states == Decisions(frames, |states|)
    ensures queue == Traffic(frames, handled) && QueueOf(frames, handled, queue)
    ensures number == Encoded(frames, handled) && dropped == Dropped(frames, handled)
    ensures handled < |frames| ==> Encodes(frames, handled) && frames[handled].send.Closed?
  {
    var wasTransmitting, holdFrames := false, 0;
    states, queue, number, dropped, handled := [], [], 0, 0, 0;
    ghost var lastLoud: int := -1;
    while handled < |frames|
      invariant handled == |states| <= |frames| && Open(frames, handled)
      invariant states == Decisions(frames, handled)
      invariant queue == Traffic(frames, handled)
      invariant number == Encoded(frames, handled) && dropped == Dropped(frames, handled)
      invariant Holds(frames, handled, lastLoud, wasTransmitting, holdFrames)
    {
      hide GateAt, Holds, Open, Decisions, Traffic, Encoded, Dropped;
      TrafficNext(frames, handled);
      var frame := frames[handled];
      var state;
      state, wasTransmitting, holdFrames := Decide(frame.loud, wasTransmitting, holdFrames, frames, handled, lastLoud);
      lastLoud := if frame.loud then handled else lastLoud;
      states := states + [state];
      if state != Silent && frame.encodes {
        match frame.send {
          case Sent => queue := queue + [Packet(number, handled, state == Terminator)];
          case Full => dropped := dropped + 1;
          case Closed =>
            TrafficIsQueueOf(frames, handled);
            return;
        }
        number := number + 1;
      }
      OpenNext(frames, handled);
      handled := handled + 1;
    }
    TrafficIsQueueOf(frames, handled);
  }
}
