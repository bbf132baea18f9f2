/**
 The lock-free ring between pjsip's media thread and an audio task, as a bounded queue of samples.
 */
module SampleRing {
  type Sample = x: int | -0x8000 <= x < 0x8000

  function Min(a: nat, b: nat): nat { if a < b then a else b }

  /** A bounded ring as one end sees it: a push takes a prefix, a pop gives one.
      History: everything accepted and everything delivered. */
  class Ring {
    const capacity: nat
    var contents: seq<Sample>
    ghost var accepted: seq<Sample>
    ghost var delivered: seq<Sample>

    /** First in, first out, and never more than fits. */
    ghost predicate Valid()
      reads this
    {
      |contents| <= capacity && accepted == delivered + contents
    }

    constructor (capacity: nat)
      ensures Valid() && contents == [] && accepted == [] && this.capacity == capacity
    {
      this.capacity := capacity;
      contents, accepted, delivered := [], [], [];
    }

    method PushSlice(samples: seq<Sample>) returns (written: nat)
      requires Valid()
      modifies this
      ensures Valid() && written == Min(|samples|, capacity - |old(contents)|)
      ensures accepted == old(accepted) + samples[..written] && delivered == old(delivered)
    {
      written := Min(|samples|, capacity - |contents|);
      contents := contents + samples[..written];
      accepted := accepted + samples[..written];
    }

    method PopSlice(n: nat) returns (samples: seq<Sample>)
      requires Valid()
      modifies this
      ensures Valid() && |samples| == Min(n, |old(contents)|)
      ensures delivered == old(delivered) + samples && accepted == old(accepted)
    {
      var read := Min(n, |contents|);
      samples := contents[..read];
      delivered := delivered + samples;
      contents := contents[read..];
    }
  }
}
