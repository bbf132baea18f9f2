/**
 The custom media port: the callbacks with which pjsip's media thread fills and empties its two rings, and
 the two destructors.  `destroy_custom_port` frees the port itself, so it comes last.
 */
module AudioPort {
  import opened SampleRing

  datatype FrameType = Audio | NoAudio

  function Zeros(n: nat): seq<Sample> { seq(n, i => 0) }

  class Port {
    const sipToMumble: Ring
    const mumbleToSip: Ring
    var live: bool
    var userData: bool
    var callbacks: bool
    var dropped: nat
    var underflow: nat
    /** History: how often the user data has been freed. */
    ghost var frees: nat

    /** The user data is there until it has been freed, once, which is before the port is gone. */
    ghost predicate Valid()
      reads this, sipToMumble, mumbleToSip
    {
      sipToMumble != mumbleToSip && sipToMumble.Valid() && mumbleToSip.Valid() && frees == (if userData then 0 else 1) &&
      (callbacks ==> live) && (userData ==> live)
    }

    constructor (capacity: nat)
      ensures Valid() && fresh(sipToMumble) && fresh(mumbleToSip) && live && userData && callbacks
      ensures dropped == underflow == 0
    {
      sipToMumble := new Ring(capacity);
      mumbleToSip := new Ring(capacity);
      live, userData, callbacks, dropped, underflow, frees := true, true, true, 0, 0, 0;
    }

    /** Audio from the caller: what does not fit is dropped and counted. */
    method PutFrame(kind: FrameType, samples: seq<Sample>)
      requires Valid() && live
      modifies this, sipToMumble
      ensures Valid() && live && userData == old(userData) && underflow == old(underflow)
      ensures kind.NoAudio? || !userData ==> sipToMumble.accepted == old(sipToMumble.accepted) && dropped == old(dropped)
      ensures kind.Audio? && userData ==>
                exists n :: 0 <= n <= |samples| && sipToMumble.accepted == old(sipToMumble.accepted) + samples[..n] &&
                  dropped == old(dropped) + |samples| - n && (n < |samples| ==> |sipToMumble.contents| == sipToMumble.capacity)
      ensures sipToMumble.delivered == old(sipToMumble.delivered)
    {
      if kind.NoAudio? || !userData || samples == [] {
        assert samples[..|samples|] == samples;
        return;
      }
      var written := sipToMumble.PushSlice(samples);
      if written < |samples| { dropped := dropped + (|samples| - written); }
    }

    /** Audio for the caller: a short ring is filled up with silence, and an empty one is no audio. */
    method GetFrame(n: nat) returns (kind: FrameType, buf: seq<Sample>, written: bool)
      requires Valid() && live
      modifies this, mumbleToSip
      ensures Valid() && live && userData == old(userData) && dropped == old(dropped)
      ensures mumbleToSip.accepted == old(mumbleToSip.accepted)
      ensures !userData || n == 0 ==> kind.NoAudio? && !written && mumbleToSip.delivered == old(mumbleToSip.delivered)
      ensures userData && n > 0 ==>
                var read := Min(n, |old(mumbleToSip.contents)|);
                && written && |buf| == n && mumbleToSip.delivered == old(mumbleToSip.delivered) + buf[..read]
                && buf[read..] == Zeros(n - read) && (kind.Audio? <==> read > 0) && underflow == old(underflow) + n - read
    {
      if !userData || n == 0 { return NoAudio, [], false; }
      var samples := mumbleToSip.PopSlice(n);
      buf := samples + Zeros(n - |samples|);
      underflow := underflow + (n - |samples|);
      kind := if samples == [] then NoAudio else Audio;
      written := true;
    }

    /** pjsip's destructor callback, while the port is there. */
    method OnDestroy()
      requires Valid() && live
      modifies this
      ensures Valid() && live && !userData && callbacks == old(callbacks)
    {
      FreeUserData();
    }

    /** The owner's destructor: it frees what pjsip's has not, then the port itself.  From then on neither
        destructor and no callback may run. */
    method Destroy()
      requires Valid() && live
      modifies this
      ensures Valid() && !live && !userData && !callbacks && frees == 1
    {
      FreeUserData();
      callbacks := false;
      live := false;
    }

    method FreeUserData()
      requires Valid()
      modifies `userData, `frees
      ensures Valid() && !userData
    {
      if userData {
        frees := frees + 1;
        userData := false;
      }
    }
  }
}
