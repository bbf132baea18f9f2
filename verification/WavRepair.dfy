/**
 Repair of streamed WAV headers: `normalize_streamed_wav`.

 A streamed RIFF file declares sizes its writer could not know.  The repair writes the real file size
 into the header, walks the chunks by their declared sizes, and writes the real size into the first
 `data` chunk it reaches.
 */
module WavRepair {
  import opened Wrappers

  type byte = x: int | 0 <= x < 256

  const U32_MAX: nat := 0xFFFF_FFFF

  const RIFF: seq<byte> := [0x52, 0x49, 0x46, 0x46]
  const WAVE: seq<byte> := [0x57, 0x41, 0x56, 0x45]
  const DATA: seq<byte> := [0x64, 0x61, 0x74, 0x61]

  // ---------------------------------------------------------------- little-endian words

  function Joined(a: int, b: int, c: int, d: int): int {
    a + 0x100 * (b + 0x100 * (c + 0x100 * d))
  }

  /** The little-endian word at `at`. */
  function WordAt(s: seq<byte>, at: nat): (n: nat)
    requires at + 4 <= |s|
    ensures n <= U32_MAX
  {
    Joined(s[at], s[at + 1], s[at + 2], s[at + 3])
  }

  function Word(n: nat): (w: seq<byte>)
    requires n <= U32_MAX
    ensures |w| == 4
  {
    var n1 := n / 0x100;
    var n2 := n1 / 0x100;
    [n % 0x100, n1 % 0x100, n2 % 0x100, n2 / 0x100]
  }

  function WithWord(s: seq<byte>, at: nat, n: nat): (r: seq<byte>)
    requires at + 4 <= |s| && n <= U32_MAX
    ensures |r| == |s|
  {
    s[..at] + Word(n) + s[at + 4..]
  }

  /** A word written is read back, and nothing else changes. */
  lemma WithWordReads(s: seq<byte>, at: nat, n: nat)
    requires at + 4 <= |s| && n <= U32_MAX
    ensures WordAt(WithWord(s, at, n), at) == n
    ensures forall i :: 0 <= i < |s| && !(at <= i < at + 4) ==> WithWord(s, at, n)[i] == s[i]
  {
    var r := WithWord(s, at, n);
    assert r[at..at + 4] == Word(n);
    hide Joined;
    assert r[at] == Word(n)[0] && r[at + 1] == Word(n)[1] && r[at + 2] == Word(n)[2] && r[at + 3] == Word(n)[3];
    WordReads(n);
  }

  lemma WithWordKeeps(s: seq<byte>, at: nat, n: nat, i: nat)
    requires at + 4 <= |s| && n <= U32_MAX && i < |s|
    ensures WithWord(s, at, n)[i] == s[i] || at <= i < at + 4
  {
  }

  /** One digit off a number, and back on. */
  lemma Digit(low: int, high: int)
    requires 0 <= low < 0x100
    ensures (low + 0x100 * high) % 0x100 == low && (low + 0x100 * high) / 0x100 == high
  {
  }

  lemma Digits(n: int)
    ensures n == n % 0x100 + 0x100 * (n / 0x100)
  {
  }

  lemma WordReads(n: nat)
    requires n <= U32_MAX
    ensures WordAt(Word(n), 0) == n
  {
    Digits(n);
    Digits(n / 0x100);
    Digits(n / 0x100 / 0x100);
  }

  lemma WordOfJoined(a: byte, b: byte, c: byte, d: byte)
    ensures 0 <= Joined(a, b, c, d) <= U32_MAX && Word(Joined(a, b, c, d)) == [a, b, c, d]
  {
    Digit(a, b + 0x100 * (c + 0x100 * d));
    Digit(b, c + 0x100 * d);
    Digit(c, d);
  }

  /** Words are equal only if their bytes are, so writing the word that is there changes nothing. */
  lemma SameWord(s: seq<byte>, at: nat)
    requires at + 4 <= |s|
    ensures WithWord(s, at, WordAt(s, at)) == s
  {
    WordOfJoined(s[at], s[at + 1], s[at + 2], s[at + 3]);
    hide Joined, Word;
    assert s == s[..at] + s[at..at + 4] + s[at + 4..];
    assert s[at..at + 4] == [s[at], s[at + 1], s[at + 2], s[at + 3]];
  }

  // ---------------------------------------------------------------- the walk

  predicate IsWave(s: seq<byte>) {
    |s| >= 12 && s[..4] == RIFF && s[8..12] == WAVE
  }

  /** A chunk's header, its declared bytes, and a pad byte if they are odd. */
  function ChunkTotal(s: seq<byte>, offset: nat): (n: nat)
    requires offset + 8 <= |s|
    ensures n % 2 == 0 && WordAt(s, offset + 4) + 8 <= n <= WordAt(s, offset + 4) + 9
  {
    var size := WordAt(s, offset + 4);
    8 + size + size % 2
  }

  /** The first `data` chunk the walk reaches from `offset`. */
  function DataChunk(s: seq<byte>, offset: nat): (at: Option<nat>)
    ensures at.Some? ==> offset <= at.value && at.value + 8 <= |s| && s[at.value..at.value + 4] == DATA
    decreases |s| - offset
  {
    if offset + 8 > |s| then None
    else if s[offset..offset + 4] == DATA then Some(offset)
    else if offset + ChunkTotal(s, offset) > |s| then None
    else DataChunk(s, offset + ChunkTotal(s, offset))
  }

  function Capped(n: nat): (size: nat)
    ensures size <= n && size <= 0xFFFF_FFFF && (size == n || size == 0xFFFF_FFFF)
  {
    if n <= U32_MAX then n else U32_MAX
  }

  function WithFileSize(s: seq<byte>): (r: seq<byte>)
    requires |s| >= 12
    ensures |r| == |s|
  {
    WithWord(s, 4, Capped(|s| - 8))
  }

  function Repaired(s: seq<byte>): (r: seq<byte>)
    ensures |r| == |s|
  {
    if !IsWave(s) then s else
    var headed := WithFileSize(s);
    match DataChunk(headed, 12)
    case None => headed
    case Some(d) => WithWord(headed, d + 4, Capped(|s| - d - 8))
  }

  // ---------------------------------------------------------------- what the repair does

  lemma SameTotal(s: seq<byte>, t: seq<byte>, offset: nat)
    requires |s| == |t| && offset + 8 <= |s| && forall i :: offset + 4 <= i < offset + 8 ==> s[i] == t[i]
    ensures ChunkTotal(s, offset) == ChunkTotal(t, offset)
  {
    hide Joined;
  }

  /** The walk does not look at what the repair changes. */
  lemma {:induction false} WalkAgrees(s: seq<byte>, t: seq<byte>, offset: nat)
    requires |s| == |t|
    requires var d := DataChunk(s, offset);
      forall i :: offset <= i < |s| && !(d.Some? && d.value + 4 <= i < d.value + 8) ==> s[i] == t[i]
    ensures DataChunk(t, offset) == DataChunk(s, offset)
    decreases |s| - offset
  {
    hide ChunkTotal;
    if offset + 8 <= |s| {
      assert s[offset..offset + 4] == t[offset..offset + 4];
      if s[offset..offset + 4] != DATA {
        SameTotal(s, t, offset);
        if offset + ChunkTotal(s, offset) <= |s| { WalkAgrees(s, t, offset + ChunkTotal(s, offset)); }
      }
    }
  }

  /** The file size is written outside the walk. */
  lemma HeaderKeepsWalk(s: seq<byte>)
    requires IsWave(s)
    ensures IsWave(WithFileSize(s)) && DataChunk(WithFileSize(s), 12) == DataChunk(s, 12)
  {
    WithWordReads(s, 4, Capped(|s| - 8));
    var headed := WithFileSize(s);
    WalkAgrees(s, headed, 12);
    assert headed[..4] == s[..4] && headed[8..12] == s[8..12];
  }

  /** The repaired file is a WAVE file in which the walk reaches the same chunk ... */
  lemma RepairKeepsWalk(s: seq<byte>)
    requires IsWave(s)
    ensures IsWave(Repaired(s)) && DataChunk(Repaired(s), 12) == DataChunk(s, 12)
  {
    hide WordAt, WithWord, Word, DataChunk;
    HeaderKeepsWalk(s);
    var headed, d := WithFileSize(s), DataChunk(s, 12);
    if d.Some? {
      WithWordReads(headed, d.value + 4, Capped(|s| - d.value - 8));
      var r := Repaired(s);
      WalkAgrees(headed, r, 12);
      assert r[..4] == headed[..4] && r[8..12] == headed[8..12];
    }
  }

  /** ... whose two sizes are the real ones, as far as 32 bits go ... */
  lemma SizesAreReal(s: seq<byte>)
    requires IsWave(s)
    ensures WordAt(Repaired(s), 4) == Capped(|s| - 8)
    ensures var d := DataChunk(Repaired(s), 12); d.Some? ==> WordAt(Repaired(s), d.value + 4) == Capped(|s| - d.value - 8)
  {
    hide WordAt, WithWord, Word, DataChunk;
    HeaderKeepsWalk(s);
    RepairKeepsWalk(s);
    WithWordReads(s, 4, Capped(|s| - 8));
    var d := DataChunk(s, 12);
    if d.Some? {
      WithWordReads(WithFileSize(s), d.value + 4, Capped(|s| - d.value - 8));
      SameBytes(WithFileSize(s), Repaired(s), 4);
    }
  }

  lemma SameBytes(s: seq<byte>, t: seq<byte>, at: nat)
    requires at + 4 <= |s| && at + 4 <= |t| && forall i :: at <= i < at + 4 ==> s[i] == t[i]
    ensures WordAt(s, at) == WordAt(t, at)
  {
  }

  /** ... and nothing but those two fields has changed. */
  lemma OnlySizesChange(s: seq<byte>, i: nat)
    requires i < |s|
    ensures Repaired(s)[i] == s[i] ||
            (IsWave(s) && (4 <= i < 8 || (DataChunk(s, 12).Some? && DataChunk(s, 12).value + 4 <= i < DataChunk(s, 12).value + 8)))
  {
    if IsWave(s) {
      HeaderKeepsWalk(s);
      hide WithWord, DataChunk, IsWave, Capped;
      var headed, d := WithFileSize(s), DataChunk(s, 12);
      WithWordKeeps(s, 4, Capped(|s| - 8), i);
      if d.Some? {
        WithWordKeeps(headed, d.value + 4, Capped(|s| - d.value - 8), i);
      }
    }
  }

  /** Repairing twice is repairing once. */
  lemma RepairIsIdempotent(s: seq<byte>)
    ensures Repaired(Repaired(s)) == Repaired(s)
  {
    hide WordAt, WithWord, Word, DataChunk;
    if IsWave(s) {
      var r := Repaired(s);
      RepairKeepsWalk(s);
      SizesAreReal(s);
      SameWord(r, 4);
      assert WithFileSize(r) == r;
      var d := DataChunk(r, 12);
      if d.Some? { SameWord(r, d.value + 4); }
    }
  }

  // ---------------------------------------------------------------- in the file's own terms

  predicate Spells(s: seq<byte>, at: nat, tag: string) {
    at + |tag| <= |s| && forall i :: 0 <= i < |tag| ==> s[at + i] == tag[i] as int
  }

  function LittleEndian(s: seq<byte>, at: nat): nat
    requires at + 4 <= |s|
  {
    s[at] as int + 0x100 * (s[at + 1] as int) + 0x1_0000 * (s[at + 2] as int) + 0x100_0000 * (s[at + 3] as int)
  }

  /** A file of at least twelve bytes, of the RIFF kind and the WAVE form. */
  predicate RiffWave(s: seq<byte>) {
    |s| >= 12 && Spells(s, 0, "RIFF") && Spells(s, 8, "WAVE")
  }

  /** Past a chunk that is not `data`, at the even distance that its size asks for, and inside the file. */
  predicate Leads(s: seq<byte>, from: nat, to: nat) {
    && from + 8 <= |s| && !Spells(s, from, "data")
    && from < to <= |s| && (to - from) % 2 == 0
    && from + 8 + LittleEndian(s, from + 4) <= to <= from + 9 + LittleEndian(s, from + 4)
  }

  predicate Link(s: seq<byte>, path: seq<nat>, k: nat)
    requires 0 < k < |path|
  {
    Leads(s, path[k - 1], path[k])
  }

  predicate Path(s: seq<byte>, path: seq<nat>) {
    path != [] && path[0] == 12 && forall k :: 0 < k < |path| ==> Link(s, path, k)
  }

  predicate EndsInData(s: seq<byte>, path: seq<nat>)
    requires path != []
  {
    path[|path| - 1] + 8 <= |s| && Spells(s, path[|path| - 1], "data")
  }

  lemma TagsSpell(s: seq<byte>, at: nat)
    requires at + 4 <= |s|
    ensures s[at..at + 4] == RIFF <==> Spells(s, at, "RIFF")
    ensures s[at..at + 4] == WAVE <==> Spells(s, at, "WAVE")
    ensures s[at..at + 4] == DATA <==> Spells(s, at, "data")
  {
    var t := s[at..at + 4];
    assert t[0] == s[at] && t[1] == s[at + 1] && t[2] == s[at + 2] && t[3] == s[at + 3];
    TagIs(s, at, "RIFF", 0x52, 0x49, 0x46, 0x46);
    TagIs(s, at, "WAVE", 0x57, 0x41, 0x56, 0x45);
    TagIs(s, at, "data", 0x64, 0x61, 0x74, 0x61);
  }

  lemma TagIs(s: seq<byte>, at: nat, tag: string, a: byte, b: byte, c: byte, d: byte)
    requires at + 4 <= |s| && |tag| == 4
    requires tag[0] as int == a && tag[1] as int == b && tag[2] as int == c && tag[3] as int == d
    ensures Spells(s, at, tag) <==> s[at] == a && s[at + 1] == b && s[at + 2] == c && s[at + 3] == d
  {
    if Spells(s, at, tag) {
      assert s[at + 0] == a && s[at + 1] == b && s[at + 2] == c && s[at + 3] == d;
    }
  }

  lemma WordIsLittleEndian(s: seq<byte>, at: nat)
    requires at + 4 <= |s|
    ensures WordAt(s, at) == LittleEndian(s, at)
  {
  }

  lemma WaveIsRiffWave(s: seq<byte>)
    ensures IsWave(s) <==> RiffWave(s)
  {
    if |s| >= 12 { TagsSpell(s, 0); TagsSpell(s, 8); }
  }

  /** Where a chunk leads is where the walk goes next. */
  lemma LeadsOn(s: seq<byte>, from: nat, to: nat)
    requires Leads(s, from, to)
    ensures DataChunk(s, from) == DataChunk(s, to)
  {
    hide WordAt, LittleEndian, DataChunk, Spells;
    TagsSpell(s, from);
    WordIsLittleEndian(s, from + 4);
    WalkStep(s, from);
  }

  lemma GoesTo(s: seq<byte>, from: nat)
    requires from + 8 <= |s| && s[from..from + 4] != DATA && from + ChunkTotal(s, from) <= |s|
    ensures Leads(s, from, from + ChunkTotal(s, from))
  {
    hide WordAt, LittleEndian, Spells;
    TagsSpell(s, from);
    WordIsLittleEndian(s, from + 4);
  }

  /** A path that ends in a `data` chunk is the walk's, from any of its places on. */
  lemma {:induction false} PathIsWalk(s: seq<byte>, path: seq<nat>, k: nat)
    requires Path(s, path) && k < |path| && EndsInData(s, path)
    ensures DataChunk(s, path[k]) == Some(path[|path| - 1])
    decreases |path| - k
  {
    hide Leads, DataChunk, Spells;
    if k == |path| - 1 {
      TagsSpell(s, path[k]);
      WalkStep(s, path[k]);
    } else {
      assert Link(s, path, k + 1);
      LeadsOn(s, path[k], path[k + 1]);
      PathIsWalk(s, path, k + 1);
    }
  }

  lemma PathGrows(s: seq<byte>, path: seq<nat>, next: nat)
    requires Path(s, path) && Leads(s, path[|path| - 1], next)
    ensures Path(s, path + [next])
  {
    hide Leads;
    var longer := path + [next];
    forall k | 0 < k < |longer| ensures Link(s, longer, k) {
      if k < |path| { assert Link(s, path, k); }
    }
  }

  /** And the walk has a path to the chunk it reaches. */
  lemma {:induction false} WalkHasPath(s: seq<byte>, path: seq<nat>) returns (full: seq<nat>)
    requires Path(s, path) && DataChunk(s, path[|path| - 1]).Some?
    ensures Path(s, full) && EndsInData(s, full) && full[|full| - 1] == DataChunk(s, path[|path| - 1]).value
    decreases |s| - path[|path| - 1]
  {
    hide WordAt, Leads, Spells, DataChunk, Link;
    var offset := path[|path| - 1];
    WalkStep(s, offset);
    if s[offset..offset + 4] == DATA {
      TagsSpell(s, offset);
      full := path;
    } else {
      var next := offset + ChunkTotal(s, offset);
      GoesTo(s, offset);
      PathGrows(s, path, next);
      assert (path + [next])[|path|] == next;
      full := WalkHasPath(s, path + [next]);
    }
  }

  /** The repair of a WAVE file with a path to a `data` chunk: both sizes are written, and nothing else. */
  lemma DataIsRepaired(s: seq<byte>, path: seq<nat>)
    requires RiffWave(s) && Path(s, path) && EndsInData(s, path)
    ensures var r, d := Repaired(s), path[|path| - 1];
      && |r| == |s|
      && LittleEndian(r, 4) == (if |s| - 8 <= 0xFFFF_FFFF then |s| - 8 else 0xFFFF_FFFF)
      && LittleEndian(r, d + 4) == (if |s| - d - 8 <= 0xFFFF_FFFF then |s| - d - 8 else 0xFFFF_FFFF)
      && forall i :: 0 <= i < |s| && !(4 <= i < 8) && !(d + 4 <= i < d + 8) ==> r[i] == s[i]
  {
    hide WordAt, LittleEndian, Repaired, DataChunk;
    WaveIsRiffWave(s);
    PathIsWalk(s, path, 0);
    RepairKeepsWalk(s);
    SizesAreReal(s);
    WordIsLittleEndian(Repaired(s), 4);
    WordIsLittleEndian(Repaired(s), path[|path| - 1] + 4);
    forall i | 0 <= i < |s| { OnlySizesChange(s, i); }
  }

  /** Without such a path only the file size is written, and anything else is left as it is. */
  lemma OthersKeepTheirBytes(s: seq<byte>)
    ensures !RiffWave(s) ==> Repaired(s) == s
    ensures RiffWave(s) && (forall path :: Path(s, path) ==> !EndsInData(s, path)) ==>
      && LittleEndian(Repaired(s), 4) == (if |s| - 8 <= 0xFFFF_FFFF then |s| - 8 else 0xFFFF_FFFF)
      && forall i :: 0 <= i < |s| && !(4 <= i < 8) ==> Repaired(s)[i] == s[i]
  {
    hide WordAt, LittleEndian, DataChunk;
    WaveIsRiffWave(s);
    if RiffWave(s) {
      if DataChunk(s, 12).Some? { var path := WalkHasPath(s, [12]); }
      SizesAreReal(s);
      WordIsLittleEndian(Repaired(s), 4);
      hide Repaired;
      forall i | 0 <= i < |s| { OnlySizesChange(s, i); }
    }
  }

  // ---------------------------------------------------------------- the method

  method PutWord(out: array<byte>, at: nat, n: nat)
    requires at + 4 <= out.Length && n <= U32_MAX
    modifies out
    ensures out[..] == WithWord(old(out[..]), at, n)
  {
    ghost var was := out[..];
    out[at], out[at + 1], out[at + 2], out[at + 3] := n % 0x100, n / 0x100 % 0x100, n / 0x1_0000 % 0x100, n / 0x100_0000;
    assert out[..at] == was[..at] && out[at..at + 4] == Word(n) && out[at + 4..] == was[at + 4..];
    assert out[..] == out[..at] + out[at..at + 4] + out[at + 4..];
  }

  /** One step of the walk. */
  lemma WalkStep(s: seq<byte>, offset: nat)
    ensures DataChunk(s, offset) ==
      if offset + 8 > |s| then None
      else if s[offset..offset + 4] == DATA then Some(offset)
      else if offset + ChunkTotal(s, offset) > |s| then None
      else DataChunk(s, offset + ChunkTotal(s, offset))
  {
  }

  /** The walk over the chunks. */
  method RepairDataChunk(out: array<byte>)
    requires out.Length >= 12
    modifies out
    ensures out[..] == (var s := old(out[..]); match DataChunk(s, 12)
                        case None => s case Some(d) => WithWord(s, d + 4, Capped(|s| - d - 8)))
  {
    hide WordAt, WithWord, Word, DataChunk;
    ghost var headed := out[..];
    var offset := 12;
    while offset + 8 <= out.Length
      invariant out[..] == headed && DataChunk(headed, 12) == DataChunk(headed, offset)
      decreases out.Length - offset
    {
      WalkStep(headed, offset);
      var declared := WordAt(out[..], offset + 4);
      var dataStart := offset + 8;
      assert out[offset..offset + 4] == headed[offset..offset + 4];
      if out[offset..offset + 4] == DATA {
        var actual := Capped(out.Length - dataStart);
        if declared != actual { PutWord(out, offset + 4, actual); } else { SameWord(headed, offset + 4); }
        return;
      }
      var total := 8 + declared + declared % 2;
      if total == 0 || offset + total > out.Length { return; }
      offset := offset + total;
    }
    WalkStep(headed, offset);
  }

  method NormalizeStreamedWav(wav: seq<byte>) returns (out: array<byte>)
    ensures fresh(out) && out[..] == Repaired(wav)
  {
    hide WordAt, WithWord, Word, DataChunk;
    out := new byte[|wav|](i requires 0 <= i < |wav| => wav[i]);
    assert out[..] == wav;
    if out.Length < 12 || wav[..4] != RIFF || wav[8..12] != WAVE { return; }
    PutWord(out, 4, Capped(out.Length - 8));
    RepairDataChunk(out);
  }
}
