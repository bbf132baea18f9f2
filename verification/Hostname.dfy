/**
 Hostnames read aloud: `hostname_for_speech` turns "my-host.org" into "my dash host dot org".

 The words of what is spoken alternate between pieces of the name and separators, so they spell the
 hostname back; unless it has two hyphens in a row, and then they never do.
 */
module Hostname {
  import opened Wrappers

  // ---------------------------------------------------------------- characters

  predicate IsSpace(c: char) {
    c == ' ' || c == '\t' || c == '\n' || c == '\r'
  }

  predicate IsAlphabetic(c: char) {
    'a' <= c <= 'z' || 'A' <= c <= 'Z'
  }

  predicate IsAlphanumeric(c: char) {
    IsAlphabetic(c) || '0' <= c <= '9'
  }

  predicate IsSeparator(c: char) {
    c == '.' || c == '-'
  }

  // ---------------------------------------------------------------- text

  function IndexOf(s: string, c: char): (n: nat)
    requires c in s
    ensures n < |s| && s[n] == c && c !in s[..n]
  {
    if s[0] == c then 0 else 1 + IndexOf(s[1..], c)
  }

  function Split(s: string, c: char): (parts: seq<string>)
    ensures |parts| > 0
  {
    if c in s then [s[..IndexOf(s, c)]] + Split(s[IndexOf(s, c) + 1..], c) else [s]
  }

  function Join(parts: seq<string>, sep: string): string {
    if parts == [] then "" else if |parts| == 1 then parts[0] else parts[0] + sep + Join(parts[1..], sep)
  }

  /** Where the word at the front of `s` ends. */
  function WordEnd(s: string): (n: nat)
    ensures n <= |s| && (forall i :: 0 <= i < n ==> !IsSpace(s[i])) && (n < |s| ==> IsSpace(s[n]))
  {
    if s == "" || IsSpace(s[0]) then 0 else 1 + WordEnd(s[1..])
  }

  function Words(s: string): seq<string>
    decreases |s|
  {
    if s == "" then []
    else if IsSpace(s[0]) then Words(s[1..])
    else [s[..WordEnd(s)]] + Words(s[WordEnd(s)..])
  }

  function CollapseWhitespace(s: string): string {
    Join(Words(s), " ")
  }

  // ---------------------------------------------------------------- hostnames

  predicate IsValidLabel(part: string) {
    && part != "" && part[0] != '-' && part[|part| - 1] != '-'
    && forall i :: 0 <= i < |part| ==> IsAlphanumeric(part[i]) || part[i] == '-'
  }

  predicate HasLetter(part: string) {
    exists i :: 0 <= i < |part| && IsAlphabetic(part[i])
  }

  predicate IsValidHostname(host: string) {
    && '.' in host
    && HasLetter(Split(host, '.')[|Split(host, '.')| - 1])
    && forall k :: 0 <= k < |Split(host, '.')| ==> IsValidLabel(Split(host, '.')[k])
  }

  function SpellHyphens(part: string): string {
    if part == "" then "" else (if part[0] == '-' then " dash " else [part[0]]) + SpellHyphens(part[1..])
  }

  function SpellLabels(labels: seq<string>): seq<string> {
    if labels == [] then [] else [SpellHyphens(labels[0])] + SpellLabels(labels[1..])
  }

  function HostnameForSpeech(host: string): string {
    CollapseWhitespace(Join(SpellLabels(Split(host, '.')), " dot "))
  }

  // ---------------------------------------------------------------- hearing it back

  function SeparatorOf(word: string): Option<char> {
    if word == "dot" then Some('.') else if word == "dash" then Some('-') else None
  }

  /** Pieces at even places, separators at odd ones. */
  function Respell(words: seq<string>): Option<string> {
    if words == [] then None
    else if |words| == 1 then Some(words[0])
    else match (SeparatorOf(words[1]), Respell(words[2..]))
      case (Some(c), Some(rest)) => Some(words[0] + [c] + rest)
      case _ => None
  }

  /** The character `c` at `i`, and again after it. */
  predicate Doubled(host: string, i: nat, c: char) {
    i + 1 < |host| && host[i] == c && host[i + 1] == c
  }

  predicate HasDoubleHyphen(host: string) {
    exists i :: 0 <= i < |host| && Doubled(host, i, '-')
  }

  // ---------------------------------------------------------------- what is spoken, character by character

  function Spell(host: string): string {
    if host == "" then ""
    else (if host[0] == '.' then " dot " else if host[0] == '-' then " dash " else [host[0]]) + Spell(host[1..])
  }

  lemma {:induction false} SpellAppend(a: string, b: string)
    ensures Spell(a + b) == Spell(a) + Spell(b)
  {
    if a == "" {
      assert a + b == b;
    } else {
      assert (a + b)[1..] == a[1..] + b;
      SpellAppend(a[1..], b);
    }
  }

  lemma {:induction false} SpellWithoutDots(part: string)
    requires '.' !in part
    ensures Spell(part) == SpellHyphens(part)
  {
    if part != "" { SpellWithoutDots(part[1..]); }
  }

  lemma {:induction false} JoinedIsSpelled(host: string)
    ensures Join(SpellLabels(Split(host, '.')), " dot ") == Spell(host)
    decreases |host|
  {
    if '.' in host {
      var n := IndexOf(host, '.');
      var rest := host[n + 1..];
      JoinedIsSpelled(rest);
      SpellWithoutDots(host[..n]);
      assert host == host[..n] + ("." + rest);
      SpellAppend(host[..n], "." + rest);
      assert ("." + rest)[1..] == rest;
      var spelled := SpellLabels(Split(host, '.'));
      assert spelled == [SpellHyphens(host[..n])] + SpellLabels(Split(rest, '.'));
      assert spelled[1..] == SpellLabels(Split(rest, '.'));
    } else {
      SpellWithoutDots(host);
    }
  }

  // ---------------------------------------------------------------- words

  predicate IsWord(w: string) {
    w != "" && forall i :: 0 <= i < |w| ==> !IsSpace(w[i])
  }

  predicate AllWords(ws: seq<string>) {
    forall k :: 0 <= k < |ws| ==> IsWord(ws[k])
  }

  lemma {:induction false} WordsAreWords(s: string)
    ensures AllWords(Words(s))
    decreases |s|
  {
    if s != "" {
      if IsSpace(s[0]) { WordsAreWords(s[1..]); } else { WordsAreWords(s[WordEnd(s)..]); }
    }
  }

  lemma {:induction false} WordEndOf(w: string, rest: string)
    requires IsWord(w) && (rest == "" || IsSpace(rest[0]))
    ensures WordEnd(w + rest) == |w|
  {
    if |w| > 1 {
      assert (w + rest)[1..] == w[1..] + rest;
      WordEndOf(w[1..], rest);
    } else {
      assert (w + rest)[1..] == rest;
    }
  }

  lemma FirstWord(w: string, rest: string)
    requires IsWord(w) && (rest == "" || IsSpace(rest[0]))
    ensures Words(w + rest) == [w] + Words(rest)
  {
    WordEndOf(w, rest);
    assert (w + rest)[..|w|] == w && (w + rest)[|w|..] == rest;
  }

  lemma {:induction false} WordsOfJoin(ws: seq<string>)
    requires AllWords(ws)
    ensures Words(Join(ws, " ")) == ws
  {
    if |ws| == 1 {
      assert ws[0] + "" == ws[0];
      FirstWord(ws[0], "");
    } else if |ws| > 1 {
      var rest := Join(ws[1..], " ");
      WordsOfJoin(ws[1..]);
      assert ws[0] + " " + rest == ws[0] + (" " + rest);
      FirstWord(ws[0], " " + rest);
      assert (" " + rest)[1..] == rest;
    }
  }

  // ---------------------------------------------------------------- tokens

  predicate IsNameChar(c: char) {
    IsAlphanumeric(c) || IsSeparator(c)
  }

  predicate IsName(host: string) {
    forall i :: 0 <= i < |host| ==> IsNameChar(host[i])
  }

  predicate IsPiece(w: string) {
    w != "" && forall i :: 0 <= i < |w| ==> IsAlphanumeric(w[i])
  }

  function PieceEnd(host: string): (n: nat)
    ensures n <= |host| && (forall i :: 0 <= i < n ==> !IsSeparator(host[i])) && (n < |host| ==> IsSeparator(host[n]))
  {
    if host == "" || IsSeparator(host[0]) then 0 else 1 + PieceEnd(host[1..])
  }

  function SeparatorWord(c: char): string {
    if c == '.' then "dot" else "dash"
  }

  /** Pieces and separator words, in order; no piece between adjacent separators. */
  function Tokens(host: string): seq<string>
    decreases |host|
  {
    var n := PieceEnd(host);
    (if n > 0 then [host[..n]] else []) +
    if n == |host| then [] else [SeparatorWord(host[n])] + Tokens(host[n + 1..])
  }

  lemma {:induction false} SpellPiece(piece: string)
    requires forall i :: 0 <= i < |piece| ==> !IsSeparator(piece[i])
    ensures Spell(piece) == piece
  {
    if piece != "" { SpellPiece(piece[1..]); }
  }

  lemma SpokenSeparator(c: char, rest: string)
    requires IsSeparator(c)
    ensures Words(" " + SeparatorWord(c) + " " + rest) == [SeparatorWord(c)] + Words(rest)
  {
    var w := SeparatorWord(c);
    var s := " " + w + " " + rest;
    assert s[1..] == w + (" " + rest);
    assert IsWord(w);
    FirstWord(w, " " + rest);
    assert (" " + rest)[1..] == rest;
  }

  lemma SpellSeparator(c: char, rest: string)
    requires IsSeparator(c)
    ensures Spell([c] + rest) == " " + SeparatorWord(c) + " " + Spell(rest)
  {
    assert ([c] + rest)[1..] == rest;
    assert " " + "dot" + " " == " dot " && " " + "dash" + " " == " dash ";
  }

  lemma NoWords()
    ensures Words("") == []
  {
  }

  lemma SpokenTail(piece: string, c: char, rest: string)
    requires IsSeparator(c) && forall i :: 0 <= i < |piece| ==> IsAlphanumeric(piece[i])
    ensures Words(Spell(piece + ([c] + rest))) == (if piece == "" then [] else [piece]) + ([SeparatorWord(c)] + Words(Spell(rest)))
  {
    hide Words, Spell, SeparatorWord;
    SpellPiece(piece);
    SpellAppend(piece, [c] + rest);
    SpellSeparator(c, rest);
    SpokenSeparator(c, Spell(rest));
    var tail := " " + SeparatorWord(c) + " " + Spell(rest);
    if piece == "" { assert piece + tail == tail; } else { FirstWord(piece, tail); }
  }

  lemma {:induction false} SpokenWords(host: string)
    requires IsName(host)
    ensures Words(Spell(host)) == Tokens(host)
    decreases |host|
  {
    hide Words, Spell, SeparatorWord;
    NoWords();
    var n := PieceEnd(host);
    if n == |host| {
      assert host[..n] == host && host + "" == host;
      SpellPiece(host);
      if n > 0 { FirstWord(host, ""); }
    } else {
      var rest := host[n + 1..];
      SpokenWords(rest);
      assert host == host[..n] + ([host[n]] + rest);
      SpokenTail(host[..n], host[n], rest);
    }
  }

  lemma {:induction false} TokensArePieces(host: string)
    requires IsName(host)
    ensures forall k :: 0 <= k < |Tokens(host)| ==> IsPiece(Tokens(host)[k])
    decreases |host|
  {
    var n := PieceEnd(host);
    if n < |host| { TokensArePieces(host[n + 1..]); }
  }

  // ---------------------------------------------------------------- round trip

  /** Two separators, from `i` on. */
  predicate Beside(host: string, i: nat) {
    i + 1 < |host| && IsSeparator(host[i]) && IsSeparator(host[i + 1])
  }

  /** Starts and ends with a piece, and separators stand alone. */
  ghost predicate IsClean(host: string) {
    && IsName(host) && host != "" && !IsSeparator(host[0]) && !IsSeparator(host[|host| - 1])
    && forall i: nat :: !Beside(host, i)
  }

  lemma SeparatorIsHeard(c: char)
    requires IsSeparator(c)
    ensures SeparatorOf(SeparatorWord(c)) == Some(c)
  {
  }

  /** After its first piece and separator, a clean name is clean. */
  lemma CleanAfter(host: string, n: nat)
    requires IsClean(host) && n < |host| && IsSeparator(host[n])
    ensures n > 0 && IsClean(host[n + 1..])
  {
    hide IsSeparator;
    var rest := host[n + 1..];
    assert !Beside(host, n);
    assert n + 1 < |host| && rest[0] == host[n + 1] && rest[|rest| - 1] == host[|host| - 1];
    forall i: nat ensures !Beside(rest, i) {
      assert !Beside(host, n + 1 + i);
      if i + 1 < |rest| { assert rest[i] == host[n + 1 + i] && rest[i + 1] == host[n + 1 + i + 1]; }
    }
    hide Beside;
  }

  lemma Rejoin(s: string, n: nat)
    requires n < |s|
    ensures s == s[..n] + [s[n]] + s[n + 1..]
  {
  }

  lemma TokensStep(host: string)
    requires 0 < PieceEnd(host) < |host|
    ensures var n := PieceEnd(host); Tokens(host) == [host[..n], SeparatorWord(host[n])] + Tokens(host[n + 1..])
  {
  }

  lemma RespellStep(piece: string, c: char, words: seq<string>, rest: string)
    requires IsSeparator(c) && Respell(words) == Some(rest)
    ensures Respell([piece, SeparatorWord(c)] + words) == Some(piece + [c] + rest)
  {
    SeparatorIsHeard(c);
    assert ([piece, SeparatorWord(c)] + words)[2..] == words;
    hide SeparatorOf, SeparatorWord;
  }

  lemma {:induction false} CleanIsRespelled(host: string)
    requires IsClean(host)
    ensures Respell(Tokens(host)) == Some(host)
    decreases |host|
  {
    var n := PieceEnd(host);
    if n < |host| {
      hide Tokens, Respell, IsClean, PieceEnd;
      CleanAfter(host, n);
      Rejoin(host, n);
      CleanIsRespelled(host[n + 1..]);
      TokensStep(host);
      RespellStep(host[..n], host[n], Tokens(host[n + 1..]), host[n + 1..]);
    } else {
      assert host[..n] == host;
    }
  }

  /** What pieces and separators respell has no separator next to another. */
  lemma {:induction false} RespelledIsSeparated(words: seq<string>)
    requires forall k :: 0 <= k < |words| ==> IsPiece(words[k])
    requires Respell(words).Some?
    ensures var host := Respell(words).value;
      host != "" && IsAlphanumeric(host[0]) && !HasDoubleHyphen(host)
    decreases |words|
  {
    if |words| > 1 {
      RespelledIsSeparated(words[2..]);
      var rest := Respell(words[2..]).value;
      var host := Respell(words).value;
      var n := |words[0]|;
      assert host == words[0] + [SeparatorOf(words[1]).value] + rest;
      forall i | 0 <= i < |host| ensures !Doubled(host, i, '-') {
        if i > n { assert !Doubled(rest, i - n - 1, '-'); }
      }
    }
  }

  /** `part` is what stands between two dots, or a dot and an end, from `from`. */
  predicate IsPart(host: string, part: string, from: nat) {
    && from + |part| <= |host| && part == host[from..from + |part|]
    && (from == 0 || host[from - 1] == '.') && (from + |part| == |host| || host[from + |part|] == '.')
  }

  lemma PartOfRest(host: string, n: nat, part: string, from: nat)
    requires n < |host| && host[n] == '.' && IsPart(host[n + 1..], part, from)
    ensures IsPart(host, part, from + n + 1)
  {
    assert host[n + 1..][from..from + |part|] == host[from + n + 1..from + n + 1 + |part|];
  }

  lemma FirstPart(host: string)
    ensures var part := Split(host, '.')[0]; IsPart(host, part, 0) && |part| == if '.' in host then IndexOf(host, '.') else |host|
  {
  }

  /** Every position lies in a part or is a dot. */
  lemma {:induction false} LabelAt(host: string, i: nat) returns (k: nat, from: nat)
    requires i < |host| && host[i] != '.'
    ensures k < |Split(host, '.')|
    ensures var part := Split(host, '.')[k]; IsPart(host, part, from) && from <= i < from + |part|
    decreases |host|
  {
    hide IsPart;
    if '.' in host && i > IndexOf(host, '.') {
      var n := IndexOf(host, '.');
      k, from := LabelAt(host[n + 1..], i - n - 1);
      PartOfRest(host, n, Split(host[n + 1..], '.')[k], from);
      k, from := k + 1, from + n + 1;
    } else {
      FirstPart(host);
      k, from := 0, 0;
    }
  }

  /** No part is empty, so dots are never adjacent, first or last. */
  lemma {:induction false} DotsStandAlone(host: string)
    requires forall k :: 0 <= k < |Split(host, '.')| ==> IsValidLabel(Split(host, '.')[k])
    ensures host != "" && host[0] != '.' && host[|host| - 1] != '.'
    ensures forall i: nat :: !Doubled(host, i, '.')
    decreases |host|
  {
    if '.' in host {
      var n := IndexOf(host, '.');
      var rest := host[n + 1..];
      assert Split(host, '.') == [host[..n]] + Split(rest, '.');
      assert forall k :: 0 <= k < |Split(rest, '.')| ==> Split(rest, '.')[k] == Split(host, '.')[k + 1];
      DotsStandAlone(rest);
      assert IsValidLabel(Split(host, '.')[0]);
      hide Split, IsValidLabel;
      assert n > 0 && host[0] == host[..n][0];
      assert host[|host| - 1] == rest[|rest| - 1];
      forall i: nat ensures !Doubled(host, i, '.') {
        if i > n { assert !Doubled(rest, i - n - 1, '.'); }
      }
    } else {
      assert Split(host, '.')[0] == host;
    }
  }

  /** A character of a valid name, and the neighbours of a hyphen. */
  lemma LabelChars(host: string, i: nat)
    requires forall k :: 0 <= k < |Split(host, '.')| ==> IsValidLabel(Split(host, '.')[k])
    requires i < |host| && host[i] != '.'
    ensures IsNameChar(host[i])
    ensures host[i] == '-' ==> 0 < i < |host| - 1 && host[i - 1] != '.' && host[i + 1] != '.'
  {
    hide Split;
    var k, from := LabelAt(host, i);
    var part := Split(host, '.')[k];
    assert IsValidLabel(part);
    assert part[i - from] == host[i];
    if host[i] == '-' {
      assert i > from && i < from + |part| - 1;
      assert host[i - 1] == part[i - 1 - from] && host[i + 1] == part[i + 1 - from];
    }
  }

  lemma ValidIsClean(host: string)
    requires IsValidHostname(host)
    ensures IsName(host)
    ensures !HasDoubleHyphen(host) ==> IsClean(host)
  {
    DotsStandAlone(host);
    forall i | 0 <= i < |host|
      ensures IsNameChar(host[i])
    {
      if host[i] != '.' { LabelChars(host, i); }
    }
    if !HasDoubleHyphen(host) {
      forall i: nat ensures !Beside(host, i) {
        if Beside(host, i) {
          assert !Doubled(host, i, '.') && !Doubled(host, i, '-');
          if host[i] == '-' { LabelChars(host, i); } else { LabelChars(host, i + 1); }
        }
      }
      if host[0] == '-' { LabelChars(host, 0); }
      if host[|host| - 1] == '-' { LabelChars(host, |host| - 1); }
    }
  }

  /** A valid hostname is heard back from its words exactly if it has no two hyphens in a row. */
  lemma SpokenHostsAreHeard(host: string)
    requires IsValidHostname(host)
    ensures Respell(Words(HostnameForSpeech(host))) == Some(host) <==> !HasDoubleHyphen(host)
  {
    hide Words, Respell, Tokens, IsClean, IsValidHostname;
    ValidIsClean(host);
    SpeechIsTokens(host);
    SpokenWords(host);
    WordsAreWords(Spell(host));
    WordsOfJoin(Tokens(host));
    if !HasDoubleHyphen(host) {
      CleanIsRespelled(host);
    } else {
      TokensArePieces(host);
      if Respell(Tokens(host)).Some? { RespelledIsSeparated(Tokens(host)); }
    }
  }

  lemma SpeechIsTokens(host: string)
    requires IsName(host)
    ensures HostnameForSpeech(host) == Join(Tokens(host), " ")
  {
    hide Words, Tokens, Join, Split, SpellLabels, Spell;
    JoinedIsSpelled(host);
    SpokenWords(host);
  }

  /** So no two such hostnames sound alike ... */
  lemma SpeechIsUnambiguous(a: string, b: string)
    requires IsValidHostname(a) && IsValidHostname(b) && !HasDoubleHyphen(a) && !HasDoubleHyphen(b)
    requires HostnameForSpeech(a) == HostnameForSpeech(b)
    ensures a == b
  {
    SpokenHostsAreHeard(a);
    SpokenHostsAreHeard(b);
  }

  /** A name of two labels. */
  lemma TwoLabels(name: string, top: string)
    requires '.' !in name && '.' !in top && IsValidLabel(name) && IsValidLabel(top) && HasLetter(top)
    ensures IsValidHostname(name + ['.'] + top)
  {
    var host := name + ['.'] + top;
    var k := IndexOf(host, '.');
    assert host[|name|] == '.' && host[..|name|] == name;
    assert forall i :: 0 <= i < |name| ==> host[i] == name[i];
    assert forall i :: 0 <= i < k ==> host[..k][i] == host[i];
    assert host[k + 1..] == top;
    assert Split(host, '.') == [name] + Split(top, '.') && Split(top, '.') == [top];
  }

  /** ... but with three hyphens in a row one sounds like a name with the word "dash" in it, and both are
      valid. */
  lemma HyphensSoundLikeDash()
    ensures IsValidHostname("a---b.c") && IsValidHostname("a-dash-b.c") && HasDoubleHyphen("a---b.c")
    ensures HostnameForSpeech("a---b.c") == HostnameForSpeech("a-dash-b.c")
  {
    hide HostnameForSpeech, Tokens, Join, IsValidHostname;
    assert "c"[0] == 'c' && Doubled("a---b.c", 1, '-');
    assert "a---b.c" == "a---b" + ['.'] + "c" && "a-dash-b.c" == "a-dash-b" + ['.'] + "c";
    TwoLabels("a---b", "c");
    TwoLabels("a-dash-b", "c");
    SpeechIsTokens("a---b.c");
    SpeechIsTokens("a-dash-b.c");
    TokensOfHyphens();
  }

  lemma TokensAfterPiece(piece: string, c: char, rest: string)
    requires IsSeparator(c) && forall i :: 0 <= i < |piece| ==> !IsSeparator(piece[i])
    ensures Tokens(piece + [c] + rest) == (if piece == "" then [] else [piece]) + [SeparatorWord(c)] + Tokens(rest)
  {
    hide SeparatorWord;
    var host := piece + [c] + rest;
    assert host[..|piece|] == piece && host[|piece|] == c && host[|piece| + 1..] == rest;
    assert forall i :: 0 <= i < |piece| ==> host[i] == piece[i];
    assert PieceEnd(host) == |piece|;
  }

  lemma TokensOfHyphens()
    ensures Tokens("a---b.c") == Tokens("a-dash-b.c")
  {
    hide Tokens;
    assert "a---b.c" == "a" + ['-'] + "--b.c" && "--b.c" == "" + ['-'] + "-b.c" && "-b.c" == "" + ['-'] + "b.c";
    TokensAfterPiece("a", '-', "--b.c");
    TokensAfterPiece("", '-', "-b.c");
    TokensAfterPiece("", '-', "b.c");
    assert "a-dash-b.c" == "a" + ['-'] + "dash-b.c" && "dash-b.c" == "dash" + ['-'] + "b.c";
    TokensAfterPiece("a", '-', "dash-b.c");
    TokensAfterPiece("dash", '-', "b.c");
    assert Tokens("a---b.c") == ["a", "dash", "dash", "dash"] + Tokens("b.c");
  }
}
