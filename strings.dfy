/** The parts of JavaScript's string and number built-ins that the application relies on:
    `String(n)` for integers, `Number(s)`, `padStart`, `split` on one character,
    `trim` and `split(/\s+/)`.  A JavaScript string is modelled as a Dafny `string`,
    one `char` per Unicode code point. */
module Strings {

  datatype Option<T> = None | Some(value: T)

  /** `x || fallback` where `x` is a string or undefined: the empty string is falsy. */
  function OrElse(x: Option<string>, fallback: string): string {
    if x.Some? && x.value != "" then x.value else fallback
  }

  // ---------------------------------------------------------------------------
  // Decimal rendering and parsing of integers

  predicate IsDigit(c: char) { '0' <= c <= '9' }

  predicate AllDigits(s: string) { forall i :: 0 <= i < |s| ==> IsDigit(s[i]) }

  function DigitChar(d: nat): char
    requires d < 10
  {
    ('0' as int + d) as char
  }

  function DigitValue(c: char): nat
    requires IsDigit(c)
  {
    c as int - '0' as int
  }

  /** `String(n)` for a non-negative integer: its decimal digits, most significant first. */
  function NatToString(n: nat): string {
    if n < 10 then [DigitChar(n)] else NatToString(n / 10) + [DigitChar(n % 10)]
  }

  /** The rendering is a non-empty string of digits. */
  lemma {:induction false} NatToStringDigits(n: nat)
    ensures NatToString(n) != [] && AllDigits(NatToString(n))
  {
    if n >= 10 {
      NatToStringDigits(n / 10);
    }
  }

  /** `String(i)` for an integer: a minus sign in front of the digits of a negative one. */
  function IntToString(i: int): string {
    if i < 0 then "-" + NatToString(-i) else NatToString(i)
  }

  /** A minus sign exactly for a negative number, and digits after it. */
  lemma IntToStringShape(i: int)
    ensures var s := IntToString(i);
      && s != [] && (s[0] == '-' <==> i < 0)
      && (i < 0 ==> s[1..] == NatToString(-i)) && (i >= 0 ==> s == NatToString(i))
      && Trimmed(s) && IsDigit(s[|s| - 1])
  {
    NatToStringDigits(if i < 0 then -i else i);
  }

  /** The value of a string of decimal digits (leading zeros allowed). */
  function DigitsValue(s: string): nat
    requires AllDigits(s)
  {
    if s == [] then 0 else DigitsValue(s[..|s| - 1]) * 10 + DigitValue(s[|s| - 1])
  }

  lemma {:induction false} DigitsValueOfNatToString(n: nat)
    ensures AllDigits(NatToString(n)) && DigitsValue(NatToString(n)) == n
  {
    NatToStringDigits(n);
    if n >= 10 {
      var s := NatToString(n);
      assert s[..|s| - 1] == NatToString(n / 10);
      DigitsValueOfNatToString(n / 10);
    }
  }

  predicate AllZeros(z: string) { forall i :: 0 <= i < |z| ==> z[i] == '0' }

  /** Leading zeros do not change the value of a digit string. */
  lemma {:induction false} DigitsValueLeadingZeros(z: string, s: string)
    requires AllZeros(z) && AllDigits(s)
    ensures AllDigits(z + s) && DigitsValue(z + s) == DigitsValue(s)
    decreases |z| + |s|
  {
    if s == [] {
      assert z + s == z;
      if z != [] {
        assert z[..|z| - 1] + [] == z[..|z| - 1];
        DigitsValueLeadingZeros(z[..|z| - 1], []);
      }
    } else {
      assert (z + s)[..|z + s| - 1] == z + s[..|s| - 1];
      DigitsValueLeadingZeros(z, s[..|s| - 1]);
    }
  }

  /** `Number(s)` on the strings it reads as a plain decimal integer: surrounding whitespace
      is ignored, the empty string is 0, and an optional sign may precede the digits.
      `None` stands for NaN; fractions, exponents, `0x`/`0o`/`0b` prefixes and `Infinity`
      are not modelled and also give `None`. */
  function ParseNumber(s: string): Option<int> {
    var t := Trim(s);
    if t == "" then Some(0)
    else if t[0] == '-' || t[0] == '+' then
      if |t| > 1 && AllDigits(t[1..]) then
        var v: int := DigitsValue(t[1..]);
        Some(if t[0] == '-' then -v else v)
      else None
    else if AllDigits(t) then Some(DigitsValue(t))
    else None
  }

  /** `Number(String(i)) === i` for every integer. */
  lemma NumberOfIntToString(i: int)
    ensures ParseNumber(IntToString(i)) == Some(i)
  {
    var s := IntToString(i);
    IntToStringShape(i);
    TrimNoEdges(s);
    if i < 0 {
      assert s[1..] == NatToString(-i);
      DigitsValueOfNatToString(-i);
    } else {
      DigitsValueOfNatToString(i);
    }
  }

  // ---------------------------------------------------------------------------
  // padStart

  function Repeat(c: char, n: nat): string {
    if n == 0 then [] else [c] + Repeat(c, n - 1)
  }

  lemma {:induction false} RepeatSpec(c: char, n: nat)
    ensures |Repeat(c, n)| == n && forall i :: 0 <= i < n ==> Repeat(c, n)[i] == c
  {
    if n > 0 {
      RepeatSpec(c, n - 1);
    }
  }

  /** `s.padStart(width, c)` for a one-character pad string. */
  function PadStart(s: string, width: nat, c: char): string {
    if |s| >= width then s else Repeat(c, width - |s|) + s
  }

  /** The padded string is `s` preceded by as many pad characters as bring it to `width`,
      and none when it is already that long. */
  lemma PadStartSpec(s: string, width: nat, c: char)
    ensures var r := PadStart(s, width, c);
      && |r| == (if |s| >= width then |s| else width)
      && r == Repeat(c, |r| - |s|) + s
      && forall i :: 0 <= i < |r| - |s| ==> r[i] == c
  {
    var r := PadStart(s, width, c);
    RepeatSpec(c, |r| - |s|);
    if |s| >= width {
      assert Repeat(c, 0) == [];
      assert Repeat(c, 0) + s == s;
    } else {
      RepeatSpec(c, width - |s|);
    }
  }

  // ---------------------------------------------------------------------------
  // split on one character

  /** Pieces joined back with the separator between them. */
  function Join(pieces: seq<string>, sep: char): string
    requires |pieces| >= 1
  {
    if |pieces| == 1 then pieces[0] else pieces[0] + [sep] + Join(pieces[1..], sep)
  }

  /** `s.split(sep)` for a one-character separator string: the pieces between
      separators, in order, empty pieces included. */
  function Split(s: string, sep: char): (r: seq<string>)
    ensures |r| >= 1
  {
    if s == [] then [""]
    else
      var rest := Split(s[1..], sep);
      if s[0] == sep then [""] + rest else [[s[0]] + rest[0]] + rest[1..]
  }

  /** No piece of a split holds the separator. */
  lemma {:induction false} SplitPieces(s: string, sep: char)
    ensures forall k :: 0 <= k < |Split(s, sep)| ==> sep !in Split(s, sep)[k]
  {
    if s != [] {
      SplitPieces(s[1..], sep);
      var rest := Split(s[1..], sep);
      if s[0] != sep {
        assert sep !in [s[0]] + rest[0];
        assert forall k :: 1 <= k < |Split(s, sep)| ==> Split(s, sep)[k] == rest[k];
      }
    }
  }

  /** Joining the pieces of a split gives back the string. */
  lemma {:induction false} JoinSplit(s: string, sep: char)
    ensures Join(Split(s, sep), sep) == s
  {
    if s != [] {
      var rest := Split(s[1..], sep);
      JoinSplit(s[1..], sep);
      if s[0] != sep {
        var r := Split(s, sep);
        if |rest| > 1 {
          assert r[1..] == rest[1..];
        }
      }
    }
  }

  /** A string with no separator splits into itself alone. */
  lemma {:induction false} SplitNoSeparator(s: string, sep: char)
    requires sep !in s
    ensures Split(s, sep) == [s]
  {
    if s != [] {
      SplitNoSeparator(s[1..], sep);
      assert [s[0]] + s[1..] == s;
    }
  }

  /** Splitting at the first separator: the piece before it, then the split of the rest. */
  lemma {:induction false} SplitAtFirst(a: string, sep: char, b: string)
    requires sep !in a
    ensures Split(a + [sep] + b, sep) == [a] + Split(b, sep)
  {
    if a == [] {
      assert a + [sep] + b == [sep] + b;
      assert ([sep] + b)[1..] == b;
    } else {
      assert (a + [sep] + b)[1..] == a[1..] + [sep] + b;
      SplitAtFirst(a[1..], sep, b);
      assert [a[0]] + a[1..] == a;
    }
  }

  // ---------------------------------------------------------------------------
  // Whitespace, trim and split(/\s+/)

  /** The code points of JavaScript's WhiteSpace and LineTerminator productions:
      what `\s` matches and what `trim` removes. */
  predicate IsWhitespace(c: char) {
    c == '\t' || c == '\n' || c == '\U{000B}' || c == '\U{000C}' || c == '\r' || c == ' '
    || c == '\U{00A0}' || c == '\U{1680}' || ('\U{2000}' <= c <= '\U{200A}')
    || c == '\U{2028}' || c == '\U{2029}' || c == '\U{202F}' || c == '\U{205F}'
    || c == '\U{3000}' || c == '\U{FEFF}'
  }

  predicate NoWhitespace(s: string) { forall i :: 0 <= i < |s| ==> !IsWhitespace(s[i]) }

  /** Pieces that are words: none empty, none holding whitespace. */
  predicate ProperWords(words: seq<string>) {
    forall k :: 0 <= k < |words| ==> words[k] != "" && NoWhitespace(words[k])
  }

  /** Neither the first nor the last character is whitespace. */
  predicate Trimmed(s: string) { s != [] ==> !IsWhitespace(s[0]) && !IsWhitespace(s[|s| - 1]) }

  /** `s.replace(/^\s*\/, "")`, also the first half of `trim`. */
  function TrimStart(s: string): (r: string)
    ensures |r| <= |s|
  {
    if s != [] && IsWhitespace(s[0]) then TrimStart(s[1..]) else s
  }

  /** What `TrimStart` removes is a run of whitespace, and what it keeps does not start
      with whitespace. */
  lemma {:induction false} TrimStartSpec(s: string)
    ensures var r := TrimStart(s);
      && r == s[|s| - |r|..]
      && (forall i :: 0 <= i < |s| - |r| ==> IsWhitespace(s[i]))
      && (r != [] ==> !IsWhitespace(r[0]))
  {
    if s != [] && IsWhitespace(s[0]) {
      TrimStartSpec(s[1..]);
    }
  }

  function TrimEnd(s: string): (r: string)
    ensures |r| <= |s|
  {
    if s != [] && IsWhitespace(s[|s| - 1]) then TrimEnd(s[..|s| - 1]) else s
  }

  /** What `TrimEnd` removes is a run of whitespace, and what it keeps does not end with
      whitespace. */
  lemma {:induction false} TrimEndSpec(s: string)
    ensures var r := TrimEnd(s);
      && r == s[..|r|]
      && (forall i :: |r| <= i < |s| ==> IsWhitespace(s[i]))
      && (r != [] ==> !IsWhitespace(r[|r| - 1]))
  {
    if s != [] && IsWhitespace(s[|s| - 1]) {
      TrimEndSpec(s[..|s| - 1]);
    }
  }

  /** `s.trim()`: the string without its leading and trailing whitespace. */
  function Trim(s: string): (r: string)
    ensures |r| <= |s|
  {
    TrimEnd(TrimStart(s))
  }

  /** The trimmed string is the original with a leading and a trailing run of whitespace
      removed; it neither starts nor ends with whitespace, and it is empty exactly when the
      original is all whitespace. */
  lemma TrimSpec(s: string)
    ensures var r := Trim(s);
      var lead := |s| - |TrimStart(s)|;
      && lead + |r| <= |s| && r == s[lead..lead + |r|]
      && (forall i :: 0 <= i < lead ==> IsWhitespace(s[i]))
      && (forall i :: lead + |r| <= i < |s| ==> IsWhitespace(s[i]))
      && Trimmed(r)
      && (r == [] <==> forall i :: 0 <= i < |s| ==> IsWhitespace(s[i]))
  {
    var t := TrimStart(s);
    var r := TrimEnd(t);
    TrimStartSpec(s);
    TrimEndSpec(t);
    var lead := |s| - |t|;
    assert r == s[lead..lead + |r|];
    forall i | lead + |r| <= i < |s|
      ensures IsWhitespace(s[i])
    {
      assert s[i] == t[i - lead];
    }
  }

  /** A string that neither starts nor ends with whitespace is its own trim. */
  lemma TrimNoEdges(s: string)
    requires Trimmed(s)
    ensures Trim(s) == s
  {
  }

  /** Trimming twice is trimming once. */
  lemma TrimIdempotent(s: string)
    ensures Trim(Trim(s)) == Trim(s)
  {
    TrimSpec(s);
    TrimNoEdges(Trim(s));
  }

  /** `s.split(/\s+/)`: the pieces between maximal runs of whitespace, in order; a run at
      the very start or end yields an empty first or last piece. */
  function SplitOnWhitespace(s: string): (r: seq<string>)
    ensures |r| >= 1
    ensures forall k :: 0 <= k < |r| ==> NoWhitespace(r[k])
    decreases |s|
  {
    if s == [] then [""]
    else if IsWhitespace(s[0]) then [""] + SplitOnWhitespace(TrimStart(s))
    else
      var rest := SplitOnWhitespace(s[1..]);
      [[s[0]] + rest[0]] + rest[1..]
  }

  /** `.filter(w => w.length > 0)`. */
  function NonEmpty(pieces: seq<string>): (r: seq<string>)
    ensures forall k :: 0 <= k < |r| ==> r[k] != ""
    ensures forall k :: 0 <= k < |r| ==> r[k] in pieces
  {
    if pieces == [] then []
    else (if pieces[0] == "" then [] else [pieces[0]]) + NonEmpty(pieces[1..])
  }

  /** `s.split(/\s+/).filter(w => w.length > 0)`: the words of `s`. */
  function Words(s: string): (r: seq<string>)
    ensures ProperWords(r)
  {
    NonEmpty(SplitOnWhitespace(s))
  }

  function Concat(pieces: seq<string>): string {
    if pieces == [] then "" else pieces[0] + Concat(pieces[1..])
  }

  function RemoveWhitespace(s: string): string {
    if s == [] then "" else (if IsWhitespace(s[0]) then "" else [s[0]]) + RemoveWhitespace(s[1..])
  }

  /** Words joined with single spaces. */
  function JoinWords(words: seq<string>): string {
    if words == [] then "" else if |words| == 1 then words[0] else words[0] + " " + JoinWords(words[1..])
  }

  lemma {:induction false} ConcatNonEmpty(pieces: seq<string>)
    ensures Concat(NonEmpty(pieces)) == Concat(pieces)
  {
    if pieces != [] {
      ConcatNonEmpty(pieces[1..]);
      var head := if pieces[0] == "" then [] else [pieces[0]];
      assert NonEmpty(pieces) == head + NonEmpty(pieces[1..]);
      ConcatAppend(head, NonEmpty(pieces[1..]));
    }
  }

  lemma {:induction false} ConcatAppend(a: seq<string>, b: seq<string>)
    ensures Concat(a + b) == Concat(a) + Concat(b)
  {
    if a != [] {
      assert (a + b)[1..] == a[1..] + b;
      ConcatAppend(a[1..], b);
      assert (a + b)[0] == a[0];
      assert Concat(a + b) == a[0] + Concat(a[1..] + b);
    } else {
      assert a + b == b;
    }
  }

  /** Leading whitespace contributes nothing once whitespace is removed. */
  lemma {:induction false} RemoveWhitespaceTrimStart(s: string)
    ensures RemoveWhitespace(TrimStart(s)) == RemoveWhitespace(s)
  {
    if s != [] && IsWhitespace(s[0]) {
      RemoveWhitespaceTrimStart(s[1..]);
    }
  }

  lemma {:induction false} RemoveWhitespaceAppend(a: string, b: string)
    ensures RemoveWhitespace(a + b) == RemoveWhitespace(a) + RemoveWhitespace(b)
  {
    if a != [] {
      assert (a + b)[1..] == a[1..] + b;
      RemoveWhitespaceAppend(a[1..], b);
      assert (a + b)[0] == a[0];
    } else {
      assert a + b == b;
    }
  }

  lemma {:induction false} RemoveWhitespaceAllWhitespace(s: string)
    requires forall i :: 0 <= i < |s| ==> IsWhitespace(s[i])
    ensures RemoveWhitespace(s) == ""
  {
    if s != [] {
      RemoveWhitespaceAllWhitespace(s[1..]);
    }
  }

  /** Trimming does not change the non-whitespace content. */
  lemma RemoveWhitespaceTrim(s: string)
    ensures RemoveWhitespace(Trim(s)) == RemoveWhitespace(s)
  {
    assert Trim(s) == TrimEnd(TrimStart(s));
    RemoveWhitespaceTrimEnd(TrimStart(s));
    RemoveWhitespaceTrimStart(s);
  }

  /** Trailing whitespace contributes nothing once whitespace is removed. */
  lemma RemoveWhitespaceTrimEnd(t: string)
    ensures RemoveWhitespace(TrimEnd(t)) == RemoveWhitespace(t)
  {
    var r := TrimEnd(t);
    TrimEndSpec(t);
    var tail := t[|r|..];
    assert t == r + tail;
    RemoveWhitespaceAppend(r, tail);
    forall i | 0 <= i < |tail| ensures IsWhitespace(tail[i]) {
      assert tail[i] == t[|r| + i];
    }
    RemoveWhitespaceAllWhitespace(tail);
  }

  lemma {:induction false} ConcatSplitOnWhitespace(s: string)
    ensures Concat(SplitOnWhitespace(s)) == RemoveWhitespace(s)
    decreases |s|
  {
    if s != [] {
      if IsWhitespace(s[0]) {
        ConcatSplitOnWhitespace(TrimStart(s));
        RemoveWhitespaceTrimStart(s);
      } else {
        var rest := SplitOnWhitespace(s[1..]);
        ConcatSplitOnWhitespace(s[1..]);
        var r := SplitOnWhitespace(s);
        assert r[1..] == rest[1..];
        assert rest == [rest[0]] + rest[1..];
        assert Concat(rest) == rest[0] + Concat(rest[1..]);
      }
    }
  }

  /** The words hold exactly the non-whitespace characters of the text, in order. */
  lemma WordsContent(s: string)
    ensures Concat(Words(s)) == RemoveWhitespace(s)
  {
    ConcatNonEmpty(SplitOnWhitespace(s));
    ConcatSplitOnWhitespace(s);
  }

  lemma {:induction false} SplitOnWhitespaceWord(w: string)
    requires NoWhitespace(w)
    ensures SplitOnWhitespace(w) == [w]
  {
    if w != [] {
      SplitOnWhitespaceWord(w[1..]);
      assert [w[0]] + w[1..] == w;
    }
  }

  /** A whitespace-free piece followed by one whitespace character splits off as a whole. */
  lemma {:induction false} SplitOnWhitespaceAfterWord(w: string, c: char, b: string)
    requires NoWhitespace(w) && IsWhitespace(c)
    ensures SplitOnWhitespace(w + [c] + b) == [w] + SplitOnWhitespace(TrimStart(b))
  {
    if w == [] {
      assert w + [c] + b == [c] + b;
      assert ([c] + b)[1..] == b;
    } else {
      assert (w + [c] + b)[1..] == w[1..] + [c] + b;
      SplitOnWhitespaceAfterWord(w[1..], c, b);
      assert [w[0]] + w[1..] == w;
    }
  }

  /** Joining words with single spaces and splitting again gives the same words. */
  lemma {:induction false} WordsOfJoinWords(words: seq<string>)
    requires ProperWords(words)
    ensures Words(JoinWords(words)) == words
  {
    if |words| == 1 {
      SplitOnWhitespaceWord(words[0]);
      assert NonEmpty([words[0]]) == [words[0]] + NonEmpty([]);
      assert [words[0]] == words;
    } else if |words| > 1 {
      var rest := JoinWords(words[1..]);
      JoinWordsTrimmed(words[1..]);
      SplitOnWhitespaceAfterWord(words[0], ' ', rest);
      assert words[0] + " " + rest == words[0] + [' '] + rest;
      WordsOfJoinWords(words[1..]);
    }
  }

  /** Words joined with spaces neither start nor end with whitespace, so trimming them
      changes nothing. */
  lemma {:induction false} JoinWordsTrimmed(words: seq<string>)
    requires ProperWords(words)
    ensures words != [] ==> JoinWords(words) != []
    ensures Trimmed(JoinWords(words))
  {
    if |words| == 1 {
      var w := words[0];
      assert w != "" && NoWhitespace(w);
      assert !IsWhitespace(w[0]) && !IsWhitespace(w[|w| - 1]);
    } else if |words| > 1 {
      var w, rest := words[0], JoinWords(words[1..]);
      assert w != "" && NoWhitespace(w);
      assert !IsWhitespace(w[0]);
      JoinWordsTrimmed(words[1..]);
      var j := w + " " + rest;
      assert j[0] == w[0];
      assert j[|j| - 1] == rest[|rest| - 1];
    }
  }
}
