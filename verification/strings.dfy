/**
 * The parts of Rust's `str` and integer-parsing behaviour that the broker
 * relies on, on strings as sequences of Unicode scalar values:
 * `contains`, `find`, `replace`, `split(..).nth(..)`, `split_terminator`,
 * `split_whitespace`, `join`, `parse::<u32>`, `as u8`/`as u16` and byte-offset
 * slicing `&s[a..b]`.
 */
module Strings {
  import opened Wrappers

  /** `pat` occurs in `s` starting at index `i`. */
  predicate OccursAt(s: string, pat: string, i: int) {
    0 <= i && i + |pat| <= |s| && s[i..i + |pat|] == pat
  }

  /** Rust `str::contains` with a string pattern. */
  predicate Contains(s: string, pat: string) {
    exists i | 0 <= i <= |s| - |pat| :: OccursAt(s, pat, i)
  }

  /** Rust `str::find`: the index of the leftmost occurrence of `pat`. */
  function Find(s: string, pat: string): (r: Option<nat>)
    ensures r.Some? ==> OccursAt(s, pat, r.value)
    ensures r.Some? ==> forall j | 0 <= j < r.value :: !OccursAt(s, pat, j)
    ensures r.None? <==> !Contains(s, pat)
    decreases |s|
  {
    if |s| < |pat| then None
    else if s[..|pat|] == pat then Some(0)
    else
      var rest := Find(s[1..], pat);
      ShiftOccurrence(s, pat);
      match rest
      case None => None
      case Some(k) => Some(k + 1)
  }

  /** Occurrences in `s` after its first character are occurrences in `s[1..]`, one place earlier. */
  lemma ShiftOccurrence(s: string, pat: string)
    requires |s| > 0
    ensures forall j | 1 <= j :: OccursAt(s, pat, j) == OccursAt(s[1..], pat, j - 1)
  {
    forall j | 1 <= j && j + |pat| <= |s| ensures OccursAt(s, pat, j) == OccursAt(s[1..], pat, j - 1) {
      assert s[1..][j - 1..j - 1 + |pat|] == s[j..j + |pat|];
    }
  }

  /**
   * Rust `str::replace`: every non-overlapping occurrence of `pat`, scanning
   * left to right, is replaced by `rep`. With an empty pattern Rust inserts
   * `rep` before every character and at the end.
   */
  function ReplaceAll(s: string, pat: string, rep: string): string
    decreases |s|
  {
    if pat == [] then
      if s == [] then rep else rep + [s[0]] + ReplaceAll(s[1..], pat, rep)
    else if |s| < |pat| then s
    else if s[..|pat|] == pat then rep + ReplaceAll(s[|pat|..], pat, rep)
    else [s[0]] + ReplaceAll(s[1..], pat, rep)
  }

  /** `s.replace(pat, "")`. */
  function Remove(s: string, pat: string): string {
    ReplaceAll(s, pat, "")
  }

  /** Replacing leaves a string unchanged when the pattern does not occur. */
  lemma {:induction false} ReplaceAbsent(s: string, pat: string, rep: string)
    requires pat != [] && !Contains(s, pat)
    ensures ReplaceAll(s, pat, rep) == s
    decreases |s|
  {
    if |s| >= |pat| {
      assert !OccursAt(s, pat, 0);
      assert s[0..|pat|] == s[..|pat|];
      ShiftOccurrence(s, pat);
      assert !Contains(s[1..], pat) by {
        forall j | 0 <= j <= |s[1..]| - |pat| ensures !OccursAt(s[1..], pat, j) {
          assert !OccursAt(s, pat, j + 1);
        }
      }
      ReplaceAbsent(s[1..], pat, rep);
      assert [s[0]] + s[1..] == s;
    }
  }

  /**
   * A prefix free of the pattern's first character is copied, the occurrence
   * right after it is replaced, and replacement continues after it.
   */
  lemma {:induction false} ReplaceSplit(a: string, b: string, pat: string, rep: string)
    requires pat != [] && pat[0] !in a
    ensures ReplaceAll(a + pat + b, pat, rep) == a + rep + ReplaceAll(b, pat, rep)
    decreases |a|
  {
    var s := a + pat + b;
    if a == [] {
      assert s == pat + b;
      assert s[..|pat|] == pat;
      assert s[|pat|..] == b;
    } else {
      var t := a[1..] + pat + b;
      assert s[0] == a[0] && a[0] in a;
      assert s[1..] == t;
      assert s[..|pat|][0] != pat[0];
      assert ReplaceAll(s, pat, rep) == [a[0]] + ReplaceAll(t, pat, rep);
      ReplaceSplit(a[1..], b, pat, rep);
      assert a + rep + ReplaceAll(b, pat, rep) == [a[0]] + (a[1..] + rep + ReplaceAll(b, pat, rep));
    }
  }

  /** A prefix free of the pattern's first character passes through unchanged. */
  lemma {:induction false} ReplaceSkip(a: string, b: string, pat: string, rep: string)
    requires pat != [] && pat[0] !in a
    ensures ReplaceAll(a + b, pat, rep) == a + ReplaceAll(b, pat, rep)
    decreases |a|
  {
    if a != [] {
      var s := a + b;
      assert s[0] == a[0] && a[0] in a;
      assert s[1..] == a[1..] + b;
      ReplaceSkip(a[1..], b, pat, rep);
      if |s| >= |pat| {
        assert s[..|pat|][0] == a[0];
        assert ReplaceAll(s, pat, rep) == [s[0]] + ReplaceAll(s[1..], pat, rep);
        assert a == [a[0]] + a[1..];
      } else {
        assert ReplaceAll(b, pat, rep) == b;
      }
    } else {
      assert a + b == b;
    }
  }

  /** Where the pattern does not start, the first character is copied and replacement moves on. */
  lemma ReplaceNoMatchHere(s: string, pat: string, rep: string)
    requires pat != [] && s != [] && !OccursAt(s, pat, 0)
    ensures ReplaceAll(s, pat, rep) == [s[0]] + ReplaceAll(s[1..], pat, rep)
  {
    if |s| >= |pat| {
      assert s[0..|pat|] == s[..|pat|];
    }
  }

  /** A pattern holding a character the text lacks does not occur in it. */
  lemma AbsentChar(s: string, pat: string, c: char)
    requires c in pat && c !in s
    ensures !Contains(s, pat)
  {
    var j :| 0 <= j < |pat| && pat[j] == c;
    forall i | 0 <= i <= |s| - |pat| ensures !OccursAt(s, pat, i) {
      assert s[i + j] in s;
      assert i + |pat| <= |s| ==> s[i..i + |pat|][j] == s[i + j];
    }
  }

  /** Every character of a replacement result comes from the input or from `rep`. */
  lemma {:induction false} ReplaceChars(s: string, pat: string, rep: string)
    ensures forall c | c in ReplaceAll(s, pat, rep) :: c in s || c in rep
    decreases |s|
  {
    if s != [] {
      ReplaceChars(s[1..], pat, rep);
      if pat != [] && |s| >= |pat| && s[..|pat|] == pat {
        ReplaceChars(s[|pat|..], pat, rep);
        forall c | c in s[|pat|..] ensures c in s {
          var i :| 0 <= i < |s[|pat|..]| && s[|pat|..][i] == c;
          assert s[|pat| + i] == c;
        }
      }
      forall c | c in s[1..] ensures c in s {
        var i :| 0 <= i < |s[1..]| && s[1..][i] == c;
        assert s[1 + i] == c;
      }
    }
  }

  /** Removing a single character leaves no occurrence of it, and adds nothing. */
  lemma RemoveChar(s: string, c: char)
    ensures c !in Remove(s, [c])
    ensures forall x | x in Remove(s, [c]) :: x in s
  {
    ReplaceChars(s, [c], "");
    RemoveCharGone(s, c);
  }

  lemma {:induction false} RemoveCharGone(s: string, c: char)
    ensures c !in Remove(s, [c])
    decreases |s|
  {
    if s != [] {
      RemoveCharGone(s[1..], c);
      if s[..1] == [c] {
        assert s[1..] == s[|[c]|..];
      } else {
        assert s[0] != c;
      }
    }
  }

  /** Removing any pattern adds no character. */
  lemma RemoveAddsNothing(s: string, pat: string)
    ensures forall x | x in Remove(s, pat) :: x in s
  {
    ReplaceChars(s, pat, "");
  }

  /**
   * Rust `s.split(pat).nth(n)` for a non-empty pattern: the `n`-th piece
   * between occurrences, if there are that many pieces.
   */
  function SplitNth(s: string, pat: string, n: nat): Option<string>
    requires pat != []
    decreases n
  {
    match Find(s, pat)
    case None => if n == 0 then Some(s) else None
    case Some(k) => if n == 0 then Some(s[..k]) else SplitNth(s[k + |pat|..], pat, n - 1)
  }

  /** The first piece of a split always exists: the text before the first occurrence, or all of it. */
  lemma SplitFirst(s: string, pat: string)
    requires pat != []
    ensures SplitNth(s, pat, 0).Some?
    ensures !Contains(s, pat) ==> SplitNth(s, pat, 0).value == s
    ensures Contains(s, pat) ==>
      && Find(s, pat).Some?
      && SplitNth(s, pat, 0).value == s[..Find(s, pat).value]
      && s == s[..Find(s, pat).value] + pat + s[Find(s, pat).value + |pat|..]
      && !Contains(s[..Find(s, pat).value], pat)
  {
    if Contains(s, pat) {
      var k := Find(s, pat).value;
      assert s[k..k + |pat|] == pat;
      assert s == s[..k] + s[k..k + |pat|] + s[k + |pat|..];
      PrefixOccurrence(s, pat, k);
    }
  }

  /** An occurrence inside a prefix is an occurrence in the whole string. */
  lemma PrefixOccurrence(s: string, pat: string, k: nat)
    requires k <= |s|
    ensures forall i | OccursAt(s[..k], pat, i) :: OccursAt(s, pat, i)
  {
    forall i | OccursAt(s[..k], pat, i) ensures OccursAt(s, pat, i) {
      assert s[i..i + |pat|] == s[..k][i..i + |pat|];
    }
  }

  /** Every piece of a split is made of characters of the split string. */
  lemma {:induction false} SplitNthChars(s: string, pat: string, n: nat)
    requires pat != [] && SplitNth(s, pat, n).Some?
    ensures forall x | x in SplitNth(s, pat, n).value :: x in s
    decreases n
  {
    match Find(s, pat)
    case None =>
    case Some(k) =>
      if n == 0 {
        forall x | x in s[..k] ensures x in s {
          var i :| 0 <= i < k && s[..k][i] == x;
          assert s[i] == x;
        }
      } else {
        var rest := s[k + |pat|..];
        SplitNthChars(rest, pat, n - 1);
        forall x | x in rest ensures x in s {
          var i :| 0 <= i < |rest| && rest[i] == x;
          assert s[k + |pat| + i] == x;
        }
      }
  }

  /** The first piece of a split on one character does not hold that character. */
  lemma FirstPieceLacks(s: string, c: char)
    ensures c !in SplitNth(s, [c], 0).value
  {
    SplitFirst(s, [c]);
    var p := SplitNth(s, [c], 0).value;
    if c in p {
      var i :| 0 <= i < |p| && p[i] == c;
      assert p[i..i + 1] == [c];
      assert OccursAt(p, [c], i);
      assert false;
    }
  }

  /** The first occurrence of a pattern is found right after a prefix free of its first character. */
  lemma FindAfter(a: string, pat: string, b: string)
    requires pat != [] && pat[0] !in a
    ensures Find(a + pat + b, pat) == Some(|a|)
  {
    var s := a + pat + b;
    assert s[|a|..|a| + |pat|] == pat;
    assert OccursAt(s, pat, |a|);
    forall j | 0 <= j < |a| ensures !OccursAt(s, pat, j) {
      assert s[j] == a[j];
      assert j + |pat| <= |s| ==> s[j..j + |pat|][0] == s[j];
    }
  }

  /** Splitting at such an occurrence gives the prefix, then the pieces of what follows. */
  lemma SplitAfter(a: string, pat: string, b: string)
    requires pat != [] && pat[0] !in a
    ensures SplitNth(a + pat + b, pat, 0) == Some(a)
    ensures SplitNth(a + pat + b, pat, 1) == SplitNth(b, pat, 0)
  {
    FindAfter(a, pat, b);
    var s := a + pat + b;
    assert s[..|a|] == a;
    assert s[|a| + |pat|..] == b;
  }

  /** Text without the pattern's first character is a single piece. */
  lemma SplitWhole(s: string, pat: string)
    requires pat != [] && pat[0] !in s
    ensures SplitNth(s, pat, 0) == Some(s)
  {
    AbsentChar(s, pat, pat[0]);
  }

  /** Rust `s.split_terminator(pat).nth(0)`: as `split`, except that the empty string has no pieces. */
  function SplitTerminatorFirst(s: string, pat: string): Option<string>
    requires pat != []
  {
    if s == [] then None else SplitNth(s, pat, 0)
  }

  /** `parts.join(sep)`. */
  function Join(parts: seq<string>, sep: string): string
    decreases |parts|
  {
    if parts == [] then []
    else if |parts| == 1 then parts[0]
    else parts[0] + sep + Join(parts[1..], sep)
  }

  /** Rust `char::is_whitespace`: the Unicode White_Space property. */
  predicate IsWhitespace(c: char) {
    || c == ' '
    || ('\t' <= c <= '\r')
    || c == '\U{85}' || c == '\U{A0}' || c == '\U{1680}'
    || ('\U{2000}' <= c <= '\U{200A}')
    || c == '\U{2028}' || c == '\U{2029}' || c == '\U{202F}' || c == '\U{205F}' || c == '\U{3000}'
  }

  /** A non-empty run of non-whitespace characters. */
  predicate IsWord(w: string) {
    |w| > 0 && forall i | 0 <= i < |w| :: !IsWhitespace(w[i])
  }

  /** Length of the longest whitespace-free prefix of `s`. */
  function WordLength(s: string): (n: nat)
    ensures n <= |s|
    ensures forall i | 0 <= i < n :: !IsWhitespace(s[i])
    ensures n < |s| ==> IsWhitespace(s[n])
    decreases |s|
  {
    if s == [] || IsWhitespace(s[0]) then 0 else 1 + WordLength(s[1..])
  }

  /** Rust `str::split_whitespace`: the maximal whitespace-free runs, in order. */
  function SplitWhitespace(s: string): (words: seq<string>)
    ensures forall k | 0 <= k < |words| :: IsWord(words[k])
    decreases |s|
  {
    if s == [] then []
    else if IsWhitespace(s[0]) then SplitWhitespace(s[1..])
    else
      var n := WordLength(s);
      [s[..n]] + SplitWhitespace(s[n..])
  }

  /** A word followed by whitespace splits off as the first part. */
  lemma {:induction false} SplitWhitespaceWord(w: string, rest: string)
    requires IsWord(w)
    requires rest == [] || IsWhitespace(rest[0])
    ensures SplitWhitespace(w + rest) == [w] + SplitWhitespace(rest)
  {
    var s := w + rest;
    WordLengthOfWord(w, rest);
    assert s[..|w|] == w;
    assert s[|w|..] == rest;
  }

  lemma {:induction false} WordLengthOfWord(w: string, rest: string)
    requires forall i | 0 <= i < |w| :: !IsWhitespace(w[i])
    requires rest == [] || IsWhitespace(rest[0])
    ensures WordLength(w + rest) == |w|
    decreases |w|
  {
    if w != [] {
      assert (w + rest)[1..] == w[1..] + rest;
      WordLengthOfWord(w[1..], rest);
    } else {
      assert w + rest == rest;
    }
  }

  /** Leading whitespace is skipped. */
  lemma SplitWhitespaceSkip(c: char, rest: string)
    requires IsWhitespace(c)
    ensures SplitWhitespace([c] + rest) == SplitWhitespace(rest)
  {
    assert ([c] + rest)[1..] == rest;
  }

  /** ASCII-only lower-casing of one character (Rust `char::to_ascii_lowercase`). */
  function AsciiLower(c: char): (l: char)
    ensures 'A' <= c <= 'Z' ==> l as int == c as int + 32
    ensures !('A' <= c <= 'Z') ==> l == c
  {
    if 'A' <= c <= 'Z' then (c as int + 32) as char else c
  }

  /** Rust `str::eq_ignore_ascii_case`. */
  predicate EqIgnoreAsciiCase(a: string, b: string) {
    |a| == |b| && forall i | 0 <= i < |a| :: AsciiLower(a[i]) == AsciiLower(b[i])
  }

  // ---------------------------------------------------------------------
  // Integers

  predicate IsDigit(c: char) {
    '0' <= c <= '9'
  }

  predicate AllDigits(s: string) {
    forall i | 0 <= i < |s| :: IsDigit(s[i])
  }

  /** The value of a string of decimal digits, most significant first. */
  function DecimalValue(s: string): nat
    requires AllDigits(s)
    decreases |s|
  {
    if s == [] then 0 else DecimalValue(s[..|s| - 1]) * 10 + (s[|s| - 1] as int - '0' as int)
  }

  /** The canonical decimal spelling of `n` (no sign, no leading zeros). */
  function DecimalString(n: nat): (s: string)
    ensures |s| > 0 && AllDigits(s)
    decreases n
  {
    if n < 10 then [('0' as int + n) as char]
    else DecimalString(n / 10) + [('0' as int + n % 10) as char]
  }

  const U32_LIMIT: nat := 0x1_0000_0000

  /**
   * Rust `str::parse::<u32>`: an optional single leading `+` followed by one
   * or more ASCII digits whose value fits in 32 bits; anything else (the
   * empty string, a lone `+`, a `-`, whitespace, overflow) is an error.
   */
  function ParseU32(s: string): (r: Option<nat>)
    ensures r.Some? ==> r.value < U32_LIMIT
    ensures r.Some? ==> |s| > 0
  {
    var digits := if |s| > 0 && s[0] == '+' then s[1..] else s;
    if digits == [] || !AllDigits(digits) then None
    else
      var v := DecimalValue(digits);
      if v < U32_LIMIT then Some(v) else None
  }

  lemma {:induction false} DecimalRoundTrip(n: nat)
    ensures DecimalValue(DecimalString(n)) == n
    decreases n
  {
    var s := DecimalString(n);
    if n >= 10 {
      DecimalRoundTrip(n / 10);
      assert s[..|s| - 1] == DecimalString(n / 10);
    }
  }

  /** Every 32-bit value spelled in decimal parses back to itself, with or without a `+`. */
  lemma ParseDecimal(n: nat)
    requires n < U32_LIMIT
    ensures ParseU32(DecimalString(n)) == Some(n)
    ensures ParseU32("+" + DecimalString(n)) == Some(n)
  {
    DecimalRoundTrip(n);
    var s := DecimalString(n);
    assert s[0] != '+';
    assert ("+" + s)[1..] == s;
  }

  /** A string holding any character that is neither a digit nor the leading `+` does not parse. */
  lemma ParseRejects(s: string, i: nat)
    requires i < |s| && !IsDigit(s[i]) && !(i == 0 && s[i] == '+')
    ensures ParseU32(s) == None
  {
    if |s| > 0 && s[0] == '+' {
      assert s[1..][i - 1] == s[i];
    }
  }

  /** Rust `n as u8` on a non-negative value. */
  function AsU8(n: nat): (r: nat)
    ensures r < 0x100
    ensures n < 0x100 ==> r == n
    ensures (r - n) % 0x100 == 0
  {
    n % 0x100
  }

  /** Rust `n as u16` on a non-negative value. */
  function AsU16(n: nat): (r: nat)
    ensures r < 0x1_0000
    ensures n < 0x1_0000 ==> r == n
    ensures (r - n) % 0x1_0000 == 0
  {
    n % 0x1_0000
  }

  // ---------------------------------------------------------------------
  // Byte offsets of UTF-8 encoded strings

  /** Number of bytes UTF-8 uses for one scalar value. */
  function Utf8Width(c: char): (w: nat)
    ensures 1 <= w <= 4
    ensures w == 1 <==> (c as int) < 0x80
  {
    if (c as int) < 0x80 then 1
    else if (c as int) < 0x800 then 2
    else if (c as int) < 0x1_0000 then 3
    else 4
  }

  /** Length of `s` in UTF-8 bytes. */
  function ByteLength(s: string): nat
    decreases |s|
  {
    if s == [] then 0 else Utf8Width(s[0]) + ByteLength(s[1..])
  }

  /** The character index where byte offset `b` falls, if `b` is a character boundary of `s`. */
  function CharIndex(s: string, b: nat): (r: Option<nat>)
    ensures r.Some? ==> r.value <= |s| && ByteLength(s[..r.value]) == b
    decreases |s|
  {
    if b == 0 then Some(0)
    else if s == [] || Utf8Width(s[0]) > b then None
    else match CharIndex(s[1..], b - Utf8Width(s[0]))
      case None => None
      case Some(k) =>
        assert s[..k + 1][1..] == s[1..][..k];
        Some(k + 1)
  }

  lemma {:induction false} ByteLengthGrows(s: string, i: nat, j: nat)
    requires i < j <= |s|
    ensures ByteLength(s[..i]) < ByteLength(s[..j])
    decreases |s|
  {
    assert s[..j][1..] == s[1..][..j - 1];
    if i > 0 {
      assert s[..i][1..] == s[1..][..i - 1];
      ByteLengthGrows(s[1..], i - 1, j - 1);
    } else {
      assert s[..i] == [];
    }
  }

  /**
   * Rust `&s[from..to]` with byte offsets: `None` where Rust panics (an
   * offset past the end, inside a character, or `from > to`).
   */
  function ByteSlice(s: string, from: nat, to: nat): (r: Option<string>)
    ensures r.Some? ==> ByteLength(r.value) == to - from
  {
    if from > to then None
    else match (CharIndex(s, from), CharIndex(s, to))
      case (Some(i), Some(j)) =>
        if i > j then
          ByteLengthGrows(s, j, i);
          assert false;
          None
        else
          ByteLengthSplit(s[..j], i);
          assert s[..j][..i] == s[..i] && s[..j][i..] == s[i..j];
          Some(s[i..j])
      case _ => None
  }

  lemma {:induction false} ByteLengthSplit(s: string, i: nat)
    requires i <= |s|
    ensures ByteLength(s) == ByteLength(s[..i]) + ByteLength(s[i..])
    decreases i
  {
    if i > 0 {
      assert s[..i][1..] == s[1..][..i - 1];
      assert s[i..] == s[1..][i - 1..];
      ByteLengthSplit(s[1..], i - 1);
    } else {
      assert s[i..] == s;
    }
  }

  /** On a string whose first four characters are ASCII, bytes `[3, 4)` are the fourth character. */
  lemma AsciiByteSlice(s: string)
    requires |s| >= 4 && forall i | 0 <= i < 4 :: (s[i] as int) < 0x80
    ensures ByteSlice(s, 3, 4) == Some([s[3]])
  {
    assert CharIndex(s[3..], 1) == Some(1);
    assert CharIndex(s[2..], 2) == Some(2) by { assert s[2..][1..] == s[3..]; }
    assert CharIndex(s[1..], 3) == Some(3) by { assert s[1..][1..] == s[2..]; }
    assert CharIndex(s, 4) == Some(4);
    assert CharIndex(s[3..], 0) == Some(0);
    assert CharIndex(s[2..], 1) == Some(1) by { assert s[2..][1..] == s[3..]; }
    assert CharIndex(s[1..], 2) == Some(2) by { assert s[1..][1..] == s[2..]; }
    assert CharIndex(s, 3) == Some(3);
    assert s[3..4] == [s[3]];
  }
}
