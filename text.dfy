/**
 * The string operations the pages rely on: `toLowerCase` (ASCII letters only),
 * `includes`, `startsWith`, `trim`, `split` on one character, `join`, and the
 * decimal rendering of a count.
 */
module Text {
  import opened Wrappers

  function LowerChar(c: char): char {
    if 'A' <= c <= 'Z' then (c as int + 32) as char else c
  }

  /** `s.toLowerCase()`, restricted to the ASCII letters. */
  function Lower(s: string): string {
    seq(|s|, i requires 0 <= i < |s| => LowerChar(s[i]))
  }

  lemma LowerIdempotent(s: string)
    ensures Lower(Lower(s)) == Lower(s)
  {
  }

  /** `hay.includes(needle)`. */
  function Contains(hay: string, needle: string): bool
    decreases |hay|
  {
    needle <= hay || (hay != [] && Contains(hay[1..], needle))
  }

  /** `needle` occurs in `hay` starting at position `i`. */
  predicate OccursAt(hay: string, needle: string, i: int) {
    0 <= i && i + |needle| <= |hay| && hay[i..i + |needle|] == needle
  }

  /** `includes` holds exactly when the needle occurs at some position of the haystack. */
  lemma {:induction false} ContainsAt(hay: string, needle: string)
    ensures Contains(hay, needle) <==> exists i :: OccursAt(hay, needle, i)
  {
    if needle <= hay {
      assert OccursAt(hay, needle, 0);
    } else if hay != [] {
      ContainsAt(hay[1..], needle);
      if Contains(hay[1..], needle) {
        var i :| OccursAt(hay[1..], needle, i);
        assert OccursAt(hay, needle, i + 1);
      }
      if exists i :: OccursAt(hay, needle, i) {
        var i :| OccursAt(hay, needle, i);
        if i > 0 {
          assert OccursAt(hay[1..], needle, i - 1);
        }
      }
    }
  }

  /** `hay.toLowerCase().includes(query.toLowerCase())`. */
  function IncludesIgnoringCase(hay: string, query: string): bool {
    Contains(Lower(hay), Lower(query))
  }

  /** The empty query is found in every string. */
  lemma EmptyQueryMatches(hay: string)
    ensures IncludesIgnoringCase(hay, "")
  {
  }

  /** The characters `String.prototype.trim` removes: white space and line terminators. */
  predicate IsWhite(c: char) {
    || c == ' ' || '\t' <= c <= '\r'
    || c == '\U{00A0}' || c == '\U{1680}' || '\U{2000}' <= c <= '\U{200A}'
    || c == '\U{2028}' || c == '\U{2029}' || c == '\U{202F}' || c == '\U{205F}'
    || c == '\U{3000}' || c == '\U{FEFF}'
  }

  /** The number of white-space characters at the start of `s`. */
  function LeadingWhite(s: string): (k: nat)
    ensures k <= |s|
    ensures forall i :: 0 <= i < k ==> IsWhite(s[i])
    ensures k == |s| || !IsWhite(s[k])
  {
    if s == [] || !IsWhite(s[0]) then 0 else 1 + LeadingWhite(s[1..])
  }

  /** The number of white-space characters at the end of `s`. */
  function TrailingWhite(s: string): (k: nat)
    ensures k <= |s|
    ensures forall i :: |s| - k <= i < |s| ==> IsWhite(s[i])
    ensures k == |s| || !IsWhite(s[|s| - 1 - k])
  {
    if s == [] || !IsWhite(s[|s| - 1]) then 0 else 1 + TrailingWhite(s[..|s| - 1])
  }

  /** Neither end of `s` is white space. */
  predicate IsTrimmed(s: string) {
    s == [] || (!IsWhite(s[0]) && !IsWhite(s[|s| - 1]))
  }

  /**
   * `s.trim()`: the part of `s` between white space at its start and white
   * space at its end.
   */
  function Trim(s: string): (r: string)
    ensures IsTrimmed(r)
    ensures r == [] <==> forall i :: 0 <= i < |s| ==> IsWhite(s[i])
    ensures |r| <= |s|
    ensures exists a, b ::
      && 0 <= a <= b <= |s| && r == s[a..b]
      && (forall i :: 0 <= i < a ==> IsWhite(s[i]))
      && (forall i :: b <= i < |s| ==> IsWhite(s[i]))
  {
    var a := LeadingWhite(s);
    var t := s[a..];
    var b := a + |t| - TrailingWhite(t);
    assert t[..|t| - TrailingWhite(t)] == s[a..b];
    assert forall i :: b <= i < |s| ==> s[i] == t[i - a];
    t[..|t| - TrailingWhite(t)]
  }

  /** White space in front of a trimmed string is all that `trim` removes. */
  lemma {:induction false} TrimAfterWhite(w: string, t: string)
    requires forall i :: 0 <= i < |w| ==> IsWhite(w[i])
    requires IsTrimmed(t)
    ensures Trim(w + t) == t
  {
    LeadingWhiteBefore(w, t);
    assert (w + t)[|w|..] == t;
  }

  /** White space after a trimmed string is all that `trim` removes. */
  lemma TrimBeforeWhite(t: string, w: string)
    requires IsTrimmed(t)
    requires forall i :: 0 <= i < |w| ==> IsWhite(w[i])
    ensures Trim(t + w) == t
  {
    var s := t + w;
    var r := Trim(s);
    var a, b :| 0 <= a <= b <= |s| && r == s[a..b]
      && (forall i :: 0 <= i < a ==> IsWhite(s[i])) && (forall i :: b <= i < |s| ==> IsWhite(s[i]));
    if t == [] {
      assert s == w;
    } else {
      assert s[0] == t[0] && s[|t| - 1] == t[|t| - 1];
      assert a == 0;
      assert b == |t|;
      assert s[..|t|] == t;
    }
  }

  lemma {:induction false} LeadingWhiteBefore(w: string, t: string)
    requires forall i :: 0 <= i < |w| ==> IsWhite(w[i])
    requires t == [] || !IsWhite(t[0])
    ensures LeadingWhite(w + t) == |w|
  {
    if w != [] {
      assert (w + t)[1..] == w[1..] + t;
      LeadingWhiteBefore(w[1..], t);
    } else {
      assert w + t == t;
    }
  }

  /** `trim` is idempotent, and leaves an already trimmed string alone. */
  lemma TrimTrimmed(s: string)
    ensures IsTrimmed(s) ==> Trim(s) == s
    ensures Trim(Trim(s)) == Trim(s)
  {
    if IsTrimmed(s) {
      TrimAfterWhite([], s);
      assert [] + s == s;
    }
    TrimAfterWhite([], Trim(s));
    assert [] + Trim(s) == Trim(s);
  }

  /** `!s.trim()`: the string is empty or white space only. */
  predicate IsBlank(s: string) {
    Trim(s) == []
  }

  /** `s || undefined`: the empty string stands for a missing value. */
  function OrNone(s: string): (r: Option<string>)
    ensures r.None? <==> s == ""
    ensures r.Some? ==> r.value == s
  {
    if s == "" then None else Some(s)
  }

  /** `s.split(sep)` for a one-character separator: always at least one piece. */
  function Split(s: string, sep: char): (parts: seq<string>)
    ensures |parts| >= 1
    ensures forall i :: 0 <= i < |parts| ==> sep !in parts[i]
  {
    if s == [] then [""]
    else
      var rest := Split(s[1..], sep);
      if s[0] == sep then [""] + rest
      else [[s[0]] + rest[0]] + rest[1..]
  }

  /**
   * The first piece of a split is the text before the first separator, or
   * the whole string when there is none.
   */
  lemma {:induction false} SplitFirstPiece(s: string, sep: char)
    ensures Split(s, sep)[0] <= s
    ensures sep in s ==> Split(s, sep)[0] + [sep] <= s
    ensures sep !in s ==> Split(s, sep)[0] == s
  {
    if s != [] && s[0] != sep {
      SplitFirstPiece(s[1..], sep);
      assert s == [s[0]] + s[1..];
      assert sep in s ==> sep in s[1..];
    }
  }

  /** `parts.join(sep)`. */
  function Join(parts: seq<string>, sep: string): string {
    if parts == [] then ""
    else if |parts| == 1 then parts[0]
    else parts[0] + sep + Join(parts[1..], sep)
  }

  /** A separator-free prefix becomes the start of the first piece. */
  lemma {:induction false} SplitPrefix(w: string, x: string, sep: char)
    requires sep !in w
    ensures Split(w + x, sep) == [w + Split(x, sep)[0]] + Split(x, sep)[1..]
  {
    if w == [] {
      assert w + x == x;
      assert w + Split(x, sep)[0] == Split(x, sep)[0];
      assert Split(x, sep) == [Split(x, sep)[0]] + Split(x, sep)[1..];
    } else {
      assert (w + x)[0] == w[0];
      assert (w + x)[1..] == w[1..] + x;
      SplitPrefix(w[1..], x, sep);
      assert [w[0]] + (w[1..] + Split(x, sep)[0]) == w + Split(x, sep)[0];
    }
  }

  /** Splitting undoes joining when no piece contains the separator. */
  lemma {:induction false} SplitJoin(parts: seq<string>, sep: char)
    requires |parts| >= 1
    requires forall i :: 0 <= i < |parts| ==> sep !in parts[i]
    ensures Split(Join(parts, [sep]), sep) == parts
  {
    if |parts| == 1 {
      SplitPrefix(parts[0], "", sep);
      assert parts[0] + "" == parts[0];
    } else {
      var rest := Join(parts[1..], [sep]);
      SplitJoin(parts[1..], sep);
      assert Split([sep] + rest, sep) == [""] + Split(rest, sep);
      assert Join(parts, [sep]) == parts[0] + ([sep] + rest);
      SplitPrefix(parts[0], [sep] + rest, sep);
      assert parts[0] + "" == parts[0];
    }
  }

  /** Joining undoes splitting: no character of the input is lost. */
  lemma {:induction false} JoinSplit(s: string, sep: char)
    ensures Join(Split(s, sep), [sep]) == s
  {
    if s != [] {
      var rest := Split(s[1..], sep);
      JoinSplit(s[1..], sep);
      if s[0] == sep {
        assert s == [sep] + s[1..];
      } else {
        var parts := Split(s, sep);
        assert parts[0] == [s[0]] + rest[0] && parts[1..] == rest[1..];
        if |rest| == 1 {
          assert s == [s[0]] + rest[0];
        } else {
          assert Join(rest, [sep]) == rest[0] + [sep] + Join(rest[1..], [sep]);
          assert s == [s[0]] + s[1..];
        }
      }
    }
  }

  function Digit(d: nat): char
    requires d < 10
  {
    "0123456789"[d]
  }

  /** The decimal text of a count, as `String(n)` writes it for an integer. */
  function Decimal(n: nat): (r: string)
    ensures |r| >= 1
    ensures forall i :: 0 <= i < |r| ==> '0' <= r[i] <= '9'
  {
    if n < 10 then [Digit(n)] else Decimal(n / 10) + [Digit(n % 10)]
  }

  /** The value of a string of decimal digits. */
  function DecimalValue(s: string): nat
    requires forall i :: 0 <= i < |s| ==> '0' <= s[i] <= '9'
  {
    if s == [] then 0 else 10 * DecimalValue(s[..|s| - 1]) + (s[|s| - 1] as int - '0' as int)
  }

  /** Reading the decimal text back gives the count. */
  lemma {:induction false} DecimalRoundTrip(n: nat)
    ensures DecimalValue(Decimal(n)) == n
  {
    var r := Decimal(n);
    if n >= 10 {
      DecimalRoundTrip(n / 10);
      assert r[..|r| - 1] == Decimal(n / 10);
    }
  }

  /** Counts below 10^k take at most k digits. */
  lemma {:induction false} DecimalLength(n: nat, k: nat)
    requires n < Pow10(k) && k >= 1
    ensures |Decimal(n)| <= k
  {
    if n >= 10 {
      DecimalLength(n / 10, k - 1);
    }
  }

  function Pow10(k: nat): nat {
    if k == 0 then 1 else 10 * Pow10(k - 1)
  }
}
