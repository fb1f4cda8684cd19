/**
 * String helpers shared by the backend (Python `str`) and frontend (JavaScript `string`)
 * modules: whitespace trimming, substring search, splitting and joining, decimal digits.
 * Whitespace, letters and digits are the ASCII ones.
 */
module Text {
  import opened Wrappers

  /** Whitespace as `str.strip`, `String.prototype.trim` and the regex class `\s` see it (ASCII part). */
  predicate IsSpace(c: char) {
    c == ' ' || c == '\t' || c == '\n' || c == '\r' || c == '\U{B}' || c == '\U{C}'
  }

  predicate IsBlank(s: string) {
    forall i | 0 <= i < |s| :: IsSpace(s[i])
  }

  predicate IsDigit(c: char) { '0' <= c <= '9' }

  predicate AllDigits(s: string) {
    forall i | 0 <= i < |s| :: IsDigit(s[i])
  }

  predicate IsAlnum(c: char) {
    IsDigit(c) || 'a' <= c <= 'z' || 'A' <= c <= 'Z'
  }

  /** A character of the regex class `\w`. */
  predicate IsWordChar(c: char) { IsAlnum(c) || c == '_' }

  /** The string without its trailing whitespace. */
  function TrimEnd(s: string): (r: string)
    ensures |r| <= |s| && r == s[..|r|]
    ensures forall i | |r| <= i < |s| :: IsSpace(s[i])
    ensures r == [] || !IsSpace(r[|r| - 1])
  {
    if s != [] && IsSpace(s[|s| - 1]) then TrimEnd(s[..|s| - 1]) else s
  }

  /** `str.strip()` / `String.prototype.trim()`: leading whitespace dropped, then trailing. */
  function Trim(s: string): (r: string)
    ensures r == [] <==> IsBlank(s)
    ensures r != [] ==> !IsSpace(r[0]) && !IsSpace(r[|r| - 1])
    ensures |r| <= |s|
    ensures (s == [] || (!IsSpace(s[0]) && !IsSpace(s[|s| - 1]))) ==> r == s
  {
    if s != [] && IsSpace(s[0]) then
      var r := Trim(s[1..]);
      assert IsBlank(s) <==> IsBlank(s[1..]) by {
        assert forall i | 1 <= i < |s| :: s[i] == s[1..][i - 1];
      }
      r
    else
      var r := TrimEnd(s);
      assert r != [] ==> r[0] == s[0];
      assert r == [] ==> IsBlank(s);
      assert r != [] ==> !IsSpace(s[|r| - 1]);
      r
  }

  predicate StartsWith(s: string, prefix: string) {
    |prefix| <= |s| && s[..|prefix|] == prefix
  }

  predicate OccursAt(s: string, sub: string, i: int) {
    0 <= i && i + |sub| <= |s| && s[i..i + |sub|] == sub
  }

  /** Python's `sub in s` and JavaScript's `s.includes(sub)`. */
  predicate Contains(s: string, sub: string) {
    exists i | 0 <= i <= |s| :: OccursAt(s, sub, i)
  }

  predicate ContainsChar(s: string, c: char) {
    exists i | 0 <= i < |s| :: s[i] == c
  }

  /** The first occurrence of `sub` in `s` at or after `from`. */
  function IndexFrom(s: string, sub: string, from: nat): (r: Option<nat>)
    requires from <= |s|
    ensures r.Some? ==> from <= r.value <= |s| && OccursAt(s, sub, r.value)
    ensures r.Some? ==> forall k | from <= k < r.value :: !OccursAt(s, sub, k)
    ensures r.None? ==> forall k | from <= k <= |s| :: !OccursAt(s, sub, k)
    decreases |s| - from
  {
    if OccursAt(s, sub, from) then Some(from)
    else if from == |s| then None
    else IndexFrom(s, sub, from + 1)
  }

  /** Python's `s.find(sub)` / JavaScript's `s.indexOf(sub)`, with `None` for -1. */
  function IndexOf(s: string, sub: string): (r: Option<nat>)
    ensures r.Some? <==> Contains(s, sub)
    ensures r.Some? ==> OccursAt(s, sub, r.value) && forall k | 0 <= k < r.value :: !OccursAt(s, sub, k)
  {
    IndexFrom(s, sub, 0)
  }

  /** The last occurrence of `sub` in `s` at or before `upTo` (Python's `s.rfind(sub)`). */
  function LastIndexUpTo(s: string, sub: string, upTo: nat): (r: Option<nat>)
    requires upTo <= |s|
    ensures r.Some? ==> r.value <= upTo && OccursAt(s, sub, r.value)
    ensures r.Some? ==> forall k | r.value < k <= upTo :: !OccursAt(s, sub, k)
    ensures r.None? ==> forall k | 0 <= k <= upTo :: !OccursAt(s, sub, k)
  {
    if OccursAt(s, sub, upTo) then Some(upTo)
    else if upTo == 0 then None
    else LastIndexUpTo(s, sub, upTo - 1)
  }

  /** Joins the parts with `sep` between consecutive ones (`sep.join(parts)` / `parts.join(sep)`). */
  function Join(parts: seq<string>, sep: string): string {
    if |parts| == 0 then []
    else if |parts| == 1 then parts[0]
    else parts[0] + sep + Join(parts[1..], sep)
  }

  /** The parts written one after another, as a reader that receives them in turn sees them. */
  function Concat(parts: seq<string>): string {
    if parts == [] then [] else Concat(parts[..|parts| - 1]) + parts[|parts| - 1]
  }

  lemma {:induction false} ConcatCons(a: string, b: seq<string>)
    ensures Concat([a] + b) == a + Concat(b)
    decreases |b|
  {
    if b == [] {
      assert [a] + b == [a];
      assert [a][..0] == [];
    } else {
      var front := b[..|b| - 1];
      assert ([a] + b)[..|b|] == [a] + front;
      ConcatCons(a, front);
      AssocAppend(a, Concat(front), b[|b| - 1]);
    }
  }

  lemma NoOccurrenceInPrefix(s: string, sep: string, i: nat)
    requires i <= |s| && |sep| > 0
    requires forall k | 0 <= k < i :: !OccursAt(s, sep, k)
    ensures !Contains(s[..i], sep)
  {
    forall k | 0 <= k <= i && OccursAt(s[..i], sep, k)
      ensures false
    {
      assert s[..i][k..k + |sep|] == s[k..k + |sep|];
      assert OccursAt(s, sep, k);
    }
  }

  /**
   * `s.split(sep)` for a non-empty separator, as Python and JavaScript both define it:
   * the pieces between the occurrences of `sep` found from left to right.
   */
  function Split(s: string, sep: string): (r: seq<string>)
    requires |sep| > 0
    ensures |r| >= 1
    ensures Join(r, sep) == s
    ensures forall k | 0 <= k < |r| :: !Contains(r[k], sep)
    decreases |s|
  {
    match IndexOf(s, sep)
    case None => [s]
    case Some(i) =>
      NoOccurrenceInPrefix(s, sep, i);
      var rest := Split(s[i + |sep|..], sep);
      assert ([s[..i]] + rest)[1..] == rest;
      assert s == s[..i] + sep + s[i + |sep|..];
      [s[..i]] + rest
  }

  lemma {:induction false} JoinAppend(a: seq<string>, b: seq<string>, sep: string)
    requires |a| >= 1 && |b| >= 1
    ensures Join(a + b, sep) == Join(a, sep) + sep + Join(b, sep)
    decreases |a|
  {
    assert (a + b)[1..] == a[1..] + b;
    if |a| > 1 {
      JoinAppend(a[1..], b, sep);
    }
  }

  lemma SingleCharOccurrence(x: string, sep: string, i: nat)
    requires |sep| == 1 && i < |x| && x[i] == sep[0]
    ensures Contains(x, sep)
  {
    assert x[i..i + 1] == sep;
    assert OccursAt(x, sep, i);
  }

  /** With a one-character separator, the pieces are determined by the joined string. */
  lemma {:induction false} JoinUnique(p: seq<string>, q: seq<string>, sep: string)
    requires |sep| == 1 && |p| >= 1 && |q| >= 1
    requires Join(p, sep) == Join(q, sep)
    requires forall k | 0 <= k < |p| :: !Contains(p[k], sep)
    requires forall k | 0 <= k < |q| :: !Contains(q[k], sep)
    ensures p == q
    decreases |p|
  {
    var s := Join(p, sep);
    if |p| == 1 && |q| == 1 {
    } else if |p| == 1 {
      assert s == q[0] + sep + Join(q[1..], sep);
      SingleCharOccurrence(p[0], sep, |q[0]|);
    } else if |q| == 1 {
      assert s == p[0] + sep + Join(p[1..], sep);
      SingleCharOccurrence(q[0], sep, |p[0]|);
    } else {
      assert s == p[0] + sep + Join(p[1..], sep);
      assert s == q[0] + sep + Join(q[1..], sep);
      if |p[0]| < |q[0]| {
        assert q[0][|p[0]|] == s[|p[0]|];
        SingleCharOccurrence(q[0], sep, |p[0]|);
      } else if |q[0]| < |p[0]| {
        assert p[0][|q[0]|] == s[|q[0]|];
        SingleCharOccurrence(p[0], sep, |q[0]|);
      } else {
        assert p[0] == s[..|p[0]|] == q[0];
        assert Join(p[1..], sep) == s[|p[0]| + 1..] == Join(q[1..], sep);
        JoinUnique(p[1..], q[1..], sep);
        assert p == [p[0]] + p[1..];
        assert q == [q[0]] + q[1..];
      }
    }
  }

  /** A separator whose first character no piece contains splits the joined pieces back apart. */
  lemma {:induction false} SplitJoin(items: seq<string>, sep: string)
    requires |sep| >= 1 && |items| >= 1
    requires forall k | 0 <= k < |items| :: !ContainsChar(items[k], sep[0])
    ensures Split(Join(items, sep), sep) == items
    decreases |items|
  {
    var s := Join(items, sep);
    var x := items[0];
    forall k | 0 <= k < |x|
      ensures !OccursAt(x, sep, k)
    {
      assert x[k] != sep[0];
      assert k + |sep| <= |x| ==> x[k..k + |sep|][0] == x[k];
    }
    if |items| == 1 {
      assert !OccursAt(x, sep, |x|);
      assert !Contains(x, sep);
    } else {
      var rest := Join(items[1..], sep);
      assert s == x + sep + rest;
      assert OccursAt(s, sep, |x|) by {
        assert s[|x|..|x| + |sep|] == sep;
      }
      forall k | 0 <= k < |x|
        ensures !OccursAt(s, sep, k)
      {
        assert s[k] == x[k];
      }
      assert IndexOf(s, sep) == Some(|x|);
      assert s[|x| + |sep|..] == rest;
      SplitJoin(items[1..], sep);
      assert items == [x] + items[1..];
    }
  }

  /**
   * Splitting a string extended by `c` re-splits only the last piece: every earlier piece
   * is already final. This is what lets a reader split a stream chunk by chunk.
   */
  lemma SplitAppend(s: string, c: string, sep: string)
    requires |sep| == 1
    ensures var p := Split(s, sep);
      Split(s + c, sep) == p[..|p| - 1] + Split(p[|p| - 1] + c, sep)
  {
    var p := Split(s, sep);
    var n := |p|;
    var a := p[..n - 1];
    var b := Split(p[n - 1] + c, sep);
    if n == 1 {
      assert a + b == b;
      assert p[0] == Join(p, sep) == s;
    } else {
      JoinReplaceLast(p, b, c, sep);
      NoPieceContains(a, b, sep);
      JoinUnique(a + b, Split(s + c, sep), sep);
    }
  }

  lemma AssocAppend(a: string, b: string, c: string)
    ensures (a + b) + c == a + (b + c)
  {
  }

  /** Joining pieces whose last one is extended by `c` extends the joined string by `c`. */
  lemma JoinReplaceLast(p: seq<string>, b: seq<string>, c: string, sep: string)
    requires |p| >= 2 && |b| >= 1 && Join(b, sep) == p[|p| - 1] + c
    ensures Join(p[..|p| - 1] + b, sep) == Join(p, sep) + c
  {
    var a, x := p[..|p| - 1], p[|p| - 1];
    var j := Join(a, sep);
    assert p == a + [x];
    JoinAppend(a, [x], sep);
    JoinAppend(a, b, sep);
    calc {
      Join(a + b, sep);
      j + sep + (x + c);
      { AssocAppend(j + sep, x, c); }
      (j + sep + x) + c;
    }
  }

  lemma NoPieceContains(a: seq<string>, b: seq<string>, sep: string)
    requires forall k | 0 <= k < |a| :: !Contains(a[k], sep)
    requires forall k | 0 <= k < |b| :: !Contains(b[k], sep)
    ensures forall k | 0 <= k < |a + b| :: !Contains((a + b)[k], sep)
  {
    forall k | 0 <= k < |a + b|
      ensures !Contains((a + b)[k], sep)
    {
      if k >= |a| {
        assert (a + b)[k] == b[k - |a|];
      }
    }
  }

  function DigitChar(d: nat): char
    requires d < 10
  {
    "0123456789"[d]
  }

  /** The value of a string of decimal digits. */
  function DigitsValue(s: string): (r: nat)
    requires AllDigits(s)
    ensures r < Pow10(|s|)
  {
    if s == [] then 0 else 10 * DigitsValue(s[..|s| - 1]) + DigitValue(s[|s| - 1])
  }

  function DigitValue(c: char): nat
    requires IsDigit(c)
  {
    assert c as int >= '0' as int;
    c as int - '0' as int
  }

  /** The last `width` decimal digits of `n`, with leading zeros. */
  function Digits(n: nat, width: nat): (r: string)
    ensures |r| == width
    ensures AllDigits(r)
  {
    if width == 0 then [] else Digits(n / 10, width - 1) + [DigitChar(n % 10)]
  }

  function Pow10(k: nat): (r: nat)
    ensures r >= 1
  {
    if k == 0 then 1 else 10 * Pow10(k - 1)
  }

  /** Reading back a fixed-width rendering gives the number, when it fits in that width. */
  lemma {:induction false} DigitsRoundTrip(n: nat, width: nat)
    requires n < Pow10(width)
    ensures DigitsValue(Digits(n, width)) == n
  {
    if width > 0 {
      DigitsRoundTrip(n / 10, width - 1);
      var r := Digits(n, width);
      assert r[..|r| - 1] == Digits(n / 10, width - 1);
      assert DigitValue(r[|r| - 1]) == n % 10;
    }
  }

  lemma DigitCharValue(c: char)
    requires IsDigit(c)
    ensures DigitChar(DigitValue(c)) == c
  {
  }

  /** A string of digits is the fixed-width rendering of its own value. */
  lemma {:induction false} DigitsOfValue(s: string)
    requires AllDigits(s)
    ensures Digits(DigitsValue(s), |s|) == s
  {
    if s != [] {
      var init := s[..|s| - 1];
      DigitsOfValue(init);
      DigitCharValue(s[|s| - 1]);
      var v := DigitsValue(s);
      assert v / 10 == DigitsValue(init) && v % 10 == DigitValue(s[|s| - 1]);
      assert s == init + [s[|s| - 1]];
    }
  }

  /** The decimal rendering of a natural number, without leading zeros. */
  function NatToString(n: nat): (r: string)
    ensures |r| >= 1 && AllDigits(r)
    ensures DigitsValue(r) == n
  {
    if n < 10 then [DigitChar(n)]
    else
      var r := NatToString(n / 10) + [DigitChar(n % 10)];
      assert r[..|r| - 1] == NatToString(n / 10);
      r
  }

  /** JavaScript's and Python's rendering of an integer. */
  function IntToString(i: int): string {
    if i < 0 then "-" + NatToString(-i) else NatToString(i)
  }

  function LowerChar(c: char): char {
    if 'A' <= c <= 'Z' then (c as int + 32) as char else c
  }

  /** `str.lower()` on ASCII letters. */
  function Lower(s: string): string {
    seq(|s|, i requires 0 <= i < |s| => LowerChar(s[i]))
  }

  /** The quote `repr` puts around a string: `"` when it holds a `'` and no `"`, else `'`. */
  function ReprQuote(s: string): (q: char)
    ensures q == '"' <==> '\'' in s && '"' !in s
    ensures q == '"' || q == '\''
  {
    if '\'' in s && '"' !in s then '"' else '\''
  }

  function HexDigit(d: nat): char
    requires d < 16
  {
    "0123456789abcdef"[d]
  }

  /**
   * How `repr` writes one character between quotes `q`: the quote and the backslash are
   * escaped, tab, newline and carriage return by name, other control characters as `\xhh`.
   */
  function ReprChar(c: char, q: char): (r: string)
    ensures |r| >= 1
    ensures ' ' <= c && c != '\U{7F}' && c != q && c != '\\' ==> r == [c]
  {
    if c == q || c == '\\' then ['\\', c]
    else if c == '\t' then "\\t"
    else if c == '\n' then "\\n"
    else if c == '\r' then "\\r"
    else if c < ' ' || c == '\U{7F}' then ['\\', 'x', HexDigit(c as int / 16), HexDigit(c as int % 16)]
    else [c]
  }

  function ReprBody(s: string, q: char): string {
    if s == [] then [] else ReprChar(s[0], q) + ReprBody(s[1..], q)
  }

  /** Python's `repr` of a string (`%r`): the escaped text between matching quotes. */
  function PyRepr(s: string): (r: string)
    ensures |r| >= 2 && r[0] == ReprQuote(s) && r[|r| - 1] == ReprQuote(s)
  {
    [ReprQuote(s)] + ReprBody(s, ReprQuote(s)) + [ReprQuote(s)]
  }

  /** A printable character other than the quote and the backslash stands for itself. */
  predicate PlainFor(s: string, q: char) {
    forall i | 0 <= i < |s| :: ' ' <= s[i] && s[i] != '\U{7F}' && s[i] != q && s[i] != '\\'
  }

  lemma {:induction false} ReprBodyPlain(s: string, q: char)
    requires PlainFor(s, q)
    ensures ReprBody(s, q) == s
  {
    if s != [] {
      assert PlainFor(s[1..], q) by {
        assert forall i | 0 <= i < |s| - 1 :: s[1..][i] == s[i + 1];
      }
      ReprBodyPlain(s[1..], q);
      assert s == [s[0]] + s[1..];
    }
  }

  /**
   * Printable text without quotes or backslashes is shown between single quotes as it is;
   * text holding `'` but no `"` (and nothing else to escape) between double quotes.
   */
  lemma ReprPlain(s: string)
    requires PlainFor(s, '\'') || ('\'' in s && PlainFor(s, '"'))
    ensures PlainFor(s, '\'') ==> PyRepr(s) == "'" + s + "'"
    ensures '\'' in s && PlainFor(s, '"') ==> PyRepr(s) == "\"" + s + "\""
  {
    if PlainFor(s, '\'') {
      ReprBodyPlain(s, '\'');
    } else {
      ReprBodyPlain(s, '"');
    }
  }
}
