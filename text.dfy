/**
 * The JavaScript string operations the job board relies on, over `string`
 * (a sequence of Unicode scalar values; JavaScript's UTF-16 code units,
 * including lone surrogates, are not modelled): `trim`, `toLowerCase`
 * (ASCII letters only), `includes`, `split` on one character, `join` with one
 * character, and the decimal rendering of a non-negative integer.
 */
module Text {

  // ---------------------------------------------------------------------------
  // trim
  // ---------------------------------------------------------------------------

  /** The WhiteSpace and LineTerminator code points of ECMAScript: exactly what `trim` strips. */
  predicate IsWhite(c: char) {
    || c == '\t' || c == '\U{000B}' || c == '\U{000C}' || c == ' '
    || c == '\U{00A0}' || c == '\U{FEFF}' || c == '\U{1680}'
    || ('\U{2000}' <= c <= '\U{200A}')
    || c == '\U{202F}' || c == '\U{205F}' || c == '\U{3000}'
    || c == '\n' || c == '\r' || c == '\U{2028}' || c == '\U{2029}'
  }

  predicate AllWhite(s: string) {
    forall i :: 0 <= i < |s| ==> IsWhite(s[i])
  }

  /** A string `trim` leaves alone: empty, or with a non-white first and last character. */
  predicate Trimmed(s: string) {
    s == [] || (!IsWhite(s[0]) && !IsWhite(s[|s| - 1]))
  }

  /** Drops the leading white space. */
  function TrimStart(s: string): (r: string)
    ensures |r| <= |s| && r == s[|s| - |r|..]
    ensures AllWhite(s[..|s| - |r|])
    ensures r == [] || !IsWhite(r[0])
  {
    if |s| > 0 && IsWhite(s[0]) then
      var r := TrimStart(s[1..]);
      WhiteHead(s, |r|);
      r
    else s
  }

  /** A white first character, and white space after it up to `|s| - k`, make a white head. */
  lemma WhiteHead(s: string, k: nat)
    requires k < |s| && k <= |s[1..]| && AllWhite(s[1..][..|s| - 1 - k]) && IsWhite(s[0])
    ensures s[|s| - k..] == s[1..][|s| - 1 - k..]
    ensures AllWhite(s[..|s| - k])
  {
    var head, rest := s[..|s| - k], s[1..][..|s| - 1 - k];
    forall i | 0 <= i < |head|
      ensures IsWhite(head[i])
    {
      if i > 0 {
        assert head[i] == rest[i - 1];
      }
    }
  }

  /** Drops the trailing white space. */
  function TrimEnd(s: string): (r: string)
    ensures |r| <= |s| && r == s[..|r|]
    ensures AllWhite(s[|r|..])
    ensures r == [] || !IsWhite(r[|r| - 1])
  {
    if |s| > 0 && IsWhite(s[|s| - 1]) then
      var r := TrimEnd(s[..|s| - 1]);
      WhiteTail(s, |r|);
      r
    else s
  }

  /** White space from `k` up to the last character, and a white last character, make a white tail. */
  lemma WhiteTail(s: string, k: nat)
    requires k < |s| && AllWhite(s[..|s| - 1][k..]) && IsWhite(s[|s| - 1])
    ensures AllWhite(s[k..])
  {
    forall i | 0 <= i < |s| - k
      ensures IsWhite(s[k..][i])
    {
      if i < |s| - 1 - k {
        assert s[k..][i] == s[..|s| - 1][k..][i];
      }
    }
  }

  /** `String.prototype.trim`. */
  function Trim(s: string): (r: string)
    ensures Trimmed(r) && |r| <= |s|
  {
    TrimEnd(TrimStart(s))
  }

  /** A string `trim` empties is white space throughout, and conversely. */
  lemma TrimEmptyIffWhite(s: string)
    ensures Trim(s) == [] <==> AllWhite(s)
  {
    var lead, trail := TrimDecompose(s);
    if Trim(s) == [] {
      assert s == lead + trail;
      AllWhiteConcat(lead, trail);
    }
    if AllWhite(s) {
      TrimUnique(s, [], []);
      assert s + [] + [] == s;
    }
  }

  lemma AllWhiteConcat(a: string, b: string)
    requires AllWhite(a) && AllWhite(b)
    ensures AllWhite(a + b)
  {
    forall i | 0 <= i < |a + b|
      ensures IsWhite((a + b)[i])
    {
      if i < |a| {
        assert (a + b)[i] == a[i];
      } else {
        assert (a + b)[i] == b[i - |a|];
      }
    }
  }

  /** The input is the trimmed core between a white prefix and a white suffix. */
  lemma TrimDecompose(s: string) returns (lead: string, trail: string)
    ensures AllWhite(lead) && AllWhite(trail)
    ensures s == lead + Trim(s) + trail
  {
    var t := TrimStart(s);
    var u := TrimEnd(t);
    lead := s[..|s| - |t|];
    trail := t[|u|..];
    StartSplit(s);
    EndSplit(t);
    assert s == lead + t;
    assert t == u + trail;
    ConcatAssoc(lead, u, trail);
  }

  lemma StartSplit(s: string)
    ensures s == s[..|s| - |TrimStart(s)|] + TrimStart(s)
  {
  }

  lemma EndSplit(s: string)
    ensures s == TrimEnd(s) + s[|TrimEnd(s)|..]
  {
  }

  lemma ConcatAssoc<T>(a: seq<T>, b: seq<T>, c: seq<T>)
    ensures a + (b + c) == a + b + c
  {
  }

  lemma Regroup<T>(a: seq<T>, b: seq<T>, c: seq<T>, d: seq<T>, e: seq<T>)
    ensures a + (b + c + d) + e == (a + b) + c + (d + e)
  {
  }

  lemma {:induction false} TrimStartSkips(w: string, t: string)
    requires AllWhite(w)
    ensures TrimStart(w + t) == TrimStart(t)
    decreases |w|
  {
    if w == [] {
      assert w + t == t;
    } else {
      assert (w + t)[1..] == w[1..] + t;
      TrimStartSkips(w[1..], t);
    }
  }

  lemma {:induction false} TrimEndSkips(t: string, w: string)
    requires AllWhite(w)
    ensures TrimEnd(t + w) == TrimEnd(t)
    decreases |w|
  {
    if w == [] {
      assert t + w == t;
    } else {
      assert (t + w)[..|t + w| - 1] == t + w[..|w| - 1];
      TrimEndSkips(t, w[..|w| - 1]);
    }
  }

  lemma TrimStartOfWhite(w: string)
    requires AllWhite(w)
    ensures TrimStart(w) == []
  {
    TrimStartSkips(w, []);
    assert w + [] == w;
  }

  /** `trim` gives back exactly the core of any white-padded trimmed string. */
  lemma {:induction false} TrimUnique(lead: string, core: string, trail: string)
    requires AllWhite(lead) && AllWhite(trail) && Trimmed(core)
    ensures Trim(lead + core + trail) == core
  {
    assert lead + core + trail == lead + (core + trail);
    TrimStartSkips(lead, core + trail);
    if core == [] {
      assert core + trail == trail;
      TrimStartOfWhite(trail);
    } else {
      assert TrimStart(core + trail) == core + trail;
      TrimEndSkips(core, trail);
      assert TrimEnd(core) == core;
    }
  }

  /** White space added around a string makes no difference to `trim`. */
  lemma TrimPadded(pre: string, s: string, post: string)
    requires AllWhite(pre) && AllWhite(post)
    ensures Trim(pre + s + post) == Trim(s)
  {
    var lead, trail := TrimDecompose(s);
    AllWhiteConcat(pre, lead);
    AllWhiteConcat(trail, post);
    Regroup(pre, lead, Trim(s), trail, post);
    TrimUnique(pre + lead, Trim(s), trail + post);
  }

  // ---------------------------------------------------------------------------
  // toLowerCase (ASCII)
  // ---------------------------------------------------------------------------

  predicate IsUpper(c: char) {
    'A' <= c <= 'Z'
  }

  /** Lower-cases an ASCII capital letter; every other character is kept. */
  function LowerChar(c: char): (r: char)
    ensures !IsUpper(r)
    ensures IsWhite(r) <==> IsWhite(c)
    ensures !IsUpper(c) ==> r == c
  {
    if IsUpper(c) then (c as int + 32) as char else c
  }

  /** `String.prototype.toLowerCase`, restricted to ASCII letters. */
  function Lower(s: string): (r: string)
    ensures |r| == |s|
    ensures forall i :: 0 <= i < |s| ==> r[i] == LowerChar(s[i])
  {
    seq(|s|, i requires 0 <= i < |s| => LowerChar(s[i]))
  }

  lemma LowerConcat(a: string, b: string)
    ensures Lower(a + b) == Lower(a) + Lower(b)
  {
  }

  /** Lower-casing and trimming commute: white space is never a letter. */
  lemma LowerTrimCommute(s: string)
    ensures Lower(Trim(s)) == Trim(Lower(s))
  {
    var lead, trail := TrimDecompose(s);
    var core := Trim(s);
    LowerConcat(lead, core);
    LowerConcat(lead + core, trail);
    LowerWhite(lead);
    LowerWhite(trail);
    LowerTrimmed(core);
    TrimUnique(Lower(lead), Lower(core), Lower(trail));
  }

  lemma LowerWhite(w: string)
    requires AllWhite(w)
    ensures AllWhite(Lower(w))
  {
  }

  lemma LowerTrimmed(t: string)
    requires Trimmed(t)
    ensures Trimmed(Lower(t))
  {
  }

  // ---------------------------------------------------------------------------
  // includes
  // ---------------------------------------------------------------------------

  /** `s.includes(q)`: `q` occurs in `s` as a contiguous block (the empty string always does). */
  predicate Contains(s: string, q: string)
    decreases |s|
  {
    q <= s || (s != [] && Contains(s[1..], q))
  }

  /** `q` occurs in `s` starting at index `i`. */
  predicate OccursAt(s: string, q: string, i: int) {
    0 <= i <= |s| - |q| && s[i..i + |q|] == q
  }

  /** `Contains` agrees with the positional definition of an occurrence. */
  lemma {:induction false} ContainsAt(s: string, q: string)
    ensures Contains(s, q) <==> exists i :: OccursAt(s, q, i)
    decreases |s|
  {
    if q <= s {
      assert OccursAt(s, q, 0);
    } else if s != [] {
      ContainsAt(s[1..], q);
      if Contains(s[1..], q) {
        var i :| OccursAt(s[1..], q, i);
        assert s[1..][i..i + |q|] == s[i + 1..i + 1 + |q|];
        assert OccursAt(s, q, i + 1);
      }
      if exists i :: OccursAt(s, q, i) {
        var i :| OccursAt(s, q, i);
        assert i > 0;
        assert s[1..][i - 1..i - 1 + |q|] == s[i..i + |q|];
        assert OccursAt(s[1..], q, i - 1);
      }
    }
  }

  // ---------------------------------------------------------------------------
  // split and join on one character
  // ---------------------------------------------------------------------------

  /** `s.split(sep)` for a one-character separator: the pieces between separators, never none. */
  function Split(s: string, sep: char): (parts: seq<string>)
    ensures |parts| >= 1
    decreases |s|
  {
    if s == [] then [""]
    else
      var rest := Split(s[1..], sep);
      if s[0] == sep then [""] + rest
      else [[s[0]] + rest[0]] + rest[1..]
  }

  /** No piece of a split holds the separator, and a string without it splits into itself. */
  lemma {:induction false} SplitPieces(s: string, sep: char)
    ensures forall i :: 0 <= i < |Split(s, sep)| ==> sep !in Split(s, sep)[i]
    ensures sep !in s ==> Split(s, sep) == [s]
    decreases |s|
  {
    if s != [] {
      SplitPieces(s[1..], sep);
      assert s == [s[0]] + s[1..];
      SplitStep(s[0], s[1..], sep);
    }
  }

  function Last<T>(xs: seq<T>): T
    requires xs != []
  {
    xs[|xs| - 1]
  }

  /** `parts.join(sep)` for a one-character separator. */
  function Join(parts: seq<string>, sep: char): string {
    if |parts| == 0 then ""
    else if |parts| == 1 then parts[0]
    else parts[0] + [sep] + Join(parts[1..], sep)
  }

  /** A join of two or more pieces starts with the first piece and a separator, and ends with a separator and the last piece. */
  lemma {:induction false} JoinFrame(parts: seq<string>, sep: char)
    requires |parts| >= 2
    ensures parts[0] + [sep] <= Join(parts, sep)
    ensures var s := Join(parts, sep);
      |Last(parts)| < |s| && s[|s| - |Last(parts)| - 1..] == [sep] + Last(parts)
    decreases |parts|
  {
    var tail := Join(parts[1..], sep);
    assert Join(parts, sep) == parts[0] + [sep] + tail;
    if |parts| > 2 {
      JoinFrame(parts[1..], sep);
      assert Last(parts[1..]) == Last(parts);
    }
  }

  /** Splitting at a separator splits the two sides independently. */
  lemma {:induction false} SplitAround(x: string, sep: char, y: string)
    ensures Split(x + [sep] + y, sep) == Split(x, sep) + Split(y, sep)
    decreases |x|
  {
    if x == [] {
      assert x + [sep] + y == [sep] + y;
      SplitStep(sep, y, sep);
    } else {
      var t := x[1..] + [sep] + y;
      assert x + [sep] + y == [x[0]] + t;
      assert x == [x[0]] + x[1..];
      SplitStep(x[0], t, sep);
      SplitStep(x[0], x[1..], sep);
      SplitAround(x[1..], sep, y);
      var rx, ry := Split(x[1..], sep), Split(y, sep);
      if x[0] == sep {
        ConcatAssoc([""], rx, ry);
      } else {
        assert (rx + ry)[0] == rx[0];
        assert (rx + ry)[1..] == rx[1..] + ry;
        ConcatAssoc([[x[0]] + rx[0]], rx[1..], ry);
      }
    }
  }

  /** One step of `Split`: the first character either ends the first piece or joins it. */
  lemma SplitStep(c: char, t: string, sep: char)
    ensures Split([c] + t, sep) ==
      if c == sep then [""] + Split(t, sep) else [[c] + Split(t, sep)[0]] + Split(t, sep)[1..]
  {
    assert ([c] + t)[0] == c;
    assert ([c] + t)[1..] == t;
  }

  /** Joining the pieces of a split gives back the original string. */
  lemma {:induction false} JoinSplit(s: string, sep: char)
    ensures Join(Split(s, sep), sep) == s
    decreases |s|
  {
    if s != [] {
      var rest := Split(s[1..], sep);
      JoinSplit(s[1..], sep);
      if s[0] == sep {
        assert ([""] + rest)[1..] == rest;
        assert s == [sep] + s[1..];
      } else {
        var parts := [[s[0]] + rest[0]] + rest[1..];
        if |rest| == 1 {
          assert s == [s[0]] + s[1..];
        } else {
          assert parts[1..] == rest[1..];
          assert Join(rest, sep) == rest[0] + [sep] + Join(rest[1..], sep);
          assert s == [s[0]] + s[1..];
        }
      }
    }
  }

  /** Splitting a join recovers the pieces, when no piece holds the separator. */
  lemma {:induction false} SplitJoin(parts: seq<string>, sep: char)
    requires parts != []
    requires forall i :: 0 <= i < |parts| ==> sep !in parts[i]
    ensures Split(Join(parts, sep), sep) == parts
    decreases |parts|
  {
    SplitPieces(parts[0], sep);
    if |parts| > 1 {
      SplitJoin(parts[1..], sep);
      SplitAround(parts[0], sep, Join(parts[1..], sep));
      assert parts == [parts[0]] + parts[1..];
    }
  }

  // ---------------------------------------------------------------------------
  // decimal numerals
  // ---------------------------------------------------------------------------

  predicate IsDigit(c: char) {
    '0' <= c <= '9'
  }

  predicate AllDigits(s: string) {
    forall i :: 0 <= i < |s| ==> IsDigit(s[i])
  }

  function DigitChar(d: nat): (c: char)
    requires d < 10
    ensures IsDigit(c) && c as int - '0' as int == d
  {
    ('0' as int + d) as char
  }

  /** The value of a string of decimal digits. */
  function DecimalValue(s: string): nat
    requires AllDigits(s)
  {
    if s == [] then 0 else DecimalValue(s[..|s| - 1]) * 10 + (s[|s| - 1] as int - '0' as int)
  }

  /** The decimal numeral JavaScript prints for a non-negative integer: digits, no leading zero. */
  function Decimal(n: nat): (r: string)
    ensures r != [] && AllDigits(r)
    ensures r[0] == '0' ==> r == "0"
    decreases n
  {
    if n < 10 then [DigitChar(n)] else Decimal(n / 10) + [DigitChar(n % 10)]
  }

  /** Reading the numeral back gives the number. */
  lemma {:induction false} DecimalRoundTrip(n: nat)
    ensures DecimalValue(Decimal(n)) == n
    decreases n
  {
    if n >= 10 {
      DecimalRoundTrip(n / 10);
      var r := Decimal(n);
      assert r[..|r| - 1] == Decimal(n / 10);
    }
  }

  /** JavaScript's rendering of an integer, with a minus sign when negative. */
  function IntToString(i: int): (r: string)
    ensures r != []
    ensures i < 0 <==> r[0] == '-'
  {
    if i < 0 then "-" + Decimal(-i) else Decimal(i)
  }
}
