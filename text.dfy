/**
 * The slice of `java.lang.String` and `java.lang.Integer`/`Float` parsing that the
 * telemetry collector relies on, over `seq<char>`.
 */
module Text {
  import opened Wrappers

  /** A line as `BufferedReader.readLine` returns it: no line terminator inside. */
  type Line = s: string | '\n' !in s

  /** A CSV cell: neither the field separator nor the record terminator occurs in it. */
  type Cell = s: string | ',' !in s && '\n' !in s

  /** The exception a parse can throw. */
  datatype Error = NumberFormat | IndexOutOfBounds

  // ---------------------------------------------------------------------------
  // Searching: String.contains / startsWith

  predicate OccursAt(s: string, p: string, i: int) {
    0 <= i && i + |p| <= |s| && s[i..i + |p|] == p
  }

  /** `s.contains(p)`. */
  predicate Contains(s: string, p: string) {
    exists i :: 0 <= i <= |s| - |p| && OccursAt(s, p, i)
  }

  predicate StartsWith(s: string, p: string) {
    |p| <= |s| && s[..|p|] == p
  }

  lemma ContainsTail(s: string, p: string)
    requires |s| > 0 && Contains(s[1..], p)
    ensures Contains(s, p)
  {
    var i :| 0 <= i <= |s[1..]| - |p| && OccursAt(s[1..], p, i);
    assert s[i + 1..i + 1 + |p|] == s[1..][i..i + |p|];
    assert OccursAt(s, p, i + 1);
  }

  /** An occurrence in `s` is at its start or in its tail. */
  lemma ContainsCases(s: string, p: string)
    requires Contains(s, p) && !StartsWith(s, p)
    ensures |s| > 0 && Contains(s[1..], p)
  {
    var i :| 0 <= i <= |s| - |p| && OccursAt(s, p, i);
    assert i != 0;
    assert s[1..][i - 1..i - 1 + |p|] == s[i..i + |p|];
    assert OccursAt(s[1..], p, i - 1);
  }

  lemma ContainsInfix(a: string, p: string, b: string)
    ensures Contains(a + p + b, p)
  {
    assert (a + p + b)[|a|..|a| + |p|] == p;
    assert OccursAt(a + p + b, p, |a|);
  }

  lemma ContainsLeft(a: string, b: string, p: string)
    requires Contains(a, p)
    ensures Contains(a + b, p)
  {
    var i :| 0 <= i <= |a| - |p| && OccursAt(a, p, i);
    assert (a + b)[i..i + |p|] == a[i..i + |p|];
    assert OccursAt(a + b, p, i);
  }

  lemma ContainsRight(a: string, b: string, p: string)
    requires Contains(b, p)
    ensures Contains(a + b, p)
  {
    var i :| 0 <= i <= |b| - |p| && OccursAt(b, p, i);
    assert (a + b)[|a| + i..|a| + i + |p|] == b[i..i + |p|];
    assert OccursAt(a + b, p, |a| + i);
  }

  /**
   * An occurrence of `p` in `a + b` cannot straddle the seam when the last
   * character of `a` does not occur in `p`.
   */
  lemma ContainsSeam(a: string, b: string, p: string)
    requires |a| > 0 && a[|a| - 1] !in p
    requires Contains(a + b, p)
    ensures Contains(a, p) || Contains(b, p)
  {
    var i :| 0 <= i <= |a + b| - |p| && OccursAt(a + b, p, i);
    if i + |p| <= |a| {
      assert (a + b)[i..i + |p|] == a[i..i + |p|];
      assert OccursAt(a, p, i);
    } else if i >= |a| {
      assert (a + b)[i..i + |p|] == b[i - |a|..i - |a| + |p|];
      assert OccursAt(b, p, i - |a|);
    } else {
      SeamChar(a, b, p, i);
      assert false;
    }
  }

  /** Across a seam no part of the pattern can span, a match lies on one side. */
  lemma ContainsSplit(a: string, b: string, p: string)
    requires |a| == 0 || a[|a| - 1] !in p
    ensures Contains(a + b, p) <==> Contains(a, p) || Contains(b, p)
  {
    if |a| == 0 {
      assert a + b == b;
    } else if Contains(a + b, p) {
      ContainsSeam(a, b, p);
    }
    if Contains(a, p) {
      ContainsLeft(a, b, p);
    }
    if Contains(b, p) {
      ContainsRight(a, b, p);
    }
  }

  lemma SeamChar(a: string, b: string, p: string, i: int)
    requires OccursAt(a + b, p, i) && i < |a| < i + |p|
    ensures p[|a| - 1 - i] == a[|a| - 1]
  {
    assert p[|a| - 1 - i] == (a + b)[i..i + |p|][|a| - 1 - i];
  }

  /** A string containing `p` contains every piece of `p`. */
  lemma ContainsPiece(s: string, p: string, q: string)
    ensures Contains(s, p + q) ==> Contains(s, q)
  {
    if Contains(s, p + q) {
      var i :| 0 <= i <= |s| - |p + q| && OccursAt(s, p + q, i);
      assert s[i + |p|..i + |p| + |q|] == (p + q)[|p|..];
      assert OccursAt(s, q, i + |p|);
    }
  }

  // ---------------------------------------------------------------------------
  // String.replace(CharSequence, CharSequence): left to right, non-overlapping

  function Replace(s: string, p: string, r: string): string
    requires |p| > 0
    decreases |s|
  {
    if |s| < |p| then s
    else if s[..|p|] == p then r + Replace(s[|p|..], p, r)
    else [s[0]] + Replace(s[1..], p, r)
  }

  /** Replacing `p` by a shorter `r` strictly shortens every string that contains `p`. */
  lemma {:induction false} ReplaceShrinks(s: string, p: string, r: string)
    requires 0 < |p| && |r| < |p|
    ensures |Replace(s, p, r)| <= |s|
    ensures Contains(s, p) ==> |Replace(s, p, r)| < |s|
    decreases |s|
  {
    if |s| < |p| {
    } else if s[..|p|] == p {
      ReplaceShrinks(s[|p|..], p, r);
    } else {
      ReplaceShrinks(s[1..], p, r);
      if Contains(s, p) {
        ContainsCases(s, p);
      }
    }
  }

  // ---------------------------------------------------------------------------
  // Collapsing runs of spaces

  /** `s` with every run of spaces collapsed to a single space. */
  function Squeeze(s: string): string
    decreases |s|
  {
    if |s| == 0 then ""
    else if |s| >= 2 && s[0] == ' ' && s[1] == ' ' then Squeeze(s[1..])
    else [s[0]] + Squeeze(s[1..])
  }

  predicate StartsWithSpace(s: string) {
    |s| > 0 && s[0] == ' '
  }

  /** What one leading character contributes to a collapsed string. */
  lemma SqueezeCons(c: char, x: string)
    ensures Squeeze([c] + x) ==
      if c == ' ' && StartsWithSpace(x) then Squeeze(x) else [c] + Squeeze(x)
  {
    assert ([c] + x)[1..] == x;
  }

  lemma SqueezeStartsWithSpace(s: string)
    ensures StartsWithSpace(Squeeze(s)) <==> StartsWithSpace(s)
    decreases |s|
  {
    if |s| >= 2 && s[0] == ' ' && s[1] == ' ' {
      SqueezeStartsWithSpace(s[1..]);
    }
  }

  lemma ReplaceStartsWithSpace(s: string)
    ensures StartsWithSpace(Replace(s, "  ", " ")) <==> StartsWithSpace(s)
  {
  }

  /** One pass of `replace("  ", " ")` does not change the collapsed form. */
  lemma {:induction false} SqueezeReplace(s: string)
    ensures Squeeze(Replace(s, "  ", " ")) == Squeeze(s)
    decreases |s|
  {
    if |s| < 2 {
    } else if s[..2] == "  " {
      var t := s[2..];
      SqueezeReplace(t);
      ReplaceStartsWithSpace(t);
      assert Replace(s, "  ", " ") == [' '] + Replace(t, "  ", " ");
      SqueezeCons(' ', Replace(t, "  ", " "));
      SqueezeCons(' ', t);
      assert s[1..] == [' '] + t;
    } else {
      var t := s[1..];
      SqueezeReplace(t);
      ReplaceStartsWithSpace(t);
      assert Replace(s, "  ", " ") == [s[0]] + Replace(t, "  ", " ");
      SqueezeCons(s[0], Replace(t, "  ", " "));
      SqueezeCons(s[0], t);
      assert s == [s[0]] + t;
    }
  }

  /** A string without a double space is its own collapsed form. */
  lemma {:induction false} SqueezeFixed(s: string)
    requires !Contains(s, "  ")
    ensures Squeeze(s) == s
    decreases |s|
  {
    if |s| == 0 {
    } else {
      assert !OccursAt(s, "  ", 0);
      assert |s| < 2 || s[..2] != "  ";
      if Contains(s[1..], "  ") {
        ContainsTail(s, "  ");
      }
      SqueezeFixed(s[1..]);
    }
  }

  /** The collapsed form holds no double space. */
  lemma {:induction false} SqueezeNoDouble(s: string)
    ensures !Contains(Squeeze(s), "  ")
    decreases |s|
  {
    if |s| == 0 {
    } else if |s| >= 2 && s[0] == ' ' && s[1] == ' ' {
      SqueezeNoDouble(s[1..]);
    } else {
      var q := Squeeze(s[1..]);
      SqueezeNoDouble(s[1..]);
      SqueezeStartsWithSpace(s[1..]);
      var r := [s[0]] + q;
      assert r[1..] == q;
      assert !(s[0] == ' ' && StartsWithSpace(q));
      assert !StartsWith(r, "  ") by {
        if |r| >= 2 {
          assert r[..2][0] == s[0] && r[..2][1] == q[0];
        }
      }
      if Contains(r, "  ") {
        ContainsCases(r, "  ");
      }
    }
  }

  /** Collapsing keeps every non-space character, in order. */
  function NonSpace(s: string): string
    decreases |s|
  {
    if |s| == 0 then "" else (if s[0] == ' ' then "" else [s[0]]) + NonSpace(s[1..])
  }

  lemma {:induction false} SqueezeKeepsText(s: string)
    ensures NonSpace(Squeeze(s)) == NonSpace(s)
    decreases |s|
  {
    if |s| == 0 {
    } else if |s| >= 2 && s[0] == ' ' && s[1] == ' ' {
      SqueezeKeepsText(s[1..]);
    } else {
      SqueezeKeepsText(s[1..]);
      assert ([s[0]] + Squeeze(s[1..]))[1..] == Squeeze(s[1..]);
    }
  }

  /**
   * The collapsing loop of the `top` parser: replace double spaces by single ones
   * until none is left.
   */
  method CollapseSpaces(s: string) returns (r: string)
    ensures r == Squeeze(s)
    ensures !Contains(r, "  ")
  {
    r := s;
    while Contains(r, "  ")
      invariant Squeeze(r) == Squeeze(s)
      decreases |r|
    {
      ReplaceShrinks(r, "  ", " ");
      SqueezeReplace(r);
      r := Replace(r, "  ", " ");
    }
    SqueezeFixed(r);
  }

  // ---------------------------------------------------------------------------
  // String.replaceAll(" ", ","): one character for another

  function Substitute(s: string, a: char, b: char): (r: string)
    ensures |r| == |s|
  {
    seq(|s|, i requires 0 <= i < |s| => if s[i] == a then b else s[i])
  }

  lemma SubstituteConcat(x: string, y: string, a: char, b: char)
    ensures Substitute(x + y, a, b) == Substitute(x, a, b) + Substitute(y, a, b)
  {
  }

  lemma SubstituteRemoves(s: string, a: char, b: char)
    requires a != b
    ensures a !in Substitute(s, a, b)
  {
  }

  // ---------------------------------------------------------------------------
  // Joining and String.split on a one-character separator

  /** The pieces joined with `sep` between consecutive pieces. */
  function Join(xs: seq<string>, sep: char): string
    requires |xs| > 0
  {
    if |xs| == 1 then xs[0] else xs[0] + [sep] + Join(xs[1..], sep)
  }

  /** Every piece between separators, empty ones included (`split(sep, -1)`). */
  function SplitAll(s: string, sep: char): (r: seq<string>)
    ensures |r| > 0
    decreases |s|
  {
    if |s| == 0 then [""]
    else
      var rest := SplitAll(s[1..], sep);
      if s[0] == sep then [""] + rest else [[s[0]] + rest[0]] + rest[1..]
  }

  function DropTrailingEmpty(xs: seq<string>): (r: seq<string>)
    ensures |r| <= |xs| && r == xs[..|r|]
    ensures |r| > 0 ==> r[|r| - 1] != ""
    ensures forall k :: |r| <= k < |xs| ==> xs[k] == ""
  {
    if |xs| > 0 && xs[|xs| - 1] == "" then DropTrailingEmpty(xs[..|xs| - 1]) else xs
  }

  /**
   * `s.split(sep)`: the input itself when the separator does not occur,
   * otherwise every piece with trailing empty pieces removed.
   */
  function JavaSplit(s: string, sep: char): seq<string> {
    if sep !in s then [s] else DropTrailingEmpty(SplitAll(s, sep))
  }

  lemma AppendAssoc(x: string, y: string, z: string)
    ensures x + (y + z) == x + y + z
  {
  }

  lemma JoinCons(x: string, xs: seq<string>, sep: char)
    requires |xs| > 0
    ensures Join([x] + xs, sep) == x + [sep] + Join(xs, sep)
  {
    assert ([x] + xs)[1..] == xs;
  }

  lemma {:induction false} JoinSnoc(xs: seq<string>, x: string, sep: char)
    requires |xs| > 0
    ensures Join(xs + [x], sep) == Join(xs, sep) + [sep] + x
  {
    if |xs| == 1 {
      assert (xs + [x])[1..] == [x];
    } else {
      JoinSnoc(xs[1..], x, sep);
      assert (xs + [x])[1..] == xs[1..] + [x];
    }
  }

  lemma {:induction false} SplitAllFree(x: string, sep: char)
    requires sep !in x
    ensures SplitAll(x, sep) == [x]
    decreases |x|
  {
    if |x| > 0 {
      SplitAllFree(x[1..], sep);
      assert [x[0]] + x[1..] == x;
    }
  }

  lemma {:induction false} SplitAllSeam(x: string, sep: char, t: string)
    requires sep !in x
    ensures SplitAll(x + [sep] + t, sep) == [x] + SplitAll(t, sep)
    decreases |x|
  {
    if |x| == 0 {
      assert ([sep] + t)[1..] == t;
    } else {
      assert (x + [sep] + t)[1..] == x[1..] + [sep] + t;
      SplitAllSeam(x[1..], sep, t);
      assert [x[0]] + x[1..] == x;
    }
  }

  /** Splitting undoes joining when no piece holds the separator. */
  lemma {:induction false} SplitJoin(xs: seq<string>, sep: char)
    requires |xs| > 0
    requires forall k :: 0 <= k < |xs| ==> sep !in xs[k]
    ensures SplitAll(Join(xs, sep), sep) == xs
  {
    if |xs| == 1 {
      SplitAllFree(xs[0], sep);
    } else {
      SplitJoin(xs[1..], sep);
      SplitAllSeam(xs[0], sep, Join(xs[1..], sep));
      assert [xs[0]] + xs[1..] == xs;
    }
  }

  lemma {:induction false} JoinHasSep(xs: seq<string>, sep: char)
    requires |xs| > 1
    ensures sep in Join(xs, sep)
  {
    assert Join(xs, sep)[|xs[0]|] == sep;
  }

  lemma {:induction false} JoinFree(xs: seq<string>, sep: char, c: char)
    requires |xs| > 0 && c != sep
    requires forall k :: 0 <= k < |xs| ==> c !in xs[k]
    ensures c !in Join(xs, sep)
  {
    if |xs| > 1 {
      JoinFree(xs[1..], sep, c);
    }
  }

  /** No piece of a split holds the separator or a character absent from the input. */
  lemma {:induction false} SplitAllPieces(s: string, sep: char, c: char)
    requires c !in s || c == sep
    ensures forall k :: 0 <= k < |SplitAll(s, sep)| ==> c !in SplitAll(s, sep)[k]
    decreases |s|
  {
    if |s| > 0 {
      SplitAllPieces(s[1..], sep, c);
    }
  }

  lemma JavaSplitPieces(s: string, sep: char, c: char)
    requires c !in s || (c == sep && sep in s)
    ensures forall k :: 0 <= k < |JavaSplit(s, sep)| ==> c !in JavaSplit(s, sep)[k]
  {
    if sep in s {
      SplitAllPieces(s, sep, c);
    }
  }

  /** The first piece of a split, when there is one, is the text before the first separator. */
  lemma JavaSplitHead(s: string, sep: char)
    ensures |JavaSplit(s, sep)| > 0 ==> JavaSplit(s, sep)[0] == if sep in s then s[..FirstIndex(s, sep)] else s
  {
    if sep in s {
      var k := FirstIndex(s, sep);
      assert s == s[..k] + [sep] + s[k + 1..];
      SplitAllSeam(s[..k], sep, s[k + 1..]);
    }
  }

  /**
   * Splitting a join of pieces, none holding the separator and the last one non-empty,
   * gives the pieces back.
   */
  lemma JavaSplitJoin(xs: seq<string>, sep: char)
    requires |xs| > 0 && xs[|xs| - 1] != ""
    requires forall k :: 0 <= k < |xs| ==> sep !in xs[k]
    ensures JavaSplit(Join(xs, sep), sep) == xs
  {
    SplitJoin(xs, sep);
    if |xs| > 1 {
      JoinHasSep(xs, sep);
    }
  }

  // ---------------------------------------------------------------------------
  // Decimal numerals

  predicate IsDigit(c: char) {
    '0' <= c <= '9'
  }

  predicate AllDigits(s: string) {
    forall k :: 0 <= k < |s| ==> IsDigit(s[k])
  }

  function DigitValue(c: char): nat
    requires IsDigit(c)
  {
    (c - '0') as nat
  }

  /** The value of a run of decimal digits, most significant first. */
  function DigitsValue(s: string): nat
    requires AllDigits(s)
  {
    if |s| == 0 then 0 else 10 * DigitsValue(s[..|s| - 1]) + DigitValue(s[|s| - 1])
  }

  function DigitChar(d: nat): (c: char)
    requires d < 10
    ensures IsDigit(c) && DigitValue(c) == d
  {
    ('0' as int + d) as char
  }

  /** `Long.toString` of a non-negative value. */
  function NatToString(n: nat): (s: string)
    ensures |s| > 0 && AllDigits(s)
    ensures DigitsValue(s) == n
  {
    if n < 10 then [DigitChar(n)]
    else
      var s := NatToString(n / 10) + [DigitChar(n % 10)];
      assert s[..|s| - 1] == NatToString(n / 10);
      s
  }

  /** `Integer.toString` / `Long.toString`. */
  function IntToString(n: int): (s: string)
    ensures |s| > 0
  {
    if n < 0 then "-" + NatToString(-n) else NatToString(n)
  }

  lemma IntToStringIsCell(n: int)
    ensures ',' !in IntToString(n) && '\n' !in IntToString(n)
  {
    var s := IntToString(n);
    var d := NatToString(if n < 0 then -n else n);
    assert forall k :: 0 <= k < |d| ==> IsDigit(d[k]);
    if n < 0 {
      assert s == "-" + d;
    }
  }

  const IntMin: int := -0x8000_0000
  const IntMax: int := 0x7FFF_FFFF

  /** An optional sign followed by digits, the shape both parsers accept. */
  function ParseSignedDigits(s: string): Option<int> {
    if |s| > 0 && (s[0] == '-' || s[0] == '+') then
      var d := s[1..];
      if |d| > 0 && AllDigits(d) then
        Some(if s[0] == '-' then -(DigitsValue(d) as int) else DigitsValue(d))
      else None
    else if |s| > 0 && AllDigits(s) then Some(DigitsValue(s))
    else None
  }

  /** `Integer.parseInt`: a signed decimal in the 32-bit range, else NumberFormatException. */
  function ParseInt32(s: string): (r: Result<int, Error>)
    ensures r.Ok? ==> IntMin <= r.value <= IntMax
  {
    match ParseSignedDigits(s)
    case None => Err(NumberFormat)
    case Some(v) => if IntMin <= v <= IntMax then Ok(v) else Err(NumberFormat)
  }

  lemma ParseSignedDigitsRoundTrip(n: int)
    ensures ParseSignedDigits(IntToString(n)) == Some(n)
  {
    var s := IntToString(n);
    if n < 0 {
      assert s[1..] == NatToString(-n);
    } else {
      assert s[0] == NatToString(n)[0];
      assert IsDigit(s[0]);
    }
  }

  /** `Integer.parseInt` reads back what `Integer.toString` writes. */
  lemma ParseInt32RoundTrip(n: int)
    requires IntMin <= n <= IntMax
    ensures ParseInt32(IntToString(n)) == Ok(n)
  {
    ParseSignedDigitsRoundTrip(n);
  }

  /** A line holding something other than an optional sign and digits is rejected. */
  lemma ParseInt32Rejects(s: string, k: int)
    requires 0 <= k < |s| && !IsDigit(s[k]) && !(k == 0 && (s[0] == '-' || s[0] == '+'))
    ensures ParseInt32(s) == Err(NumberFormat)
  {
    if |s| > 0 && (s[0] == '-' || s[0] == '+') {
      assert s[1..][k - 1] == s[k];
    }
  }

  /** The characters `String.trim` removes: everything up to and including space. */
  predicate IsBlank(c: char) {
    c <= ' '
  }

  function TrimStart(s: string): (r: string)
    ensures |r| == 0 || !IsBlank(r[0])
    ensures |r| <= |s| && r == s[|s| - |r|..]
  {
    if |s| > 0 && IsBlank(s[0]) then TrimStart(s[1..]) else s
  }

  function TrimEnd(s: string): (r: string)
    ensures |r| == 0 || !IsBlank(r[|r| - 1])
    ensures |r| <= |s| && r == s[..|r|]
  {
    if |s| > 0 && IsBlank(s[|s| - 1]) then TrimEnd(s[..|s| - 1]) else s
  }

  function Trim(s: string): string {
    TrimEnd(TrimStart(s))
  }

  function Pow10(n: nat): (r: nat)
    ensures r >= 1
  {
    if n == 0 then 1 else 10 * Pow10(n - 1)
  }

  /** Digits, optionally followed by a point and more digits, at least one digit in all. */
  function ParseUnsignedDecimal(s: string): Option<real> {
    if '.' in s then
      var k := FirstIndex(s, '.');
      var whole := s[..k];
      var frac := s[k + 1..];
      if AllDigits(whole) && AllDigits(frac) && |whole| + |frac| > 0 then
        Some(DigitsValue(whole) as real + DigitsValue(frac) as real / Pow10(|frac|) as real)
      else None
    else if |s| > 0 && AllDigits(s) then Some(DigitsValue(s) as real)
    else None
  }

  function FirstIndex(s: string, c: char): (k: nat)
    requires c in s
    ensures k < |s| && s[k] == c && c !in s[..k]
  {
    if s[0] == c then 0 else 1 + FirstIndex(s[1..], c)
  }

  /**
   * `Float.parseFloat` restricted to plain decimals: surrounding blanks are trimmed,
   * an optional sign, digits with an optional fractional part. Anything else is a
   * NumberFormatException.
   */
  function ParseFloat(s: string): (r: Result<real, Error>)
    ensures r.Err? ==> r.error == NumberFormat
  {
    ParseTrimmed(Trim(s))
  }

  /** The sign and the decimal, once the blanks are gone. */
  function ParseTrimmed(t: string): Result<real, Error> {
    if |t| > 0 && (t[0] == '-' || t[0] == '+') then
      match ParseUnsignedDecimal(t[1..])
      case None => Err(NumberFormat)
      case Some(x) => Ok(if t[0] == '-' then -x else x)
    else
      match ParseUnsignedDecimal(t)
      case None => Err(NumberFormat)
      case Some(x) => Ok(x)
  }

  lemma DigitsTrimmed(d: string)
    requires |d| > 0 && AllDigits(d)
    ensures Trim(d) == d
  {
    assert !IsBlank(d[0]) && !IsBlank(d[|d| - 1]);
  }

  lemma TrimNonBlankEnds(s: string)
    requires |s| > 0 && !IsBlank(s[0]) && !IsBlank(s[|s| - 1])
    ensures Trim(s) == s
  {
  }

  lemma ParseUnsignedDigits(d: string)
    requires |d| > 0 && AllDigits(d)
    ensures ParseUnsignedDecimal(d) == Some(DigitsValue(d) as real)
  {
  }

  /** Unsigned digits parse as their value. */
  lemma ParseFloatDigits(d: string)
    requires |d| > 0 && AllDigits(d)
    ensures ParseFloat(d) == Ok(DigitsValue(d) as real)
  {
    assert IsDigit(d[0]) && IsDigit(d[|d| - 1]);
    TrimNonBlankEnds(d);
    ParseUnsignedDigits(d);
    assert d[0] != '-' && d[0] != '+';
    assert ParseTrimmed(d) == Ok(DigitsValue(d) as real);
  }

  /** A minus sign before digits negates their value. */
  lemma ParseFloatNegatedDigits(d: string)
    requires |d| > 0 && AllDigits(d)
    ensures ParseFloat("-" + d) == Ok(-(DigitsValue(d) as real))
  {
    ParseUnsignedDigits(d);
    ParseFloatNegated(d, DigitsValue(d) as real);
  }

  lemma ParseFloatNegated(d: string, x: real)
    requires |d| > 0 && !IsBlank(d[|d| - 1]) && ParseUnsignedDecimal(d) == Some(x)
    ensures ParseFloat("-" + d) == Ok(-x)
  {
    TrimNegated(d);
    ParseTrimmedNegated(d, x);
  }

  lemma TrimNegated(d: string)
    requires |d| > 0 && !IsBlank(d[|d| - 1])
    ensures Trim("-" + d) == "-" + d
  {
    var s := "-" + d;
    assert s[0] == '-' && s[|s| - 1] == d[|d| - 1];
    TrimNonBlankEnds(s);
  }

  lemma ParseTrimmedNegated(d: string, x: real)
    requires ParseUnsignedDecimal(d) == Some(x)
    ensures ParseTrimmed("-" + d) == Ok(-x)
  {
    assert ("-" + d)[1..] == d;
  }

  /** `Float.parseFloat` reads an integer written by `Integer.toString` as that number. */
  lemma ParseFloatInteger(n: int)
    ensures ParseFloat(IntToString(n)) == Ok(n as real)
  {
    if n < 0 {
      ParseFloatNegatedDigits(NatToString(-n));
    } else {
      ParseFloatDigits(NatToString(n));
    }
  }

  /** Blanks after a non-blank end are what `trim` removes at the end. */
  lemma {:induction false} TrimEndBlanks(d: string, blanks: string)
    requires |d| > 0 && !IsBlank(d[|d| - 1])
    requires forall k :: 0 <= k < |blanks| ==> IsBlank(blanks[k])
    ensures TrimEnd(d + blanks) == d
    decreases |blanks|
  {
    if |blanks| == 0 {
      assert d + blanks == d;
    } else {
      var s := d + blanks;
      assert s[..|s| - 1] == d + blanks[..|blanks| - 1];
      assert IsBlank(s[|s| - 1]);
      TrimEndBlanks(d, blanks[..|blanks| - 1]);
    }
  }

  /** Trailing blanks (as in `"23 "` before a `%`) do not stop the parse. */
  lemma ParseFloatTrailingBlank(n: nat, blanks: string)
    requires forall k :: 0 <= k < |blanks| ==> IsBlank(blanks[k])
    ensures ParseFloat(NatToString(n) + blanks) == Ok(n as real)
  {
    var d := NatToString(n);
    var s := d + blanks;
    assert IsDigit(d[0]) && IsDigit(d[|d| - 1]);
    TrimEndBlanks(d, blanks);
    assert s[0] == d[0];
    assert TrimStart(s) == s;
    TrimNonBlankEnds(d);
    ParseFloatDigits(d);
    assert ParseFloat(s) == ParseTrimmed(d);
  }

  // ---------------------------------------------------------------------------
  // String.toLowerCase, on the ASCII letters

  function LowerChar(c: char): char {
    if 'A' <= c <= 'Z' then (c as int + 32) as char else c
  }

  function Lower(s: string): (r: string)
    ensures |r| == |s|
  {
    seq(|s|, i requires 0 <= i < |s| => LowerChar(s[i]))
  }

  predicate NoUpper(p: string) {
    forall k :: 0 <= k < |p| ==> !('A' <= p[k] <= 'Z')
  }

  /** Lower-casing never loses an occurrence of a lower-case pattern. */
  lemma LowerKeepsMatch(s: string, p: string)
    requires NoUpper(p) && Contains(s, p)
    ensures Contains(Lower(s), p)
  {
    var i :| 0 <= i <= |s| - |p| && OccursAt(s, p, i);
    assert Lower(s)[i..i + |p|] == p;
    assert OccursAt(Lower(s), p, i);
  }
}
