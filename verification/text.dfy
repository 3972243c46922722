/** The Python string operations the core relies on: `str.find`-style search,
    `str.strip()` / `str.strip(chars)`, `str.split(sep)`, `sep.join`, `str(int)`
    and the decimal part of `float(str)`. */
module Text {
  import opened Basics

  // ---------------------------------------------------------------------
  // Search

  /** `pat` occurs in `s` starting at index `k`. */
  predicate OccursAt(s: string, pat: string, k: int)
  {
    0 <= k && k + |pat| <= |s| && s[k..k + |pat|] == pat
  }

  /** The first index at or after `from` where `pat` occurs (`s.find(pat, from)`). */
  function FindFrom(s: string, pat: string, from: nat): (r: Option<nat>)
    ensures r.Some? ==> from <= r.value && OccursAt(s, pat, r.value)
    ensures r.Some? ==> forall k :: from <= k < r.value ==> !OccursAt(s, pat, k)
    ensures r.None? ==> forall k :: from <= k ==> !OccursAt(s, pat, k)
    decreases |s| - from
  {
    if from + |pat| > |s| then None
    else if s[from..from + |pat|] == pat then Some(from)
    else FindFrom(s, pat, from + 1)
  }

  /** Python's `sub in s` on strings. */
  function Contains(s: string, sub: string): (r: bool)
    ensures r <==> exists k :: OccursAt(s, sub, k)
  {
    var f := FindFrom(s, sub, 0);
    assert f.Some? ==> OccursAt(s, sub, f.value);
    f.Some?
  }

  /** A pattern that begins with '<' and has no other '<' (every tag of the
      protocol has this shape). */
  predicate TagShaped(pat: string)
  {
    |pat| > 0 && pat[0] == '<' && forall i :: 1 <= i < |pat| ==> pat[i] != '<'
  }

  /** A search from `from` for a tag-shaped pattern lands on an occurrence
      at `t` when no occurrence lies wholly inside `s[from..t]`: an earlier
      match overlapping the one at `t` would need a second '<' in `pat`. */
  lemma {:induction false} FindAt(s: string, pat: string, from: nat, t: nat)
    requires TagShaped(pat)
    requires from <= t && OccursAt(s, pat, t)
    requires forall k :: from <= k && k + |pat| <= t ==> !OccursAt(s, pat, k)
    ensures FindFrom(s, pat, from) == Some(t)
  {
    forall k | from <= k < t
      ensures !OccursAt(s, pat, k)
    {
      if k + |pat| > t && k + |pat| <= |s| {
        var d := t - k;
        assert s[k..k + |pat|][d] == s[t] == '<';
        assert pat[d] != '<';
      }
    }
  }

  // ---------------------------------------------------------------------
  // Stripping

  /** Characters for which Python's `str.isspace()` holds; `str.strip()`
      with no argument removes exactly these. */
  predicate IsSpace(c: char)
  {
    c == ' ' || ('\t' <= c <= '\r') || ('\U{1c}' <= c <= '\U{1f}')
    || c == '\U{85}' || c == '\U{a0}' || c == '\U{1680}'
    || ('\U{2000}' <= c <= '\U{200a}') || c == '\U{2028}' || c == '\U{2029}'
    || c == '\U{202f}' || c == '\U{205f}' || c == '\U{3000}'
  }

  /** `r` is `s` with a run of `p`-characters removed on each side, and
      neither end of `r` is a `p`-character; `a` is where `r` starts in `s`. */
  ghost predicate IsTrimOf(s: string, r: string, a: int, p: char -> bool)
  {
    && 0 <= a && a + |r| <= |s| && r == s[a..a + |r|]
    && (forall i :: 0 <= i < a ==> p(s[i]))
    && (forall i :: a + |r| <= i < |s| ==> p(s[i]))
    && (r != [] ==> !p(r[0]) && !p(r[|r| - 1]))
  }

  /** The first index at or after `from` whose character is not a `p`-character. */
  function SkipLeft(s: string, p: char -> bool, from: nat): (k: nat)
    requires from <= |s|
    ensures from <= k <= |s|
    ensures forall i :: from <= i < k ==> p(s[i])
    ensures k < |s| ==> !p(s[k])
    decreases |s| - from
  {
    if from < |s| && p(s[from]) then SkipLeft(s, p, from + 1) else from
  }

  /** Scanning down from `hi`, but not below `lo`: the end of the last
      character in `s[lo..hi]` that is not a `p`-character. */
  function SkipRight(s: string, p: char -> bool, lo: nat, hi: nat): (k: nat)
    requires lo <= hi <= |s|
    ensures lo <= k <= hi
    ensures forall i :: k <= i < hi ==> p(s[i])
    ensures k > lo ==> !p(s[k - 1])
    decreases hi
  {
    if hi > lo && p(s[hi - 1]) then SkipRight(s, p, lo, hi - 1) else hi
  }

  /** Python's `s.strip(chars)` with the character class `p`: the left end
      is found first, then the right end is found scanning down to it. */
  function StripBy(s: string, p: char -> bool): string
  {
    var a := SkipLeft(s, p, 0);
    var b := SkipRight(s, p, a, |s|);
    s[a..b]
  }

  /** What stripping removes: a `p`-run at each end, and no more. */
  lemma StripByTrims(s: string, p: char -> bool)
    ensures IsTrimOf(s, StripBy(s, p), SkipLeft(s, p, 0), p)
  {
    var a := SkipLeft(s, p, 0);
    var b := SkipRight(s, p, a, |s|);
    assert b > a ==> !p(s[b - 1]);
  }

  /** Python's `s.strip()`. */
  function Strip(s: string): string
  {
    StripBy(s, IsSpace)
  }

  /** The trim of a string is unique: whatever way one cuts `p`-runs off
      both ends so that neither end is left a `p`-character, one gets the
      same string. */
  lemma {:induction false} TrimUnique(s: string, r1: string, a1: int, r2: string, a2: int, p: char -> bool)
    requires IsTrimOf(s, r1, a1, p) && IsTrimOf(s, r2, a2, p)
    ensures r1 == r2
  {
    // the first and last characters kept are the first and last non-`p` ones
    assert r1 != [] ==> s[a1] == r1[0] && s[a1 + |r1| - 1] == r1[|r1| - 1];
    assert r2 != [] ==> s[a2] == r2[0] && s[a2 + |r2| - 1] == r2[|r2| - 1];
    assert r1 != [] && r2 != [] ==> a1 == a2 && |r1| == |r2|;
  }

  /** Stripping a string whose ends are already not `p`-characters leaves it
      unchanged; in particular stripping is idempotent. */
  lemma StripByNoop(s: string, p: char -> bool)
    requires s != [] ==> !p(s[0]) && !p(s[|s| - 1])
    ensures StripBy(s, p) == s
  {
    assert IsTrimOf(s, s, 0, p);
    StripByTrims(s, p);
    TrimUnique(s, StripBy(s, p), SkipLeft(s, p, 0), s, 0, p);
  }

  lemma StripByIdempotent(s: string, p: char -> bool)
    ensures StripBy(StripBy(s, p), p) == StripBy(s, p)
  {
    StripByNoop(StripBy(s, p), p);
  }

  /** Stripping `pre + x + post` gives `x` when `pre` and `post` consist of
      `p`-characters and `x` neither begins nor ends with one. */
  lemma StripByFrame(pre: string, x: string, post: string, p: char -> bool)
    requires x != [] && !p(x[0]) && !p(x[|x| - 1])
    requires forall i :: 0 <= i < |pre| ==> p(pre[i])
    requires forall i :: 0 <= i < |post| ==> p(post[i])
    ensures StripBy(pre + x + post, p) == x
  {
    var s := pre + x + post;
    assert s[|pre|..|pre| + |x|] == x;
    forall i | |pre| + |x| <= i < |s| ensures p(s[i]) {
      assert s[i] == post[i - |pre| - |x|];
    }
    assert IsTrimOf(s, x, |pre|, p);
    StripByTrims(s, p);
    TrimUnique(s, StripBy(s, p), SkipLeft(s, p, 0), x, |pre|, p);
  }

  // ---------------------------------------------------------------------
  // Splitting and joining

  function CountChar(s: string, c: char): nat
  {
    if s == [] then 0 else (if s[0] == c then 1 else 0) + CountChar(s[1..], c)
  }

  /** Python's `s.split(sep)` with an explicit one-character separator:
      every occurrence splits, empty pieces are kept. */
  function Split(s: string, sep: char): (r: seq<string>)
    ensures |r| == CountChar(s, sep) + 1
    ensures forall i :: 0 <= i < |r| ==> sep !in r[i]
    decreases |s|
  {
    if s == [] then [""]
    else if s[0] == sep then [""] + Split(s[1..], sep)
    else
      var rest := Split(s[1..], sep);
      [[s[0]] + rest[0]] + rest[1..]
  }

  /** Python's `sep.join(xs)`. */
  function Join(xs: seq<string>, sep: string): string
  {
    if xs == [] then ""
    else if |xs| == 1 then xs[0]
    else xs[0] + sep + Join(xs[1..], sep)
  }

  /** Joining the pieces of a split with the same separator gives the string back. */
  lemma {:induction false} JoinSplit(s: string, sep: char)
    ensures Join(Split(s, sep), [sep]) == s
    decreases |s|
  {
    if s == [] {
    } else if s[0] == sep {
      JoinSplit(s[1..], sep);
      var rest := Split(s[1..], sep);
      assert Split(s, sep) == [""] + rest;
      assert Join([""] + rest, [sep]) == "" + [sep] + Join(rest, [sep]);
    } else {
      JoinSplit(s[1..], sep);
      var rest := Split(s[1..], sep);
      var h := [s[0]] + rest[0];
      assert Split(s, sep) == [h] + rest[1..];
      if |rest| == 1 {
        assert Join([h] + rest[1..], [sep]) == h;
        assert rest == [rest[0]];
      } else {
        assert ([h] + rest[1..])[1..] == rest[1..];
        assert Join([h] + rest[1..], [sep]) == h + [sep] + Join(rest[1..], [sep]);
        assert rest == [rest[0]] + rest[1..];
        assert Join(rest, [sep]) == rest[0] + [sep] + Join(rest[1..], [sep]);
      }
    }
  }

  /** Splitting `x + tail`, where `x` holds no separator, glues `x` onto the
      first piece of `tail`. */
  lemma {:induction false} SplitGlue(x: string, tail: string, sep: char)
    requires sep !in x
    ensures Split(x + tail, sep) == [x + Split(tail, sep)[0]] + Split(tail, sep)[1..]
    decreases |x|
  {
    if x != [] {
      assert x[0] in x && sep !in x[1..];
      SplitGlue(x[1..], tail, sep);
      var s := x + tail;
      assert s[1..] == x[1..] + tail;
      assert s[0] == x[0] != sep;
      var rest := Split(s[1..], sep);
      var t := Split(tail, sep);
      assert rest == [x[1..] + t[0]] + t[1..];
      assert rest[0] == x[1..] + t[0] && rest[1..] == t[1..];
      assert Split(s, sep) == [[s[0]] + rest[0]] + rest[1..];
      assert x == [x[0]] + x[1..];
      assert [x[0]] + (x[1..] + t[0]) == x + t[0];
    } else {
      var t := Split(tail, sep);
      assert x + tail == tail && x + t[0] == t[0];
      assert t == [t[0]] + t[1..];
    }
  }

  /** Splitting a join of separator-free pieces gives the pieces back. */
  lemma {:induction false} SplitJoin(xs: seq<string>, sep: char)
    requires |xs| >= 1
    requires forall i :: 0 <= i < |xs| ==> sep !in xs[i]
    ensures Split(Join(xs, [sep]), sep) == xs
    decreases |xs|
  {
    if |xs| == 1 {
      SplitGlue(xs[0], "", sep);
      assert xs[0] + "" == xs[0];
    } else {
      SplitJoin(xs[1..], sep);
      var tail := [sep] + Join(xs[1..], [sep]);
      assert Join(xs, [sep]) == xs[0] + tail;
      SplitGlue(xs[0], tail, sep);
      assert tail[0] == sep && tail[1..] == Join(xs[1..], [sep]);
      assert Split(tail, sep) == [""] + Split(tail[1..], sep);
      assert xs[0] + "" == xs[0];
      assert xs == [xs[0]] + xs[1..];
    }
  }

  // ---------------------------------------------------------------------
  // Decimal numerals

  predicate IsDigit(c: char)
  {
    '0' <= c <= '9'
  }

  predicate AllDigits(s: string)
  {
    forall i :: 0 <= i < |s| ==> IsDigit(s[i])
  }

  function DigitChar(d: nat): (c: char)
    requires d < 10
    ensures IsDigit(c) && (c as int) - ('0' as int) == d
  {
    ('0' as int + d) as char
  }

  /** Python's `str(n)` for a non-negative integer. */
  function NatToDecimal(n: nat): (r: string)
    ensures r != [] && AllDigits(r)
    decreases n
  {
    if n < 10 then [DigitChar(n)] else NatToDecimal(n / 10) + [DigitChar(n % 10)]
  }

  /** Python's `str(i)` for any integer. */
  function IntToDecimal(i: int): string
  {
    if i < 0 then "-" + NatToDecimal(-i) else NatToDecimal(i)
  }

  /** The value of a string of decimal digits, most significant first. */
  function DigitsValue(s: string): nat
    requires AllDigits(s)
    decreases |s|
  {
    if s == [] then 0
    else DigitsValue(s[..|s| - 1]) * 10 + ((s[|s| - 1] as int) - ('0' as int))
  }

  function Pow10(k: nat): (r: nat)
    ensures r >= 1
  {
    if k == 0 then 1 else 10 * Pow10(k - 1)
  }

  /** Reading back the decimal numeral of `n` gives `n`. */
  lemma {:induction false} DigitsValueOfDecimal(n: nat)
    ensures DigitsValue(NatToDecimal(n)) == n
    decreases n
  {
    if n >= 10 {
      DigitsValueOfDecimal(n / 10);
      var s := NatToDecimal(n);
      assert s[..|s| - 1] == NatToDecimal(n / 10);
    }
  }

  /** The part of Python's `float(t)` covering plain decimal numerals:
      an optional sign, digits, and an optional '.' with more digits, at least
      one digit in all. `None` stands for the `ValueError` `float` raises. */
  function ParseFloat(t: string): (r: Option<real>)
  {
    if t != [] && (t[0] == '-' || t[0] == '+') then
      match ParseUnsigned(t[1..])
      case None => None
      case Some(x) => Some(if t[0] == '-' then -x else x)
    else ParseUnsigned(t)
  }

  function ParseUnsigned(t: string): (r: Option<real>)
  {
    var dot := FindFrom(t, ".", 0);
    var whole := if dot.Some? then t[..dot.value] else t;
    var frac := if dot.Some? then t[dot.value + 1..] else "";
    if (whole == [] && frac == []) || !AllDigits(whole) || !AllDigits(frac) then None
    else Some(DigitsValue(whole) as real + DigitsValue(frac) as real / Pow10(|frac|) as real)
  }

  /** `float(str(n)) == n` for every non-negative integer. */
  lemma DecimalRoundTrip(n: nat)
    ensures ParseFloat(NatToDecimal(n)) == Some(n as real)
  {
    var s := NatToDecimal(n);
    assert s[0] != '-' && s[0] != '+' by { assert IsDigit(s[0]); }
    forall k | 0 <= k && k + 1 <= |s| ensures !OccursAt(s, ".", k) {
      assert s[k..k + 1][0] == s[k] && IsDigit(s[k]);
    }
    DigitsValueOfDecimal(n);
  }
}
