/** String primitives the handlers of parse_dataset.py rely on: Python's `in` on strings,
    `str.lower()`, `str.split(sep)`, `"".join`, `str.replace(c, "")`, the `\d+` scan of
    `re.findall`, and `int()` / `float()` on short numeric tokens. */
module Text {

  datatype Option<T> = None | Some(value: T)

  const NBSP: char := '\U{00A0}'

  predicate IsDigit(c: char) { '0' <= c <= '9' }

  predicate AllDigits(s: string) { forall i :: 0 <= i < |s| ==> IsDigit(s[i]) }

  predicate NoDigits(s: string) { forall i :: 0 <= i < |s| ==> !IsDigit(s[i]) }

  // ---------------------------------------------------------------------------------------------
  // Substring test: Python's `p in s`

  predicate StartsWith(s: string, p: string) { |p| <= |s| && s[..|p|] == p }

  /** `p in s` (the empty string occurs in every string). */
  predicate Contains(s: string, p: string)
    decreases |s|
  {
    StartsWith(s, p) || (s != [] && Contains(s[1..], p))
  }

  predicate OccursAt(s: string, p: string, i: int) { 0 <= i && i + |p| <= |s| && s[i..i + |p|] == p }

  /** The scanning definition agrees with "p occurs at some offset of s". */
  lemma {:induction false} ContainsIff(s: string, p: string)
    ensures Contains(s, p) <==> exists i :: OccursAt(s, p, i)
    decreases |s|
  {
    if s == [] {
      if StartsWith(s, p) {
        assert OccursAt(s, p, 0);
      }
      if exists i :: OccursAt(s, p, i) {
        var i :| OccursAt(s, p, i);
        assert StartsWith(s, p);
      }
    } else {
      ContainsIff(s[1..], p);
      if StartsWith(s, p) {
        assert OccursAt(s, p, 0);
      } else if Contains(s[1..], p) {
        var i :| OccursAt(s[1..], p, i);
        assert s[i + 1..i + 1 + |p|] == s[1..][i..i + |p|];
        assert OccursAt(s, p, i + 1);
      }
      if exists i :: OccursAt(s, p, i) {
        var i :| OccursAt(s, p, i);
        if i == 0 {
          assert StartsWith(s, p);
        } else {
          assert s[1..][i - 1..i - 1 + |p|] == s[i..i + |p|];
          assert OccursAt(s[1..], p, i - 1);
        }
      }
    }
  }

  /** Exhibits an occurrence: the usual way to show `p in s` for a given text. */
  lemma ContainsAt(s: string, p: string, i: int)
    requires OccursAt(s, p, i)
    ensures Contains(s, p)
  {
    ContainsIff(s, p);
  }

  // ---------------------------------------------------------------------------------------------
  // Lower-casing: `str.lower()` restricted to ASCII and the basic Cyrillic block

  function LowerChar(c: char): (r: char)
    ensures r == c || ('A' <= c <= 'Z') || ('\U{0400}' <= c <= '\U{042F}')
  {
    if 'A' <= c <= 'Z' then (c as int + 32) as char
    else if '\U{0410}' <= c <= '\U{042F}' then (c as int + 32) as char
    else if '\U{0400}' <= c <= '\U{040F}' then (c as int + 80) as char
    else c
  }

  /** No capital of the modelled alphabet is left, and every other character stays in place. */
  function Lower(s: string): (r: string)
    ensures |r| == |s|
    ensures forall i :: 0 <= i < |r| ==> !('A' <= r[i] <= 'Z') && !('\U{0400}' <= r[i] <= '\U{042F}')
    ensures forall i :: 0 <= i < |s| && !('A' <= s[i] <= 'Z') && !('\U{0400}' <= s[i] <= '\U{042F}') ==> r[i] == s[i]
  {
    seq(|s|, i requires 0 <= i < |s| => LowerChar(s[i]))
  }

  /** Lower-casing twice is lower-casing once: the keyword tests see no difference between a
      text and its lower-cased form. */
  lemma LowerIdempotent(s: string)
    ensures Lower(Lower(s)) == Lower(s)
  {
  }

  // ---------------------------------------------------------------------------------------------
  // `s.split(d)` for a one-character separator, and its inverse `d.join(parts)`

  function Split(s: string, d: char): (parts: seq<string>)
    ensures |parts| >= 1
    decreases |s|
  {
    if s == [] then [[]]
    else
      var rest := Split(s[1..], d);
      if s[0] == d then [[]] + rest
      else [[s[0]] + rest[0]] + rest[1..]
  }

  function Join(parts: seq<string>, d: char): string
    requires |parts| >= 1
    decreases |parts|
  {
    if |parts| == 1 then parts[0] else parts[0] + [d] + Join(parts[1..], d)
  }

  /** `"".join(parts)` */
  function Concat(parts: seq<string>): string
    decreases |parts|
  {
    if parts == [] then [] else parts[0] + Concat(parts[1..])
  }

  /** Round trip: joining the pieces of a split with the separator gives the text back. */
  lemma {:induction false} JoinSplit(s: string, d: char)
    ensures Join(Split(s, d), d) == s
    decreases |s|
  {
    if s != [] {
      JoinSplit(s[1..], d);
      var rest := Split(s[1..], d);
      if s[0] == d {
        assert Split(s, d)[1..] == rest;
      } else if |rest| > 1 {
        assert Split(s, d)[1..] == rest[1..];
        assert Join(rest, d) == rest[0] + [d] + Join(rest[1..], d);
      }
    }
  }

  /** No piece of a split contains the separator, and there is more than one piece exactly when
      the separator occurs. */
  lemma {:induction false} SplitPieces(s: string, d: char)
    ensures forall k :: 0 <= k < |Split(s, d)| ==> d !in Split(s, d)[k]
    ensures |Split(s, d)| >= 2 <==> d in s
    decreases |s|
  {
    if s != [] {
      SplitPieces(s[1..], d);
      var rest := Split(s[1..], d);
      assert d in s <==> s[0] == d || d in s[1..] by {
        assert s == [s[0]] + s[1..];
      }
      if s[0] != d {
        assert Split(s, d)[0] == [s[0]] + rest[0];
        forall k | 1 <= k < |Split(s, d)| ensures d !in Split(s, d)[k] {
          assert Split(s, d)[k] == rest[k];
        }
      } else {
        forall k | 1 <= k < |Split(s, d)| ensures d !in Split(s, d)[k] {
          assert Split(s, d)[k] == rest[k - 1];
        }
      }
    }
  }

  /** The first piece of a split is the text up to the first separator. */
  lemma {:induction false} SplitHead(a: string, d: char, b: string)
    requires d !in a
    ensures Split(a + [d] + b, d)[0] == a
    decreases |a|
  {
    if a == [] {
      assert a + [d] + b == [d] + b;
    } else {
      SplitHead(a[1..], d, b);
      assert (a + [d] + b)[1..] == a[1..] + [d] + b;
    }
  }

  /** A text without the separator splits into itself alone. */
  lemma {:induction false} SplitNone(s: string, d: char)
    requires d !in s
    ensures Split(s, d) == [s]
    decreases |s|
  {
    if s != [] {
      SplitNone(s[1..], d);
      assert [s[0]] + s[1..] == s;
    }
  }

  /** `s.replace(c, "")` */
  function RemoveAll(s: string, c: char): (r: string)
    ensures c !in r
    ensures |r| <= |s|
    decreases |s|
  {
    if s == [] then [] else (if s[0] == c then [] else [s[0]]) + RemoveAll(s[1..], c)
  }

  /** Splitting on a character and joining with "" deletes that character. */
  lemma {:induction false} ConcatSplit(s: string, d: char)
    ensures Concat(Split(s, d)) == RemoveAll(s, d)
    decreases |s|
  {
    if s != [] {
      ConcatSplit(s[1..], d);
      var rest := Split(s[1..], d);
      if s[0] == d {
        assert Split(s, d)[1..] == rest;
      } else {
        assert Split(s, d)[1..] == rest[1..];
        assert Concat(rest) == rest[0] + Concat(rest[1..]);
      }
    }
  }

  /** `s[:k]` */
  function Prefix(s: string, k: nat): (r: string)
    ensures |r| == if |s| < k then |s| else k
    ensures r == s[..|r|]
  {
    if |s| <= k then s else s[..k]
  }

  // ---------------------------------------------------------------------------------------------
  // `re.findall(r'\d+', s)` over ASCII digits

  /** Length of the run of digits at the front of s. */
  function LeadingDigits(s: string): (k: nat)
    ensures k <= |s|
    ensures forall i :: 0 <= i < k ==> IsDigit(s[i])
    ensures k < |s| ==> !IsDigit(s[k])
    decreases |s|
  {
    if s != [] && IsDigit(s[0]) then 1 + LeadingDigits(s[1..]) else 0
  }

  /** The maximal runs of digits of s, left to right. */
  function DigitRuns(s: string): (runs: seq<string>)
    ensures forall k :: 0 <= k < |runs| ==> runs[k] != [] && AllDigits(runs[k])
    decreases |s|
  {
    if s == [] then []
    else if !IsDigit(s[0]) then DigitRuns(s[1..])
    else
      var k := LeadingDigits(s);
      [s[..k]] + DigitRuns(s[k..])
  }

  /** Text without digits contributes no run and does not disturb the runs after it. */
  lemma {:induction false} RunsSkip(w: string, s: string)
    requires NoDigits(w)
    ensures DigitRuns(w + s) == DigitRuns(s)
    decreases |w|
  {
    if w != [] {
      RunsSkip(w[1..], s);
      var ws := w + s;
      assert ws[0] == w[0] && !IsDigit(ws[0]);
      assert ws[1..] == w[1..] + s;
      assert DigitRuns(ws) == DigitRuns(ws[1..]);
    } else {
      assert w + s == s;
    }
  }

  lemma {:induction false} LeadingDigitsOf(d: string, s: string)
    requires AllDigits(d)
    requires s == [] || !IsDigit(s[0])
    ensures LeadingDigits(d + s) == |d|
    decreases |d|
  {
    if d != [] {
      LeadingDigitsOf(d[1..], s);
      assert (d + s)[1..] == d[1..] + s;
    }
  }

  /** A run of digits that is not followed by a digit is one whole run. */
  lemma RunsTake(d: string, s: string)
    requires d != [] && AllDigits(d)
    requires s == [] || !IsDigit(s[0])
    ensures DigitRuns(d + s) == [d] + DigitRuns(s)
  {
    LeadingDigitsOf(d, s);
    assert (d + s)[..|d|] == d;
    assert (d + s)[|d|..] == s;
  }

  /** Concatenating the runs gives exactly the digits of s, in order. */
  lemma {:induction false} RunsAreTheDigits(s: string)
    ensures Concat(DigitRuns(s)) == KeepDigits(s)
    decreases |s|
  {
    if s != [] {
      if !IsDigit(s[0]) {
        RunsAreTheDigits(s[1..]);
      } else {
        var k := LeadingDigits(s);
        RunsAreTheDigits(s[k..]);
        assert DigitRuns(s)[1..] == DigitRuns(s[k..]);
        DigitsKept(s[..k], s[k..]);
        assert s[..k] + s[k..] == s;
      }
    }
  }

  function KeepDigits(s: string): (r: string)
    ensures AllDigits(r)
    decreases |s|
  {
    if s == [] then [] else (if IsDigit(s[0]) then [s[0]] else []) + KeepDigits(s[1..])
  }

  lemma {:induction false} DigitsKept(d: string, s: string)
    requires AllDigits(d)
    ensures KeepDigits(d + s) == d + KeepDigits(s)
    decreases |d|
  {
    if d != [] {
      DigitsKept(d[1..], s);
      var ds := d + s;
      assert ds[0] == d[0] && IsDigit(ds[0]);
      assert ds[1..] == d[1..] + s;
      assert KeepDigits(ds) == [d[0]] + KeepDigits(ds[1..]);
      assert [d[0]] + d[1..] == d;
    } else {
      assert d + s == s;
    }
  }

  // ---------------------------------------------------------------------------------------------
  // `int()` and `float()` of a token

  function DigitValue(c: char): (v: nat)
    requires IsDigit(c)
    ensures v <= 9
  {
    (c as int) - ('0' as int)
  }

  /** The decimal value of a string of digits. */
  function DigitsValue(s: string): (v: nat)
    requires AllDigits(s)
    decreases |s|
  {
    if s == [] then 0 else 10 * DigitsValue(s[..|s| - 1]) + DigitValue(s[|s| - 1])
  }

  /** A string of k digits denotes a number below 10^k. */
  lemma {:induction false} DigitsValueBound(s: string)
    requires AllDigits(s)
    ensures DigitsValue(s) < Pow10(|s|)
    decreases |s|
  {
    if s != [] {
      DigitsValueBound(s[..|s| - 1]);
    }
  }

  /** Appending a digit multiplies the value by ten and adds the digit. */
  lemma DigitsValueSnoc(s: string, c: char)
    requires AllDigits(s) && IsDigit(c)
    ensures DigitsValue(s + [c]) == 10 * DigitsValue(s) + DigitValue(c)
  {
    assert (s + [c])[..|s|] == s;
  }

  function Pow10(k: nat): (p: nat)
    ensures p >= 1
  {
    if k == 0 then 1 else 10 * Pow10(k - 1)
  }

  /** The fraction `0.s`, read digit by digit from the left. */
  function FracValue(s: string): real
    requires AllDigits(s)
    decreases |s|
  {
    if s == [] then 0.0 else (DigitValue(s[0]) as real + FracValue(s[1..])) / 10.0
  }

  /** The fractional part of a decimal is below one. */
  lemma {:induction false} FracValueBound(s: string)
    requires AllDigits(s)
    ensures 0.0 <= FracValue(s) < 1.0
    decreases |s|
  {
    if s != [] {
      FracValueBound(s[1..]);
    }
  }

  /** `int(s)`: an optional sign followed by one or more ASCII digits; anything else is the
      ValueError case. */
  function ParseInt(s: string): Option<int> {
    if s != [] && (s[0] == '+' || s[0] == '-') then
      (if |s| > 1 && AllDigits(s[1..]) then
        var v: int := DigitsValue(s[1..]);
        Some(if s[0] == '-' then -v else v)
      else None)
    else if s != [] && AllDigits(s) then Some(DigitsValue(s))
    else None
  }

  /** The strings `int()` accepts: one or more digits, possibly after one sign; without a minus
      sign the value is not negative. */
  lemma ParseIntAccepts(s: string)
    ensures ParseInt(s).Some? <==>
              (s != [] && AllDigits(s)) || (|s| >= 2 && (s[0] == '+' || s[0] == '-') && AllDigits(s[1..]))
    ensures ParseInt(s).Some? && s[0] != '-' ==> ParseInt(s).value >= 0
  {
  }

  /** `float(s)`: an optional sign, digits, and an optional fraction after one '.', with at
      least one digit in all; anything else is the ValueError case. */
  function ParseDecimal(s: string): (r: Option<real>)
  {
    var neg := s != [] && s[0] == '-';
    var body := if s != [] && (s[0] == '-' || s[0] == '+') then s[1..] else s;
    var parts := Split(body, '.');
    if |parts| > 2 then None
    else
      var whole := parts[0];
      var frac := if |parts| == 2 then parts[1] else [];
      if (whole == [] && frac == []) || !AllDigits(whole) || !AllDigits(frac) then None
      else
        var v := DigitsValue(whole) as real + FracValue(frac);
        Some(if neg then -v else v)
  }

  /** A plain string of digits reads as its decimal value. */
  lemma ParseDecimalDigits(s: string)
    requires s != [] && AllDigits(s)
    ensures ParseDecimal(s) == Some(DigitsValue(s) as real)
  {
    SplitNone(s, '.');
  }
}
