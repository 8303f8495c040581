/** The row-filtering policy shared by the handlers that may reject rows (age/sex, experience,
    education, income in parse_dataset.py): each handler walks its column once, appends the
    position of every row it cannot parse to `drops`, appends a derived value for every other row,
    and then removes the dropped positions from the table. */
module RowFilter {
  import opened Text

  predicate Increasing(idx: seq<nat>) { forall i, j :: 0 <= i < j < |idx| ==> idx[i] < idx[j] }

  predicate Below(idx: seq<nat>, n: nat) { forall k :: 0 <= k < |idx| ==> idx[k] < n }

  /** Positions of the rows whose parse fails, in order: the handler's `drops` list. */
  function Drops<T, U>(xs: seq<T>, f: T -> Option<U>): seq<nat>
    decreases |xs|
  {
    if xs == [] then [] else Drops(xs[..|xs| - 1], f) + (if f(xs[|xs| - 1]).None? then [|xs| - 1] else [])
  }

  /** Positions of the rows that parse, in order: the rows that survive the handler. */
  function Kept<T, U>(xs: seq<T>, f: T -> Option<U>): seq<nat>
    decreases |xs|
  {
    if xs == [] then [] else Kept(xs[..|xs| - 1], f) + (if f(xs[|xs| - 1]).Some? then [|xs| - 1] else [])
  }

  /** The values parsed from the surviving rows, in order: the handler's `output` list. */
  function Collect<T, U>(xs: seq<T>, f: T -> Option<U>): seq<U>
    decreases |xs|
  {
    if xs == [] then []
    else
      var last := f(xs[|xs| - 1]);
      Collect(xs[..|xs| - 1], f) + (if last.Some? then [last.value] else [])
  }

  /** Appending the next position, or nothing, to increasing positions below it. */
  lemma AppendPosition(p: seq<nat>, m: nat, extra: seq<nat>)
    requires Increasing(p) && Below(p, m) && (extra == [] || extra == [m])
    ensures Increasing(p + extra) && Below(p + extra, m + 1)
    ensures forall i :: i in p + extra <==> i in p || i in extra
  {
  }

  /** The dropped positions are increasing and in range. */
  lemma {:induction false} DropsOrdered<T, U>(xs: seq<T>, f: T -> Option<U>)
    ensures Increasing(Drops(xs, f)) && Below(Drops(xs, f), |xs|)
    decreases |xs|
  {
    if xs != [] {
      var init, last := xs[..|xs| - 1], |xs| - 1;
      DropsOrdered(init, f);
      AppendPosition(Drops(init, f), last, if f(xs[last]).None? then [last] else []);
    }
  }

  /** The dropped positions are increasing, in range, and exactly the rows whose parse fails. */
  lemma {:induction false} DropsMembers<T, U>(xs: seq<T>, f: T -> Option<U>)
    ensures Increasing(Drops(xs, f)) && Below(Drops(xs, f), |xs|)
    ensures forall i :: 0 <= i < |xs| ==> (i in Drops(xs, f) <==> f(xs[i]).None?)
    decreases |xs|
  {
    DropsOrdered(xs, f);
    if xs != [] {
      var init, last := xs[..|xs| - 1], |xs| - 1;
      DropsMembers(init, f);
      forall i | 0 <= i < |xs| ensures i in Drops(xs, f) <==> f(xs[i]).None? {
        if i < last { assert init[i] == xs[i]; }
      }
    }
  }

  /** The kept positions are increasing and in range. */
  lemma {:induction false} KeptOrdered<T, U>(xs: seq<T>, f: T -> Option<U>)
    ensures Increasing(Kept(xs, f)) && Below(Kept(xs, f), |xs|)
    decreases |xs|
  {
    if xs != [] {
      var init, last := xs[..|xs| - 1], |xs| - 1;
      KeptOrdered(init, f);
      AppendPosition(Kept(init, f), last, if f(xs[last]).Some? then [last] else []);
    }
  }

  /** The kept positions are increasing, in range, and exactly the rows that parse. */
  lemma {:induction false} KeptMembers<T, U>(xs: seq<T>, f: T -> Option<U>)
    ensures Increasing(Kept(xs, f)) && Below(Kept(xs, f), |xs|)
    ensures forall i :: 0 <= i < |xs| ==> (i in Kept(xs, f) <==> f(xs[i]).Some?)
    decreases |xs|
  {
    KeptOrdered(xs, f);
    if xs != [] {
      var init, last := xs[..|xs| - 1], |xs| - 1;
      KeptMembers(init, f);
      forall i | 0 <= i < |xs| ensures i in Kept(xs, f) <==> f(xs[i]).Some? {
        if i < last { assert init[i] == xs[i]; }
      }
    }
  }

  /** The k-th collected value is the parse of the k-th surviving row. */
  lemma {:induction false} CollectValues<T, U>(xs: seq<T>, f: T -> Option<U>)
    ensures |Collect(xs, f)| == |Kept(xs, f)|
    ensures Below(Kept(xs, f), |xs|)
    ensures forall k :: 0 <= k < |Collect(xs, f)| ==> f(xs[Kept(xs, f)[k]]) == Some(Collect(xs, f)[k])
    decreases |xs|
  {
    KeptMembers(xs, f);
    if xs != [] {
      var init := xs[..|xs| - 1];
      CollectValues(init, f);
      assert forall i :: 0 <= i < |init| ==> init[i] == xs[i];
    }
  }

  /** One more row read by the handler's loop: its position joins the dropped ones, or its
      position joins the kept ones and its parse joins the collected values. */
  lemma FilterStep<T, U>(xs: seq<T>, i: nat, f: T -> Option<U>)
    requires i < |xs|
    ensures Drops(xs[..i + 1], f) == Drops(xs[..i], f) + (if f(xs[i]).None? then [i] else [])
    ensures Kept(xs[..i + 1], f) == Kept(xs[..i], f) + (if f(xs[i]).Some? then [i] else [])
    ensures Collect(xs[..i + 1], f) == Collect(xs[..i], f) + (if f(xs[i]).Some? then [f(xs[i]).value] else [])
  {
    assert xs[..i + 1][..i] == xs[..i];
  }

  /** Every row is either dropped or kept: the surviving row count is the input row count minus
      the number of dropped positions. */
  lemma {:induction false} KeptAndDropped<T, U>(xs: seq<T>, f: T -> Option<U>)
    ensures |Kept(xs, f)| + |Drops(xs, f)| == |xs|
    decreases |xs|
  {
    if xs != [] {
      KeptAndDropped(xs[..|xs| - 1], f);
    }
  }

  /** The positions in [0, n) that are not listed in drops, in order: what `df.drop(df.index[drops])`
      followed by `reset_index(drop=True)` keeps. */
  function Survivors(n: nat, drops: seq<nat>): (keep: seq<nat>)
    ensures Increasing(keep) && Below(keep, n)
    ensures forall i :: 0 <= i < n ==> (i in keep <==> i !in drops)
    ensures drops == [] ==> |keep| == n
  {
    if n == 0 then [] else Survivors(n - 1, drops) + (if n - 1 in drops then [] else [n - 1])
  }

  /** An element past the common head of an increasing sequence is past the head of the other. */
  lemma TailIn(a: seq<nat>, b: seq<nat>, x: nat)
    requires Increasing(a) && Increasing(b) && a != [] && b != [] && a[0] == b[0]
    requires forall y :: y in a ==> y in b
    requires x in a[1..]
    ensures x in b[1..]
  {
    var p :| 0 <= p < |a| - 1 && a[1..][p] == x;
    assert a[0] < a[p + 1] == x;
    assert x in b;
    var q :| 0 <= q < |b| && b[q] == x;
    assert q != 0;
    assert b[1..][q - 1] == x;
  }

  /** Two increasing sequences with the same elements start with the same (least) element. */
  lemma HeadsEqual(a: seq<nat>, b: seq<nat>)
    requires Increasing(a) && Increasing(b) && a != [] && b != []
    requires forall x :: x in a <==> x in b
    ensures a[0] == b[0]
  {
    assert a[0] in b;
    var j :| 0 <= j < |b| && b[j] == a[0];
    assert b[0] in a;
    var i :| 0 <= i < |a| && a[i] == b[0];
  }

  /** Two increasing sequences with the same elements are equal. */
  lemma {:induction false} IncreasingUnique(a: seq<nat>, b: seq<nat>)
    requires Increasing(a) && Increasing(b)
    requires forall x :: x in a <==> x in b
    ensures a == b
    decreases |a|
  {
    if a == [] {
      assert forall k :: 0 <= k < |b| ==> b[k] in a;
    } else {
      assert b != [] by { assert a[0] in b; }
      HeadsEqual(a, b);
      forall x ensures x in a[1..] <==> x in b[1..] {
        if x in a[1..] { TailIn(a, b, x); }
        if x in b[1..] { TailIn(b, a, x); }
      }
      IncreasingUnique(a[1..], b[1..]);
      assert a == [a[0]] + a[1..] && b == [b[0]] + b[1..];
    }
  }

  /** Dropping the positions a handler collected leaves exactly the rows it parsed. */
  lemma SurvivorsAreKept<T, U>(xs: seq<T>, f: T -> Option<U>)
    ensures Survivors(|xs|, Drops(xs, f)) == Kept(xs, f)
  {
    DropsMembers(xs, f);
    KeptMembers(xs, f);
    var s, k := Survivors(|xs|, Drops(xs, f)), Kept(xs, f);
    forall x ensures x in s <==> x in k {
      if x in s {
        var p :| 0 <= p < |s| && s[p] == x;
      }
      if x in k {
        var p :| 0 <= p < |k| && k[p] == x;
      }
    }
    IncreasingUnique(s, k);
  }

  /** Increasing positions below n are at most n of them. */
  lemma {:induction false} IncreasingBelowLength(idx: seq<nat>, n: nat)
    requires Increasing(idx) && Below(idx, n)
    ensures |idx| <= n
    decreases |idx|
  {
    if idx != [] {
      IncreasingBelowLength(idx[..|idx| - 1], idx[|idx| - 1]);
    }
  }

  /** `[xs[i] for i in idx]` */
  function Select<T>(xs: seq<T>, idx: seq<nat>): (ys: seq<T>)
    requires Below(idx, |xs|)
    ensures |ys| == |idx|
    ensures forall k :: 0 <= k < |idx| ==> ys[k] == xs[idx[k]]
  {
    seq(|idx|, k requires 0 <= k < |idx| => xs[idx[k]])
  }

  /** All positions 0..n-1: what a handler that drops nothing keeps. */
  function Identity(n: nat): (idx: seq<nat>)
    ensures |idx| == n && Increasing(idx) && Below(idx, n)
    ensures forall k :: 0 <= k < n ==> idx[k] == k
  {
    seq(n, k requires 0 <= k < n => k)
  }

  /** Selecting through two successive filters is selecting through their composition, which is
      again increasing when both are. */
  lemma SelectSelect<T>(xs: seq<T>, a: seq<nat>, b: seq<nat>)
    requires Below(a, |xs|) && Below(b, |a|)
    ensures Below(Select(a, b), |xs|)
    ensures Select(Select(xs, a), b) == Select(xs, Select(a, b))
    ensures Increasing(a) && Increasing(b) ==> Increasing(Select(a, b))
  {
  }

  lemma SelectIdentity<T>(xs: seq<T>)
    ensures Select(xs, Identity(|xs|)) == xs
  {
  }
}
