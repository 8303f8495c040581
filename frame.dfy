/** The table the handlers of parse_dataset.py pass along: ordered, uniquely named columns of equal
    length, rows addressed by position (the index is renumbered 0..n-1 after every row removal),
    and the three pandas operations the handlers use on it. */
module Frame {
  import opened Text
  import opened RowFilter

  /** A cell: free text as loaded, or an integer or a number derived from it. */
  datatype Value = Str(s: string) | Int(i: int) | Real(r: real)

  /** The exception a handler raises when `int()` or `float()` rejects a token of `column`. */
  datatype Error = ValueError(column: string)

  datatype Result<T> = Ok(value: T) | Err(error: Error)

  predicate Distinct(names: seq<string>) { forall i, j :: 0 <= i < j < |names| ==> names[i] != names[j] }

  /** `names` with every member of `gone` removed, order kept. */
  function Without(names: seq<string>, gone: set<string>): (r: seq<string>)
    ensures forall c :: c in r <==> c in names && c !in gone
    ensures Distinct(names) ==> Distinct(r)
    decreases |names|
  {
    if names == [] then []
    else
      var rest := Without(names[1..], gone);
      assert forall c :: c in names[1..] ==> c in names;
      if names[0] in gone then rest else [names[0]] + rest
  }

  /** `names` after assigning the columns `added` in turn: a new name goes to the end, an existing
      one keeps its place. */
  function AddAll(names: seq<string>, added: seq<string>): (r: seq<string>)
    ensures forall c :: c in r <==> c in names || c in added
    ensures Distinct(names) ==> Distinct(r)
    decreases |added|
  {
    if added == [] then names
    else
      var next := if added[0] in names then names else names + [added[0]];
      assert forall c :: c in added[1..] ==> c in added;
      AddAll(next, added[1..])
  }

  datatype Table = Table(names: seq<string>, cols: map<string, seq<Value>>, n: nat) {

    /** The column names are distinct and are exactly the keys of `cols`; every column has n cells. */
    predicate Valid() {
      Distinct(names) &&
      (forall c :: c in cols ==> c in names) &&
      (forall c :: c in names ==> c in cols) &&
      (forall c :: c in cols ==> |cols[c]| == n)
    }

    /** Column c exists and holds text in every row (the handlers call string methods on it). */
    predicate HasText(c: string) {
      c in cols && forall i :: 0 <= i < |cols[c]| ==> cols[c][i].Str?
    }

    /** Column c exists and holds integers in every row. */
    predicate HasInts(c: string) {
      c in cols && forall i :: 0 <= i < |cols[c]| ==> cols[c][i].Int?
    }

    /** `df[c].to_list()` for a text column. */
    function Texts(c: string): (ts: seq<string>)
      requires HasText(c)
      ensures |ts| == |cols[c]|
      ensures forall i :: 0 <= i < |ts| ==> cols[c][i] == Str(ts[i])
    {
      seq(|cols[c]|, i requires 0 <= i < |cols[c]| && HasText(c) => cols[c][i].s)
    }

    /** `df[c].to_list()` for an integer column. */
    function Ints(c: string): (xs: seq<int>)
      requires HasInts(c)
      ensures |xs| == |cols[c]|
      ensures forall i :: 0 <= i < |xs| ==> cols[c][i] == Int(xs[i])
    {
      seq(|cols[c]|, i requires 0 <= i < |cols[c]| && HasInts(c) => cols[c][i].i)
    }
  }

  /** `df.drop(df.index[drops]).reset_index(drop=True)`: the rows at the listed positions go,
      the others keep their order and are renumbered. */
  function DropRows(t: Table, drops: seq<nat>): (r: Table)
    requires t.Valid()
    ensures r.Valid() && r.names == t.names && r.n == |Survivors(t.n, drops)|
    ensures forall c :: c in t.cols ==> c in r.cols && r.cols[c] == Select(t.cols[c], Survivors(t.n, drops))
  {
    var keep := Survivors(t.n, drops);
    Table(t.names, map c | c in t.cols :: Select(t.cols[c], keep), |keep|)
  }

  /** `df[c] = vals`: pandas requires one value per row. */
  function Assign(t: Table, c: string, vals: seq<Value>): (r: Table)
    requires t.Valid() && |vals| == t.n
    ensures r.Valid() && r.n == t.n && r.names == AddAll(t.names, [c])
    ensures r.cols == t.cols[c := vals]
  {
    Table(AddAll(t.names, [c]), t.cols[c := vals], t.n)
  }

  /** `df.drop(columns=...)`: pandas raises KeyError for a column that is not there. */
  function DropColumns(t: Table, gone: set<string>): (r: Table)
    requires t.Valid() && gone <= t.cols.Keys
    ensures r.Valid() && r.n == t.n && r.names == Without(t.names, gone)
    ensures r.cols == t.cols - gone
  {
    Table(Without(t.names, gone), t.cols - gone, t.n)
  }

  /** What every handler does to the shape of the table: r holds the rows of t at the increasing
      positions `keep`; its columns are t's with `added` assigned and `gone` removed; and every
      column of t that the handler neither removes nor assigns carries over, row for row. */
  ghost predicate Reshaped(t: Table, r: Table, keep: seq<nat>, gone: set<string>, added: seq<string>)
  {
    t.Valid() && r.Valid() &&
    Increasing(keep) && Below(keep, t.n) && r.n == |keep| &&
    r.names == Without(AddAll(t.names, added), gone) &&
    Untouched(t, r, keep, gone, added)
  }

  /** Every column of t that a handler neither removes nor assigns reaches r, cut to the rows at
      `keep`. */
  ghost predicate Untouched(t: Table, r: Table, keep: seq<nat>, gone: set<string>, added: seq<string>)
  {
    forall c :: c in t.cols && c !in gone && c !in added ==>
      c in r.cols && Below(keep, |t.cols[c]|) && r.cols[c] == Select(t.cols[c], keep)
  }

  lemma HeadTail(s: seq<string>)
    requires s != []
    ensures [s[0]] + s[1..] == s
  {
  }

  lemma AppendAssoc(a: seq<string>, b: seq<string>, c: seq<string>)
    ensures a + (b + c) == (a + b) + c
  {
  }

  /** Removing from a non-empty list decides its head, then removes from the rest. */
  lemma WithoutCons(x: seq<string>, y: seq<string>, gone: set<string>)
    requires x != []
    ensures Without(x + y, gone) == (if x[0] in gone then [] else [x[0]]) + Without(x[1..] + y, gone)
  {
    assert (x + y)[0] == x[0] && (x + y)[1..] == x[1..] + y;
    if x[0] in gone {
      assert [] + Without(x[1..] + y, gone) == Without(x[1..] + y, gone);
    }
  }

  lemma WithoutHead(x: seq<string>, gone: set<string>)
    requires x != []
    ensures Without(x, gone) == (if x[0] in gone then [] else [x[0]]) + Without(x[1..], gone)
  {
    WithoutCons(x, [], gone);
    assert x + [] == x && x[1..] + [] == x[1..];
  }

  lemma {:induction false} WithoutAppend(x: seq<string>, y: seq<string>, gone: set<string>)
    ensures Without(x + y, gone) == Without(x, gone) + Without(y, gone)
    decreases |x|
  {
    if x != [] {
      WithoutAppend(x[1..], y, gone);
      WithoutCons(x, y, gone);
      WithoutHead(x, gone);
      AppendAssoc(if x[0] in gone then [] else [x[0]], Without(x[1..], gone), Without(y, gone));
    } else {
      assert x + y == y;
    }
  }

  lemma {:induction false} WithoutWithout(x: seq<string>, g1: set<string>, g2: set<string>)
    ensures Without(Without(x, g1), g2) == Without(x, g1 + g2)
    decreases |x|
  {
    if x != [] {
      WithoutWithout(x[1..], g1, g2);
    }
  }

  /** Removing columns and then assigning new ones that were not removed is the same as assigning
      first and removing afterwards. */
  lemma {:induction false} AddAllWithout(x: seq<string>, gone: set<string>, added: seq<string>)
    requires forall c :: c in added ==> c !in gone
    ensures AddAll(Without(x, gone), added) == Without(AddAll(x, added), gone)
    decreases |added|
  {
    if added != [] {
      var c := added[0];
      var next := if c in x then x else x + [c];
      var w := Without(x, gone);
      var nextW := if c in w then w else w + [c];
      assert AddAll(w, added) == AddAll(nextW, added[1..]);
      assert AddAll(x, added) == AddAll(next, added[1..]);
      if c !in x {
        WithoutAppend(x, [c], gone);
        assert Without([c], gone) == [c];
      }
      assert nextW == Without(next, gone);
      AddAllWithout(next, gone, added[1..]);
    }
  }

  /** Assigning a non-empty list is assigning its head, then the rest. */
  lemma AddAllCons(x: seq<string>, a: seq<string>, b: seq<string>)
    requires a != []
    ensures AddAll(x, a + b) == AddAll(if a[0] in x then x else x + [a[0]], a[1..] + b)
  {
    assert (a + b)[0] == a[0];
    assert (a + b)[1..] == a[1..] + b;
  }

  lemma {:induction false} AddAllAppend(x: seq<string>, a1: seq<string>, a2: seq<string>)
    ensures AddAll(x, a1 + a2) == AddAll(AddAll(x, a1), a2)
    decreases |a1|
  {
    if a1 == [] {
      assert a1 + a2 == a2;
    } else {
      var next := if a1[0] in x then x else x + [a1[0]];
      AddAllAppend(next, a1[1..], a2);
      AddAllCons(x, a1, a2);
      AddAllCons(x, a1, []);
      assert a1 + [] == a1 && a1[1..] + [] == a1[1..];
    }
  }

  /** Two handlers in sequence reshape the table like one handler whose kept rows are the
      composition of theirs, provided the second does not assign a column the first removed. */
  lemma Chain(t: Table, m: Table, r: Table, k1: seq<nat>, k2: seq<nat>,
              g1: set<string>, g2: set<string>, a1: seq<string>, a2: seq<string>)
    requires Reshaped(t, m, k1, g1, a1) && Reshaped(m, r, k2, g2, a2)
    requires forall c :: c in a2 ==> c !in g1
    ensures Below(k2, |k1|)
    ensures Reshaped(t, r, Select(k1, k2), g1 + g2, a1 + a2)
  {
    SelectSelect(Identity(t.n), k1, k2);
    AddAllWithout(AddAll(t.names, a1), g1, a2);
    WithoutWithout(AddAll(AddAll(t.names, a1), a2), g1, g2);
    AddAllAppend(t.names, a1, a2);
    forall c | c in t.cols && c !in g1 + g2 && c !in a1 + a2
      ensures c in r.cols && r.cols[c] == Select(t.cols[c], Select(k1, k2))
    {
      SelectSelect(t.cols[c], k1, k2);
    }
  }
}
