/** What a stretch of the handler chain does, stated row by row against the table it starts from:
    which of its rows survive (those that every dropping handler in the stretch accepts), when it
    fails (some surviving row has a cell the parser rejects), and how every column it assigns is
    computed from the cells of the same input row. The lemmas compose such statements for two
    stretches run one after the other. */
module ChainSpec {
  import opened Text
  import opened RowFilter
  import opened Frame

  /** The test a dropping handler applies to a row's cell in `col`: the row stays when `ok` holds. */
  datatype Filter = Filter(col: string, ok: Value -> bool)

  /** How a handler fills `col` in a row: `cell` of the row's cells in `src` and `aux` (the same
      column when the handler reads one). None never reaches the table: that row was dropped. */
  datatype Rule = Rule(col: string, src: string, aux: string, cell: (Value, Value) -> Option<Value>)

  /** The rule of a handler that parses one text column. */
  function Parsed(col: string, src: string, parse: string -> Option<Value>): Rule {
    Rule(col, src, src, (x: Value, y: Value) => if x.Str? then parse(x.s) else None)
  }

  /** The test of a handler that drops the rows whose text `parse` rejects. */
  function Parses<U>(col: string, parse: string -> Option<U>): Filter {
    Filter(col, (x: Value) => x.Str? && parse(x.s).Some?)
  }

  predicate Holds(t: Table, f: Filter, i: int) {
    f.col in t.cols && 0 <= i < |t.cols[f.col]| && f.ok(t.cols[f.col][i])
  }

  /** Row i of t passes every test. */
  predicate Passes(t: Table, filters: seq<Filter>, i: int) {
    forall q :: 0 <= q < |filters| ==> Holds(t, filters[q], i)
  }

  /** `keep` holds exactly the rows of t that pass every test. */
  ghost predicate KeepsPassing(t: Table, keep: seq<nat>, filters: seq<Filter>) {
    forall i :: 0 <= i < t.n ==> (i in keep <==> Passes(t, filters, i))
  }

  /** Some row of t that passes `filters` fails `check`. */
  ghost predicate FailsSomewhere(t: Table, filters: seq<Filter>, check: Filter) {
    exists i :: 0 <= i < t.n && Passes(t, filters, i) && !Holds(t, check, i)
  }

  /** Row k of `rule.col` in r is what the rule computes from row keep[k] of t. */
  ghost predicate Derives(t: Table, r: Table, keep: seq<nat>, rule: Rule) {
    rule.src in t.cols && rule.aux in t.cols && rule.col in r.cols && |r.cols[rule.col]| == |keep| &&
    Below(keep, |t.cols[rule.src]|) && Below(keep, |t.cols[rule.aux]|) &&
    forall k :: 0 <= k < |keep| ==>
      rule.cell(t.cols[rule.src][keep[k]], t.cols[rule.aux][keep[k]]) == Some(r.cols[rule.col][k])
  }

  ghost predicate DerivesAll(t: Table, r: Table, keep: seq<nat>, rules: seq<Rule>) {
    forall q :: 0 <= q < |rules| ==> Derives(t, r, keep, rules[q])
  }

  /** The columns cs of t reach r with only the rows at `keep` left. */
  ghost predicate Carries(t: Table, r: Table, keep: seq<nat>, cs: set<string>) {
    forall c :: c in cs ==>
      c in t.cols && c in r.cols && Below(keep, |t.cols[c]|) && r.cols[c] == Select(t.cols[c], keep)
  }

  predicate ReadsOnly(rules: seq<Rule>, cs: set<string>) {
    forall q :: 0 <= q < |rules| ==> rules[q].src in cs && rules[q].aux in cs
  }

  predicate WritesOnly(rules: seq<Rule>, cs: set<string>) {
    forall q :: 0 <= q < |rules| ==> rules[q].col in cs
  }

  predicate TestsOnly(filters: seq<Filter>, cs: set<string>) {
    forall q :: 0 <= q < |filters| ==> filters[q].col in cs
  }

  /** A handler carries every column it neither removes nor assigns. */
  lemma CarriesFrom(t: Table, r: Table, keep: seq<nat>, gone: set<string>, added: seq<string>, cs: set<string>)
    requires Untouched(t, r, keep, gone, added) && cs <= t.cols.Keys && cs !! gone
    requires forall c :: c in added ==> c !in cs
    ensures Carries(t, r, keep, cs)
  {
  }

  lemma PassesAppend(t: Table, f1: seq<Filter>, f2: seq<Filter>, i: int)
    ensures Passes(t, f1 + f2, i) <==> Passes(t, f1, i) && Passes(t, f2, i)
  {
    if Passes(t, f1, i) && Passes(t, f2, i) {
      forall q | 0 <= q < |f1 + f2| ensures Holds(t, (f1 + f2)[q], i) {
        if q >= |f1| { assert (f1 + f2)[q] == f2[q - |f1|]; }
      }
    }
    if Passes(t, f1 + f2, i) {
      forall q | 0 <= q < |f1| ensures Holds(t, f1[q], i) {
        assert (f1 + f2)[q] == f1[q];
      }
      forall q | 0 <= q < |f2| ensures Holds(t, f2[q], i) {
        assert (f1 + f2)[q + |f1|] == f2[q];
      }
    }
  }

  /** A carried row passes the same tests before and after. */
  lemma PassesCarried(t: Table, m: Table, k1: seq<nat>, filters: seq<Filter>, cs: set<string>, j: int)
    requires Carries(t, m, k1, cs) && TestsOnly(filters, cs) && 0 <= j < |k1|
    ensures Passes(m, filters, j) <==> Passes(t, filters, k1[j])
  {
    forall q | 0 <= q < |filters| ensures Holds(m, filters[q], j) <==> Holds(t, filters[q], k1[j]) {
      assert filters[q].col in cs;
    }
  }

  /** Two stretches in a row keep exactly the rows that pass the tests of both. */
  lemma KeepsCompose(t: Table, m: Table, k1: seq<nat>, k2: seq<nat>, f1: seq<Filter>, f2: seq<Filter>, cs: set<string>)
    requires m.n == |k1| && Below(k1, t.n) && Below(k2, m.n)
    requires KeepsPassing(t, k1, f1) && KeepsPassing(m, k2, f2)
    requires Carries(t, m, k1, cs) && TestsOnly(f2, cs)
    ensures Below(Select(k1, k2), t.n)
    ensures KeepsPassing(t, Select(k1, k2), f1 + f2)
  {
    var keep := Select(k1, k2);
    forall i | 0 <= i < t.n ensures i in keep <==> Passes(t, f1 + f2, i) {
      PassesAppend(t, f1, f2, i);
      if i in keep {
        var p :| 0 <= p < |keep| && keep[p] == i;
        var j := k2[p];
        assert j in k2 && k1[j] == i && k1[j] in k1;
        PassesCarried(t, m, k1, f2, cs, j);
      }
      if Passes(t, f1, i) && Passes(t, f2, i) {
        assert i in k1;
        var j :| 0 <= j < |k1| && k1[j] == i;
        PassesCarried(t, m, k1, f2, cs, j);
        assert j in k2;
        var p :| 0 <= p < |k2| && k2[p] == j;
        assert keep[p] == i;
      }
    }
  }

  /** The second stretch fails on a row it sees exactly when the first lets through a row of the
      input that fails there. */
  lemma FailsCompose(t: Table, m: Table, k1: seq<nat>, f1: seq<Filter>, f2: seq<Filter>, check: Filter, cs: set<string>)
    requires m.n == |k1| && Below(k1, t.n) && KeepsPassing(t, k1, f1)
    requires Carries(t, m, k1, cs) && TestsOnly(f2 + [check], cs)
    ensures FailsSomewhere(m, f2, check) <==> FailsSomewhere(t, f1 + f2, check)
  {
    assert TestsOnly(f2, cs) && check.col in cs by {
      assert forall q :: 0 <= q < |f2| ==> (f2 + [check])[q] == f2[q];
      assert (f2 + [check])[|f2|] == check;
    }
    if FailsSomewhere(m, f2, check) {
      var j :| 0 <= j < m.n && Passes(m, f2, j) && !Holds(m, check, j);
      var i := k1[j];
      assert i in k1;
      PassesCarried(t, m, k1, f2, cs, j);
      PassesCarried(t, m, k1, [check], cs, j);
      PassesAppend(t, f1, f2, i);
      assert Passes(t, f1 + f2, i) && !Holds(t, check, i) by {
        assert !Passes(m, [check], j) by { assert [check][0] == check; }
        assert !Passes(t, [check], i);
      }
    }
    if FailsSomewhere(t, f1 + f2, check) {
      var i :| 0 <= i < t.n && Passes(t, f1 + f2, i) && !Holds(t, check, i);
      PassesAppend(t, f1, f2, i);
      assert i in k1;
      var j :| 0 <= j < |k1| && k1[j] == i;
      PassesCarried(t, m, k1, f2, cs, j);
      PassesCarried(t, m, k1, [check], cs, j);
      assert !Holds(m, check, j) by {
        assert !Passes(t, [check], i) by { assert [check][0] == check; }
      }
    }
  }

  /** Columns assigned by the first stretch and carried by the second keep their rule. */
  lemma DerivesLater(t: Table, m: Table, r: Table, k1: seq<nat>, k2: seq<nat>, rules: seq<Rule>, cs: set<string>)
    requires Below(k2, |k1|) && DerivesAll(t, m, k1, rules) && Carries(m, r, k2, cs) && WritesOnly(rules, cs)
    ensures DerivesAll(t, r, Select(k1, k2), rules)
  {
    forall q | 0 <= q < |rules| ensures Derives(t, r, Select(k1, k2), rules[q]) {
      var rule := rules[q];
      assert rule.col in cs;
      var keep := Select(k1, k2);
      forall k | 0 <= k < |keep|
        ensures rule.cell(t.cols[rule.src][keep[k]], t.cols[rule.aux][keep[k]]) == Some(r.cols[rule.col][k])
      {
        assert keep[k] == k1[k2[k]];
      }
    }
  }

  /** Columns assigned by the second stretch from columns the first carried: the rule reads the
      same input row. */
  lemma DerivesEarlier(t: Table, m: Table, r: Table, k1: seq<nat>, k2: seq<nat>, rules: seq<Rule>, cs: set<string>)
    requires Below(k2, |k1|) && DerivesAll(m, r, k2, rules) && Carries(t, m, k1, cs) && ReadsOnly(rules, cs)
    ensures DerivesAll(t, r, Select(k1, k2), rules)
  {
    forall q | 0 <= q < |rules| ensures Derives(t, r, Select(k1, k2), rules[q]) {
      var rule := rules[q];
      assert rule.src in cs && rule.aux in cs;
      var keep := Select(k1, k2);
      forall k | 0 <= k < |keep|
        ensures rule.cell(t.cols[rule.src][keep[k]], t.cols[rule.aux][keep[k]]) == Some(r.cols[rule.col][k])
      {
        assert keep[k] == k1[k2[k]];
      }
    }
  }

  lemma DerivesAllAppend(t: Table, r: Table, keep: seq<nat>, a: seq<Rule>, b: seq<Rule>)
    ensures DerivesAll(t, r, keep, a + b) <==> DerivesAll(t, r, keep, a) && DerivesAll(t, r, keep, b)
  {
    if DerivesAll(t, r, keep, a) && DerivesAll(t, r, keep, b) {
      forall q | 0 <= q < |a + b| ensures Derives(t, r, keep, (a + b)[q]) {
        if q >= |a| { assert (a + b)[q] == b[q - |a|]; }
      }
    }
    if DerivesAll(t, r, keep, a + b) {
      forall q | 0 <= q < |a| ensures Derives(t, r, keep, a[q]) {
        assert (a + b)[q] == a[q];
      }
      forall q | 0 <= q < |b| ensures Derives(t, r, keep, b[q]) {
        assert (a + b)[q + |a|] == b[q];
      }
    }
  }

  lemma DerivesCons(t: Table, r: Table, keep: seq<nat>, rule: Rule, rest: seq<Rule>)
    requires Derives(t, r, keep, rule) && DerivesAll(t, r, keep, rest)
    ensures DerivesAll(t, r, keep, [rule] + rest)
  {
    forall q | 0 <= q < |[rule] + rest| ensures Derives(t, r, keep, ([rule] + rest)[q]) {
      if q > 0 { assert ([rule] + rest)[q] == rest[q - 1]; }
    }
  }

  lemma DerivesOne(t: Table, r: Table, keep: seq<nat>, rule: Rule)
    ensures DerivesAll(t, r, keep, [rule]) <==> Derives(t, r, keep, rule)
  {
    assert [rule][0] == rule;
  }

  lemma ReadsWider(rules: seq<Rule>, cs: set<string>, wider: set<string>)
    requires ReadsOnly(rules, cs) && cs <= wider
    ensures ReadsOnly(rules, wider)
  {
  }

  lemma ReadsAppend(a: seq<Rule>, b: seq<Rule>, cs: set<string>)
    requires ReadsOnly(a, cs) && ReadsOnly(b, cs)
    ensures ReadsOnly(a + b, cs)
  {
    forall q | |a| <= q < |a + b| ensures (a + b)[q].src in cs && (a + b)[q].aux in cs {
      assert (a + b)[q] == b[q - |a|];
    }
  }

  lemma WritesAppend(a: seq<Rule>, b: seq<Rule>, cs: set<string>)
    requires WritesOnly(a, cs) && WritesOnly(b, cs)
    ensures WritesOnly(a + b, cs)
  {
    forall q | |a| <= q < |a + b| ensures (a + b)[q].col in cs {
      assert (a + b)[q] == b[q - |a|];
    }
  }

  /** A stretch that keeps exactly the rows passing no test keeps every row. */
  lemma KeepsAllRows(t: Table, keep: seq<nat>)
    requires Increasing(keep) && Below(keep, t.n) && KeepsPassing(t, keep, [])
    ensures keep == Identity(t.n)
  {
    var id := Identity(t.n);
    forall x ensures x in keep <==> x in id {
      if x in keep {
        var p :| 0 <= p < |keep| && keep[p] == x;
        assert id[x] == x;
      }
      if x in id {
        var p :| 0 <= p < |id| && id[p] == x;
      }
    }
    IncreasingUnique(keep, id);
  }

  /** The tests decide the surviving rows, and their order, completely. */
  lemma PassingDetermines(t: Table, k: seq<nat>, k2: seq<nat>, filters: seq<Filter>)
    requires Increasing(k) && Below(k, t.n) && KeepsPassing(t, k, filters)
    requires Increasing(k2) && Below(k2, t.n) && KeepsPassing(t, k2, filters)
    ensures k == k2
  {
    forall x ensures x in k <==> x in k2 {
      if x in k {
        var p :| 0 <= p < |k| && k[p] == x;
      }
      if x in k2 {
        var p :| 0 <= p < |k2| && k2[p] == x;
      }
    }
    IncreasingUnique(k, k2);
  }

  /** Rows kept by exactly one parse test, in increasing order, are the positions the handler
      that applies it keeps. */
  lemma PassingIsKept<U>(t: Table, keep: seq<nat>, src: string, parse: string -> Option<U>)
    requires t.Valid() && t.HasText(src)
    requires Increasing(keep) && Below(keep, t.n) && KeepsPassing(t, keep, [Parses(src, parse)])
    ensures keep == Kept(t.Texts(src), parse)
  {
    var texts := t.Texts(src);
    KeptMembers(texts, parse);
    forall i | 0 <= i < t.n ensures i in Kept(texts, parse) <==> Passes(t, [Parses(src, parse)], i) {
      assert t.cols[src][i] == Str(texts[i]);
      assert [Parses(src, parse)][0] == Parses(src, parse);
    }
    PassingDetermines(t, keep, Kept(texts, parse), [Parses(src, parse)]);
  }

  /** A handler that parses one text column: its kept rows are those the parse accepts, and its
      column holds the parse of each. */
  lemma CollectedDerives(t: Table, m: Table, col: string, src: string, parse: string -> Option<Value>)
    requires t.Valid() && t.HasText(src) && col in m.cols && m.cols[col] == Collect(t.Texts(src), parse)
    ensures Derives(t, m, Kept(t.Texts(src), parse), Parsed(col, src, parse))
    ensures KeepsPassing(t, Kept(t.Texts(src), parse), [Parses(src, parse)])
  {
    var texts := t.Texts(src);
    var keep := Kept(texts, parse);
    CollectValues(texts, parse);
    KeptMembers(texts, parse);
    var rule := Parsed(col, src, parse);
    forall k | 0 <= k < |keep|
      ensures rule.cell(t.cols[src][keep[k]], t.cols[src][keep[k]]) == Some(m.cols[col][k])
    {
      assert t.cols[src][keep[k]] == Str(texts[keep[k]]);
    }
    forall i | 0 <= i < t.n ensures i in keep <==> Passes(t, [Parses(src, parse)], i) {
      assert t.cols[src][i] == Str(texts[i]);
      assert [Parses(src, parse)][0] == Parses(src, parse);
    }
  }

  /** A stretch that drops no row keeps every row when there is no test. */
  lemma KeepsEverything(t: Table)
    ensures KeepsPassing(t, Identity(t.n), [])
  {
    forall i | 0 <= i < t.n ensures i in Identity(t.n) {
      assert Identity(t.n)[i] == i;
    }
  }

  /** One handler followed by the rest of the chain: the rows kept are those that pass the
      handler's tests and then the successor's, and the columns assigned are the handler's
      (carried through the successor) and the successor's (read from columns the handler carried). */
  lemma Compose(t: Table, m: Table, r: Table, k1: seq<nat>, k2: seq<nat>, f1: seq<Filter>, f2: seq<Filter>,
                rules1: seq<Rule>, rules2: seq<Rule>, w1: set<string>, reads2: set<string>)
    requires m.n == |k1| && Below(k1, t.n) && Below(k2, m.n)
    requires KeepsPassing(t, k1, f1) && KeepsPassing(m, k2, f2)
    requires DerivesAll(t, m, k1, rules1) && DerivesAll(m, r, k2, rules2)
    requires Carries(t, m, k1, reads2) && ReadsOnly(rules2, reads2) && TestsOnly(f2, reads2)
    requires Carries(m, r, k2, w1) && WritesOnly(rules1, w1)
    ensures Below(Select(k1, k2), t.n)
    ensures KeepsPassing(t, Select(k1, k2), f1 + f2)
    ensures DerivesAll(t, r, Select(k1, k2), rules1 + rules2)
  {
    KeepsCompose(t, m, k1, k2, f1, f2, reads2);
    DerivesLater(t, m, r, k1, k2, rules1, w1);
    DerivesEarlier(t, m, r, k1, k2, rules2, reads2);
    DerivesAllAppend(t, r, Select(k1, k2), rules1, rules2);
  }
}
