/** GetProcessedDF.get_dataframe in parse_dataset.py: the handlers run as a chain of
    responsibility in one fixed order, each on the table the previous one returned; and the split
    of the finished table into features and target that ConvertToNumpy performs. */
module Pipeline {
  import opened Text
  import opened RowFilter
  import opened Frame
  import opened Rules
  import opened Handlers
  import opened ChainSpec

  // What each tail of the chain removes and assigns. The chain of parse_dataset.py:332-340 runs
  // ProcessAgeSex, ProcessEmployment, ProcessExperience, ProcessEducation, ProcessIncome,
  // ProcessSchedule, ProcessEmployeeLevel, ProcessCity and RemoveUnusedColumns; the tail that
  // starts at a handler removes that handler's source column and then whatever its successor's
  // tail removes, and assigns that handler's columns followed by its successor's.

  const CityConsumed: set<string> := {CitySource} + UnusedColumns
  const CityDerived: seq<string> := [RelocationColumn, TripsColumn]
  const LevelConsumed: set<string> := {TitleSource} + CityConsumed
  const LevelDerived: seq<string> := [LevelColumn] + CityDerived
  const ScheduleConsumed: set<string> := {ScheduleSource} + LevelConsumed
  const ScheduleDerived: seq<string> := ScheduleColumns + LevelDerived
  const IncomeConsumed: set<string> := {IncomeSource} + ScheduleConsumed
  const IncomeDerived: seq<string> := [SalaryColumn] + ScheduleDerived
  const EducationConsumed: set<string> := {EducationSource} + IncomeConsumed
  const EducationDerived: seq<string> := [EducationColumn] + IncomeDerived
  const ExperienceConsumed: set<string> := {ExperienceSource} + EducationConsumed
  const ExperienceDerived: seq<string> := [ExperienceColumn] + EducationDerived
  const EmploymentConsumed: set<string> := {EmploymentSource} + ExperienceConsumed
  const EmploymentDerived: seq<string> := EmploymentColumns + ExperienceDerived
  /** Every column the whole chain reads and then removes. */
  const Consumed: set<string> := {AgeSexSource} + EmploymentConsumed
  /** Every column the whole chain assigns, in the order it assigns them. */
  const Derived: seq<string> := [SexColumn, AgeColumn] + EmploymentDerived

  /** What the chain needs of the table the CSV loader produced: the eight text columns the
      handlers parse and the four columns RemoveUnusedColumns drops. */
  ghost predicate Loaded(t: Table) {
    t.Valid() && UnusedColumns <= t.cols.Keys &&
    t.HasText(AgeSexSource) && t.HasText(EmploymentSource) && t.HasText(ExperienceSource) &&
    t.HasText(EducationSource) && t.HasText(IncomeSource) && t.HasText(ScheduleSource) &&
    TitlesReadableByText(t) && t.HasText(CitySource)
  }

  /** The title of every row whose experience text gives under 60 months is text. A row whose
      experience does not parse is dropped before its title could be read. */
  predicate TitlesReadableByText(t: Table)
    requires t.HasText(ExperienceSource)
  {
    TitleSource in t.cols && |t.cols[TitleSource]| == |t.Texts(ExperienceSource)| &&
    forall i ::
      0 <= i < |t.Texts(ExperienceSource)| && ExperienceMonths(t.Texts(ExperienceSource)[i]).Some? &&
      ExperienceMonths(t.Texts(ExperienceSource)[i]).value < 60 ==>
        t.cols[TitleSource][i].Str?
  }

  predicate InRange(v: Value, lo: int, hi: int) { v.Int? && lo <= v.i <= hi }

  /** Column c exists and every cell of it is an integer in [lo, hi]. */
  ghost predicate ColumnInRange(t: Table, c: string, lo: int, hi: int) {
    c in t.cols && forall i :: 0 <= i < |t.cols[c]| ==> InRange(t.cols[c][i], lo, hi)
  }

  /** A column that a handler neither removes nor assigns keeps the range of its cells. */
  lemma CarriedRange(t: Table, r: Table, keep: seq<nat>, gone: set<string>, added: seq<string>,
                     c: string, lo: int, hi: int)
    requires Untouched(t, r, keep, gone, added) && c !in gone && c !in added && ColumnInRange(t, c, lo, hi)
    ensures ColumnInRange(r, c, lo, hi)
  {
  }

  /** Columns that a handler neither removes nor assigns stay present. */
  lemma CarriedColumns(t: Table, r: Table, keep: seq<nat>, gone: set<string>, added: seq<string>, cs: set<string>)
    requires Untouched(t, r, keep, gone, added) && cs <= t.cols.Keys && cs !! gone
    requires forall c :: c in added ==> c !in cs
    ensures cs <= r.cols.Keys
  {
  }

  /** Every experience cell ProcessExperience keeps is an integer. */
  lemma ExperienceCellsAreInts(texts: seq<string>)
    ensures forall k :: 0 <= k < |Collect(texts, ExperienceCell)| ==> Collect(texts, ExperienceCell)[k].Int?
  {
    CollectValues(texts, ExperienceCell);
  }

  /** Every education cell ProcessEducation keeps is one of the four levels. */
  lemma EducationCellsInRange(texts: seq<string>)
    ensures forall k :: 0 <= k < |Collect(texts, EducationCell)| ==> InRange(Collect(texts, EducationCell)[k], 1, 4)
  {
    CollectValues(texts, EducationCell);
  }

  // ---------------------------------------------------------------------------------------------
  // Row by row: the test each dropping handler applies, and the rule each handler fills its
  // columns by, stated on the cells of the table the handler receives.

  /** The 0/1 flag of a keyword pair, as ProcessEmployment and ProcessSchedule compute it. */
  function FlagRule(col: string, src: string, ru: string, en: string): Rule {
    Rule(col, src, src, (x: Value, y: Value) => if x.Str? then Some(Int(Flag(x.s, ru, en))) else None)
  }

  /** An integer that ProcessCity computes from the city text. */
  function TextRule(col: string, src: string, f: string -> int): Rule {
    Rule(col, src, src, (x: Value, y: Value) => if x.Str? then Some(Int(f(x.s))) else None)
  }

  /** The level ProcessEmployeeLevel computes from the months of experience and the title. */
  function LevelOf(experience: Value, title: Value): Option<Value> {
    if experience.Int? && (experience.i >= 60 || title.Str?) then Some(Int(TitleLevel(experience.i, title)))
    else None
  }

  /** The same level, read through ProcessExperience from the experience text it parsed. */
  function LevelOfText(experience: Value, title: Value): Option<Value> {
    if experience.Str? && ExperienceMonths(experience.s).Some? &&
       (ExperienceMonths(experience.s).value >= 60 || title.Str?) then
      Some(Int(TitleLevel(ExperienceMonths(experience.s).value, title)))
    else None
  }

  function SexCell(entry: string): Option<Value> {
    match SexAgeFields(entry)
    case Some(f) => Some(Str(SexCode(f.sex)))
    case None => None
  }

  /** `int(age)` of an entry that splits; an entry without a comma has no age. */
  function AgeOf(entry: string): Option<int> {
    match SexAgeFields(entry)
    case Some(f) => ParseInt(f.age)
    case None => None
  }

  function AgeCell(entry: string): Option<Value> {
    match AgeOf(entry)
    case Some(a) => Some(Int(a))
    case None => None
  }

  /** `float()` of the amount of an income text. */
  function AmountOf(text: string): Option<real> { ParseDecimal(AmountToken(text)) }

  const RelocationRule := TextRule(RelocationColumn, CitySource, Relocation)
  const TripsRule := TextRule(TripsColumn, CitySource, BusinessTrips)
  const LevelRule := Rule(LevelColumn, ExperienceColumn, TitleSource, LevelOf)
  const ScheduleFlagRules: seq<Rule> := [
    FlagRule(FullDay, ScheduleSource, "полный", "full"), FlagRule(Remote, ScheduleSource, "удал", "remote"),
    FlagRule(Flexible, ScheduleSource, "гибк", "flexible"), FlagRule(Rotation, ScheduleSource, "вахт", "rotation"),
    FlagRule(Shifts, ScheduleSource, "смен", "shift")]
  const SalaryRule := Parsed(SalaryColumn, IncomeSource, SalaryCell)
  const EducationRule := Parsed(EducationColumn, EducationSource, EducationCell)
  const ExperienceRule := Parsed(ExperienceColumn, ExperienceSource, ExperienceCell)
  const LevelTextRule := Rule(LevelColumn, ExperienceSource, TitleSource, LevelOfText)
  const EmploymentFlagRules: seq<Rule> := [
    FlagRule(FullTime, EmploymentSource, "полная", "full"), FlagRule(PartTime, EmploymentSource, "частичная", "part"),
    FlagRule(Project, EmploymentSource, "проект", "project"),
    FlagRule(Volunteering, EmploymentSource, "волонтер", "volunteer"),
    FlagRule(Internship, EmploymentSource, "стаж", "placement")]
  const SexRule := Parsed(SexColumn, AgeSexSource, SexCell)
  const AgeRule := Parsed(AgeColumn, AgeSexSource, AgeCell)

  // The rules of each tail of the chain, except the level, which ProcessEmployeeLevel reads from
  // a column an earlier handler assigned and which the tails up to ProcessEducation state apart.
  const CityRules: seq<Rule> := [RelocationRule, TripsRule]
  const ScheduleRules: seq<Rule> := ScheduleFlagRules + CityRules
  const IncomeRules: seq<Rule> := [SalaryRule] + ScheduleRules
  const EducationRules: seq<Rule> := [EducationRule] + IncomeRules
  const ExperienceRules: seq<Rule> := [LevelTextRule, ExperienceRule] + EducationRules
  const EmploymentRules: seq<Rule> := EmploymentFlagRules + ExperienceRules
  /** One rule for every column the whole chain assigns. */
  const AllRules: seq<Rule> := [SexRule, AgeRule] + EmploymentRules

  const SexAgeFilter := Parses(AgeSexSource, SexAgeFields)
  const ExperienceFilter := Parses(ExperienceSource, ExperienceCell)
  const EducationFilter := Parses(EducationSource, EducationCell)
  const SalaryFilter := Parses(IncomeSource, SalaryCell)
  /** The conversions that raise ValueError: `int()` of the age and `float()` of the amount. */
  const AgeFilter := Parses(AgeSexSource, AgeOf)
  const AmountFilter := Parses(IncomeSource, AmountOf)
  /** The tests of the tails from ProcessExperience and from ProcessAgeSex. */
  const ExperienceFilters: seq<Filter> := [ExperienceFilter, EducationFilter, SalaryFilter]
  const AllFilters: seq<Filter> := [SexAgeFilter] + ExperienceFilters

  // The columns of its input that each tail reads.
  const CityReads: set<string> := {CitySource}
  const LevelReads: set<string> := {ExperienceColumn, TitleSource}
  const ScheduleReads: set<string> := {ScheduleSource, CitySource}
  const IncomeReads: set<string> := {IncomeSource} + ScheduleReads
  const EducationReads: set<string> := {EducationSource} + IncomeReads
  const ExperienceReads: set<string> := {ExperienceSource, TitleSource} + EducationReads
  const EmploymentReads: set<string> := {EmploymentSource} + ExperienceReads

  const CityWrites: set<string> := {RelocationColumn, TripsColumn}
  const ScheduleWrites: set<string> := {FullDay, Remote, Flexible, Rotation, Shifts}
  const EmploymentWrites: set<string> := {FullTime, PartTime, Project, Volunteering, Internship}

  lemma ScheduleRulesRead()
    ensures ReadsOnly(ScheduleRules, ScheduleReads)
  {
    ReadsAppend(ScheduleFlagRules, CityRules, ScheduleReads);
  }

  lemma IncomeRulesRead()
    ensures ReadsOnly(IncomeRules, IncomeReads)
  {
    ScheduleRulesRead();
    ReadsWider(ScheduleRules, ScheduleReads, IncomeReads);
    ReadsAppend([SalaryRule], ScheduleRules, IncomeReads);
  }

  lemma EducationRulesRead()
    ensures ReadsOnly(EducationRules, EducationReads)
  {
    IncomeRulesRead();
    ReadsWider(IncomeRules, IncomeReads, EducationReads);
    ReadsAppend([EducationRule], IncomeRules, EducationReads);
  }

  lemma ExperienceRulesRead()
    ensures ReadsOnly(ExperienceRules, ExperienceReads)
  {
    EducationRulesRead();
    ReadsWider(EducationRules, EducationReads, ExperienceReads);
    ReadsAppend([LevelTextRule, ExperienceRule], EducationRules, ExperienceReads);
  }

  lemma EmploymentRulesRead()
    ensures ReadsOnly(EmploymentRules, EmploymentReads)
  {
    ExperienceRulesRead();
    ReadsWider(ExperienceRules, ExperienceReads, EmploymentReads);
    ReadsAppend(EmploymentFlagRules, ExperienceRules, EmploymentReads);
  }

  /** A keyword-pair handler fills the column by its flag rule and keeps every row. */
  lemma FlagDerives(t: Table, m: Table, col: string, src: string, ru: string, en: string)
    requires t.Valid() && t.HasText(src) && col in m.cols && m.cols[col] == FlagCells(t.Texts(src), ru, en)
    ensures Derives(t, m, Identity(t.n), FlagRule(col, src, ru, en))
  {
    var texts := t.Texts(src);
    var rule := FlagRule(col, src, ru, en);
    forall k | 0 <= k < t.n ensures rule.cell(t.cols[src][k], t.cols[src][k]) == Some(m.cols[col][k]) {
      assert t.cols[src][k] == Str(texts[k]);
    }
  }

  lemma FlagsDerive(t: Table, m: Table, keep: seq<nat>, a: Rule, b: Rule, c: Rule, d: Rule, e: Rule)
    requires Derives(t, m, keep, a) && Derives(t, m, keep, b) && Derives(t, m, keep, c)
    requires Derives(t, m, keep, d) && Derives(t, m, keep, e)
    ensures DerivesAll(t, m, keep, [a, b, c, d, e])
  {
  }

  lemma TextDerives(t: Table, m: Table, col: string, src: string, f: string -> int)
    requires t.Valid() && t.HasText(src) && col in m.cols && m.cols[col] == IntCells(t.Texts(src), f)
    ensures Derives(t, m, Identity(t.n), TextRule(col, src, f))
  {
    var texts := t.Texts(src);
    var rule := TextRule(col, src, f);
    forall k | 0 <= k < t.n ensures rule.cell(t.cols[src][k], t.cols[src][k]) == Some(m.cols[col][k]) {
      assert t.cols[src][k] == Str(texts[k]);
    }
  }

  lemma LevelDerives(t: Table, m: Table)
    requires t.Valid() && t.HasInts(ExperienceColumn) && TitlesReadable(t)
    requires LevelColumn in m.cols && |m.cols[LevelColumn]| == t.n
    requires forall i :: 0 <= i < t.n ==>
               m.cols[LevelColumn][i] == Int(TitleLevel(t.Ints(ExperienceColumn)[i], t.cols[TitleSource][i]))
    ensures Derives(t, m, Identity(t.n), LevelRule)
  {
    forall k | 0 <= k < t.n
      ensures LevelOf(t.cols[ExperienceColumn][k], t.cols[TitleSource][k]) == Some(m.cols[LevelColumn][k])
    {
      assert t.cols[ExperienceColumn][k] == Int(t.Ints(ExperienceColumn)[k]);
    }
  }

  /** The level of a row that ProcessExperience kept is the level of its experience text. */
  lemma LevelFromText(t: Table, m: Table, r: Table, k1: seq<nat>, k2: seq<nat>)
    requires Below(k2, |k1|) && Derives(t, m, k1, ExperienceRule) && Derives(m, r, k2, LevelRule)
    requires Carries(t, m, k1, {TitleSource})
    ensures Derives(t, r, Select(k1, k2), LevelTextRule)
  {
    var keep := Select(k1, k2);
    forall k | 0 <= k < |keep|
      ensures LevelOfText(t.cols[ExperienceSource][keep[k]], t.cols[TitleSource][keep[k]]) == Some(r.cols[LevelColumn][k])
    {
      var j := k2[k];
      assert keep[k] == k1[j];
      assert m.cols[TitleSource][j] == t.cols[TitleSource][k1[j]];
      var x := t.cols[ExperienceSource][k1[j]];
      var title := t.cols[TitleSource][k1[j]];
      assert ExperienceRule.cell(x, x) == Some(m.cols[ExperienceColumn][j]);
      assert x.Str? && ExperienceCell(x.s) == Some(m.cols[ExperienceColumn][j]);
      assert ExperienceMonths(x.s).Some? && m.cols[ExperienceColumn][j] == Int(ExperienceMonths(x.s).value);
      assert LevelOf(m.cols[ExperienceColumn][j], m.cols[TitleSource][j]) == Some(r.cols[LevelColumn][k]);
      assert r.cols[LevelColumn][k] == Int(TitleLevel(ExperienceMonths(x.s).value, title));
    }
  }

  /** A handler that leaves the experience text and the title alone keeps their titles readable. */
  lemma CarriedTextTitles(t: Table, r: Table, keep: seq<nat>, gone: set<string>, added: seq<string>)
    requires Untouched(t, r, keep, gone, added) && t.HasText(ExperienceSource) && TitlesReadableByText(t)
    requires ExperienceSource !in gone && ExperienceSource !in added && TitleSource !in gone && TitleSource !in added
    ensures r.HasText(ExperienceSource) && TitlesReadableByText(r)
  {
    CarriedText(t, r, keep, gone, added, ExperienceSource);
    var texts := r.Texts(ExperienceSource);
    forall k | 0 <= k < |texts| && ExperienceMonths(texts[k]).Some? && ExperienceMonths(texts[k]).value < 60
      ensures r.cols[TitleSource][k].Str?
    {
      assert texts[k] == t.Texts(ExperienceSource)[keep[k]];
    }
  }

  /** The months ProcessExperience writes are those of the rows' texts, so the titles that
      ProcessEmployeeLevel reads are text. */
  lemma ExperienceTitles(t: Table, m: Table, k1: seq<nat>)
    requires t.HasText(ExperienceSource) && TitlesReadableByText(t)
    requires Derives(t, m, k1, ExperienceRule) && Carries(t, m, k1, {TitleSource}) && m.HasInts(ExperienceColumn)
    ensures TitlesReadable(m)
  {
    var months := m.Ints(ExperienceColumn);
    assert |m.cols[TitleSource]| == |k1| == |months|;
    forall j | 0 <= j < |months| && months[j] < 60 ensures m.cols[TitleSource][j].Str? {
      var x := t.cols[ExperienceSource][k1[j]];
      assert ExperienceRule.cell(x, x) == Some(m.cols[ExperienceColumn][j]);
      assert x == Str(t.Texts(ExperienceSource)[k1[j]]);
      assert ExperienceCell(x.s) == Some(Int(months[j]));
      assert m.cols[TitleSource][j] == t.cols[TitleSource][k1[j]];
    }
  }

  /** ProcessAgeSex keeps the rows whose entry splits, and fills the sex and the age by their
      rules. */
  lemma AgeSexDerives(t: Table, m: Table)
    requires t.Valid() && t.HasText(AgeSexSource) && m.Valid()
    requires var fields := Collect(t.Texts(AgeSexSource), SexAgeFields);
             m.n == |fields| && SexColumn in m.cols && AgeColumn in m.cols &&
             forall k :: 0 <= k < |fields| ==>
               m.cols[SexColumn][k] == Str(SexCode(fields[k].sex)) && m.cols[AgeColumn][k].Int? &&
               ParseInt(fields[k].age) == Some(m.cols[AgeColumn][k].i)
    ensures var keep := Kept(t.Texts(AgeSexSource), SexAgeFields);
            DerivesAll(t, m, keep, [SexRule, AgeRule]) && KeepsPassing(t, keep, [SexAgeFilter])
  {
    var texts := t.Texts(AgeSexSource);
    var keep := Kept(texts, SexAgeFields);
    var fields := Collect(texts, SexAgeFields);
    CollectValues(texts, SexAgeFields);
    KeptMembers(texts, SexAgeFields);
    forall k | 0 <= k < |keep|
      ensures SexRule.cell(t.cols[AgeSexSource][keep[k]], t.cols[AgeSexSource][keep[k]]) == Some(m.cols[SexColumn][k])
      ensures AgeRule.cell(t.cols[AgeSexSource][keep[k]], t.cols[AgeSexSource][keep[k]]) == Some(m.cols[AgeColumn][k])
    {
      var x := t.cols[AgeSexSource][keep[k]];
      assert x == Str(texts[keep[k]]);
      assert SexAgeFields(texts[keep[k]]) == Some(fields[k]);
      assert SexRule.cell(x, x) == SexCell(texts[keep[k]]);
      assert AgeRule.cell(x, x) == AgeCell(texts[keep[k]]);
      assert AgeOf(texts[keep[k]]) == ParseInt(fields[k].age) == Some(m.cols[AgeColumn][k].i);
      assert m.cols[AgeColumn][k] == Int(m.cols[AgeColumn][k].i);
    }
    assert Derives(t, m, keep, SexRule) && Derives(t, m, keep, AgeRule);
    forall i | 0 <= i < t.n ensures i in keep <==> Passes(t, [SexAgeFilter], i) {
      assert t.cols[AgeSexSource][i] == Str(texts[i]);
      assert [SexAgeFilter][0] == SexAgeFilter;
    }
  }

  /** ProcessAgeSex raises exactly when a row it keeps has an age that `int()` rejects. */
  lemma AgeFails(t: Table)
    requires t.Valid() && t.HasText(AgeSexSource)
    ensures var fields := Collect(t.Texts(AgeSexSource), SexAgeFields);
            FailsSomewhere(t, [SexAgeFilter], AgeFilter) <==> exists k :: 0 <= k < |fields| && ParseInt(fields[k].age).None?
  {
    var fields := Collect(t.Texts(AgeSexSource), SexAgeFields);
    if FailsSomewhere(t, [SexAgeFilter], AgeFilter) {
      var i :| 0 <= i < t.n && Passes(t, [SexAgeFilter], i) && !Holds(t, AgeFilter, i);
      AgeFailsAt(t, i);
    }
    if exists k :: 0 <= k < |fields| && ParseInt(fields[k].age).None? {
      var k :| 0 <= k < |fields| && ParseInt(fields[k].age).None?;
      AgeFailsOf(t, k);
    }
  }

  lemma AgeFailsAt(t: Table, i: int)
    requires t.Valid() && t.HasText(AgeSexSource) && 0 <= i < t.n
    requires Passes(t, [SexAgeFilter], i) && !Holds(t, AgeFilter, i)
    ensures var fields := Collect(t.Texts(AgeSexSource), SexAgeFields);
            exists k :: 0 <= k < |fields| && ParseInt(fields[k].age).None?
  {
    var texts := t.Texts(AgeSexSource);
    var keep := Kept(texts, SexAgeFields);
    var fields := Collect(texts, SexAgeFields);
    CollectValues(texts, SexAgeFields);
    KeptMembers(texts, SexAgeFields);
    assert t.cols[AgeSexSource][i] == Str(texts[i]);
    assert Holds(t, SexAgeFilter, i) by { assert [SexAgeFilter][0] == SexAgeFilter; }
    assert SexAgeFields(texts[i]).Some?;
    assert AgeOf(texts[i]).None?;
    assert i in keep;
    var k :| 0 <= k < |keep| && keep[k] == i;
    assert SexAgeFields(texts[i]) == Some(fields[k]);
    assert ParseInt(fields[k].age).None?;
  }

  lemma AgeFailsOf(t: Table, k: int)
    requires t.Valid() && t.HasText(AgeSexSource)
    requires 0 <= k < |Collect(t.Texts(AgeSexSource), SexAgeFields)|
    requires ParseInt(Collect(t.Texts(AgeSexSource), SexAgeFields)[k].age).None?
    ensures FailsSomewhere(t, [SexAgeFilter], AgeFilter)
  {
    var texts := t.Texts(AgeSexSource);
    var keep := Kept(texts, SexAgeFields);
    var fields := Collect(texts, SexAgeFields);
    CollectValues(texts, SexAgeFields);
    var i := keep[k];
    assert t.cols[AgeSexSource][i] == Str(texts[i]);
    assert SexAgeFields(texts[i]) == Some(fields[k]);
    assert AgeOf(texts[i]) == ParseInt(fields[k].age);
    assert Holds(t, SexAgeFilter, i);
    assert Passes(t, [SexAgeFilter], i);
    assert !Holds(t, AgeFilter, i);
  }

  /** ProcessIncome raises exactly when some amount does not convert. */
  lemma AmountFails(t: Table)
    requires t.Valid() && t.HasText(IncomeSource)
    ensures var texts := t.Texts(IncomeSource);
            FailsSomewhere(t, [], AmountFilter) <==> exists i :: 0 <= i < |texts| && AmountOf(texts[i]).None?
  {
    var texts := t.Texts(IncomeSource);
    if exists i :: 0 <= i < |texts| && AmountOf(texts[i]).None? {
      var i :| 0 <= i < |texts| && AmountOf(texts[i]).None?;
      assert t.cols[IncomeSource][i] == Str(texts[i]);
      assert Passes(t, [], i) && !Holds(t, AmountFilter, i);
    }
    if FailsSomewhere(t, [], AmountFilter) {
      var i :| 0 <= i < t.n && Passes(t, [], i) && !Holds(t, AmountFilter, i);
      assert t.cols[IncomeSource][i] == Str(texts[i]);
    }
  }

  // The column names of the handlers are pairwise different, so no handler removes or overwrites a
  // column that a later handler reads or that an earlier handler assigned. One lemma per handler
  // states exactly the separations its step of the chain relies on.

  lemma CityApart()
    ensures UnusedColumns !! {CitySource} && forall c :: c in CityDerived ==> c !in UnusedColumns
  {
  }

  lemma LevelApart()
    ensures UnusedColumns !! {TitleSource} && LevelColumn !in UnusedColumns
    ensures forall c :: c in CityDerived ==> c !in {TitleSource}
    ensures CitySource !in [LevelColumn]
    ensures LevelColumn !in CityConsumed && LevelColumn !in CityDerived
  {
  }

  lemma ScheduleApart()
    ensures UnusedColumns !! {ScheduleSource} && forall c :: c in ScheduleColumns ==> c !in UnusedColumns
    ensures forall c :: c in LevelDerived ==> c !in {ScheduleSource}
    ensures ExperienceColumn !in ScheduleColumns && TitleSource !in ScheduleColumns && CitySource !in ScheduleColumns
  {
  }

  lemma IncomeApart()
    ensures UnusedColumns !! {IncomeSource} && SalaryColumn !in UnusedColumns
    ensures forall c :: c in ScheduleDerived ==> c !in {IncomeSource}
    ensures ExperienceColumn !in [SalaryColumn] && ScheduleSource !in [SalaryColumn]
    ensures TitleSource !in [SalaryColumn] && CitySource !in [SalaryColumn]
  {
  }

  lemma EducationApart()
    ensures UnusedColumns !! {EducationSource} && EducationColumn !in UnusedColumns
    ensures forall c :: c in IncomeDerived ==> c !in {EducationSource}
    ensures ExperienceColumn !in [EducationColumn] && IncomeSource !in [EducationColumn]
    ensures ScheduleSource !in [EducationColumn] && TitleSource !in [EducationColumn] && CitySource !in [EducationColumn]
    ensures EducationColumn !in IncomeConsumed && EducationColumn !in IncomeDerived
  {
  }

  lemma ExperienceApart()
    ensures UnusedColumns !! {ExperienceSource} && ExperienceColumn !in UnusedColumns
    ensures forall c :: c in EducationDerived ==> c !in {ExperienceSource}
    ensures EducationSource !in [ExperienceColumn] && IncomeSource !in [ExperienceColumn]
    ensures ScheduleSource !in [ExperienceColumn] && TitleSource !in [ExperienceColumn] && CitySource !in [ExperienceColumn]
  {
  }

  lemma EmploymentApart()
    ensures UnusedColumns !! {EmploymentSource} && forall c :: c in EmploymentColumns ==> c !in UnusedColumns
    ensures forall c :: c in ExperienceDerived ==> c !in {EmploymentSource}
    ensures ExperienceSource !in EmploymentColumns && EducationSource !in EmploymentColumns
    ensures IncomeSource !in EmploymentColumns && ScheduleSource !in EmploymentColumns
    ensures TitleSource !in EmploymentColumns && CitySource !in EmploymentColumns
  {
  }

  lemma AgeSexApart()
    ensures UnusedColumns !! {AgeSexSource} && SexColumn !in UnusedColumns && AgeColumn !in UnusedColumns
    ensures forall c :: c in EmploymentDerived ==> c !in {AgeSexSource}
    ensures EmploymentSource !in [SexColumn, AgeColumn] && ExperienceSource !in [SexColumn, AgeColumn]
    ensures EducationSource !in [SexColumn, AgeColumn] && IncomeSource !in [SexColumn, AgeColumn]
    ensures ScheduleSource !in [SexColumn, AgeColumn] && TitleSource !in [SexColumn, AgeColumn]
    ensures CitySource !in [SexColumn, AgeColumn]
  {
  }


  /** ProcessSchedule's five flags, as its contract states them, are its flag rules. */
  lemma ScheduleFlagsDerive(t: Table, m: Table)
    requires t.Valid() && t.HasText(ScheduleSource) && forall c :: c in ScheduleColumns ==> c in m.cols
    requires var items := t.Texts(ScheduleSource);
             m.cols[FullDay] == FlagCells(items, "полный", "full") &&
             m.cols[Remote] == FlagCells(items, "удал", "remote") &&
             m.cols[Flexible] == FlagCells(items, "гибк", "flexible") &&
             m.cols[Rotation] == FlagCells(items, "вахт", "rotation") &&
             m.cols[Shifts] == FlagCells(items, "смен", "shift")
    ensures DerivesAll(t, m, Identity(t.n), ScheduleFlagRules)
  {
    FlagDerives(t, m, FullDay, ScheduleSource, "полный", "full");
    FlagDerives(t, m, Remote, ScheduleSource, "удал", "remote");
    FlagDerives(t, m, Flexible, ScheduleSource, "гибк", "flexible");
    FlagDerives(t, m, Rotation, ScheduleSource, "вахт", "rotation");
    FlagDerives(t, m, Shifts, ScheduleSource, "смен", "shift");
    FlagsDerive(t, m, Identity(t.n), ScheduleFlagRules[0], ScheduleFlagRules[1], ScheduleFlagRules[2],
                ScheduleFlagRules[3], ScheduleFlagRules[4]);
  }

  /** ProcessEmployment's five flags, as its contract states them, are its flag rules. */
  lemma EmploymentFlagsDerive(t: Table, m: Table)
    requires t.Valid() && t.HasText(EmploymentSource) && forall c :: c in EmploymentColumns ==> c in m.cols
    requires var items := t.Texts(EmploymentSource);
             m.cols[FullTime] == FlagCells(items, "полная", "full") &&
             m.cols[PartTime] == FlagCells(items, "частичная", "part") &&
             m.cols[Project] == FlagCells(items, "проект", "project") &&
             m.cols[Volunteering] == FlagCells(items, "волонтер", "volunteer") &&
             m.cols[Internship] == FlagCells(items, "стаж", "placement")
    ensures DerivesAll(t, m, Identity(t.n), EmploymentFlagRules)
  {
    FlagDerives(t, m, FullTime, EmploymentSource, "полная", "full");
    FlagDerives(t, m, PartTime, EmploymentSource, "частичная", "part");
    FlagDerives(t, m, Project, EmploymentSource, "проект", "project");
    FlagDerives(t, m, Volunteering, EmploymentSource, "волонтер", "volunteer");
    FlagDerives(t, m, Internship, EmploymentSource, "стаж", "placement");
    FlagsDerive(t, m, Identity(t.n), EmploymentFlagRules[0], EmploymentFlagRules[1], EmploymentFlagRules[2],
                EmploymentFlagRules[3], EmploymentFlagRules[4]);
  }

  // The separations the row-by-row statements rely on: each handler's columns survive the rest of
  // the chain, and the columns the rest of the chain reads survive the handler.

  lemma CityWritesApart()
    ensures CityWrites !! UnusedColumns
  {
  }

  lemma LevelReadsApart()
    ensures CityReads !! {TitleSource} && LevelColumn !in CityReads
  {
  }

  lemma LevelWritesApart()
    ensures {LevelColumn} !! CityConsumed && forall c :: c in CityDerived ==> c !in {LevelColumn}
  {
  }

  lemma ScheduleReadsApart()
    ensures CityReads !! {ScheduleSource} && LevelReads !! {ScheduleSource}
    ensures forall c :: c in ScheduleColumns ==> c !in CityReads && c !in LevelReads
  {
  }

  lemma ScheduleWritesApart()
    ensures ScheduleWrites !! LevelConsumed && forall c :: c in LevelDerived ==> c !in ScheduleWrites
    ensures forall c :: c in ScheduleWrites ==> c in ScheduleColumns
  {
  }

  lemma IncomeReadsApart()
    ensures ScheduleReads !! {IncomeSource} && LevelReads !! {IncomeSource}
    ensures SalaryColumn !in ScheduleReads && SalaryColumn !in LevelReads
  {
  }

  lemma IncomeWritesApart()
    ensures {SalaryColumn} !! ScheduleConsumed && forall c :: c in ScheduleDerived ==> c !in {SalaryColumn}
  {
  }

  lemma EducationReadsApart()
    ensures IncomeReads !! {EducationSource} && LevelReads !! {EducationSource}
    ensures EducationColumn !in IncomeReads && EducationColumn !in LevelReads
  {
  }

  lemma EducationWritesApart()
    ensures {EducationColumn} !! IncomeConsumed && forall c :: c in IncomeDerived ==> c !in {EducationColumn}
  {
  }

  lemma ExperienceReadsApart()
    ensures EducationReads !! {ExperienceSource} && ExperienceColumn !in EducationReads
    ensures {TitleSource} !! {ExperienceSource} && ExperienceColumn !in {TitleSource}
  {
  }

  lemma ExperienceWritesApart()
    ensures {ExperienceColumn} !! EducationConsumed && forall c :: c in EducationDerived ==> c !in {ExperienceColumn}
  {
  }

  lemma EmploymentReadsApart()
    ensures ExperienceReads !! {EmploymentSource} && forall c :: c in EmploymentColumns ==> c !in ExperienceReads
  {
  }

  lemma EmploymentWritesApart()
    ensures EmploymentWrites !! ExperienceConsumed
    ensures forall c :: c in ExperienceDerived ==> c !in EmploymentWrites
    ensures forall c :: c in EmploymentWrites ==> c in EmploymentColumns
  {
  }

  lemma AgeSexReadsApart()
    ensures EmploymentReads !! {AgeSexSource} && SexColumn !in EmploymentReads && AgeColumn !in EmploymentReads
  {
  }

  lemma AgeSexWritesApart()
    ensures {SexColumn, AgeColumn} !! EmploymentConsumed
    ensures forall c :: c in EmploymentDerived ==> c !in {SexColumn, AgeColumn}
  {
  }

  // The columns each tail reads are present in a table that holds their names.

  lemma IncomeReadsPresent(keys: set<string>)
    requires IncomeSource in keys && ScheduleSource in keys && CitySource in keys
    ensures ScheduleReads <= keys && IncomeReads <= keys
  {
  }

  lemma EducationReadsPresent(keys: set<string>)
    requires EducationSource in keys && IncomeSource in keys && ScheduleSource in keys && CitySource in keys
    ensures EducationReads <= keys
  {
    IncomeReadsPresent(keys);
  }

  lemma ExperienceReadsPresent(keys: set<string>)
    requires ExperienceSource in keys && TitleSource in keys && EducationSource in keys
    requires IncomeSource in keys && ScheduleSource in keys && CitySource in keys
    ensures ExperienceReads <= keys
  {
    EducationReadsPresent(keys);
  }

  lemma EmploymentReadsPresent(keys: set<string>)
    requires EmploymentSource in keys && ExperienceSource in keys && TitleSource in keys && EducationSource in keys
    requires IncomeSource in keys && ScheduleSource in keys && CitySource in keys
    ensures EmploymentReads <= keys
  {
    ExperienceReadsPresent(keys);
  }

  // What each handler carries: the columns its successor's tail reads reach the successor, and its
  // own columns reach the end of the chain.

  lemma CityCarriesOut(m: Table, r: Table)
    requires Untouched(m, r, Identity(m.n), UnusedColumns, []) && RelocationColumn in m.cols && TripsColumn in m.cols
    ensures Carries(m, r, Identity(m.n), CityWrites)
  {
    CityWritesApart();
    CarriesFrom(m, r, Identity(m.n), UnusedColumns, [], CityWrites);
  }

  lemma LevelCarriesIn(t: Table, m: Table)
    requires Untouched(t, m, Identity(t.n), {TitleSource}, [LevelColumn]) && t.HasText(CitySource)
    ensures Carries(t, m, Identity(t.n), CityReads)
  {
    LevelReadsApart();
    CarriesFrom(t, m, Identity(t.n), {TitleSource}, [LevelColumn], CityReads);
  }

  lemma LevelCarriesOut(m: Table, r: Table, k2: seq<nat>)
    requires Untouched(m, r, k2, CityConsumed, CityDerived) && LevelColumn in m.cols
    ensures Carries(m, r, k2, {LevelColumn})
  {
    LevelWritesApart();
    CarriesFrom(m, r, k2, CityConsumed, CityDerived, {LevelColumn});
  }

  lemma ScheduleCarriesIn(t: Table, m: Table)
    requires Untouched(t, m, Identity(t.n), {ScheduleSource}, ScheduleColumns)
    requires t.HasText(CitySource) && t.HasInts(ExperienceColumn) && TitleSource in t.cols
    ensures Carries(t, m, Identity(t.n), CityReads) && Carries(t, m, Identity(t.n), LevelReads)
  {
    ScheduleReadsApart();
    CarriesFrom(t, m, Identity(t.n), {ScheduleSource}, ScheduleColumns, CityReads);
    CarriesFrom(t, m, Identity(t.n), {ScheduleSource}, ScheduleColumns, LevelReads);
  }

  lemma ScheduleCarriesOut(m: Table, r: Table, k2: seq<nat>)
    requires Untouched(m, r, k2, LevelConsumed, LevelDerived) && forall c :: c in ScheduleColumns ==> c in m.cols
    ensures Carries(m, r, k2, ScheduleWrites)
  {
    ScheduleWritesApart();
    CarriesFrom(m, r, k2, LevelConsumed, LevelDerived, ScheduleWrites);
  }

  lemma IncomeCarriesIn(t: Table, m: Table, k1: seq<nat>)
    requires Untouched(t, m, k1, {IncomeSource}, [SalaryColumn])
    requires t.HasText(ScheduleSource) && t.HasText(CitySource) && t.HasInts(ExperienceColumn) && TitleSource in t.cols
    ensures Carries(t, m, k1, ScheduleReads) && Carries(t, m, k1, LevelReads)
  {
    IncomeReadsApart();
    CarriesFrom(t, m, k1, {IncomeSource}, [SalaryColumn], ScheduleReads);
    CarriesFrom(t, m, k1, {IncomeSource}, [SalaryColumn], LevelReads);
  }

  lemma IncomeCarriesOut(m: Table, r: Table, k2: seq<nat>)
    requires Untouched(m, r, k2, ScheduleConsumed, ScheduleDerived) && SalaryColumn in m.cols
    ensures Carries(m, r, k2, {SalaryColumn})
  {
    IncomeWritesApart();
    CarriesFrom(m, r, k2, ScheduleConsumed, ScheduleDerived, {SalaryColumn});
  }

  lemma EducationCarriesIn(t: Table, m: Table, k1: seq<nat>)
    requires Untouched(t, m, k1, {EducationSource}, [EducationColumn])
    requires t.HasText(IncomeSource) && t.HasText(ScheduleSource) && t.HasText(CitySource)
    requires t.HasInts(ExperienceColumn) && TitleSource in t.cols
    ensures Carries(t, m, k1, IncomeReads) && Carries(t, m, k1, LevelReads)
  {
    EducationReadsApart();
    IncomeReadsPresent(t.cols.Keys);
    CarriesFrom(t, m, k1, {EducationSource}, [EducationColumn], IncomeReads);
    CarriesFrom(t, m, k1, {EducationSource}, [EducationColumn], LevelReads);
  }

  lemma EducationCarriesOut(m: Table, r: Table, k2: seq<nat>)
    requires Untouched(m, r, k2, IncomeConsumed, IncomeDerived) && EducationColumn in m.cols
    ensures Carries(m, r, k2, {EducationColumn})
  {
    EducationWritesApart();
    CarriesFrom(m, r, k2, IncomeConsumed, IncomeDerived, {EducationColumn});
  }

  lemma ExperienceCarriesIn(t: Table, m: Table, k1: seq<nat>)
    requires Untouched(t, m, k1, {ExperienceSource}, [ExperienceColumn])
    requires t.HasText(EducationSource) && t.HasText(IncomeSource) && t.HasText(ScheduleSource)
    requires t.HasText(CitySource) && TitleSource in t.cols
    ensures Carries(t, m, k1, EducationReads) && Carries(t, m, k1, {TitleSource})
  {
    ExperienceReadsApart();
    EducationReadsPresent(t.cols.Keys);
    CarriesFrom(t, m, k1, {ExperienceSource}, [ExperienceColumn], EducationReads);
    CarriesFrom(t, m, k1, {ExperienceSource}, [ExperienceColumn], {TitleSource});
  }

  lemma ExperienceCarriesOut(m: Table, r: Table, k2: seq<nat>)
    requires Untouched(m, r, k2, EducationConsumed, EducationDerived) && ExperienceColumn in m.cols
    ensures Carries(m, r, k2, {ExperienceColumn})
  {
    ExperienceWritesApart();
    CarriesFrom(m, r, k2, EducationConsumed, EducationDerived, {ExperienceColumn});
  }

  lemma EmploymentCarriesIn(t: Table, m: Table)
    requires Untouched(t, m, Identity(t.n), {EmploymentSource}, EmploymentColumns)
    requires t.HasText(ExperienceSource) && t.HasText(EducationSource) && t.HasText(IncomeSource)
    requires t.HasText(ScheduleSource) && t.HasText(CitySource) && TitleSource in t.cols
    ensures Carries(t, m, Identity(t.n), ExperienceReads)
  {
    EmploymentReadsApart();
    ExperienceReadsPresent(t.cols.Keys);
    CarriesFrom(t, m, Identity(t.n), {EmploymentSource}, EmploymentColumns, ExperienceReads);
  }

  lemma EmploymentCarriesOut(m: Table, r: Table, k2: seq<nat>)
    requires Untouched(m, r, k2, ExperienceConsumed, ExperienceDerived)
    requires forall c :: c in EmploymentColumns ==> c in m.cols
    ensures Carries(m, r, k2, EmploymentWrites)
  {
    EmploymentWritesApart();
    CarriesFrom(m, r, k2, ExperienceConsumed, ExperienceDerived, EmploymentWrites);
  }

  lemma AgeSexCarriesIn(raw: Table, m: Table, k1: seq<nat>)
    requires Untouched(raw, m, k1, {AgeSexSource}, [SexColumn, AgeColumn])
    requires EmploymentSource in raw.cols && ExperienceSource in raw.cols && TitleSource in raw.cols
    requires EducationSource in raw.cols && IncomeSource in raw.cols && ScheduleSource in raw.cols && CitySource in raw.cols
    ensures Carries(raw, m, k1, EmploymentReads)
  {
    AgeSexReadsApart();
    EmploymentReadsPresent(raw.cols.Keys);
    CarriesFrom(raw, m, k1, {AgeSexSource}, [SexColumn, AgeColumn], EmploymentReads);
  }

  lemma AgeSexCarriesOut(m: Table, r: Table, k2: seq<nat>)
    requires Untouched(m, r, k2, EmploymentConsumed, EmploymentDerived) && SexColumn in m.cols && AgeColumn in m.cols
    ensures Carries(m, r, k2, {SexColumn, AgeColumn})
  {
    AgeSexWritesApart();
    CarriesFrom(m, r, k2, EmploymentConsumed, EmploymentDerived, {SexColumn, AgeColumn});
  }

  // When a tail raises: the amount test of ProcessIncome sees the rows the handler before it kept.

  lemma EducationFails(t: Table, m: Table, k1: seq<nat>)
    requires m.n == |k1| && Below(k1, t.n) && KeepsPassing(t, k1, [EducationFilter]) && Carries(t, m, k1, IncomeReads)
    ensures FailsSomewhere(m, [], AmountFilter) <==> FailsSomewhere(t, [EducationFilter], AmountFilter)
  {
    FailsCompose(t, m, k1, [EducationFilter], [], AmountFilter, IncomeReads);
    assert [EducationFilter] + [] == [EducationFilter];
  }

  lemma ExperienceFails(t: Table, m: Table, k1: seq<nat>)
    requires m.n == |k1| && Below(k1, t.n) && KeepsPassing(t, k1, [ExperienceFilter]) && Carries(t, m, k1, EducationReads)
    ensures FailsSomewhere(m, [EducationFilter], AmountFilter) <==>
            FailsSomewhere(t, [ExperienceFilter, EducationFilter], AmountFilter)
  {
    FailsCompose(t, m, k1, [ExperienceFilter], [EducationFilter], AmountFilter, EducationReads);
    assert [ExperienceFilter] + [EducationFilter] == [ExperienceFilter, EducationFilter];
  }

  lemma EmploymentFails(t: Table, m: Table)
    requires m.n == t.n && Carries(t, m, Identity(t.n), ExperienceReads)
    ensures FailsSomewhere(m, [ExperienceFilter, EducationFilter], AmountFilter) <==>
            FailsSomewhere(t, [ExperienceFilter, EducationFilter], AmountFilter)
  {
    KeepsEverything(t);
    FailsCompose(t, m, Identity(t.n), [], [ExperienceFilter, EducationFilter], AmountFilter, ExperienceReads);
    assert [] + [ExperienceFilter, EducationFilter] == [ExperienceFilter, EducationFilter];
  }

  lemma AgeSexFails(raw: Table, m: Table, k1: seq<nat>)
    requires m.n == |k1| && Below(k1, raw.n) && KeepsPassing(raw, k1, [SexAgeFilter])
    requires Carries(raw, m, k1, EmploymentReads)
    ensures FailsSomewhere(m, [ExperienceFilter, EducationFilter], AmountFilter) <==>
            FailsSomewhere(raw, [SexAgeFilter, ExperienceFilter, EducationFilter], AmountFilter)
  {
    FailsCompose(raw, m, k1, [SexAgeFilter], [ExperienceFilter, EducationFilter], AmountFilter, EmploymentReads);
    assert [SexAgeFilter] + [ExperienceFilter, EducationFilter] == [SexAgeFilter, ExperienceFilter, EducationFilter];
  }

  // Each handler followed by the rest of the chain, stated against the handler's input.

  lemma CityComposes(t: Table, m: Table, r: Table)
    requires t.Valid() && t.HasText(CitySource) && m.n == t.n
    requires RelocationColumn in m.cols && m.cols[RelocationColumn] == IntCells(t.Texts(CitySource), Relocation)
    requires TripsColumn in m.cols && m.cols[TripsColumn] == IntCells(t.Texts(CitySource), BusinessTrips)
    requires Carries(m, r, Identity(m.n), CityWrites)
    ensures Select(Identity(t.n), Identity(m.n)) == Identity(t.n)
    ensures KeepsPassing(t, Identity(t.n), []) && DerivesAll(t, r, Identity(t.n), CityRules)
  {
    SelectIdentity(Identity(t.n));
    KeepsEverything(t);
    TextDerives(t, m, RelocationColumn, CitySource, Relocation);
    TextDerives(t, m, TripsColumn, CitySource, BusinessTrips);
    DerivesCons(t, m, Identity(t.n), TripsRule, []);
    DerivesCons(t, m, Identity(t.n), RelocationRule, [TripsRule]);
    assert [RelocationRule] + ([TripsRule] + []) == CityRules;
    DerivesLater(t, m, r, Identity(t.n), Identity(m.n), CityRules, CityWrites);
  }

  lemma LevelComposes(t: Table, m: Table, r: Table, k2: seq<nat>)
    requires m.n == t.n && k2 == Identity(m.n)
    requires Derives(t, m, Identity(t.n), LevelRule) && Carries(t, m, Identity(t.n), CityReads)
    requires Carries(m, r, k2, {LevelColumn}) && KeepsPassing(m, k2, []) && DerivesAll(m, r, k2, CityRules)
    ensures Select(Identity(t.n), k2) == Identity(t.n)
    ensures KeepsPassing(t, Identity(t.n), [])
    ensures DerivesAll(t, r, Identity(t.n), CityRules) && Derives(t, r, Identity(t.n), LevelRule)
  {
    SelectIdentity(Identity(t.n));
    KeepsEverything(t);
    DerivesOne(t, m, Identity(t.n), LevelRule);
    Compose(t, m, r, Identity(t.n), k2, [], [], [LevelRule], CityRules, {LevelColumn}, CityReads);
    DerivesAllAppend(t, r, Identity(t.n), [LevelRule], CityRules);
    DerivesOne(t, r, Identity(t.n), LevelRule);
  }

  lemma ScheduleComposes(t: Table, m: Table, r: Table, k2: seq<nat>)
    requires m.n == t.n && k2 == Identity(m.n)
    requires DerivesAll(t, m, Identity(t.n), ScheduleFlagRules)
    requires Carries(t, m, Identity(t.n), CityReads) && Carries(t, m, Identity(t.n), LevelReads)
    requires Carries(m, r, k2, ScheduleWrites) && KeepsPassing(m, k2, [])
    requires DerivesAll(m, r, k2, CityRules) && Derives(m, r, k2, LevelRule)
    ensures Select(Identity(t.n), k2) == Identity(t.n)
    ensures KeepsPassing(t, Identity(t.n), [])
    ensures DerivesAll(t, r, Identity(t.n), ScheduleRules) && Derives(t, r, Identity(t.n), LevelRule)
  {
    SelectIdentity(Identity(t.n));
    KeepsEverything(t);
    Compose(t, m, r, Identity(t.n), k2, [], [], ScheduleFlagRules, CityRules, ScheduleWrites, CityReads);
    DerivesOne(m, r, k2, LevelRule);
    DerivesEarlier(t, m, r, Identity(t.n), k2, [LevelRule], LevelReads);
    DerivesOne(t, r, Identity(t.n), LevelRule);
  }

  lemma IncomeComposes(t: Table, m: Table, r: Table, k1: seq<nat>, k2: seq<nat>)
    requires m.n == |k1| && Below(k1, t.n) && Below(k2, m.n)
    requires Derives(t, m, k1, SalaryRule) && KeepsPassing(t, k1, [SalaryFilter])
    requires Carries(t, m, k1, ScheduleReads) && Carries(t, m, k1, LevelReads) && Carries(m, r, k2, {SalaryColumn})
    requires KeepsPassing(m, k2, []) && DerivesAll(m, r, k2, ScheduleRules) && Derives(m, r, k2, LevelRule)
    ensures KeepsPassing(t, Select(k1, k2), [SalaryFilter])
    ensures DerivesAll(t, r, Select(k1, k2), IncomeRules) && Derives(t, r, Select(k1, k2), LevelRule)
  {
    DerivesOne(t, m, k1, SalaryRule);
    ScheduleRulesRead();
    Compose(t, m, r, k1, k2, [SalaryFilter], [], [SalaryRule], ScheduleRules, {SalaryColumn}, ScheduleReads);
    assert [SalaryFilter] + [] == [SalaryFilter];
    DerivesOne(m, r, k2, LevelRule);
    DerivesEarlier(t, m, r, k1, k2, [LevelRule], LevelReads);
    DerivesOne(t, r, Select(k1, k2), LevelRule);
  }

  lemma EducationComposes(t: Table, m: Table, r: Table, k1: seq<nat>, k2: seq<nat>)
    requires m.n == |k1| && Below(k1, t.n) && Below(k2, m.n)
    requires Derives(t, m, k1, EducationRule) && KeepsPassing(t, k1, [EducationFilter])
    requires Carries(t, m, k1, IncomeReads) && Carries(t, m, k1, LevelReads) && Carries(m, r, k2, {EducationColumn})
    requires KeepsPassing(m, k2, [SalaryFilter]) && DerivesAll(m, r, k2, IncomeRules) && Derives(m, r, k2, LevelRule)
    ensures KeepsPassing(t, Select(k1, k2), [EducationFilter, SalaryFilter])
    ensures DerivesAll(t, r, Select(k1, k2), EducationRules) && Derives(t, r, Select(k1, k2), LevelRule)
  {
    DerivesOne(t, m, k1, EducationRule);
    IncomeRulesRead();
    Compose(t, m, r, k1, k2, [EducationFilter], [SalaryFilter], [EducationRule], IncomeRules, {EducationColumn}, IncomeReads);
    assert [EducationFilter] + [SalaryFilter] == [EducationFilter, SalaryFilter];
    DerivesOne(m, r, k2, LevelRule);
    DerivesEarlier(t, m, r, k1, k2, [LevelRule], LevelReads);
    DerivesOne(t, r, Select(k1, k2), LevelRule);
  }

  lemma ExperienceComposes(t: Table, m: Table, r: Table, k1: seq<nat>, k2: seq<nat>)
    requires m.n == |k1| && Below(k1, t.n) && Below(k2, m.n)
    requires Derives(t, m, k1, ExperienceRule) && KeepsPassing(t, k1, [ExperienceFilter])
    requires Carries(t, m, k1, EducationReads) && Carries(t, m, k1, {TitleSource}) && Carries(m, r, k2, {ExperienceColumn})
    requires KeepsPassing(m, k2, [EducationFilter, SalaryFilter])
    requires DerivesAll(m, r, k2, EducationRules) && Derives(m, r, k2, LevelRule)
    ensures KeepsPassing(t, Select(k1, k2), ExperienceFilters)
    ensures DerivesAll(t, r, Select(k1, k2), ExperienceRules)
  {
    DerivesOne(t, m, k1, ExperienceRule);
    EducationRulesRead();
    Compose(t, m, r, k1, k2, [ExperienceFilter], [EducationFilter, SalaryFilter], [ExperienceRule], EducationRules,
            {ExperienceColumn}, EducationReads);
    assert [ExperienceFilter] + [EducationFilter, SalaryFilter] == ExperienceFilters;
    LevelFromText(t, m, r, k1, k2);
    DerivesCons(t, r, Select(k1, k2), LevelTextRule, [ExperienceRule] + EducationRules);
    assert [LevelTextRule] + ([ExperienceRule] + EducationRules) == ExperienceRules;
  }

  lemma EmploymentComposes(t: Table, m: Table, r: Table, k2: seq<nat>)
    requires m.n == t.n && Below(k2, m.n)
    requires DerivesAll(t, m, Identity(t.n), EmploymentFlagRules) && Carries(t, m, Identity(t.n), ExperienceReads)
    requires Carries(m, r, k2, EmploymentWrites)
    requires KeepsPassing(m, k2, ExperienceFilters) && DerivesAll(m, r, k2, ExperienceRules)
    ensures KeepsPassing(t, Select(Identity(t.n), k2), ExperienceFilters)
    ensures DerivesAll(t, r, Select(Identity(t.n), k2), EmploymentRules)
  {
    KeepsEverything(t);
    ExperienceRulesRead();
    Compose(t, m, r, Identity(t.n), k2, [], ExperienceFilters, EmploymentFlagRules, ExperienceRules,
            EmploymentWrites, ExperienceReads);
    assert [] + ExperienceFilters == ExperienceFilters;
  }

  lemma AgeSexComposes(raw: Table, m: Table, r: Table, k1: seq<nat>, k2: seq<nat>)
    requires m.n == |k1| && Below(k1, raw.n) && Below(k2, m.n)
    requires DerivesAll(raw, m, k1, [SexRule, AgeRule]) && KeepsPassing(raw, k1, [SexAgeFilter])
    requires Carries(raw, m, k1, EmploymentReads) && Carries(m, r, k2, {SexColumn, AgeColumn})
    requires KeepsPassing(m, k2, ExperienceFilters) && DerivesAll(m, r, k2, EmploymentRules)
    ensures KeepsPassing(raw, Select(k1, k2), AllFilters)
    ensures DerivesAll(raw, r, Select(k1, k2), AllRules)
  {
    EmploymentRulesRead();
    Compose(raw, m, r, k1, k2, [SexAgeFilter], ExperienceFilters, [SexRule, AgeRule], EmploymentRules,
            {SexColumn, AgeColumn}, EmploymentReads);
  }

  /** ProcessCity, then its successor RemoveUnusedColumns, the last handler. Every row stays, and
      the relocation and business-trip columns hold ProcessCity's rules of the row's city text. */
  method ChainFromCity(t: Table) returns (r: Table, ghost keep: seq<nat>)
    requires t.Valid() && t.HasText(CitySource) && UnusedColumns <= t.cols.Keys
    ensures Reshaped(t, r, keep, CityConsumed, CityDerived)
    ensures keep == Identity(t.n) && KeepsPassing(t, keep, [])
    ensures DerivesAll(t, r, keep, CityRules)
  {
    var m := ProcessCity(t);
    CityApart();
    CarriedColumns(t, m, Identity(t.n), {CitySource}, CityDerived, UnusedColumns);
    r := RemoveUnusedColumns(m);
    Chain(t, m, r, Identity(t.n), Identity(m.n), {CitySource}, UnusedColumns, CityDerived, []);
    keep := Select(Identity(t.n), Identity(m.n));
    assert CityDerived + [] == CityDerived;
    CityCarriesOut(m, r);
    CityComposes(t, m, r);
  }

  /** ProcessEmployeeLevel and the rest of the chain. Every row stays and gets the level of its
      experience and title, 1 to 3. */
  method ChainFromLevel(t: Table) returns (r: Table, ghost keep: seq<nat>)
    requires t.Valid() && t.HasInts(ExperienceColumn) && TitlesReadable(t) && t.HasText(CitySource)
    requires UnusedColumns <= t.cols.Keys
    ensures Reshaped(t, r, keep, LevelConsumed, LevelDerived)
    ensures ColumnInRange(r, LevelColumn, 1, 3)
    ensures keep == Identity(t.n) && KeepsPassing(t, keep, [])
    ensures DerivesAll(t, r, keep, CityRules) && Derives(t, r, keep, LevelRule)
  {
    var m := ProcessEmployeeLevel(t);
    LevelApart();
    CarriedText(t, m, Identity(t.n), {TitleSource}, [LevelColumn], CitySource);
    CarriedColumns(t, m, Identity(t.n), {TitleSource}, [LevelColumn], UnusedColumns);
    assert ColumnInRange(m, LevelColumn, 1, 3);
    LevelDerives(t, m);
    LevelCarriesIn(t, m);
    ghost var k2;
    r, k2 := ChainFromCity(m);
    Chain(t, m, r, Identity(t.n), k2, {TitleSource}, CityConsumed, [LevelColumn], CityDerived);
    CarriedRange(m, r, k2, CityConsumed, CityDerived, LevelColumn, 1, 3);
    keep := Select(Identity(t.n), k2);
    LevelCarriesOut(m, r, k2);
    LevelComposes(t, m, r, k2);
  }

  /** ProcessSchedule and the rest of the chain: every row stays, with its five schedule flags. */
  method ChainFromSchedule(t: Table) returns (r: Table, ghost keep: seq<nat>)
    requires t.Valid() && t.HasInts(ExperienceColumn) && t.HasText(ScheduleSource) && TitlesReadable(t)
    requires t.HasText(CitySource) && UnusedColumns <= t.cols.Keys
    ensures Reshaped(t, r, keep, ScheduleConsumed, ScheduleDerived)
    ensures ColumnInRange(r, LevelColumn, 1, 3)
    ensures keep == Identity(t.n) && KeepsPassing(t, keep, [])
    ensures DerivesAll(t, r, keep, ScheduleRules) && Derives(t, r, keep, LevelRule)
  {
    var m := ProcessSchedule(t);
    ScheduleApart();
    CarriedTitles(t, m, Identity(t.n), {ScheduleSource}, ScheduleColumns);
    CarriedText(t, m, Identity(t.n), {ScheduleSource}, ScheduleColumns, CitySource);
    CarriedColumns(t, m, Identity(t.n), {ScheduleSource}, ScheduleColumns, UnusedColumns);
    ScheduleFlagsDerive(t, m);
    ScheduleCarriesIn(t, m);
    ghost var k2;
    r, k2 := ChainFromLevel(m);
    Chain(t, m, r, Identity(t.n), k2, {ScheduleSource}, LevelConsumed, ScheduleColumns, LevelDerived);
    keep := Select(Identity(t.n), k2);
    ScheduleCarriesOut(m, r, k2);
    ScheduleComposes(t, m, r, k2);
  }

  /** ProcessIncome and, unless an amount does not convert, the rest of the chain. The rows left
      are those whose income converts to roubles, each with its salary and its schedule, level and
      city columns. */
  method ChainFromIncome(t: Table) returns (r: Result<Table>, ghost keep: seq<nat>)
    requires t.Valid() && t.HasInts(ExperienceColumn) && t.HasText(IncomeSource) && t.HasText(ScheduleSource)
    requires TitlesReadable(t) && t.HasText(CitySource) && UnusedColumns <= t.cols.Keys
    ensures r.Err? <==> exists i :: 0 <= i < |t.Texts(IncomeSource)| && ParseDecimal(AmountToken(t.Texts(IncomeSource)[i])).None?
    ensures r.Err? <==> FailsSomewhere(t, [], AmountFilter)
    ensures r.Err? ==> r.error == ValueError(IncomeSource)
    ensures r.Ok? ==> Reshaped(t, r.value, keep, IncomeConsumed, IncomeDerived)
    ensures r.Ok? ==> ColumnInRange(r.value, LevelColumn, 1, 3)
    ensures r.Ok? ==> KeepsPassing(t, keep, [SalaryFilter])
    ensures r.Ok? ==> DerivesAll(t, r.value, keep, IncomeRules) && Derives(t, r.value, keep, LevelRule)
  {
    keep := [];
    AmountFails(t);
    var b := ProcessIncome(t);
    IncomeApart();
    if b.Err? {
      return Err(b.error), keep;
    }
    var m := b.value;
    ghost var k1 := Kept(t.Texts(IncomeSource), SalaryCell);
    CarriedTitles(t, m, k1, {IncomeSource}, [SalaryColumn]);
    CarriedText(t, m, k1, {IncomeSource}, [SalaryColumn], ScheduleSource);
    CarriedText(t, m, k1, {IncomeSource}, [SalaryColumn], CitySource);
    CarriedColumns(t, m, k1, {IncomeSource}, [SalaryColumn], UnusedColumns);
    CollectedDerives(t, m, SalaryColumn, IncomeSource, SalaryCell);
    IncomeCarriesIn(t, m, k1);
    var s, k2 := ChainFromSchedule(m);
    Chain(t, m, s, k1, k2, {IncomeSource}, ScheduleConsumed, [SalaryColumn], ScheduleDerived);
    keep := Select(k1, k2);
    IncomeCarriesOut(m, s, k2);
    IncomeComposes(t, m, s, k1, k2);
    r := Ok(s);
  }

  /** ProcessEducation and the rest of the chain. The rows left are those with a recognised
      education whose income converts to roubles; every one has an education of 1 to 4. */
  method ChainFromEducation(t: Table) returns (r: Result<Table>, ghost keep: seq<nat>)
    requires t.Valid() && t.HasInts(ExperienceColumn) && t.HasText(EducationSource) && t.HasText(IncomeSource)
    requires t.HasText(ScheduleSource) && TitlesReadable(t) && t.HasText(CitySource)
    requires UnusedColumns <= t.cols.Keys
    ensures r.Err? <==> FailsSomewhere(t, [EducationFilter], AmountFilter)
    ensures r.Err? ==> r.error == ValueError(IncomeSource)
    ensures r.Ok? ==> Reshaped(t, r.value, keep, EducationConsumed, EducationDerived)
    ensures r.Ok? ==> ColumnInRange(r.value, LevelColumn, 1, 3) && ColumnInRange(r.value, EducationColumn, 1, 4)
    ensures r.Ok? ==> KeepsPassing(t, keep, [EducationFilter, SalaryFilter])
    ensures r.Ok? ==> DerivesAll(t, r.value, keep, EducationRules) && Derives(t, r.value, keep, LevelRule)
  {
    var m := ProcessEducation(t);
    EducationApart();
    ghost var k1 := Kept(t.Texts(EducationSource), EducationCell);
    EducationCellsInRange(t.Texts(EducationSource));
    assert ColumnInRange(m, EducationColumn, 1, 4);
    CarriedTitles(t, m, k1, {EducationSource}, [EducationColumn]);
    CarriedText(t, m, k1, {EducationSource}, [EducationColumn], IncomeSource);
    CarriedText(t, m, k1, {EducationSource}, [EducationColumn], ScheduleSource);
    CarriedText(t, m, k1, {EducationSource}, [EducationColumn], CitySource);
    CarriedColumns(t, m, k1, {EducationSource}, [EducationColumn], UnusedColumns);
    CollectedDerives(t, m, EducationColumn, EducationSource, EducationCell);
    EducationCarriesIn(t, m, k1);
    EducationFails(t, m, k1);
    var b, k2 := ChainFromIncome(m);
    keep := [];
    if b.Err? {
      return Err(b.error), keep;
    }
    Chain(t, m, b.value, k1, k2, {EducationSource}, IncomeConsumed, [EducationColumn], IncomeDerived);
    CarriedRange(m, b.value, k2, IncomeConsumed, IncomeDerived, EducationColumn, 1, 4);
    keep := Select(k1, k2);
    EducationCarriesOut(m, b.value, k2);
    EducationComposes(t, m, b.value, k1, k2);
    r := b;
  }

  /** ProcessExperience and the rest of the chain. The rows left are those with a parsable
      experience, a recognised education and an income in a known currency; the level is now
      computed from the experience text. */
  method ChainFromExperience(t: Table) returns (r: Result<Table>, ghost keep: seq<nat>)
    requires t.Valid() && t.HasText(ExperienceSource) && t.HasText(EducationSource) && t.HasText(IncomeSource)
    requires t.HasText(ScheduleSource) && TitlesReadableByText(t) && t.HasText(CitySource)
    requires UnusedColumns <= t.cols.Keys
    ensures r.Err? <==> FailsSomewhere(t, [ExperienceFilter, EducationFilter], AmountFilter)
    ensures r.Err? ==> r.error == ValueError(IncomeSource)
    ensures r.Ok? ==> Reshaped(t, r.value, keep, ExperienceConsumed, ExperienceDerived)
    ensures r.Ok? ==> ColumnInRange(r.value, LevelColumn, 1, 3) && ColumnInRange(r.value, EducationColumn, 1, 4)
    ensures r.Ok? ==> KeepsPassing(t, keep, ExperienceFilters)
    ensures r.Ok? ==> DerivesAll(t, r.value, keep, ExperienceRules)
  {
    var m := ProcessExperience(t);
    ExperienceApart();
    ghost var k1 := Kept(t.Texts(ExperienceSource), ExperienceCell);
    ExperienceCellsAreInts(t.Texts(ExperienceSource));
    assert m.HasInts(ExperienceColumn);
    CarriedText(t, m, k1, {ExperienceSource}, [ExperienceColumn], EducationSource);
    CarriedText(t, m, k1, {ExperienceSource}, [ExperienceColumn], IncomeSource);
    CarriedText(t, m, k1, {ExperienceSource}, [ExperienceColumn], ScheduleSource);
    CarriedText(t, m, k1, {ExperienceSource}, [ExperienceColumn], CitySource);
    CarriedColumns(t, m, k1, {ExperienceSource}, [ExperienceColumn], UnusedColumns);
    CollectedDerives(t, m, ExperienceColumn, ExperienceSource, ExperienceCell);
    ExperienceCarriesIn(t, m, k1);
    ExperienceTitles(t, m, k1);
    ExperienceFails(t, m, k1);
    var b, k2 := ChainFromEducation(m);
    keep := [];
    if b.Err? {
      return Err(b.error), keep;
    }
    Chain(t, m, b.value, k1, k2, {ExperienceSource}, EducationConsumed, [ExperienceColumn], EducationDerived);
    keep := Select(k1, k2);
    ExperienceCarriesOut(m, b.value, k2);
    ExperienceComposes(t, m, b.value, k1, k2);
    r := b;
  }

  /** ProcessEmployment and the rest of the chain: the rows of ProcessExperience's tail, each with
      its five employment flags. */
  method ChainFromEmployment(t: Table) returns (r: Result<Table>, ghost keep: seq<nat>)
    requires t.Valid() && t.HasText(EmploymentSource) && t.HasText(ExperienceSource) && t.HasText(EducationSource)
    requires t.HasText(IncomeSource) && t.HasText(ScheduleSource) && TitlesReadableByText(t) && t.HasText(CitySource)
    requires UnusedColumns <= t.cols.Keys
    ensures r.Err? <==> FailsSomewhere(t, [ExperienceFilter, EducationFilter], AmountFilter)
    ensures r.Err? ==> r.error == ValueError(IncomeSource)
    ensures r.Ok? ==> Reshaped(t, r.value, keep, EmploymentConsumed, EmploymentDerived)
    ensures r.Ok? ==> ColumnInRange(r.value, LevelColumn, 1, 3) && ColumnInRange(r.value, EducationColumn, 1, 4)
    ensures r.Ok? ==> KeepsPassing(t, keep, ExperienceFilters)
    ensures r.Ok? ==> DerivesAll(t, r.value, keep, EmploymentRules)
  {
    var m := ProcessEmployment(t);
    EmploymentApart();
    CarriedText(t, m, Identity(t.n), {EmploymentSource}, EmploymentColumns, ExperienceSource);
    CarriedText(t, m, Identity(t.n), {EmploymentSource}, EmploymentColumns, EducationSource);
    CarriedText(t, m, Identity(t.n), {EmploymentSource}, EmploymentColumns, IncomeSource);
    CarriedText(t, m, Identity(t.n), {EmploymentSource}, EmploymentColumns, ScheduleSource);
    CarriedTextTitles(t, m, Identity(t.n), {EmploymentSource}, EmploymentColumns);
    CarriedText(t, m, Identity(t.n), {EmploymentSource}, EmploymentColumns, CitySource);
    CarriedColumns(t, m, Identity(t.n), {EmploymentSource}, EmploymentColumns, UnusedColumns);
    EmploymentFlagsDerive(t, m);
    EmploymentCarriesIn(t, m);
    EmploymentFails(t, m);
    var b, k2 := ChainFromExperience(m);
    keep := [];
    if b.Err? {
      return Err(b.error), keep;
    }
    Chain(t, m, b.value, Identity(t.n), k2, {EmploymentSource}, ExperienceConsumed, EmploymentColumns, ExperienceDerived);
    keep := Select(Identity(t.n), k2);
    EmploymentCarriesOut(m, b.value, k2);
    EmploymentComposes(t, m, b.value, k2);
    r := b;
  }

  /** What ProcessAgeSex leaves for its successor: the columns the rest of the chain reads. */
  lemma AfterAgeSex(raw: Table, m: Table, keep: seq<nat>)
    requires Loaded(raw) && Reshaped(raw, m, keep, {AgeSexSource}, [SexColumn, AgeColumn])
    ensures m.HasText(EmploymentSource) && m.HasText(ExperienceSource) && m.HasText(EducationSource)
    ensures m.HasText(IncomeSource) && m.HasText(ScheduleSource) && TitlesReadableByText(m) && m.HasText(CitySource)
    ensures UnusedColumns <= m.cols.Keys
    ensures forall c :: c in EmploymentDerived ==> c !in {AgeSexSource}
  {
    var a1 := [SexColumn, AgeColumn];
    AgeSexApart();
    CarriedText(raw, m, keep, {AgeSexSource}, a1, EmploymentSource);
    CarriedText(raw, m, keep, {AgeSexSource}, a1, ExperienceSource);
    CarriedText(raw, m, keep, {AgeSexSource}, a1, EducationSource);
    CarriedText(raw, m, keep, {AgeSexSource}, a1, IncomeSource);
    CarriedText(raw, m, keep, {AgeSexSource}, a1, ScheduleSource);
    CarriedTextTitles(raw, m, keep, {AgeSexSource}, a1);
    CarriedText(raw, m, keep, {AgeSexSource}, a1, CitySource);
    CarriedColumns(raw, m, keep, {AgeSexSource}, a1, UnusedColumns);
  }

  /** GetProcessedDF.get_dataframe after the loader: ProcessAgeSex and the rest of the chain.
      It raises the age's ValueError exactly when a row whose entry splits has an age `int()`
      rejects, and otherwise the amount's ValueError exactly when a row that reaches ProcessIncome
      has an amount `float()` rejects. Otherwise the finished table holds exactly the loaded rows
      that every dropping handler accepts, in their order; every column the chain assigns holds, in
      each of those rows, what its handler computes from that row's loaded cells; every parsed
      column and the four unused columns are gone; and every row has a level of 1 to 3 and an
      education of 1 to 4. */
  method GetDataframe(raw: Table) returns (r: Result<Table>, ghost keep: seq<nat>)
    requires Loaded(raw)
    ensures r.Err? <==> FailsSomewhere(raw, [SexAgeFilter], AgeFilter) ||
                        FailsSomewhere(raw, [SexAgeFilter, ExperienceFilter, EducationFilter], AmountFilter)
    ensures r.Err? ==> r.error == if FailsSomewhere(raw, [SexAgeFilter], AgeFilter) then ValueError(AgeSexSource)
                                  else ValueError(IncomeSource)
    ensures r.Ok? ==> Reshaped(raw, r.value, keep, Consumed, Derived)
    ensures r.Ok? ==> KeepsPassing(raw, keep, AllFilters) && DerivesAll(raw, r.value, keep, AllRules)
    ensures r.Ok? ==> ColumnInRange(r.value, LevelColumn, 1, 3) && ColumnInRange(r.value, EducationColumn, 1, 4)
    ensures r.Ok? ==> r.value.n <= raw.n
  {
    keep := [];
    AgeFails(raw);
    var a := ProcessAgeSex(raw);
    if a.Err? {
      return Err(a.error), keep;
    }
    var m := a.value;
    ghost var k1 := Kept(raw.Texts(AgeSexSource), SexAgeFields);
    AfterAgeSex(raw, m, k1);
    AgeSexDerives(raw, m);
    AgeSexCarriesIn(raw, m, k1);
    AgeSexFails(raw, m, k1);
    var b, k2 := ChainFromEmployment(m);
    if b.Err? {
      return Err(b.error), keep;
    }
    Chain(raw, m, b.value, k1, k2, {AgeSexSource}, EmploymentConsumed, [SexColumn, AgeColumn], EmploymentDerived);
    keep := Select(k1, k2);
    IncreasingBelowLength(keep, raw.n);
    AgeSexCarriesOut(m, b.value, k2);
    AgeSexComposes(raw, m, b.value, k1, k2);
    r := b;
  }

  // ---------------------------------------------------------------------------------------------
  // ConvertToNumpy: the target is the salary column, the features are everything else

  /** `y = df["Зарплата"]`, `X = df.drop(columns=["Зарплата"])`. */
  datatype FeaturesTarget = FeaturesTarget(x: Table, y: seq<Value>)

  function FeaturesAndTarget(t: Table): (s: FeaturesTarget)
    requires t.Valid() && SalaryColumn in t.cols
    ensures s.x.Valid() && s.x.n == t.n && |s.y| == t.n
    ensures SalaryColumn !in s.x.cols && s.x.cols.Keys == t.cols.Keys - {SalaryColumn}
  {
    FeaturesTarget(DropColumns(t, {SalaryColumn}), t.cols[SalaryColumn])
  }

  /** Nothing is lost in the split: assigning the target back as a column gives the table's
      columns again, with the salary column moved to the end. */
  lemma SplitRoundTrip(t: Table)
    requires t.Valid() && SalaryColumn in t.cols
    ensures var s := FeaturesAndTarget(t);
            Assign(s.x, SalaryColumn, s.y).cols == t.cols &&
            Assign(s.x, SalaryColumn, s.y).names == Without(t.names, {SalaryColumn}) + [SalaryColumn]
  {
    var s := FeaturesAndTarget(t);
    assert SalaryColumn !in s.x.names;
    assert [SalaryColumn][1..] == [];
    assert AddAll(s.x.names, [SalaryColumn]) == AddAll(s.x.names + [SalaryColumn], []);
  }
}
