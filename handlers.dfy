/** The handlers of parse_dataset.py. Each reads one free-text column, derives its columns row by
    row with the source's accumulator loop, may drop the rows it cannot parse, and removes the
    column it read. Each is proved to produce the per-row rule of module Rules followed by the
    row filter of module RowFilter. */
module Handlers {
  import opened Text
  import opened RowFilter
  import opened Frame
  import opened Rules

  // Column names, as in the source
  const AgeSexSource := "Пол, возраст"
  const SexColumn := "Пол"
  const AgeColumn := "Возраст"
  const EmploymentSource := "Занятость"
  const ExperienceSource := "Опыт (двойное нажатие для полной версии)"
  const ExperienceColumn := "Опыт работы"
  const EducationSource := "Образование и ВУЗ"
  const EducationColumn := "Образование"
  const IncomeSource := "ЗП"
  const SalaryColumn := "Зарплата"
  const ScheduleSource := "График"
  const TitleSource := "Последеняя/нынешняя должность"
  const LevelColumn := "Уровень кандидата"
  const CitySource := "Город"
  const RelocationColumn := "Готовность к переезду"
  const TripsColumn := "Готовность к командировкам"
  const UnusedColumns: set<string> :=
    {"Авто", "Последенее/нынешнее место работы", "Ищет работу на должность:", "Обновление резюме"}

  const FullTime := "Полная занятость"
  const PartTime := "Частичная занятость"
  const Project := "Проект"
  const Volunteering := "Волонтерство"
  const Internship := "Стажировка"
  /** The five employment columns in the order they are assigned. */
  const EmploymentColumns: seq<string> := [FullTime, PartTime, Project, Volunteering, Internship]

  const FullDay := "Полный день"
  const Remote := "Удаленная работа"
  const Flexible := "Гибкий график"
  const Rotation := "Вахтовый метод"
  const Shifts := "Сменный график"
  /** The five schedule columns in the order they are assigned. */
  const ScheduleColumns: seq<string> := [FullDay, Remote, Flexible, Rotation, Shifts]

  lemma EmploymentNames()
    ensures Distinct(EmploymentColumns) && EmploymentSource !in EmploymentColumns
  {
  }

  lemma CityNames()
    ensures Distinct([RelocationColumn, TripsColumn]) && CitySource !in [RelocationColumn, TripsColumn]
  {
  }

  lemma ScheduleNames()
    ensures Distinct(ScheduleColumns) && ScheduleSource !in ScheduleColumns
  {
  }

  /** One 0/1 cell per text. */
  function FlagCells(texts: seq<string>, ru: string, en: string): seq<Value> {
    seq(|texts|, i requires 0 <= i < |texts| => Int(Flag(texts[i], ru, en)))
  }

  function IntCells(texts: seq<string>, f: string -> int): seq<Value> {
    seq(|texts|, i requires 0 <= i < |texts| => Int(f(texts[i])))
  }

  lemma FlagCellsStep(texts: seq<string>, i: nat, ru: string, en: string)
    requires i < |texts|
    ensures FlagCells(texts[..i + 1], ru, en) == FlagCells(texts[..i], ru, en) + [Int(Flag(texts[i], ru, en))]
  {
  }

  lemma IntCellsStep(texts: seq<string>, i: nat, f: string -> int)
    requires i < |texts|
    ensures IntCells(texts[..i + 1], f) == IntCells(texts[..i], f) + [Int(f(texts[i]))]
  {
  }

  /** The sex tokens and the age prefixes of the rows that split. */
  function Sexes(fields: seq<SexAge>): seq<string> {
    seq(|fields|, k requires 0 <= k < |fields| => fields[k].sex)
  }

  function Ages(fields: seq<SexAge>): seq<string> {
    seq(|fields|, k requires 0 <= k < |fields| => fields[k].age)
  }

  lemma FieldsStep(fields: seq<SexAge>, data: SexAge)
    ensures Sexes(fields + [data]) == Sexes(fields) + [data.sex]
    ensures Ages(fields + [data]) == Ages(fields) + [data.age]
  {
  }

  /** `sex_correct_list`: the code of every sex token. */
  function SexCells(sex: seq<string>): seq<Value> {
    seq(|sex|, k requires 0 <= k < |sex| => Str(SexCode(sex[k])))
  }

  lemma SexCellsStep(sex: seq<string>, j: nat)
    requires j < |sex|
    ensures SexCells(sex[..j + 1]) == SexCells(sex[..j]) + [Str(SexCode(sex[j]))]
  {
  }

  // The per-row parse of the handlers that drop rows, as a cell value (None drops the row).

  function ExperienceCell(text: string): Option<Value> {
    match ExperienceMonths(text)
    case Some(m) => Some(Int(m))
    case None => None
  }

  function EducationCell(text: string): Option<Value> {
    match EduLevel(text)
    case Some(e) => Some(Int(e))
    case None => None
  }

  function SalaryCell(text: string): Option<Value> {
    match Salary(text)
    case Some(s) => Some(Real(s))
    case None => None
  }

  /** A column that neither the handler removes nor assigns keeps its text, restricted to the
      surviving rows. */
  lemma CarriedText(t: Table, r: Table, keep: seq<nat>, gone: set<string>, added: seq<string>, c: string)
    requires Untouched(t, r, keep, gone, added) && t.HasText(c) && c !in gone && c !in added
    ensures r.HasText(c) && Below(keep, |t.Texts(c)|) && r.Texts(c) == Select(t.Texts(c), keep)
  {
  }

  lemma CarriedInts(t: Table, r: Table, keep: seq<nat>, gone: set<string>, added: seq<string>, c: string)
    requires Untouched(t, r, keep, gone, added) && t.HasInts(c) && c !in gone && c !in added
    ensures r.HasInts(c) && Below(keep, |t.Ints(c)|) && r.Ints(c) == Select(t.Ints(c), keep)
  {
  }

  /** `df[cols[0]] = vals[0]`, `df[cols[1]] = vals[1]`, ... in turn. */
  function AssignEach(t: Table, cols: seq<string>, vals: seq<seq<Value>>): (r: Table)
    requires t.Valid() && |vals| == |cols| && forall k :: 0 <= k < |vals| ==> |vals[k]| == t.n
    ensures r.Valid() && r.n == t.n
    decreases |cols|
  {
    if cols == [] then t else AssignEach(Assign(t, cols[0], vals[0]), cols[1..], vals[1..])
  }

  /** The assignments add the new names at the end, in order. */
  lemma {:induction false} AssignEachNames(t: Table, cols: seq<string>, vals: seq<seq<Value>>)
    requires t.Valid() && |vals| == |cols| && forall k :: 0 <= k < |vals| ==> |vals[k]| == t.n
    ensures AssignEach(t, cols, vals).names == AddAll(t.names, cols)
    decreases |cols|
  {
    if cols != [] {
      var t1 := Assign(t, cols[0], vals[0]);
      AssignEachNames(t1, cols[1..], vals[1..]);
      HeadTail(cols);
      AddAllAppend(t.names, [cols[0]], cols[1..]);
    }
  }

  /** The assignments add exactly the new columns. */
  lemma {:induction false} AssignEachKeys(t: Table, cols: seq<string>, vals: seq<seq<Value>>)
    requires t.Valid() && |vals| == |cols| && forall k :: 0 <= k < |vals| ==> |vals[k]| == t.n
    ensures forall c :: c in AssignEach(t, cols, vals).cols <==> c in t.cols || c in cols
    decreases |cols|
  {
    if cols != [] {
      var t1 := Assign(t, cols[0], vals[0]);
      AssignEachKeys(t1, cols[1..], vals[1..]);
      assert forall c :: c in cols <==> c == cols[0] || c in cols[1..];
    }
  }

  /** The assignments leave every other column as it was. */
  lemma {:induction false} AssignEachOthers(t: Table, cols: seq<string>, vals: seq<seq<Value>>, c: string)
    requires t.Valid() && |vals| == |cols| && forall k :: 0 <= k < |vals| ==> |vals[k]| == t.n
    requires c in t.cols && c !in cols
    ensures c in AssignEach(t, cols, vals).cols && AssignEach(t, cols, vals).cols[c] == t.cols[c]
    decreases |cols|
  {
    if cols != [] {
      var t1 := Assign(t, cols[0], vals[0]);
      assert c !in cols[1..] by { assert forall d :: d in cols[1..] ==> d in cols; }
      AssignEachOthers(t1, cols[1..], vals[1..], c);
    }
  }

  /** The assignments give each new column its values. */
  lemma {:induction false} AssignEachNew(t: Table, cols: seq<string>, vals: seq<seq<Value>>, k: nat)
    requires t.Valid() && |vals| == |cols| && forall k :: 0 <= k < |vals| ==> |vals[k]| == t.n
    requires Distinct(cols) && k < |cols|
    ensures cols[k] in AssignEach(t, cols, vals).cols && AssignEach(t, cols, vals).cols[cols[k]] == vals[k]
    decreases |cols|
  {
    var t1 := Assign(t, cols[0], vals[0]);
    if k == 0 {
      assert cols[0] !in cols[1..];
      AssignEachOthers(t1, cols[1..], vals[1..], cols[0]);
    } else {
      AssignEachNew(t1, cols[1..], vals[1..], k - 1);
    }
  }

  /** What closes every handler: `df.drop(df.index[drops]).reset_index(drop=True)` (for the
      handlers that drop rows), the new columns assigned in order, `df.drop(columns=[src])`. */
  function ReplaceColumns(t: Table, drops: seq<nat>, src: string, cols: seq<string>, vals: seq<seq<Value>>): (r: Table)
    requires t.Valid() && src in t.cols && |vals| == |cols|
    requires forall k :: 0 <= k < |vals| ==> |vals[k]| == |Survivors(t.n, drops)|
    ensures r.Valid() && r.n == |Survivors(t.n, drops)|
  {
    var t1 := DropRows(t, drops);
    AssignEachKeys(t1, cols, vals);
    DropColumns(AssignEach(t1, cols, vals), {src})
  }

  /** The table keeps the surviving rows, gains `cols` holding `vals`, and loses `src`. */
  lemma Replaced(t: Table, drops: seq<nat>, src: string, cols: seq<string>, vals: seq<seq<Value>>)
    requires t.Valid() && src in t.cols && src !in cols && Distinct(cols) && |vals| == |cols|
    requires forall k :: 0 <= k < |vals| ==> |vals[k]| == |Survivors(t.n, drops)|
    ensures Reshaped(t, ReplaceColumns(t, drops, src, cols, vals), Survivors(t.n, drops), {src}, cols)
    ensures var r := ReplaceColumns(t, drops, src, cols, vals);
            src !in r.cols && forall k :: 0 <= k < |cols| ==> cols[k] in r.cols && r.cols[cols[k]] == vals[k]
  {
    var t1 := DropRows(t, drops);
    var t2 := AssignEach(t1, cols, vals);
    AssignEachKeys(t1, cols, vals);
    var r := DropColumns(t2, {src});
    assert r == ReplaceColumns(t, drops, src, cols, vals);
    AssignEachNames(t1, cols, vals);
    forall c | c in t.cols && c != src && c !in cols
      ensures c in r.cols && r.cols[c] == Select(t.cols[c], Survivors(t.n, drops))
    {
      AssignEachOthers(t1, cols, vals, c);
    }
    forall k | 0 <= k < |cols| ensures cols[k] in r.cols && r.cols[cols[k]] == vals[k] {
      AssignEachNew(t1, cols, vals, k);
    }
  }

  /** A handler that drops the rows whose `src` text `f` rejects and stores the parse of every
      other row in `dst` keeps exactly the accepted rows, in order, each with its own parse. */
  lemma FilteredColumn<U>(t: Table, src: string, f: string -> Option<U>)
    requires t.Valid() && t.HasText(src)
    ensures Survivors(t.n, Drops(t.Texts(src), f)) == Kept(t.Texts(src), f)
    ensures |Collect(t.Texts(src), f)| == |Kept(t.Texts(src), f)| == t.n - |Drops(t.Texts(src), f)|
  {
    var texts := t.Texts(src);
    KeptAndDropped(texts, f);
    SurvivorsAreKept(texts, f);
    CollectValues(texts, f);
  }

  /** A handler that drops nothing keeps every row. */
  lemma SurvivorsNone(n: nat)
    ensures Survivors(n, []) == Identity(n)
  {
    var s, id := Survivors(n, []), Identity(n);
    forall x ensures x in s <==> x in id {
      if x in s {
        var p :| 0 <= p < |s| && s[p] == x;
        assert id[x] == x;
      }
      if x in id {
        var p :| 0 <= p < |id| && id[p] == x;
        assert x < n && x !in [];
      }
    }
    IncreasingUnique(s, id);
  }

  /** A handler that drops no row: the table gains `cols` holding `vals` and loses `src`. */
  lemma ReplacedAll(t: Table, src: string, cols: seq<string>, vals: seq<seq<Value>>)
    requires t.Valid() && src in t.cols && src !in cols && Distinct(cols) && |vals| == |cols|
    requires forall k :: 0 <= k < |vals| ==> |vals[k]| == t.n
    ensures Reshaped(t, ReplaceColumns(t, [], src, cols, vals), Identity(t.n), {src}, cols)
    ensures var r := ReplaceColumns(t, [], src, cols, vals);
            src !in r.cols && forall k :: 0 <= k < |cols| ==> cols[k] in r.cols && r.cols[cols[k]] == vals[k]
  {
    SurvivorsNone(t.n);
    Replaced(t, [], src, cols, vals);
  }

  // -------------------------------------------------------------------------------------------
  // RemoveUnusedColumns

  /** Drops the four columns that carry no signal; nothing else changes. */
  function RemoveUnusedColumns(t: Table): (r: Table)
    requires t.Valid() && UnusedColumns <= t.cols.Keys
    ensures Reshaped(t, r, Identity(t.n), UnusedColumns, [])
    ensures r.n == t.n && r.cols.Keys == t.cols.Keys - UnusedColumns
  {
    var r := DropColumns(t, UnusedColumns);
    assert forall c :: c in t.cols && c !in UnusedColumns ==> r.cols[c] == Select(t.cols[c], Identity(t.n)) by {
      forall c | c in t.cols && c !in UnusedColumns { SelectIdentity(t.cols[c]); }
    }
    r
  }

  // -------------------------------------------------------------------------------------------
  // ProcessAgeSex

  /** The first loop of ProcessAgeSex: the rows whose entry does not split are dropped, the
      others give their sex and age tokens in order. */
  method SplitEntries(series: seq<string>)
    returns (drops: seq<nat>, sex: seq<string>, age: seq<string>, ghost fields: seq<SexAge>)
    ensures drops == Drops(series, SexAgeFields) && fields == Collect(series, SexAgeFields)
    ensures sex == Sexes(fields) && age == Ages(fields)
  {
    drops, sex, age, fields := [], [], [], [];
    var i := 0;
    while i < |series|
      invariant 0 <= i <= |series|
      invariant drops == Drops(series[..i], SexAgeFields)
      invariant fields == Collect(series[..i], SexAgeFields)
      invariant sex == Sexes(fields) && age == Ages(fields)
    {
      FilterStep(series, i, SexAgeFields);
      match SexAgeFields(series[i]) {
        case None =>
          drops := drops + [i];
        case Some(data) =>
          FieldsStep(fields, data);
          sex := sex + [data.sex];
          age := age + [data.age];
          fields := fields + [data];
      }
      i := i + 1;
    }
    assert series[..|series|] == series;
  }

  /** The `int()` conversion of every age, or None when one of them is not an integer. */
  method ParseAges(age: seq<string>) returns (r: Option<seq<Value>>)
    ensures r.None? <==> exists k :: 0 <= k < |age| && ParseInt(age[k]).None?
    ensures r.Some? ==> |r.value| == |age|
    ensures r.Some? ==> forall k :: 0 <= k < |age| ==> r.value[k].Int? && ParseInt(age[k]) == Some(r.value[k].i)
  {
    var ages: seq<Value> := [];
    var j := 0;
    while j < |age|
      invariant 0 <= j <= |age| && |ages| == j
      invariant forall k :: 0 <= k < j ==> ages[k].Int? && ParseInt(age[k]) == Some(ages[k].i)
    {
      var a := ParseInt(age[j]);
      if a.None? {
        return None;
      }
      ages := ages + [Int(a.value)];
      j := j + 1;
    }
    r := Some(ages);
  }

  /** The table ProcessAgeSex returns once every age has parsed: the entry column gives way to
      the sex and age columns, aligned with the entries that split. */
  lemma AgeSexTable(t: Table, drops: seq<nat>, fields: seq<SexAge>, sexCodes: seq<Value>, ages: seq<Value>)
    requires t.Valid() && t.HasText(AgeSexSource)
    requires drops == Drops(t.Texts(AgeSexSource), SexAgeFields)
    requires fields == Collect(t.Texts(AgeSexSource), SexAgeFields)
    requires sexCodes == SexCells(Sexes(fields)) && |ages| == |fields| == |Survivors(t.n, drops)|
    requires forall k :: 0 <= k < |fields| ==> ages[k].Int? && ParseInt(Ages(fields)[k]) == Some(ages[k].i)
    ensures var texts := t.Texts(AgeSexSource);
            var table := ReplaceColumns(t, drops, AgeSexSource, [SexColumn, AgeColumn], [sexCodes, ages]);
            Reshaped(t, table, Kept(texts, SexAgeFields), {AgeSexSource}, [SexColumn, AgeColumn]) &&
            table.n == |fields| == t.n - |Drops(texts, SexAgeFields)| &&
            SexColumn in table.cols && AgeColumn in table.cols &&
            forall k :: 0 <= k < |fields| ==>
              table.cols[SexColumn][k] == Str(SexCode(fields[k].sex)) &&
              table.cols[AgeColumn][k].Int? &&
              ParseInt(fields[k].age) == Some(table.cols[AgeColumn][k].i)
    ensures !exists k :: 0 <= k < |fields| && ParseInt(fields[k].age).None?
  {
    FilteredColumn(t, AgeSexSource, SexAgeFields);
    Replaced(t, drops, AgeSexSource, [SexColumn, AgeColumn], [sexCodes, ages]);
    var table := ReplaceColumns(t, drops, AgeSexSource, [SexColumn, AgeColumn], [sexCodes, ages]);
    assert table.cols[SexColumn] == sexCodes && table.cols[AgeColumn] == ages by {
      assert [SexColumn, AgeColumn][0] == SexColumn && [SexColumn, AgeColumn][1] == AgeColumn;
    }
    forall k | 0 <= k < |fields|
      ensures sexCodes[k] == Str(SexCode(fields[k].sex)) && ParseInt(fields[k].age) == Some(ages[k].i)
    {
      assert Sexes(fields)[k] == fields[k].sex && Ages(fields)[k] == fields[k].age;
    }
  }

  /** An entry whose ',' pieces are fewer than two drops its row; the sex is "0" for "Female" or
      "Женщина" and "1" otherwise; the age is `int()` of the first two characters of the second
      piece, and one that is not an integer fails the whole handler. */
  method ProcessAgeSex(t: Table) returns (r: Result<Table>)
    requires t.Valid() && t.HasText(AgeSexSource)
    ensures var fields := Collect(t.Texts(AgeSexSource), SexAgeFields);
            r.Err? <==> exists k :: 0 <= k < |fields| && ParseInt(fields[k].age).None?
    ensures r.Err? ==> r.error == ValueError(AgeSexSource)
    ensures r.Ok? ==>
              var texts := t.Texts(AgeSexSource);
              var fields := Collect(texts, SexAgeFields);
              Reshaped(t, r.value, Kept(texts, SexAgeFields), {AgeSexSource}, [SexColumn, AgeColumn]) &&
              r.value.n == |fields| == t.n - |Drops(texts, SexAgeFields)| &&
              SexColumn in r.value.cols && AgeColumn in r.value.cols &&
              forall k :: 0 <= k < |fields| ==>
                r.value.cols[SexColumn][k] == Str(SexCode(fields[k].sex)) &&
                r.value.cols[AgeColumn][k].Int? &&
                ParseInt(fields[k].age) == Some(r.value.cols[AgeColumn][k].i)
  {
    var series := t.Texts(AgeSexSource);
    var drops, sex, age, fields := SplitEntries(series);
    FilteredColumn(t, AgeSexSource, SexAgeFields);

    var parsed := ParseAges(age);
    if parsed.None? {
      ghost var k :| 0 <= k < |age| && ParseInt(age[k]).None?;
      assert fields[k].age == age[k];
      return Err(ValueError(AgeSexSource));
    }
    var ages := parsed.value;

    var sexCodes: seq<Value> := [];
    var j := 0;
    while j < |sex|
      invariant 0 <= j <= |sex| && sexCodes == SexCells(sex[..j])
    {
      SexCellsStep(sex, j);
      sexCodes := sexCodes + [Str(SexCode(sex[j]))];
      j := j + 1;
    }
    assert sex[..|sex|] == sex;
    assert |sexCodes| == |sex| == |fields| == |ages|;
    var table := ReplaceColumns(t, drops, AgeSexSource, [SexColumn, AgeColumn], [sexCodes, ages]);
    AgeSexTable(t, drops, fields, sexCodes, ages);
    r := Ok(table);
  }

  // -------------------------------------------------------------------------------------------
  // ProcessEmployment

  /** Five independent 0/1 columns: full-time, part-time, project, volunteering, internship. */
  method ProcessEmployment(t: Table) returns (r: Table)
    requires t.Valid() && t.HasText(EmploymentSource)
    ensures Reshaped(t, r, Identity(t.n), {EmploymentSource}, EmploymentColumns)
    ensures forall c :: c in EmploymentColumns ==> c in r.cols
    ensures var items := t.Texts(EmploymentSource);
            r.cols[FullTime] == FlagCells(items, "полная", "full") &&
            r.cols[PartTime] == FlagCells(items, "частичная", "part") &&
            r.cols[Project] == FlagCells(items, "проект", "project") &&
            r.cols[Volunteering] == FlagCells(items, "волонтер", "volunteer") &&
            r.cols[Internship] == FlagCells(items, "стаж", "placement")
  {
    var items := t.Texts(EmploymentSource);
    var full: seq<Value> := [];
    var partly: seq<Value> := [];
    var volunteer: seq<Value> := [];
    var wPlace: seq<Value> := [];
    var proj: seq<Value> := [];
    var i := 0;
    while i < |items|
      invariant 0 <= i <= |items|
      invariant full == FlagCells(items[..i], "полная", "full")
      invariant partly == FlagCells(items[..i], "частичная", "part")
      invariant volunteer == FlagCells(items[..i], "волонтер", "volunteer")
      invariant proj == FlagCells(items[..i], "проект", "project")
      invariant wPlace == FlagCells(items[..i], "стаж", "placement")
    {
      FlagCellsStep(items, i, "полная", "full");
      full := full + [Int(Flag(items[i], "полная", "full"))];
      FlagCellsStep(items, i, "частичная", "part");
      partly := partly + [Int(Flag(items[i], "частичная", "part"))];
      FlagCellsStep(items, i, "волонтер", "volunteer");
      volunteer := volunteer + [Int(Flag(items[i], "волонтер", "volunteer"))];
      FlagCellsStep(items, i, "проект", "project");
      proj := proj + [Int(Flag(items[i], "проект", "project"))];
      FlagCellsStep(items, i, "стаж", "placement");
      wPlace := wPlace + [Int(Flag(items[i], "стаж", "placement"))];
      i := i + 1;
    }
    assert items[..|items|] == items;
    EmploymentNames();
    var vals := [full, partly, proj, volunteer, wPlace];
    ReplacedAll(t, EmploymentSource, EmploymentColumns, vals);
    r := ReplaceColumns(t, [], EmploymentSource, EmploymentColumns, vals);
    assert r.cols[FullTime] == vals[0] && r.cols[PartTime] == vals[1] && r.cols[Project] == vals[2]
        && r.cols[Volunteering] == vals[3] && r.cols[Internship] == vals[4] by {
      assert EmploymentColumns[0] == FullTime && EmploymentColumns[1] == PartTime && EmploymentColumns[2] == Project
          && EmploymentColumns[3] == Volunteering && EmploymentColumns[4] == Internship;
    }
  }

  // -------------------------------------------------------------------------------------------
  // ProcessCity

  /** Two 0/1 columns: willing to relocate, willing to go on business trips. */
  method ProcessCity(t: Table) returns (r: Table)
    requires t.Valid() && t.HasText(CitySource)
    ensures Reshaped(t, r, Identity(t.n), {CitySource}, [RelocationColumn, TripsColumn])
    ensures RelocationColumn in r.cols && TripsColumn in r.cols
    ensures r.cols[RelocationColumn] == IntCells(t.Texts(CitySource), Relocation)
    ensures r.cols[TripsColumn] == IntCells(t.Texts(CitySource), BusinessTrips)
  {
    var items := t.Texts(CitySource);
    var relocation: seq<Value> := [];
    var bt: seq<Value> := [];
    var i := 0;
    while i < |items|
      invariant 0 <= i <= |items|
      invariant relocation == IntCells(items[..i], Relocation)
      invariant bt == IntCells(items[..i], BusinessTrips)
    {
      IntCellsStep(items, i, Relocation);
      IntCellsStep(items, i, BusinessTrips);
      relocation := relocation + [Int(Relocation(items[i]))];
      bt := bt + [Int(BusinessTrips(items[i]))];
      i := i + 1;
    }
    assert items[..|items|] == items;
    CityNames();
    var vals := [relocation, bt];
    ReplacedAll(t, CitySource, [RelocationColumn, TripsColumn], vals);
    r := ReplaceColumns(t, [], CitySource, [RelocationColumn, TripsColumn], vals);
    assert r.cols[RelocationColumn] == vals[0] && r.cols[TripsColumn] == vals[1] by {
      assert [RelocationColumn, TripsColumn][0] == RelocationColumn && [RelocationColumn, TripsColumn][1] == TripsColumn;
    }
  }

  // -------------------------------------------------------------------------------------------
  // ProcessSchedule

  /** Five independent 0/1 columns: full day, remote, flexible, rotation, shifts. */
  method ProcessSchedule(t: Table) returns (r: Table)
    requires t.Valid() && t.HasText(ScheduleSource)
    ensures Reshaped(t, r, Identity(t.n), {ScheduleSource}, ScheduleColumns)
    ensures forall c :: c in ScheduleColumns ==> c in r.cols
    ensures var items := t.Texts(ScheduleSource);
            r.cols[FullDay] == FlagCells(items, "полный", "full") &&
            r.cols[Remote] == FlagCells(items, "удал", "remote") &&
            r.cols[Flexible] == FlagCells(items, "гибк", "flexible") &&
            r.cols[Rotation] == FlagCells(items, "вахт", "rotation") &&
            r.cols[Shifts] == FlagCells(items, "смен", "shift")
  {
    var items := t.Texts(ScheduleSource);
    var fullDay: seq<Value> := [];
    var remote: seq<Value> := [];
    var flexible: seq<Value> := [];
    var rotation: seq<Value> := [];
    var shift: seq<Value> := [];
    var i := 0;
    while i < |items|
      invariant 0 <= i <= |items|
      invariant fullDay == FlagCells(items[..i], "полный", "full")
      invariant remote == FlagCells(items[..i], "удал", "remote")
      invariant flexible == FlagCells(items[..i], "гибк", "flexible")
      invariant rotation == FlagCells(items[..i], "вахт", "rotation")
      invariant shift == FlagCells(items[..i], "смен", "shift")
    {
      FlagCellsStep(items, i, "полный", "full");
      fullDay := fullDay + [Int(Flag(items[i], "полный", "full"))];
      FlagCellsStep(items, i, "удал", "remote");
      remote := remote + [Int(Flag(items[i], "удал", "remote"))];
      FlagCellsStep(items, i, "гибк", "flexible");
      flexible := flexible + [Int(Flag(items[i], "гибк", "flexible"))];
      FlagCellsStep(items, i, "вахт", "rotation");
      rotation := rotation + [Int(Flag(items[i], "вахт", "rotation"))];
      FlagCellsStep(items, i, "смен", "shift");
      shift := shift + [Int(Flag(items[i], "смен", "shift"))];
      i := i + 1;
    }
    assert items[..|items|] == items;
    ScheduleNames();
    var vals := [fullDay, remote, flexible, rotation, shift];
    ReplacedAll(t, ScheduleSource, ScheduleColumns, vals);
    r := ReplaceColumns(t, [], ScheduleSource, ScheduleColumns, vals);
    assert r.cols[FullDay] == vals[0] && r.cols[Remote] == vals[1] && r.cols[Flexible] == vals[2]
        && r.cols[Rotation] == vals[3] && r.cols[Shifts] == vals[4] by {
      assert ScheduleColumns[0] == FullDay && ScheduleColumns[1] == Remote && ScheduleColumns[2] == Flexible
          && ScheduleColumns[3] == Rotation && ScheduleColumns[4] == Shifts;
    }
  }

  // -------------------------------------------------------------------------------------------
  // ProcessEducation

  /** The education ordinal of every row that names a known level; the other rows are dropped. */
  method ProcessEducation(t: Table) returns (r: Table)
    requires t.Valid() && t.HasText(EducationSource)
    ensures Reshaped(t, r, Kept(t.Texts(EducationSource), EducationCell), {EducationSource}, [EducationColumn])
    ensures r.n == t.n - |Drops(t.Texts(EducationSource), EducationCell)|
    ensures EducationColumn in r.cols && r.cols[EducationColumn] == Collect(t.Texts(EducationSource), EducationCell)
  {
    var educationList := t.Texts(EducationSource);
    var dfEdu: seq<Value> := [];
    var dropIdxs: seq<nat> := [];
    var idx := 0;
    while idx < |educationList|
      invariant 0 <= idx <= |educationList|
      invariant dropIdxs == Drops(educationList[..idx], EducationCell)
      invariant dfEdu == Collect(educationList[..idx], EducationCell)
    {
      FilterStep(educationList, idx, EducationCell);
      match EduLevel(educationList[idx]) {
        case Some(level) => dfEdu := dfEdu + [Int(level)];
        case None => dropIdxs := dropIdxs + [idx];
      }
      idx := idx + 1;
    }
    assert educationList[..|educationList|] == educationList;
    FilteredColumn(t, EducationSource, EducationCell);
    r := ReplaceColumns(t, dropIdxs, EducationSource, [EducationColumn], [dfEdu]);
    Replaced(t, dropIdxs, EducationSource, [EducationColumn], [dfEdu]);
  }

  // -------------------------------------------------------------------------------------------
  // ProcessExperience

  /** Months of experience from the first line of each text; rows with no number or with three or
      more numbers are dropped. */
  method ProcessExperience(t: Table) returns (r: Table)
    requires t.Valid() && t.HasText(ExperienceSource)
    ensures Reshaped(t, r, Kept(t.Texts(ExperienceSource), ExperienceCell), {ExperienceSource}, [ExperienceColumn])
    ensures r.n == t.n - |Drops(t.Texts(ExperienceSource), ExperienceCell)|
    ensures ExperienceColumn in r.cols && r.cols[ExperienceColumn] == Collect(t.Texts(ExperienceSource), ExperienceCell)
  {
    var expList := t.Texts(ExperienceSource);
    var output: seq<Value> := [];
    var drops: seq<nat> := [];
    var idx := 0;
    while idx < |expList|
      invariant 0 <= idx <= |expList|
      invariant drops == Drops(expList[..idx], ExperienceCell)
      invariant output == Collect(expList[..idx], ExperienceCell)
    {
      FilterStep(expList, idx, ExperienceCell);
      match ExperienceMonths(expList[idx]) {
        case Some(months) => output := output + [Int(months)];
        case None => drops := drops + [idx];
      }
      idx := idx + 1;
    }
    assert expList[..|expList|] == expList;
    FilteredColumn(t, ExperienceSource, ExperienceCell);
    r := ReplaceColumns(t, drops, ExperienceSource, [ExperienceColumn], [output]);
    Replaced(t, drops, ExperienceSource, [ExperienceColumn], [output]);
  }

  // -------------------------------------------------------------------------------------------
  // ProcessIncome

  /** The salary cell of a row whose amount parsed: the amount times the rate of its label. */
  lemma SalaryStep(items: seq<string>, i: nat, amount: real, code: string)
    requires i < |items| && ParseDecimal(AmountToken(items[i])) == Some(amount) && code == CurrencyToken(items[i])
    ensures Drops(items[..i + 1], SalaryCell) == Drops(items[..i], SalaryCell) + (if code in Rates then [] else [i])
    ensures Collect(items[..i + 1], SalaryCell) ==
              Collect(items[..i], SalaryCell) + (if code in Rates then [Real(InRoubles(amount, code))] else [])
  {
    FilterStep(items, i, SalaryCell);
  }

  /** The first loop of ProcessIncome: the `float()` of every amount, or None as soon as one of
      them is not a number. */
  method ParseAmounts(items: seq<string>) returns (r: Option<seq<real>>)
    ensures r.None? <==> exists k :: 0 <= k < |items| && ParseDecimal(AmountToken(items[k])).None?
    ensures r.Some? ==> |r.value| == |items|
    ensures r.Some? ==> forall k :: 0 <= k < |items| ==> ParseDecimal(AmountToken(items[k])) == Some(r.value[k])
  {
    var amountList: seq<real> := [];
    var j := 0;
    while j < |items|
      invariant 0 <= j <= |items| && |amountList| == j
      invariant forall k :: 0 <= k < j ==> ParseDecimal(AmountToken(items[k])) == Some(amountList[k])
    {
      var amount := ParseDecimal(AmountToken(items[j]));
      if amount.None? {
        return None;
      }
      amountList := amountList + [amount.value];
      j := j + 1;
    }
    r := Some(amountList);
  }

  /** The second loop of ProcessIncome: a row whose label is not in the rate table is dropped,
      the others keep their amount times the rate. */
  method ConvertSalaries(items: seq<string>, amountList: seq<real>) returns (drops: seq<nat>, output: seq<Value>)
    requires |amountList| == |items|
    requires forall k :: 0 <= k < |items| ==> ParseDecimal(AmountToken(items[k])) == Some(amountList[k])
    ensures drops == Drops(items, SalaryCell) && output == Collect(items, SalaryCell)
  {
    var currencyList := seq(|items|, k requires 0 <= k < |items| => CurrencyToken(items[k]));
    output, drops := [], [];
    var i := 0;
    while i < |items|
      invariant 0 <= i <= |items|
      invariant drops == Drops(items[..i], SalaryCell)
      invariant output == Collect(items[..i], SalaryCell)
    {
      SalaryStep(items, i, amountList[i], currencyList[i]);
      if currencyList[i] !in Rates {
        drops := drops + [i];
      } else {
        output := output + [Real(InRoubles(amountList[i], currencyList[i]))];
      }
      i := i + 1;
    }
    assert items[..|items|] == items;
  }

  /** The table ProcessIncome returns once every amount has parsed: a row survives exactly when
      its currency label is in the rate table. */
  lemma IncomeTable(t: Table, drops: seq<nat>, output: seq<Value>)
    requires t.Valid() && t.HasText(IncomeSource)
    requires forall i :: 0 <= i < |t.Texts(IncomeSource)| ==> ParseDecimal(AmountToken(t.Texts(IncomeSource)[i])).Some?
    requires drops == Drops(t.Texts(IncomeSource), SalaryCell) && output == Collect(t.Texts(IncomeSource), SalaryCell)
    requires |output| == |Survivors(t.n, drops)|
    ensures var texts := t.Texts(IncomeSource);
            var table := ReplaceColumns(t, drops, IncomeSource, [SalaryColumn], [output]);
            Reshaped(t, table, Kept(texts, SalaryCell), {IncomeSource}, [SalaryColumn]) &&
            table.n == t.n - |Drops(texts, SalaryCell)| &&
            SalaryColumn in table.cols && table.cols[SalaryColumn] == output &&
            forall i :: 0 <= i < |texts| ==> (i in Kept(texts, SalaryCell) <==> CurrencyToken(texts[i]) in Rates)
  {
    var texts := t.Texts(IncomeSource);
    FilteredColumn(t, IncomeSource, SalaryCell);
    KeptMembers(texts, SalaryCell);
    Replaced(t, drops, IncomeSource, [SalaryColumn], [output]);
    forall i | 0 <= i < |texts| ensures i in Kept(texts, SalaryCell) <==> CurrencyToken(texts[i]) in Rates {
      assert Salary(texts[i]).Some? <==> CurrencyToken(texts[i]) in Rates;
    }
  }

  /** Salary in roubles: the amount (first token, non-breaking spaces removed) times the rate of
      the currency label (last token). An amount that is not a number fails the whole handler,
      whatever its label; a label missing from the rate table drops exactly its row. */
  method ProcessIncome(t: Table) returns (r: Result<Table>)
    requires t.Valid() && t.HasText(IncomeSource)
    ensures var texts := t.Texts(IncomeSource);
            r.Err? <==> exists i :: 0 <= i < |texts| && ParseDecimal(AmountToken(texts[i])).None?
    ensures r.Err? ==> r.error == ValueError(IncomeSource)
    ensures r.Ok? ==>
              var texts := t.Texts(IncomeSource);
              Reshaped(t, r.value, Kept(texts, SalaryCell), {IncomeSource}, [SalaryColumn]) &&
              r.value.n == t.n - |Drops(texts, SalaryCell)| &&
              SalaryColumn in r.value.cols && r.value.cols[SalaryColumn] == Collect(texts, SalaryCell) &&
              forall i :: 0 <= i < |texts| ==> (i in Kept(texts, SalaryCell) <==> CurrencyToken(texts[i]) in Rates)
  {
    var items := t.Texts(IncomeSource);
    var parsed := ParseAmounts(items);
    if parsed.None? {
      return Err(ValueError(IncomeSource));
    }
    var amountList := parsed.value;
    var drops, output := ConvertSalaries(items, amountList);
    FilteredColumn(t, IncomeSource, SalaryCell);
    var table := ReplaceColumns(t, drops, IncomeSource, [SalaryColumn], [output]);
    IncomeTable(t, drops, output);
    r := Ok(table);
  }

  // -------------------------------------------------------------------------------------------
  // ProcessEmployeeLevel

  /** The level of line 271 for a title cell that need not be text. The `or` there stops at the
      experience test, so the title is read only below 60 months. */
  function TitleLevel(experience: int, title: Value): (r: int)
    requires experience >= 60 || title.Str?
    ensures 1 <= r <= 3
    ensures experience >= 60 ==> r == 3
    ensures title.Str? ==> r == Level(experience, title.s)
  {
    if experience >= 60 then 3 else Level(experience, title.s)
  }

  /** The title of every row below 60 months is text: the only titles line 271 reads. */
  predicate TitlesReadable(t: Table)
    requires t.HasInts(ExperienceColumn)
  {
    TitleSource in t.cols && |t.cols[TitleSource]| == |t.Ints(ExperienceColumn)| &&
    forall i :: 0 <= i < |t.Ints(ExperienceColumn)| && t.Ints(ExperienceColumn)[i] < 60 ==> t.cols[TitleSource][i].Str?
  }

  /** A handler that leaves the experience and title columns alone keeps their titles readable. */
  lemma CarriedTitles(t: Table, r: Table, keep: seq<nat>, gone: set<string>, added: seq<string>)
    requires Untouched(t, r, keep, gone, added) && t.HasInts(ExperienceColumn) && TitlesReadable(t)
    requires ExperienceColumn !in gone && ExperienceColumn !in added && TitleSource !in gone && TitleSource !in added
    ensures r.HasInts(ExperienceColumn) && TitlesReadable(r)
  {
    CarriedInts(t, r, keep, gone, added, ExperienceColumn);
    forall k | 0 <= k < |r.Ints(ExperienceColumn)| && r.Ints(ExperienceColumn)[k] < 60
      ensures r.cols[TitleSource][k].Str?
    {
      assert r.Ints(ExperienceColumn)[k] == t.Ints(ExperienceColumn)[keep[k]];
    }
  }

  /** The seniority label of every row from its months of experience and its job title; no row is
      dropped and the title column is removed. */
  method ProcessEmployeeLevel(t: Table) returns (r: Table)
    requires t.Valid() && t.HasInts(ExperienceColumn) && TitlesReadable(t)
    ensures Reshaped(t, r, Identity(t.n), {TitleSource}, [LevelColumn])
    ensures LevelColumn in r.cols && |r.cols[LevelColumn]| == t.n
    ensures forall i :: 0 <= i < t.n ==>
              r.cols[LevelColumn][i] == Int(TitleLevel(t.Ints(ExperienceColumn)[i], t.cols[TitleSource][i]))
  {
    var expList := t.Ints(ExperienceColumn);
    var jobTitles := t.cols[TitleSource];
    var output: seq<Value> := [];
    var i := 0;
    while i < t.n
      invariant 0 <= i <= t.n && |output| == i
      invariant forall k :: 0 <= k < i ==> output[k] == Int(TitleLevel(expList[k], jobTitles[k]))
    {
      output := output + [Int(TitleLevel(expList[i], jobTitles[i]))];
      i := i + 1;
    }
    var vals := [output];
    ReplacedAll(t, TitleSource, [LevelColumn], vals);
    r := ReplaceColumns(t, [], TitleSource, [LevelColumn], vals);
  }
}
