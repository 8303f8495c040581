/** The per-row parsing rules of the handlers in parse_dataset.py: what each free-text cell turns
    into, or whether its row is dropped. */
module Rules {
  import opened Text

  // ---------------------------------------------------------------------------------------------
  // ProcessAgeSex: "<sex> , <age> ..." split on ',' with the spaces deleted from every piece

  /** The two fields the handler keeps from an entry: the sex token and the age text. */
  datatype SexAge = SexAge(sex: string, age: string)

  /** The sex token and the two-character age text of an entry, or None when the entry has fewer
      than two comma-separated pieces (the row is dropped). */
  function SexAgeFields(entry: string): Option<SexAge> {
    var data := Split(entry, ',');
    if |data| < 2 then None
    else Some(SexAge(RemoveAll(data[0], ' '), Prefix(RemoveAll(data[1], ' '), 2)))
  }

  /** A row is dropped exactly when its entry has no comma; otherwise neither field holds a space
      and the age text has at most two characters. */
  lemma SexAgeFieldsDrop(entry: string)
    ensures SexAgeFields(entry).None? <==> ',' !in entry
    ensures SexAgeFields(entry).Some? ==>
              ' ' !in SexAgeFields(entry).value.sex && ' ' !in SexAgeFields(entry).value.age &&
              |SexAgeFields(entry).value.age| <= 2
  {
    SplitPieces(entry, ',');
  }

  /** "0" for the two spellings of female, "1" for every other token, whatever it is. */
  function SexCode(token: string): (code: string)
    ensures code == "0" || code == "1"
    ensures code == "0" <==> token == "Female" || token == "Женщина"
  {
    if token == "Female" || token == "Женщина" then "0" else "1"
  }

  lemma {:induction false} SplitAround(a: string, d: char, b: string)
    requires d !in a
    ensures Split(a + [d] + b, d) == [a] + Split(b, d)
    decreases |a|
  {
    if a == [] {
      assert a + [d] + b == [d] + b;
      assert ([d] + b)[1..] == b;
    } else {
      SplitAround(a[1..], d, b);
      assert (a + [d] + b)[1..] == a[1..] + [d] + b;
      assert [a[0]] + a[1..] == a;
    }
  }

  /** For "<sex>,<age>[,...]" the fields are the sex piece and the first two characters of the
      age piece, both with their spaces deleted. */
  lemma SexAgeOf(sex: string, age: string, rest: string)
    requires ',' !in sex && ',' !in age
    ensures SexAgeFields(sex + "," + age + rest) ==
            Some(SexAge(RemoveAll(sex, ' '), Prefix(RemoveAll(age + Split(rest, ',')[0], ' '), 2)))
  {
    var entry := sex + "," + age + rest;
    assert entry == sex + [','] + (age + rest);
    SplitAround(sex, ',', age + rest);
    SplitHeadOf(age, rest);
  }

  /** The first piece of age + rest is age followed by the first piece of rest. */
  lemma {:induction false} SplitHeadOf(age: string, rest: string)
    requires ',' !in age
    ensures Split(age + rest, ',')[0] == age + Split(rest, ',')[0]
    decreases |age|
  {
    if age == [] {
      assert age + rest == rest;
    } else {
      SplitHeadOf(age[1..], rest);
      assert (age + rest)[1..] == age[1..] + rest;
      assert [age[0]] + (age[1..] + Split(rest, ',')[0]) == age + Split(rest, ',')[0];
    }
  }

  /** An age is read from at most two characters, so it lies between -9 and 99. */
  lemma AgeRange(entry: string)
    requires SexAgeFields(entry).Some? && ParseInt(SexAgeFields(entry).value.age).Some?
    ensures -9 <= ParseInt(SexAgeFields(entry).value.age).value <= 99
  {
    var s := SexAgeFields(entry).value.age;
    if s[0] == '+' || s[0] == '-' {
      DigitsValueBound(s[1..]);
    } else {
      DigitsValueBound(s);
    }
  }

  // ---------------------------------------------------------------------------------------------
  // ProcessEmployment and ProcessSchedule: one 0/1 column per concept

  /** 1 when the lower-cased text contains either keyword, else 0. */
  function Flag(text: string, ru: string, en: string): (v: int)
    ensures v == 0 || v == 1
  {
    if Contains(Lower(text), ru) || Contains(Lower(text), en) then 1 else 0
  }

  /** The keyword tests ignore case: a text and its lower-cased form get the same flag. */
  lemma FlagIgnoresCase(text: string, ru: string, en: string)
    ensures Flag(Lower(text), ru, en) == Flag(text, ru, en)
  {
    LowerIdempotent(text);
  }

  // ---------------------------------------------------------------------------------------------
  // ProcessCity: willingness to relocate and to travel, 1 unless a refusal phrase occurs

  function Relocation(text: string): (v: int)
    ensures v == 0 || v == 1
  {
    var l := Lower(text);
    if !Contains(l, "не готов к переезду") && !Contains(l, "не готова к переезду")
       && !Contains(l, "not willing to relocate") then 1 else 0
  }

  /** The second Russian phrase is the relocation phrase again, as in the source; no phrase
      "не готова к командировкам" is checked. */
  function BusinessTrips(text: string): (v: int)
    ensures v == 0 || v == 1
  {
    var l := Lower(text);
    if !Contains(l, "не готов к командировкам") && !Contains(l, "не готова к переезду")
       && !Contains(l, "not prepared for business trips") then 1 else 0
  }

  /** "не готова к переезду" clears both city flags. */
  lemma RefusalToRelocateClearsBoth(text: string)
    requires Contains(Lower(text), "не готова к переезду")
    ensures Relocation(text) == 0 && BusinessTrips(text) == 0
  {
  }

  // ---------------------------------------------------------------------------------------------
  // ProcessEducation: an ordinal from keywords, first match wins

  function EduLevel(text: string): (r: Option<int>)
    ensures r.Some? ==> 1 <= r.value <= 4
    ensures r.None? <==> !Contains(Lower(text), "высшее") && !Contains(Lower(text), "higher")
                         && !Contains(Lower(text), "неоконченное") && !Contains(Lower(text), "incomplete")
                         && !Contains(Lower(text), "специальное") && !Contains(Lower(text), "среднее")
  {
    var l := Lower(text);
    if Contains(l, "высшее") || Contains(l, "higher") then Some(4)
    else if Contains(l, "неоконченное") || Contains(l, "incomplete") then Some(3)
    else if Contains(l, "специальное") then Some(2)
    else if Contains(l, "среднее") then Some(1)
    else None
  }

  /** A higher-education keyword decides the level whatever else the text says, so "incomplete
      higher" texts get 4, not 3. */
  lemma HigherWins(text: string)
    requires Contains(Lower(text), "высшее") || Contains(Lower(text), "higher")
    ensures EduLevel(text) == Some(4)
  {
  }

  // ---------------------------------------------------------------------------------------------
  // ProcessExperience: months of experience from the first line of the text

  function FirstLine(text: string): string { Split(text, '\n')[0] }

  /** `list(map(int, re.findall(r'\d+', line)))` */
  function RunValues(line: string): (nums: seq<nat>)
    ensures |nums| == |DigitRuns(line)|
    ensures forall k :: 0 <= k < |nums| ==> nums[k] == DigitsValue(DigitRuns(line)[k])
  {
    var runs := DigitRuns(line);
    seq(|runs|, k requires 0 <= k < |runs| => DigitsValue(runs[k]))
  }

  /** Two numbers are years and months; one number is months when the line mentions months
      (case-sensitively) and years otherwise; any other count drops the row. */
  function ExperienceMonths(text: string): (r: Option<int>)
    ensures r.Some? ==> r.value >= 0
    ensures r.Some? <==> |DigitRuns(FirstLine(text))| in {1, 2}
  {
    var exp := FirstLine(text);
    var nums := RunValues(exp);
    if |nums| == 2 then Some(nums[0] * 12 + nums[1])
    else if |nums| == 1 then
      (if Contains(exp, "мес") || Contains(exp, "month") then Some(nums[0]) else Some(nums[0] * 12))
    else None
  }

  /** Only the text before the first line break matters. */
  lemma ExperienceFirstLine(line: string, more: string)
    requires '\n' !in line
    ensures ExperienceMonths(line + "\n" + more) == ExperienceMonths(line)
  {
    assert line + "\n" + more == line + ['\n'] + more;
    SplitAround(line, '\n', more);
    SplitNone(line, '\n');
  }

  /** The digit runs of "<y> ... <m> ..." are y and m. */
  lemma {:induction false} TwoRuns(y: string, w1: string, m: string, w2: string)
    requires y != [] && AllDigits(y) && m != [] && AllDigits(m)
    requires w1 != [] && NoDigits(w1) && NoDigits(w2)
    ensures DigitRuns(y + w1 + m + w2) == [y, m]
  {
    assert y + w1 + m + w2 == y + (w1 + (m + w2));
    RunsTake(y, w1 + (m + w2));
    RunsSkip(w1, m + w2);
    RunsTake(m, w2);
    RunsSkip(w2, []);
    assert w2 + [] == w2;
  }

  lemma FirstLineOf(line: string)
    requires '\n' !in line
    ensures FirstLine(line) == line
  {
    SplitNone(line, '\n');
  }

  lemma ExperienceOfRuns(line: string, runs: seq<string>)
    requires FirstLine(line) == line && DigitRuns(line) == runs
    requires |runs| in {1, 2} && forall k :: 0 <= k < |runs| ==> AllDigits(runs[k])
    ensures ExperienceMonths(line) ==
            if |runs| == 2 then Some(12 * DigitsValue(runs[0]) + DigitsValue(runs[1]))
            else if Contains(line, "мес") || Contains(line, "month") then Some(DigitsValue(runs[0]))
            else Some(12 * DigitsValue(runs[0]))
  {
    var nums := RunValues(line);
    assert |nums| == |runs| && nums[0] == DigitsValue(runs[0]);
    if |runs| == 2 {
      assert nums[1] == DigitsValue(runs[1]);
      assert ExperienceMonths(line) == Some(nums[0] * 12 + nums[1]);
    } else {
      assert nums[0] * 12 == 12 * DigitsValue(runs[0]);
    }
  }

  /** "<y> ... <m> ..." gives 12*y + m months. */
  lemma {:induction false} ExperienceYearsMonths(y: string, w1: string, m: string, w2: string)
    requires y != [] && AllDigits(y) && m != [] && AllDigits(m)
    requires w1 != [] && NoDigits(w1) && NoDigits(w2)
    requires '\n' !in y + w1 + m + w2
    ensures ExperienceMonths(y + w1 + m + w2) == Some(12 * DigitsValue(y) + DigitsValue(m))
  {
    FirstLineOf(y + w1 + m + w2);
    TwoRuns(y, w1, m, w2);
    ExperienceOfRuns(y + w1 + m + w2, [y, m]);
  }

  /** "<n> ..." gives n months when the line contains "мес" or "month", else 12*n. */
  lemma {:induction false} ExperienceOneNumber(d: string, w: string)
    requires d != [] && AllDigits(d) && NoDigits(w)
    requires '\n' !in d + w
    ensures ExperienceMonths(d + w) ==
            Some(if Contains(d + w, "мес") || Contains(d + w, "month") then DigitsValue(d) else 12 * DigitsValue(d))
  {
    FirstLineOf(d + w);
    RunsTake(d, w);
    RunsSkip(w, []);
    assert w + [] == w;
    ExperienceOfRuns(d + w, [d]);
  }

  // ---------------------------------------------------------------------------------------------
  // ProcessIncome: "<amount> <currency>" converted with a fixed rate table

  /** Conversion rates into roubles. */
  const Rates: map<string, real> := map[
    "AZN" := 45.0, "BYN" := 27.0, "EUR" := 91.0, "KGS" := 0.88, "KZT" := 0.16, "RUB" := 1.0,
    "UAH" := 1.79, "USD" := 77.0, "бел.\U{00A0}руб." := 26.81, "грн." := 1.79, "руб." := 1.0]

  /** The amount: the first space-separated token with its non-breaking spaces removed. */
  function AmountToken(text: string): (a: string)
    ensures a == RemoveAll(Split(text, ' ')[0], NBSP)
  {
    ConcatSplit(Split(text, ' ')[0], NBSP);
    Concat(Split(Split(text, ' ')[0], NBSP))
  }

  /** The currency label: the last space-separated token. */
  function CurrencyToken(text: string): (c: string)
    ensures ' ' !in c
  {
    var tokens := Split(text, ' ');
    SplitPieces(text, ' ');
    tokens[|tokens| - 1]
  }

  /** The salary in roubles, or None when the amount is not a number or the label is not in the
      rate table. */
  function Salary(text: string): (r: Option<real>)
    ensures r.Some? <==> ParseDecimal(AmountToken(text)).Some? && CurrencyToken(text) in Rates
  {
    var amount := ParseDecimal(AmountToken(text));
    var code := CurrencyToken(text);
    if amount.Some? && code in Rates then Some(InRoubles(amount.value, code)) else None
  }

  /** The label of "<amount> <label>" is the label when neither holds a space. */
  lemma {:induction false} CurrencyOf(a: string, code: string)
    requires ' ' !in a && ' ' !in code
    ensures CurrencyToken(a + " " + code) == code
  {
    assert a + " " + code == a + [' '] + code;
    SplitAround(a, ' ', code);
    SplitNone(code, ' ');
  }

  /** "<digits> <label>" with a known label is the amount times the label's rate. */
  lemma {:induction false} SalaryOfDigits(d: string, code: string)
    requires d != [] && AllDigits(d) && ' ' !in code && code in Rates
    ensures Salary(d + " " + code) == Some(InRoubles(DigitsValue(d) as real, code))
  {
    assert ' ' !in d && NBSP !in d by {
      assert forall i :: 0 <= i < |d| ==> d[i] != ' ' && d[i] != NBSP;
    }
    assert d + " " + code == d + [' '] + code;
    SplitAround(d, ' ', code);
    SplitNone(code, ' ');
    SplitNone(d, NBSP);
    ParseDecimalDigits(d);
    assert AmountToken(d + " " + code) == d;
    assert CurrencyToken(d + " " + code) == code;
  }

  /** An amount in the currency `code`, converted at the table's rate. */
  function InRoubles(amount: real, code: string): real
    requires code in Rates
  {
    amount * Rates[code]
  }

  // ---------------------------------------------------------------------------------------------
  // ProcessEmployeeLevel: junior (1), middle (2), senior (3)

  predicate SeniorTitle(title: string) {
    Contains(title, "старш") || Contains(title, "ведущ") || Contains(title, "эксперт")
    || Contains(title, "директор") || Contains(title, "senior")
  }

  function Level(experience: int, title: string): (r: int)
    ensures 1 <= r <= 3
  {
    if experience >= 60 || SeniorTitle(title) then 3
    else if (experience >= 24 && experience < 60) || Contains(title, "middle") then 2
    else 1
  }

  /** More experience never lowers the level of a given title. */
  lemma LevelMonotone(e1: int, e2: int, title: string)
    requires e1 <= e2
    ensures Level(e1, title) <= Level(e2, title)
  {
  }
}
