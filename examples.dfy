/** Concrete rows run through the per-row rules: what the handlers of parse_dataset.py make of
    typical cells of the scraped CSV. */
module Examples {
  import opened Text
  import opened Rules

  // ---------------------------------------------------------------------------------------------
  // ProcessIncome: "100000 USD" is 7 700 000 roubles, an unknown label drops the row

  lemma {:induction false} Thousand()
    ensures DigitsValue("1000") == 1000
  {
    assert DigitsValue("1") == 1 by { assert "1"[..0] == []; }
    DigitsValueSnoc("1", '0');
    assert "1" + ['0'] == "10";
    DigitsValueSnoc("10", '0');
    assert "10" + ['0'] == "100";
    DigitsValueSnoc("100", '0');
    assert "100" + ['0'] == "1000";
  }

  lemma {:induction false} HundredThousand()
    ensures DigitsValue("100000") == 100000
  {
    Thousand();
    DigitsValueSnoc("1000", '0');
    assert "1000" + ['0'] == "10000";
    DigitsValueSnoc("10000", '0');
    assert "10000" + ['0'] == "100000";
  }

  lemma {:induction false} SalaryInDollars()
    ensures Salary("100000 USD") == Some(7700000.0)
  {
    SalaryOfDigits("100000", "USD");
    HundredThousand();
    assert "100000" + " " + "USD" == "100000 USD";
    assert InRoubles(100000.0, "USD") == 7700000.0;
  }

  lemma {:induction false} PoundLabel()
    ensures CurrencyToken("100000 GBP") == "GBP"
  {
    CurrencyOf("100000", "GBP");
    assert "100000" + " " + "GBP" == "100000 GBP";
  }

  lemma PoundUnknown()
    ensures "GBP" !in Rates
  {
  }

  lemma {:induction false} SalaryInUnknownCurrency()
    ensures Salary("100000 GBP").None?
  {
    PoundLabel();
    PoundUnknown();
  }

  // ---------------------------------------------------------------------------------------------
  // ProcessEducation: "Неоконченное высшее" (incomplete higher) is level 4, not 3

  lemma {:induction false} IncompleteHigher()
    ensures EduLevel("Неоконченное высшее") == Some(4)
  {
    var l := "неоконченное высшее";
    assert Lower("Неоконченное высшее") == l;
    assert OccursAt(l, "высшее", 13);
    ContainsAt(l, "высшее", 13);
    HigherWins("Неоконченное высшее");
  }

  // ---------------------------------------------------------------------------------------------
  // ProcessExperience: "5 лет 3 месяца" is 63 months

  lemma {:induction false} FiveYearsThreeMonths()
    ensures ExperienceMonths("5 лет 3 месяца") == Some(63)
  {
    assert "5 лет 3 месяца" == "5" + " лет " + "3" + " месяца";
    assert DigitsValue("5") == 5 by { assert "5"[..0] == []; }
    assert DigitsValue("3") == 3 by { assert "3"[..0] == []; }
    ExperienceYearsMonths("5", " лет ", "3", " месяца");
  }

  // ---------------------------------------------------------------------------------------------
  // ProcessCity: a candidate who will travel but not move gets 0 for travel as well

  const TravelNotMove := "не готова к переезду, готова к командировкам"

  lemma TravelNotMoveLower()
    ensures Lower(TravelNotMove) == TravelNotMove
  {
    assert forall i :: 0 <= i < |TravelNotMove| ==> LowerChar(TravelNotMove[i]) == TravelNotMove[i];
  }

  lemma TravelNotMoveRefuses()
    ensures Contains(TravelNotMove, "не готова к переезду")
  {
    assert OccursAt(TravelNotMove, "не готова к переезду", 0);
    ContainsAt(TravelNotMove, "не готова к переезду", 0);
  }

  lemma {:induction false} WillTravelButNotMove()
    ensures Relocation(TravelNotMove) == 0 && BusinessTrips(TravelNotMove) == 0
  {
    TravelNotMoveLower();
    TravelNotMoveRefuses();
    RefusalToRelocateClearsBoth(TravelNotMove);
  }
}
