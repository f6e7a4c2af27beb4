/**
 * The sample plantings the program ships with and what the calculator
 * computes for them, and a few dates the parser accepts or refuses.
 */
module HarvestExamples {

  import opened Wrappers
  import opened Decimal
  import opened Calendar
  import opened DateFormat
  import opened HarvestSchedule

  /** The built-in list of plantings: two lettuce successions, long-term crops, a quick crop and a fall crop. */
  const SamplePlantings: seq<Planting> := [
    Planting("Lettuce (Batch 1)", "2025-05-01", 45),
    Planting("Lettuce (Batch 2)", "2025-05-15", 45),
    Planting("Tomatoes", "2025-04-15", 75),
    Planting("Carrots", "2025-05-05", 60),
    Planting("Radishes", "2025-05-10", 30),
    Planting("Winter Squash", "2025-06-01", 90)
  ]

  /** What the calculator returns for the sample plantings. */
  const SampleSchedule: seq<HarvestRecord> := [
    HarvestRecord("Lettuce (Batch 1)", "2025-05-01", 45, "2025-06-15"),
    HarvestRecord("Lettuce (Batch 2)", "2025-05-15", 45, "2025-06-29"),
    HarvestRecord("Tomatoes", "2025-04-15", 75, "2025-06-29"),
    HarvestRecord("Carrots", "2025-05-05", 60, "2025-07-04"),
    HarvestRecord("Radishes", "2025-05-10", 30, "2025-06-09"),
    HarvestRecord("Winter Squash", "2025-06-01", 90, "2025-08-30")
  ]

  /**
   * A planting whose date is the rendering of `plant` and whose harvest day
   * number is that of `harvest` is turned into the record showing `harvest`.
   */
  lemma KnownHarvest(p: Planting, plant: Date, harvest: Date)
    requires ValidDate(plant) && FormatDate(plant) == p.plantDate
    requires ValidDate(harvest) && Ordinal(harvest) == Ordinal(plant) + p.dtm
    ensures InRange(p) && HasValidDate(p)
    ensures ProcessRecord(p) == Ok(HarvestRecord(p.crop, p.plantDate, p.dtm, FormatDate(harvest)))
  {
    ParseFormatRoundTrip(plant);
    OrdinalInjective(AddDays(plant, p.dtm), harvest);
  }

  /** Seventy-five days after 15 April 2025 is 29 June 2025. */
  lemma TomatoesHarvest()
    ensures CanAddDays(Date(2025, 4, 15), 75) && AddDays(Date(2025, 4, 15), 75) == Date(2025, 6, 29)
  {
    SampleOrdinals();
    OrdinalInjective(AddDays(Date(2025, 4, 15), 75), Date(2025, 6, 29));
  }

  /** The day numbers of the sample dates, 1 January 2025 being day 739252. */
  lemma SampleOrdinals()
    ensures ValidDate(Date(2025, 5, 1)) && Ordinal(Date(2025, 5, 1)) == 739372
    ensures ValidDate(Date(2025, 6, 15)) && Ordinal(Date(2025, 6, 15)) == 739417
    ensures ValidDate(Date(2025, 5, 15)) && Ordinal(Date(2025, 5, 15)) == 739386
    ensures ValidDate(Date(2025, 6, 29)) && Ordinal(Date(2025, 6, 29)) == 739431
    ensures ValidDate(Date(2025, 4, 15)) && Ordinal(Date(2025, 4, 15)) == 739356
    ensures ValidDate(Date(2025, 5, 5)) && Ordinal(Date(2025, 5, 5)) == 739376
    ensures ValidDate(Date(2025, 7, 4)) && Ordinal(Date(2025, 7, 4)) == 739436
    ensures ValidDate(Date(2025, 5, 10)) && Ordinal(Date(2025, 5, 10)) == 739381
    ensures ValidDate(Date(2025, 6, 9)) && Ordinal(Date(2025, 6, 9)) == 739411
    ensures ValidDate(Date(2025, 6, 1)) && Ordinal(Date(2025, 6, 1)) == 739403
    ensures ValidDate(Date(2025, 8, 30)) && Ordinal(Date(2025, 8, 30)) == 739493
  {
    assert DaysBeforeYear(2025) == 739251;
  }

  /** Each sample date as the program writes it, and the record each sample planting yields. */
  lemma RenderedMay1()
    ensures FormatDate(Date(2025, 5, 1)) == "2025-05-01"
  {
  }

  lemma RenderedJune15()
    ensures FormatDate(Date(2025, 6, 15)) == "2025-06-15"
  {
  }

  lemma Lettuce1Record(p: Planting)
    requires p == Planting("Lettuce (Batch 1)", "2025-05-01", 45)
    ensures InRange(p) && HasValidDate(p)
    ensures ProcessRecord(p) == Ok(HarvestRecord("Lettuce (Batch 1)", "2025-05-01", 45, "2025-06-15"))
  {
    SampleOrdinals();
    RenderedMay1();
    RenderedJune15();
    KnownHarvest(p, Date(2025, 5, 1), Date(2025, 6, 15));
  }

  lemma RenderedMay15()
    ensures FormatDate(Date(2025, 5, 15)) == "2025-05-15"
  {
  }

  lemma RenderedJune29()
    ensures FormatDate(Date(2025, 6, 29)) == "2025-06-29"
  {
  }

  lemma Lettuce2Record(p: Planting)
    requires p == Planting("Lettuce (Batch 2)", "2025-05-15", 45)
    ensures InRange(p) && HasValidDate(p)
    ensures ProcessRecord(p) == Ok(HarvestRecord("Lettuce (Batch 2)", "2025-05-15", 45, "2025-06-29"))
  {
    SampleOrdinals();
    RenderedMay15();
    RenderedJune29();
    KnownHarvest(p, Date(2025, 5, 15), Date(2025, 6, 29));
  }

  lemma RenderedApril15()
    ensures FormatDate(Date(2025, 4, 15)) == "2025-04-15"
  {
  }

  lemma TomatoesRecord(p: Planting)
    requires p == Planting("Tomatoes", "2025-04-15", 75)
    ensures InRange(p) && HasValidDate(p)
    ensures ProcessRecord(p) == Ok(HarvestRecord("Tomatoes", "2025-04-15", 75, "2025-06-29"))
  {
    SampleOrdinals();
    RenderedApril15();
    RenderedJune29();
    KnownHarvest(p, Date(2025, 4, 15), Date(2025, 6, 29));
  }

  lemma RenderedMay5()
    ensures FormatDate(Date(2025, 5, 5)) == "2025-05-05"
  {
  }

  lemma RenderedJuly4()
    ensures FormatDate(Date(2025, 7, 4)) == "2025-07-04"
  {
  }

  lemma CarrotsRecord(p: Planting)
    requires p == Planting("Carrots", "2025-05-05", 60)
    ensures InRange(p) && HasValidDate(p)
    ensures ProcessRecord(p) == Ok(HarvestRecord("Carrots", "2025-05-05", 60, "2025-07-04"))
  {
    SampleOrdinals();
    RenderedMay5();
    RenderedJuly4();
    KnownHarvest(p, Date(2025, 5, 5), Date(2025, 7, 4));
  }

  lemma RenderedMay10()
    ensures FormatDate(Date(2025, 5, 10)) == "2025-05-10"
  {
  }

  lemma RenderedJune9()
    ensures FormatDate(Date(2025, 6, 9)) == "2025-06-09"
  {
  }

  lemma RadishesRecord(p: Planting)
    requires p == Planting("Radishes", "2025-05-10", 30)
    ensures InRange(p) && HasValidDate(p)
    ensures ProcessRecord(p) == Ok(HarvestRecord("Radishes", "2025-05-10", 30, "2025-06-09"))
  {
    SampleOrdinals();
    RenderedMay10();
    RenderedJune9();
    KnownHarvest(p, Date(2025, 5, 10), Date(2025, 6, 9));
  }

  lemma RenderedJune1()
    ensures FormatDate(Date(2025, 6, 1)) == "2025-06-01"
  {
  }

  lemma RenderedAugust30()
    ensures FormatDate(Date(2025, 8, 30)) == "2025-08-30"
  {
  }

  lemma WinterSquashRecord(p: Planting)
    requires p == Planting("Winter Squash", "2025-06-01", 90)
    ensures InRange(p) && HasValidDate(p)
    ensures ProcessRecord(p) == Ok(HarvestRecord("Winter Squash", "2025-06-01", 90, "2025-08-30"))
  {
    SampleOrdinals();
    RenderedJune1();
    RenderedAugust30();
    KnownHarvest(p, Date(2025, 6, 1), Date(2025, 8, 30));
  }

  /** Each sample planting has a valid date and yields the expected record. */
  lemma SampleRecords(ps: seq<Planting>)
    requires ps == SamplePlantings
    ensures AllInRange(ps)
    ensures forall i :: 0 <= i < |ps| ==> HasValidDate(ps[i]) && ProcessRecord(ps[i]) == Ok(SampleSchedule[i])
  {
    forall i | 0 <= i < |ps|
      ensures InRange(ps[i]) && HasValidDate(ps[i]) && ProcessRecord(ps[i]) == Ok(SampleSchedule[i])
    {
      if i == 0 {
        Lettuce1Record(ps[0]);
      } else if i == 1 {
        Lettuce2Record(ps[1]);
      } else if i == 2 {
        TomatoesRecord(ps[2]);
      } else if i == 3 {
        CarrotsRecord(ps[3]);
      } else if i == 4 {
        RadishesRecord(ps[4]);
      } else {
        WinterSquashRecord(ps[5]);
      }
    }
  }

  /** The calculator keeps all six sample plantings, in their order, and reports nothing. */
  lemma SampleScheduleComputed(ps: seq<Planting>)
    requires ps == SamplePlantings
    ensures AllInRange(ps)
    ensures Schedule(ps) == SampleSchedule && Diagnostics(ps) == []
  {
    SampleRecords(ps);
    AllValidSchedule(ps);
  }

  /** The years of the examples below, read digit by digit. */
  lemma YearDigits()
    ensures DigitsValue("2024") == 2024 && DigitsValue("2025") == 2025
  {
    assert DigitsValue("20") == 20;
    assert "2024"[..3] == "202";
    assert "2025"[..3] == "202";
    assert "202"[..2] == "20";
    assert DigitsValue("202") == 202;
  }

  /** There is no 30 February. */
  lemma NoThirtiethOfFebruary()
    ensures ParseDate("2025-02-30") == Err(ValueOutOfRange)
  {
    YearDigits();
    assert "2025-02-30"[..4] == "2025";
    assert "2025-02-30"[5..7] == "02";
    assert "2025-02-30"[8..] == "30";
    assert FieldsDate("2025-02-30") == Date(2025, 2, 30);
    assert !ValidDate(Date(2025, 2, 30));
  }

  /** A thirteenth month does not match the pattern. */
  lemma NoThirteenthMonth()
    ensures ParseDate("2025-13-01") == Err(FormatMismatch)
  {
    assert "2025-13-01"[5..7] == "13";
  }

  /** 29 February exists in 2024. */
  lemma LeapDay()
    ensures ParseDate("2024-02-29") == Ok(Date(2024, 2, 29))
  {
    YearDigits();
    assert "2024-02-29"[..4] == "2024";
    assert "2024-02-29"[5..7] == "02";
    assert "2024-02-29"[8..] == "29";
    assert FieldsDate("2024-02-29") == Date(2024, 2, 29);
  }

  /** 29 February does not exist in 2025. */
  lemma NoLeapDay()
    ensures ParseDate("2025-02-29") == Err(ValueOutOfRange)
  {
    YearDigits();
    assert "2025-02-29"[..4] == "2025";
    assert "2025-02-29"[5..7] == "02";
    assert "2025-02-29"[8..] == "29";
    assert FieldsDate("2025-02-29") == Date(2025, 2, 29);
    assert !ValidDate(Date(2025, 2, 29));
  }

  /** A planting with an impossible date yields no record and one diagnostic naming the crop. */
  lemma InvalidPlantingReported(p: Planting)
    requires p == Planting("Peas", "2025-02-30", 60)
    ensures AllInRange([p])
    ensures Schedule([p]) == [] && Diagnostics([p]) == [Diagnostic("Peas", ValueOutOfRange)]
  {
    NoThirtiethOfFebruary();
    SkippedAlone(p);
  }
}
