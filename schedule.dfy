/**
 * The harvest schedule calculator: for each planting, parse its plant date,
 * add its days to maturity and format the harvest date; a planting whose date
 * does not parse is reported and skipped.
 */
module HarvestSchedule {

  import opened Wrappers
  import opened Calendar
  import opened DateFormat
  import opened Partition

  /** One input record: crop name, plant date as text, days to maturity. */
  datatype Planting = Planting(crop: string, plantDate: string, dtm: int)

  /** One output record; the plant date is echoed as given. */
  datatype HarvestRecord = HarvestRecord(crop: string, plantDate: string, dtm: int, harvestDate: string)

  /** The report for a skipped planting: its crop and why its date was refused. */
  datatype Diagnostic = Diagnostic(crop: string, error: DateError)

  predicate HasValidDate(p: Planting) { ParseDate(p.plantDate).Ok? }

  /** The harvest date of a planting with a valid date stays within years 1 to 9999. */
  predicate InRange(p: Planting)
  {
    HasValidDate(p) ==> CanAddDays(ParseDate(p.plantDate).value, p.dtm)
  }

  predicate AllInRange(ps: seq<Planting>) { forall i :: 0 <= i < |ps| ==> InRange(ps[i]) }

  /** The day `dtm` days after the parsed plant date (earlier for a negative `dtm`). */
  function HarvestDate(p: Planting): (d: Date)
    requires HasValidDate(p) && InRange(p)
    ensures ValidDate(d) && Ordinal(d) == Ordinal(ParseDate(p.plantDate).value) + p.dtm
  {
    AddDays(ParseDate(p.plantDate).value, p.dtm)
  }

  /** What one pass of the loop does with one planting. */
  function ProcessRecord(p: Planting): (r: Result<HarvestRecord, Diagnostic>)
    requires InRange(p)
    ensures r.Ok? <==> HasValidDate(p)
    ensures r.Ok? ==>
      r.value.crop == p.crop && r.value.plantDate == p.plantDate && r.value.dtm == p.dtm
      && ParseDate(r.value.harvestDate) == Ok(HarvestDate(p))
    ensures r.Err? ==> r.error.crop == p.crop && ParseDate(p.plantDate) == Err(r.error.error)
  {
    match ParseDate(p.plantDate)
    case Ok(plant) =>
      var harvest := AddDays(plant, p.dtm);
      ParseFormatRoundTrip(harvest);
      Ok(HarvestRecord(p.crop, p.plantDate, p.dtm, FormatDate(harvest)))
    case Err(e) =>
      Err(Diagnostic(p.crop, e))
  }

  /** The outcome of each planting, in input order. */
  function Outcomes(ps: seq<Planting>): (rs: seq<Result<HarvestRecord, Diagnostic>>)
    requires AllInRange(ps)
    ensures |rs| == |ps|
    ensures forall i :: 0 <= i < |ps| ==> rs[i] == ProcessRecord(ps[i])
  {
    seq(|ps|, i requires 0 <= i < |ps| && AllInRange(ps) => ProcessRecord(ps[i]))
  }

  /** The records the calculator returns for `ps`. */
  function Schedule(ps: seq<Planting>): seq<HarvestRecord>
    requires AllInRange(ps)
  {
    Successes(Outcomes(ps))
  }

  /** The diagnostics the calculator reports for `ps`. */
  function Diagnostics(ps: seq<Planting>): seq<Diagnostic>
    requires AllInRange(ps)
  {
    Failures(Outcomes(ps))
  }

  /**
   * The calculator: one pass over the plantings, appending a harvest record for
   * each planting whose date parses and a diagnostic for each one whose date does not.
   */
  method CalculateHarvestSchedule(plantings: seq<Planting>) returns (schedule: seq<HarvestRecord>, diagnostics: seq<Diagnostic>)
    requires AllInRange(plantings)
    ensures schedule == Schedule(plantings)
    ensures diagnostics == Diagnostics(plantings)
  {
    schedule, diagnostics := [], [];
    var i := 0;
    while i < |plantings|
      invariant 0 <= i <= |plantings|
      invariant schedule == Schedule(plantings[..i])
      invariant diagnostics == Diagnostics(plantings[..i])
    {
      ScheduleStep(plantings, i);
      var item := plantings[i];
      match ParseDate(item.plantDate) {
        case Ok(plantDate) =>
          var harvestDate := AddDays(plantDate, item.dtm);
          schedule := schedule + [HarvestRecord(item.crop, item.plantDate, item.dtm, FormatDate(harvestDate))];
        case Err(e) =>
          diagnostics := diagnostics + [Diagnostic(item.crop, e)];
      }
      i := i + 1;
    }
    assert plantings[..i] == plantings;
  }

  /** One more pass of the loop: the outcome of planting `i` is appended to its list. */
  lemma ScheduleStep(ps: seq<Planting>, i: nat)
    requires AllInRange(ps) && i < |ps|
    ensures AllInRange(ps[..i]) && AllInRange(ps[..i + 1])
    ensures var r := ProcessRecord(ps[i]);
      Schedule(ps[..i + 1]) == Schedule(ps[..i]) + (if r.Ok? then [r.value] else [])
      && Diagnostics(ps[..i + 1]) == Diagnostics(ps[..i]) + (if r.Err? then [r.error] else [])
  {
    AllInRangeSlice(ps, 0, i);
    AllInRangeSlice(ps, 0, i + 1);
    assert ps[0..i] == ps[..i] && ps[0..i + 1] == ps[..i + 1];
    var rs := Outcomes(ps[..i + 1]);
    assert ps[..i + 1][..i] == ps[..i];
    assert rs[..i] == Outcomes(ps[..i]);
  }

  lemma AllInRangeSlice(ps: seq<Planting>, lo: nat, hi: nat)
    requires AllInRange(ps) && lo <= hi <= |ps|
    ensures AllInRange(ps[lo..hi])
  {
    forall i | 0 <= i < hi - lo
      ensures InRange(ps[lo..hi][i])
    {
      assert ps[lo..hi][i] == ps[lo + i];
    }
  }

  lemma AllInRangeAppend(ps: seq<Planting>, qs: seq<Planting>)
    requires AllInRange(ps) && AllInRange(qs)
    ensures AllInRange(ps + qs)
  {
    forall i | 0 <= i < |ps + qs|
      ensures InRange((ps + qs)[i])
    {
      if i < |ps| {
        assert (ps + qs)[i] == ps[i];
      } else {
        assert (ps + qs)[i] == qs[i - |ps|];
      }
    }
  }

  /** Processing a concatenation is processing each part in turn. */
  lemma ScheduleAppend(ps: seq<Planting>, qs: seq<Planting>)
    requires AllInRange(ps) && AllInRange(qs)
    ensures AllInRange(ps + qs)
    ensures Schedule(ps + qs) == Schedule(ps) + Schedule(qs)
    ensures Diagnostics(ps + qs) == Diagnostics(ps) + Diagnostics(qs)
  {
    AllInRangeAppend(ps, qs);
    assert Outcomes(ps + qs) == Outcomes(ps) + Outcomes(qs);
    PartitionAppend(Outcomes(ps), Outcomes(qs));
  }

  /** Every planting gives exactly one output: a harvest record or a diagnostic. */
  lemma ScheduleCounts(ps: seq<Planting>)
    requires AllInRange(ps)
    ensures |Schedule(ps)| + |Diagnostics(ps)| == |ps|
    ensures |Schedule(ps)| <= |ps|
  {
    PartitionCounts(Outcomes(ps));
  }

  /** The positions of the plantings whose date parses, in increasing order. */
  function ValidPositions(ps: seq<Planting>): (ix: seq<nat>)
    requires AllInRange(ps)
    ensures forall j :: 0 <= j < |ix| ==> ix[j] < |ps| && HasValidDate(ps[ix[j]])
    ensures forall j, k :: 0 <= j < k < |ix| ==> ix[j] < ix[k]
    ensures forall i :: 0 <= i < |ps| && HasValidDate(ps[i]) ==> i in ix
  {
    OkPositions(Outcomes(ps))
  }

  /**
   * Order preservation: the j-th harvest record comes from the j-th planting
   * whose date parses, and is that planting's processed record.
   */
  lemma ScheduleFollowsInput(ps: seq<Planting>)
    requires AllInRange(ps)
    ensures |Schedule(ps)| == |ValidPositions(ps)|
    ensures forall j :: 0 <= j < |Schedule(ps)| ==> Schedule(ps)[j] == ProcessRecord(ps[ValidPositions(ps)[j]]).value
  {
    SuccessesAt(Outcomes(ps));
  }

  /** The positions of the plantings whose date does not parse, in increasing order. */
  function InvalidPositions(ps: seq<Planting>): (ix: seq<nat>)
    requires AllInRange(ps)
    ensures forall j :: 0 <= j < |ix| ==> ix[j] < |ps| && !HasValidDate(ps[ix[j]])
    ensures forall j, k :: 0 <= j < k < |ix| ==> ix[j] < ix[k]
    ensures forall i :: 0 <= i < |ps| && !HasValidDate(ps[i]) ==> i in ix
  {
    ErrPositions(Outcomes(ps))
  }

  /** The j-th diagnostic names the crop of the j-th planting whose date does not parse, with its parse error. */
  lemma DiagnosticsFollowInput(ps: seq<Planting>)
    requires AllInRange(ps)
    ensures |Diagnostics(ps)| == |InvalidPositions(ps)|
    ensures forall j :: 0 <= j < |Diagnostics(ps)| ==>
      var p := ps[InvalidPositions(ps)[j]];
      Diagnostics(ps)[j] == Diagnostic(p.crop, ParseDate(p.plantDate).error)
  {
    FailuresAt(Outcomes(ps));
  }

  /** When every date parses, the schedule has one record per planting, in the same order, and nothing is reported. */
  lemma AllValidSchedule(ps: seq<Planting>)
    requires AllInRange(ps)
    requires forall i :: 0 <= i < |ps| ==> HasValidDate(ps[i])
    ensures |Schedule(ps)| == |ps| && Diagnostics(ps) == []
    ensures forall i :: 0 <= i < |ps| ==> Schedule(ps)[i] == ProcessRecord(ps[i]).value
  {
    AllOk(Outcomes(ps));
  }

  /**
   * A planting whose date does not parse is skipped, not replaced: inserting it
   * leaves the schedule unchanged and adds its diagnostic at its place.
   */
  lemma DropOnFailure(pre: seq<Planting>, bad: Planting, post: seq<Planting>)
    requires AllInRange(pre) && AllInRange(post) && !HasValidDate(bad)
    ensures AllInRange(pre + post) && AllInRange(pre + [bad] + post)
    ensures Schedule(pre + [bad] + post) == Schedule(pre + post)
    ensures Diagnostics(pre + [bad] + post)
         == Diagnostics(pre) + [Diagnostic(bad.crop, ParseDate(bad.plantDate).error)] + Diagnostics(post)
  {
    SkippedAlone(bad);
    ScheduleAppend(pre, [bad]);
    ScheduleAppend(pre + [bad], post);
    ScheduleAppend(pre, post);
  }

  /** A lone planting whose date does not parse gives no record and its own diagnostic. */
  lemma SkippedAlone(bad: Planting)
    requires !HasValidDate(bad)
    ensures AllInRange([bad])
    ensures Schedule([bad]) == [] && Diagnostics([bad]) == [Diagnostic(bad.crop, ParseDate(bad.plantDate).error)]
  {
    var one := [bad];
    var rs := Outcomes(one);
    assert rs == [ProcessRecord(bad)];
    assert rs[..0] == [];
    assert Successes(rs) == Successes(rs[..0]) + [];
    assert Failures(rs) == Failures(rs[..0]) + [ProcessRecord(bad).error];
  }

  /** With zero days to maturity the harvest date is the plant date, character for character. */
  lemma ZeroDaysToMaturity(p: Planting)
    requires HasValidDate(p) && p.dtm == 0
    ensures InRange(p) && ProcessRecord(p).value.harvestDate == p.plantDate
  {
    ParsedIsCanonical(p.plantDate);
  }
}
