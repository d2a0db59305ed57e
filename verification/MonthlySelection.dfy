/** The explicit selection of approved daily inputs for one month, and its validation. */
module MonthlySelection {
  import opened Options
  import opened Calendar
  import opened Ordering
  import opened Versions

  const SUPPORTED_SOURCE := "metropt3"

  datatype DailyInput = DailyInput(
    sourceDate: int,
    processingIdentity: string,
    markerBucket: string,
    markerKey: string,
    markerKind: string,
    markerValue: string,
    stagingBucket: string,
    stagingKey: string,
    stagingSha256: string,
    stagingByteSize: int,
    inputRows: int,
    validRows: int,
    quarantineRows: int,
    first: Option<Timestamp>,
    last: Option<Timestamp>,
    pipelineVersion: string,
    schemaVersion: string,
    manifestVersion: string
  )

  datatype Selection = Selection(
    sourceName: string,
    year: int,
    month: int,
    inputs: seq<DailyInput>,
    expectedRawDates: seq<int>,
    knownSourceStart: int,
    knownSourceEnd: int,
    terminalPartialMonth: bool
  )

  datatype SelectionError =
    | UnsupportedSource | InvalidMonth | NoInput | ReversedRange | DuplicateDates | UnsortedExpectedDates
    | WrongMonth | MarkerNotPinned | UnsupportedIdentityKind | InvalidMarkerDigest | EmptyIdentityField
    | CountsDoNotReconcile | NegativeCount | EmptyDayHasBoundary | DayLacksBoundary | AwareBoundary
    | BoundaryOutsideDay | ReversedBoundary | UnsupportedVersion | InvalidStagingDigest | NoStagingBytes
    | ExpectedDateOutsideMonth | UnexpectedDate | OutsideKnownRange | TerminalMonthMismatch

  // ---------------------------------------------------------------- text

  function LowerChar(c: char): char {
    if 'A' <= c <= 'Z' then c - 'A' + 'a' else c
  }

  function Lower(text: string): (lower: string)
    ensures |lower| == |text| && forall i :: 0 <= i < |text| ==> lower[i] == LowerChar(text[i])
  {
    seq(|text|, i requires 0 <= i < |text| => LowerChar(text[i]))
  }

  predicate HexDigest(text: string) {
    |text| == 64 && forall c :: c in text ==> '0' <= c <= '9' || 'a' <= c <= 'f' || 'A' <= c <= 'F'
  }

  lemma LowerTwice(text: string)
    ensures Lower(Lower(text)) == Lower(text)
    ensures HexDigest(text) ==> HexDigest(Lower(text))
  {
    if HexDigest(text) {
      forall c | c in Lower(text) ensures '0' <= c <= '9' || 'a' <= c <= 'f' {
        var i :| 0 <= i < |text| && Lower(text)[i] == c;
        assert text[i] in text;
      }
    }
  }

  // ---------------------------------------------------------------- validation

  function ByDate(): (DailyInput, DailyInput) -> bool {
    (a: DailyInput, b: DailyInput) => a.sourceDate <= b.sourceDate
  }

  predicate DatesDistinct(inputs: seq<DailyInput>) {
    forall i, j :: 0 <= i < j < |inputs| ==> inputs[i].sourceDate != inputs[j].sourceDate
  }

  predicate Increasing(dates: seq<int>) {
    forall i, j :: 0 <= i < j < |dates| ==> dates[i] < dates[j]
  }

  function ValidateInput(item: DailyInput, year: int, month: int): Option<SelectionError>
    requires 1 <= month <= 12
  {
    if !InMonth(item.sourceDate, year, month) then Some(WrongMonth)
    else if item.markerBucket == "" || item.markerKey == "" then Some(MarkerNotPinned)
    else if item.markerKind !in {"version_id", "sha256", "etag"} then Some(UnsupportedIdentityKind)
    else if item.markerValue == "" then Some(MarkerNotPinned)
    else if item.markerKind == "sha256" && !HexDigest(item.markerValue) then Some(InvalidMarkerDigest)
    else if "" in [item.processingIdentity, item.stagingBucket, item.stagingKey,
                   item.pipelineVersion, item.schemaVersion, item.manifestVersion] then Some(EmptyIdentityField)
    else if item.inputRows != item.validRows + item.quarantineRows then Some(CountsDoNotReconcile)
    else if item.validRows < 0 || item.quarantineRows < 0 then Some(NegativeCount)
    else if item.validRows == 0 && (item.first.Some? || item.last.Some?) then Some(EmptyDayHasBoundary)
    else if item.validRows != 0 && (item.first.None? || item.last.None?) then Some(DayLacksBoundary)
    else if ValidateBoundary(item.first, item.sourceDate).Some? then ValidateBoundary(item.first, item.sourceDate)
    else if ValidateBoundary(item.last, item.sourceDate).Some? then ValidateBoundary(item.last, item.sourceDate)
    else if item.first.Some? && item.last.Some? && item.first.value.seconds > item.last.value.seconds then Some(ReversedBoundary)
    else if item.schemaVersion != SCHEMA_VERSION || item.manifestVersion != MANIFEST_VERSION then Some(UnsupportedVersion)
    else if !HexDigest(item.stagingSha256) then Some(InvalidStagingDigest)
    else if item.stagingByteSize <= 0 then Some(NoStagingBytes)
    else None
  }

  function ValidateBoundary(boundary: Option<Timestamp>, date: int): Option<SelectionError> {
    if boundary.None? then None
    else if boundary.value.aware then Some(AwareBoundary)
    else if DateOf(boundary.value.seconds) != date then Some(BoundaryOutsideDay)
    else None
  }

  function ValidateInputs(items: seq<DailyInput>, year: int, month: int): Option<SelectionError>
    requires 1 <= month <= 12
  {
    if items == [] then None
    else
      var first := ValidateInput(items[0], year, month);
      if first.Some? then first else ValidateInputs(items[1..], year, month)
  }

  /** The selected inputs in date order, or the first rule the selection breaks. */
  function ValidateSelection(s: Selection): Result<seq<DailyInput>, SelectionError> {
    var ordered := Sort(ByDate(), s.inputs);
    if Lower(s.sourceName) != SUPPORTED_SOURCE then Failure(UnsupportedSource)
    else if !(1 <= s.month <= 12 && 1 <= s.year <= 9999) then Failure(InvalidMonth)
    else if s.inputs == [] then Failure(NoInput)
    else if s.knownSourceStart > s.knownSourceEnd then Failure(ReversedRange)
    else if !DatesDistinct(ordered) then Failure(DuplicateDates)
    else if !Increasing(s.expectedRawDates) then Failure(UnsortedExpectedDates)
    else if ValidateInputs(ordered, s.year, s.month).Some? then Failure(ValidateInputs(ordered, s.year, s.month).value)
    else if exists d :: d in s.expectedRawDates && !InMonth(d, s.year, s.month) then Failure(ExpectedDateOutsideMonth)
    else if exists i :: 0 <= i < |ordered| && ordered[i].sourceDate !in s.expectedRawDates then Failure(UnexpectedDate)
    else if ordered != []
         && !(s.knownSourceStart <= ordered[0].sourceDate && ordered[|ordered| - 1].sourceDate <= s.knownSourceEnd)
    then Failure(OutsideKnownRange)
    else if s.terminalPartialMonth != EndsWithin(s.knownSourceEnd, s.year, s.month) then Failure(TerminalMonthMismatch)
    else Success(ordered)
  }

  /** The known source range stops inside this month, before its last day. */
  predicate EndsWithin(end: int, year: int, month: int)
    requires 1 <= month <= 12
  {
    InMonth(end, year, month) && end < MonthStart(year, month) + DaysInMonth(year, month) - 1
  }

  // ---------------------------------------------------------------- consequences

  lemma ByDateIsPreorder()
    ensures TotalPreorder(ByDate())
  {
  }

  lemma {:induction false} AcceptedInputs(items: seq<DailyInput>, year: int, month: int, i: nat)
    requires 1 <= month <= 12 && ValidateInputs(items, year, month).None? && i < |items|
    ensures ValidateInput(items[i], year, month).None?
  {
    if i > 0 {
      AcceptedInputs(items[1..], year, month, i - 1);
    }
  }

  /** What every accepted selection satisfies: each input in order, on its own day of the month. */
  lemma AcceptedSelection(s: Selection)
    requires ValidateSelection(s).Success?
    ensures var ordered := ValidateSelection(s).value;
            && ordered != [] && multiset(ordered) == multiset(s.inputs)
            && (forall i, j :: 0 <= i < j < |ordered| ==> ordered[i].sourceDate < ordered[j].sourceDate)
            && (forall i :: 0 <= i < |ordered| ==> ValidateInput(ordered[i], s.year, s.month).None?)
  {
    hide Sort, ValidateInput, ValidateInputs, Lower, Increasing, InMonth, EndsWithin, DaysInMonth, MonthStart;
    var ordered := Sort(ByDate(), s.inputs);
    ByDateIsPreorder();
    SortSorts(ByDate(), s.inputs);
    SortPermutes(ByDate(), s.inputs);
    forall i | 0 <= i < |ordered| ensures ValidateInput(ordered[i], s.year, s.month).None? {
      AcceptedInputs(ordered, s.year, s.month, i);
    }
  }

  lemma DatesDistinctIsDistinct(inputs: seq<DailyInput>)
    ensures DatesDistinct(inputs) <==> Distinct(ByDate(), inputs)
  {
  }

  /** Two arrangements with distinct dates sort alike; if one repeats a date, so does the other. */
  lemma SortsAgree(xs: seq<DailyInput>, ys: seq<DailyInput>)
    requires multiset(xs) == multiset(ys)
    ensures DatesDistinct(Sort(ByDate(), xs)) == DatesDistinct(Sort(ByDate(), ys))
    ensures DatesDistinct(Sort(ByDate(), xs)) ==> Sort(ByDate(), xs) == Sort(ByDate(), ys)
  {
    hide DatesDistinct, Distinct, Sort, ByDate, StrictlySorted, TotalPreorder;
    var leq := ByDate();
    var xs', ys' := Sort(leq, xs), Sort(leq, ys);
    ByDateIsPreorder();
    SortPermutes(leq, xs);
    SortPermutes(leq, ys);
    DatesDistinctIsDistinct(xs');
    DatesDistinctIsDistinct(ys');
    if DatesDistinct(xs') {
      DistinctIsPermutable(leq, xs', ys');
      SortOfDistinctIsStrict(leq, xs);
      SortOfDistinctIsStrict(leq, ys);
      StrictlySortedIsUnique(leq, xs', ys');
    } else if DatesDistinct(ys') {
      DistinctIsPermutable(leq, ys', xs');
    }
  }

  /** Validation does not see the order in which a caller lists the inputs. */
  lemma ShufflingIsInvisible(s: Selection, t: Selection)
    requires t == s.(inputs := t.inputs) && multiset(t.inputs) == multiset(s.inputs)
    ensures ValidateSelection(t) == ValidateSelection(s)
  {
    hide DatesDistinct, Sort, ValidateInputs, Lower, Increasing, EndsWithin, InMonth;
    SortsAgree(s.inputs, t.inputs);
    assert |s.inputs| == |multiset(s.inputs)| == |t.inputs|;
  }

  /** The expected raw dates that no input was selected for. */
  function MissingExpectedDates(s: Selection): seq<int> {
    MissingFrom(s.expectedRawDates, s.inputs)
  }

  function MissingFrom(dates: seq<int>, inputs: seq<DailyInput>): seq<int> {
    if dates == [] then []
    else (if exists i :: 0 <= i < |inputs| && inputs[i].sourceDate == dates[0] then [] else [dates[0]])
         + MissingFrom(dates[1..], inputs)
  }
}
