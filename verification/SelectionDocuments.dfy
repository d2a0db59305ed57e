/** Canonical selection documents: their printer, their parser, and the run identity. */
module SelectionDocuments {
  import opened Options
  import opened Calendar
  import opened Ordering
  import opened Json
  import opened MonthlySelection

  const SELECTION_CONTRACT := "metropulse-monthly-selection-v1"
  const RUN_CONTRACT := "metropulse-monthly-compaction-run-v1"
  const COMPACTOR_VERSION := "1.0.0"
  const OUTPUT_CONTRACT_VERSION := "1.0.0"

  /** The member names of the documents; any other name is Other. */
  datatype Key =
    | Bucket | ByteSize | CompactorVersion | CompletionMarker | Contract | ExpectedRawDates | FirstValidTimestamp
    | IdentityKind | IdentityValue | InputRowCount | Inputs | KnownSourceEnd | KnownSourceStart | LastValidTimestamp
    | ManifestVersion | ManifestVersions | Month | ObjectKey | OutputContractVersion | PipelineVersion | PipelineVersions
    | ProcessingIdentity | QuarantineRowCount | RunId | SchemaVersion | SchemaVersions | SelectionMember | Sha256
    | SourceDate | SourceName | Staging | TerminalPartialMonth | ValidRowCount | WriterContract | Year | Other(name: string)

  type Doc = Json<Key>

  /** Text conversions of the host, and its canonical JSON encoding and digest. */
  datatype Host = Host(
    date: int -> string,
    fromDate: string -> Option<int>,
    time: Timestamp -> string,
    fromTime: string -> Option<Timestamp>,
    padded: (int, int) -> string,
    integer: string -> Option<int>,
    show: Doc -> string,
    names: Doc -> seq<Doc>,
    sorted: set<string> -> seq<string>,
    writer: Doc,
    encode: Doc -> string,
    decode: string -> Option<Doc>,
    sha256: string -> string
  )

  /** Each printed form reads back as what was printed. */
  ghost predicate Lawful(h: Host) {
    && (forall d :: h.fromDate(h.date(d)) == Some(d))
    && (forall t :: h.fromTime(h.time(t)) == Some(t))
    && (forall width, n :: n >= 0 ==> h.integer(h.padded(width, n)) == Some(n))
    && (forall doc :: h.decode(h.encode(doc) + "\n") == Some(doc))
  }

  ghost predicate DigestsDistinguish(h: Host) {
    forall a, b :: h.sha256(a) == h.sha256(b) ==> a == b
  }

  datatype DocumentError = Malformed | NotAnObject | UnsupportedContract | Invalid(reason: SelectionError) | RunIdMismatch | NotCanonical

  // ---------------------------------------------------------------- printing

  function OptionalTime(h: Host, time: Option<Timestamp>): Doc {
    if time.Some? then Text(h.time(time.value)) else Null
  }

  function MarkerValue(item: DailyInput): string {
    if item.markerKind == "sha256" then Lower(item.markerValue) else item.markerValue
  }

  function MarkerPayload(item: DailyInput): Doc {
    Object(map[
      Bucket := Text(item.markerBucket),
      IdentityKind := Text(item.markerKind),
      IdentityValue := Text(MarkerValue(item)),
      ObjectKey := Text(item.markerKey)])
  }

  function StagingPayload(item: DailyInput): Doc {
    Object(map[
      Bucket := Text(item.stagingBucket),
      ByteSize := Number(item.stagingByteSize),
      ObjectKey := Text(item.stagingKey),
      Sha256 := Text(Lower(item.stagingSha256))])
  }

  function InputPayload(h: Host, item: DailyInput): Doc {
    Object(map[
      CompletionMarker := MarkerPayload(item),
      FirstValidTimestamp := OptionalTime(h, item.first),
      InputRowCount := Number(item.inputRows),
      LastValidTimestamp := OptionalTime(h, item.last),
      ManifestVersion := Text(item.manifestVersion),
      PipelineVersion := Text(item.pipelineVersion),
      ProcessingIdentity := Text(item.processingIdentity),
      QuarantineRowCount := Number(item.quarantineRows),
      SchemaVersion := Text(item.schemaVersion),
      SourceDate := Text(h.date(item.sourceDate)),
      Staging := StagingPayload(item),
      ValidRowCount := Number(item.validRows)])
  }

  function PrintInput(h: Host): DailyInput -> Doc {
    (item: DailyInput) => InputPayload(h, item)
  }

  function PrintDate(h: Host): int -> Doc {
    (d: int) => Text(h.date(d))
  }

  /** The inputs in date order. */
  function Ordered(s: Selection): seq<DailyInput> {
    Sort(ByDate(), s.inputs)
  }

  function SelectionPayload(h: Host, s: Selection): Doc {
    Object(map[
      ExpectedRawDates := Array(Map(PrintDate(h), s.expectedRawDates)),
      Inputs := Array(Map(PrintInput(h), Ordered(s))),
      KnownSourceEnd := Text(h.date(s.knownSourceEnd)),
      KnownSourceStart := Text(h.date(s.knownSourceStart)),
      Month := Text(h.padded(2, s.month)),
      SourceName := Text(Lower(s.sourceName)),
      TerminalPartialMonth := Boolean(s.terminalPartialMonth),
      Year := Text(h.padded(4, s.year))])
  }

  function Listed(h: Host, versions: set<string>): Doc {
    Array(Map((text: string) => Text(text), h.sorted(versions)))
  }

  function VersionsOf(field: DailyInput -> string, inputs: seq<DailyInput>): set<string> {
    set item | item in inputs :: field(item)
  }

  function ManifestField(): DailyInput -> string { (item: DailyInput) => item.manifestVersion }
  function PipelineField(): DailyInput -> string { (item: DailyInput) => item.pipelineVersion }
  function SchemaField(): DailyInput -> string { (item: DailyInput) => item.schemaVersion }

  function RunIdentityPayload(h: Host, s: Selection): Doc {
    Object(map[
      CompactorVersion := Text(COMPACTOR_VERSION),
      Contract := Text(RUN_CONTRACT),
      Inputs := Array(Map(PrintInput(h), Ordered(s))),
      ManifestVersions := Listed(h, VersionsOf(ManifestField(), s.inputs)),
      Month := Text(h.padded(2, s.month)),
      OutputContractVersion := Text(OUTPUT_CONTRACT_VERSION),
      PipelineVersions := Listed(h, VersionsOf(PipelineField(), s.inputs)),
      SchemaVersions := Listed(h, VersionsOf(SchemaField(), s.inputs)),
      SourceName := Text(Lower(s.sourceName)),
      WriterContract := h.writer,
      Year := Text(h.padded(4, s.year))])
  }

  function MonthlyRunId(h: Host, s: Selection): string {
    h.sha256(h.encode(RunIdentityPayload(h, s)))
  }

  function Document(h: Host, s: Selection): Doc {
    Object(map[
      Contract := Text(SELECTION_CONTRACT),
      RunId := Text(MonthlyRunId(h, s)),
      SelectionMember := SelectionPayload(h, s)])
  }

  /** The document's bytes, for a valid selection. */
  function DocumentBytes(h: Host, s: Selection): Result<string, SelectionError> {
    var valid := ValidateSelection(s);
    if valid.Failure? then Failure(valid.error) else Success(h.encode(Document(h, s)) + "\n")
  }

  // ---------------------------------------------------------------- parsing

  /** A member that must be there. */
  function Member(value: Doc, key: Key): Result<Doc, DocumentError> {
    if value.Object? && key in value.members then Success(value.members[key]) else Failure(Malformed)
  }

  function TextOf(h: Host, value: Doc): string {
    if value.Text? then value.text else h.show(value)
  }

  function IntegerOf(h: Host, value: Doc): Result<int, DocumentError> {
    match value
    case Number(n) => Success(n)
    case Boolean(b) => Success(if b then 1 else 0)
    case Text(text) => (var n := h.integer(text); if n.Some? then Success(n.value) else Failure(Malformed))
    case _ => Failure(Malformed)
  }

  predicate TruthOf(value: Doc) {
    match value
    case Null => false
    case Boolean(b) => b
    case Number(n) => n != 0
    case Text(text) => text != ""
    case Array(items) => items != []
    case Object(members) => members != map[]
  }

  function ElementsOf(h: Host, value: Doc): Result<seq<Doc>, DocumentError> {
    match value
    case Array(items) => Success(items)
    case Text(text) => Success(Map((c: char) => Text([c]), text))
    case Object(_) => Success(h.names(value))
    case _ => Failure(Malformed)
  }

  function DateOfText(h: Host, value: Doc): Result<int, DocumentError> {
    var d := h.fromDate(TextOf(h, value));
    if d.Some? then Success(d.value) else Failure(Malformed)
  }

  /** A time that may be absent. */
  function TimeMember(h: Host, value: Doc, key: Key): Result<Option<Timestamp>, DocumentError>
    requires value.Object?
  {
    if key !in value.members || value.members[key].Null? then Success(None)
    else
      var time := h.fromTime(TextOf(h, value.members[key]));
      if time.Some? then Success(time) else Failure(Malformed)
  }

  function InputFromPayload(h: Host, value: Doc): Result<DailyInput, DocumentError> {
    var marker :- Member(value, CompletionMarker);
    var staging :- Member(value, Staging);
    var sourceDate :- Member(value, SourceDate);
    var date :- DateOfText(h, sourceDate);
    var processingIdentity :- Member(value, ProcessingIdentity);
    var markerBucket :- Member(marker, Bucket);
    var markerKey :- Member(marker, ObjectKey);
    var markerKind :- Member(marker, IdentityKind);
    var markerValue :- Member(marker, IdentityValue);
    var stagingBucket :- Member(staging, Bucket);
    var stagingKey :- Member(staging, ObjectKey);
    var stagingSha256 :- Member(staging, Sha256);
    var byteSize :- Member(staging, ByteSize);
    var stagingByteSize :- IntegerOf(h, byteSize);
    var inputRowCount :- Member(value, InputRowCount);
    var inputRows :- IntegerOf(h, inputRowCount);
    var validRowCount :- Member(value, ValidRowCount);
    var validRows :- IntegerOf(h, validRowCount);
    var quarantineRowCount :- Member(value, QuarantineRowCount);
    var quarantineRows :- IntegerOf(h, quarantineRowCount);
    var first :- TimeMember(h, value, FirstValidTimestamp);
    var last :- TimeMember(h, value, LastValidTimestamp);
    var pipelineVersion :- Member(value, PipelineVersion);
    var schemaVersion :- Member(value, SchemaVersion);
    var manifestVersion :- Member(value, ManifestVersion);
    Success(DailyInput(
      date, TextOf(h, processingIdentity), TextOf(h, markerBucket), TextOf(h, markerKey), TextOf(h, markerKind),
      TextOf(h, markerValue), TextOf(h, stagingBucket), TextOf(h, stagingKey), TextOf(h, stagingSha256), stagingByteSize,
      inputRows, validRows, quarantineRows, first, last,
      TextOf(h, pipelineVersion), TextOf(h, schemaVersion), TextOf(h, manifestVersion)))
  }

  function InputsFrom(h: Host, values: seq<Doc>): Result<seq<DailyInput>, DocumentError> {
    if values == [] then Success([]) else
    var first :- InputFromPayload(h, values[0]);
    var rest :- InputsFrom(h, values[1..]);
    Success([first] + rest)
  }

  function DatesFrom(h: Host, values: seq<Doc>): Result<seq<int>, DocumentError> {
    if values == [] then Success([]) else
    var first :- DateOfText(h, values[0]);
    var rest :- DatesFrom(h, values[1..]);
    Success([first] + rest)
  }

  /** The selection of a payload, validated. */
  function SelectionFromPayload(h: Host, value: Doc): Result<Selection, DocumentError> {
    var listed :- Member(value, Inputs);
    var elements :- ElementsOf(h, listed);
    var inputs :- InputsFrom(h, elements);
    var name :- Member(value, SourceName);
    var yearMember :- Member(value, Year);
    var year :- IntegerOf(h, yearMember);
    var monthMember :- Member(value, Month);
    var month :- IntegerOf(h, monthMember);
    var expected :- Member(value, ExpectedRawDates);
    var dateElements :- ElementsOf(h, expected);
    var dates :- DatesFrom(h, dateElements);
    var startMember :- Member(value, KnownSourceStart);
    var start :- DateOfText(h, startMember);
    var endMember :- Member(value, KnownSourceEnd);
    var end :- DateOfText(h, endMember);
    var terminal :- Member(value, TerminalPartialMonth);
    var s := Selection(TextOf(h, name), year, month, inputs, dates, start, end, TruthOf(terminal));
    var valid := ValidateSelection(s);
    if valid.Failure? then Failure(Invalid(valid.error)) else Success(s)
  }

  function ParseSelectionDocument(h: Host, payload: string): Result<(string, Selection), DocumentError> {
    var document := h.decode(payload);
    if document.None? then Failure(Malformed)
    else if !document.value.Object? then Failure(NotAnObject)
    else if Contract !in document.value.members || document.value.members[Contract] != Text(SELECTION_CONTRACT)
    then Failure(UnsupportedContract) else
    var id :- Member(document.value, RunId);
    var selectionMember :- Member(document.value, SelectionMember);
    var s :- SelectionFromPayload(h, selectionMember);
    var canonical := DocumentBytes(h, s);
    if canonical.Failure? then Failure(Invalid(canonical.error))
    else if TextOf(h, id) != MonthlyRunId(h, s) then Failure(RunIdMismatch)
    else if payload != canonical.value then Failure(NotCanonical)
    else Success((TextOf(h, id), s))
  }

  // ---------------------------------------------------------------- the normal form

  function NormalInput(item: DailyInput): DailyInput {
    item.(markerValue := MarkerValue(item), stagingSha256 := Lower(item.stagingSha256))
  }

  /** Inputs in date order with lower-case digests, and a lower-case source name. */
  function Normal(s: Selection): Selection {
    s.(sourceName := Lower(s.sourceName), inputs := Map(NormalInput, Ordered(s)))
  }

  lemma NormalInputPrintsAlike(h: Host, item: DailyInput)
    ensures InputPayload(h, NormalInput(item)) == InputPayload(h, item)
  {
    LowerTwice(item.markerValue);
    LowerTwice(item.stagingSha256);
  }

  lemma MarkerMembers(item: DailyInput)
    ensures var marker := MarkerPayload(item);
            && Member(marker, Bucket) == Success(Text(item.markerBucket))
            && Member(marker, ObjectKey) == Success(Text(item.markerKey))
            && Member(marker, IdentityKind) == Success(Text(item.markerKind))
            && Member(marker, IdentityValue) == Success(Text(MarkerValue(item)))
  {
  }

  lemma StagingMembers(item: DailyInput)
    ensures var staging := StagingPayload(item);
            && Member(staging, Bucket) == Success(Text(item.stagingBucket))
            && Member(staging, ObjectKey) == Success(Text(item.stagingKey))
            && Member(staging, Sha256) == Success(Text(Lower(item.stagingSha256)))
            && Member(staging, ByteSize) == Success(Number(item.stagingByteSize))
  {
  }

  lemma InputMembers(h: Host, item: DailyInput)
    ensures var value := InputPayload(h, item);
            && Member(value, CompletionMarker) == Success(MarkerPayload(item))
            && Member(value, Staging) == Success(StagingPayload(item))
            && Member(value, SourceDate) == Success(Text(h.date(item.sourceDate)))
            && Member(value, ProcessingIdentity) == Success(Text(item.processingIdentity))
            && Member(value, InputRowCount) == Success(Number(item.inputRows))
            && Member(value, ValidRowCount) == Success(Number(item.validRows))
            && Member(value, QuarantineRowCount) == Success(Number(item.quarantineRows))
            && Member(value, PipelineVersion) == Success(Text(item.pipelineVersion))
            && Member(value, SchemaVersion) == Success(Text(item.schemaVersion))
            && Member(value, ManifestVersion) == Success(Text(item.manifestVersion))
  {
    hide MarkerPayload, StagingPayload, OptionalTime;
  }

  lemma InputTimes(h: Host, item: DailyInput)
    requires Lawful(h)
    ensures var value := InputPayload(h, item);
            && value.Object? && TimeMember(h, value, FirstValidTimestamp) == Success(item.first)
            && TimeMember(h, value, LastValidTimestamp) == Success(item.last)
  {
    hide MarkerPayload, StagingPayload;
    if item.first.Some? {
      assert h.fromTime(h.time(item.first.value)) == item.first;
    }
    if item.last.Some? {
      assert h.fromTime(h.time(item.last.value)) == item.last;
    }
  }

  /** A printed input reads back as its normal form. */
  lemma InputRoundTrip(h: Host, item: DailyInput)
    requires Lawful(h)
    ensures InputFromPayload(h, InputPayload(h, item)) == Success(NormalInput(item))
  {
    hide Lower, InputPayload, MarkerPayload, StagingPayload, Member, TimeMember, MarkerValue;
    MarkerMembers(item);
    StagingMembers(item);
    InputMembers(h, item);
    InputTimes(h, item);
    assert h.fromDate(h.date(item.sourceDate)) == Some(item.sourceDate);
  }

  lemma NormalInputIsAccepted(item: DailyInput, year: int, month: int)
    requires 1 <= month <= 12 && ValidateInput(item, year, month).None?
    ensures ValidateInput(NormalInput(item), year, month).None?
  {
    hide InMonth, HexDigest, Lower, ValidateBoundary;
    LowerTwice(item.markerValue);
    LowerTwice(item.stagingSha256);
    SameLength(item.markerValue);
  }

  lemma SameLength(text: string)
    ensures |Lower(text)| == |text|
  {
  }

  lemma {:induction false} AllInputsAccepted(items: seq<DailyInput>, year: int, month: int)
    requires 1 <= month <= 12 && forall i :: 0 <= i < |items| ==> ValidateInput(items[i], year, month).None?
    ensures ValidateInputs(items, year, month).None?
  {
    hide ValidateInput;
    if items != [] {
      AllInputsAccepted(items[1..], year, month);
    }
  }

  /** Normal inputs are already in order. */
  lemma NormalIsOrdered(s: Selection)
    ensures Ordered(Normal(s)) == Normal(s).inputs
  {
    ByDateIsPreorder();
    SortSorts(ByDate(), s.inputs);
    SortOfSorted(ByDate(), Normal(s).inputs);
  }

  lemma AcceptedFacts(s: Selection)
    requires ValidateSelection(s).Success?
    ensures Lower(s.sourceName) == SUPPORTED_SOURCE && 1 <= s.month <= 12 && 1 <= s.year
    ensures ValidateSelection(s).value == Ordered(s)
  {
    hide Lower;
  }

  /** The normal form of a valid selection is valid, and in its own order. */
  lemma NormalIsValid(s: Selection)
    requires ValidateSelection(s).Success?
    ensures ValidateSelection(Normal(s)) == Success(Normal(s).inputs)
  {
    hide ValidateInput, Lower, InMonth, EndsWithin, NormalInput, Sort, Increasing;
    AcceptedFacts(s);
    AcceptedSelection(s);
    NormalIsOrdered(s);
    LowerTwice(s.sourceName);
    var n := Normal(s);
    KeptDates(s);
    forall i | 0 <= i < |n.inputs| ensures ValidateInput(n.inputs[i], s.year, s.month).None? {
      NormalInputIsAccepted(Ordered(s)[i], s.year, s.month);
    }
    AllInputsAccepted(n.inputs, s.year, s.month);
  }

  lemma KeptDates(s: Selection)
    ensures |Normal(s).inputs| == |Ordered(s)| == |s.inputs|
    ensures forall i :: 0 <= i < |Ordered(s)| ==> Normal(s).inputs[i].sourceDate == Ordered(s)[i].sourceDate
  {
    SortPermutes(ByDate(), s.inputs);
  }

  // ---------------------------------------------------------------- printing normal forms

  lemma NormalPrintsInputsAlike(h: Host, s: Selection)
    ensures Map(PrintInput(h), Ordered(Normal(s))) == Map(PrintInput(h), Ordered(s))
  {
    hide InputPayload, NormalInput;
    NormalIsOrdered(s);
    forall i | 0 <= i < |Ordered(s)| ensures InputPayload(h, Normal(s).inputs[i]) == InputPayload(h, Ordered(s)[i]) {
      NormalInputPrintsAlike(h, Ordered(s)[i]);
    }
  }

  lemma KeepsVersions(field: DailyInput -> string, s: Selection)
    requires forall item: DailyInput :: field(NormalInput(item)) == field(item)
    ensures VersionsOf(field, Normal(s).inputs) == VersionsOf(field, s.inputs)
  {
    hide NormalInput, Sort;
    var n, ordered := Normal(s).inputs, Ordered(s);
    SortPermutes(ByDate(), s.inputs);
    forall item | item in s.inputs ensures field(item) in VersionsOf(field, n) {
      assert item in multiset(ordered);
      var i :| 0 <= i < |ordered| && ordered[i] == item;
      assert n[i] in n && field(n[i]) == field(NormalInput(item));
    }
    forall other | other in n ensures field(other) in VersionsOf(field, s.inputs) {
      var i :| 0 <= i < |n| && n[i] == other;
      assert ordered[i] in multiset(s.inputs) && field(other) == field(NormalInput(ordered[i]));
    }
  }

  lemma NormalKeepsVersions(s: Selection)
    ensures VersionsOf(ManifestField(), Normal(s).inputs) == VersionsOf(ManifestField(), s.inputs)
    ensures VersionsOf(PipelineField(), Normal(s).inputs) == VersionsOf(PipelineField(), s.inputs)
    ensures VersionsOf(SchemaField(), Normal(s).inputs) == VersionsOf(SchemaField(), s.inputs)
  {
    hide VersionsOf, Normal;
    KeepsVersions(ManifestField(), s);
    KeepsVersions(PipelineField(), s);
    KeepsVersions(SchemaField(), s);
  }

  /** A selection and its normal form have one run identity and one document. */
  lemma NormalPrintsAlike(h: Host, s: Selection)
    ensures RunIdentityPayload(h, Normal(s)) == RunIdentityPayload(h, s)
    ensures SelectionPayload(h, Normal(s)) == SelectionPayload(h, s)
    ensures MonthlyRunId(h, Normal(s)) == MonthlyRunId(h, s) && Document(h, Normal(s)) == Document(h, s)
  {
    hide Map, Ordered, VersionsOf, Lower;
    NormalPrintsInputsAlike(h, s);
    NormalKeepsVersions(s);
    LowerTwice(s.sourceName);
  }

  // ---------------------------------------------------------------- reading back

  lemma {:induction false} InputsRoundTrip(h: Host, items: seq<DailyInput>)
    requires Lawful(h)
    ensures InputsFrom(h, Map(PrintInput(h), items)) == Success(Map(NormalInput, items))
  {
    hide InputFromPayload, InputPayload, NormalInput;
    if items != [] {
      InputRoundTrip(h, items[0]);
      InputsRoundTrip(h, items[1..]);
      assert Map(PrintInput(h), items)[1..] == Map(PrintInput(h), items[1..]);
      assert Map(NormalInput, items) == [NormalInput(items[0])] + Map(NormalInput, items[1..]);
    }
  }

  lemma {:induction false} DatesRoundTrip(h: Host, dates: seq<int>)
    requires Lawful(h)
    ensures DatesFrom(h, Map(PrintDate(h), dates)) == Success(dates)
  {
    if dates != [] {
      var d: int := dates[0];
      assert h.fromDate(h.date(d)) == Some(d);
      DatesRoundTrip(h, dates[1..]);
      var printed := Map(PrintDate(h), dates);
      assert printed[1..] == Map(PrintDate(h), dates[1..]) && printed[0] == Text(h.date(d));
      assert DateOfText(h, printed[0]) == Success(d);
      assert dates == [d] + dates[1..];
    }
  }

  lemma SelectionMembers(h: Host, s: Selection)
    ensures var value := SelectionPayload(h, s);
            && Member(value, Inputs) == Success(Array(Map(PrintInput(h), Ordered(s))))
            && Member(value, SourceName) == Success(Text(Lower(s.sourceName)))
            && Member(value, Year) == Success(Text(h.padded(4, s.year)))
            && Member(value, Month) == Success(Text(h.padded(2, s.month)))
            && Member(value, ExpectedRawDates) == Success(Array(Map(PrintDate(h), s.expectedRawDates)))
            && Member(value, KnownSourceStart) == Success(Text(h.date(s.knownSourceStart)))
            && Member(value, KnownSourceEnd) == Success(Text(h.date(s.knownSourceEnd)))
            && Member(value, TerminalPartialMonth) == Success(Boolean(s.terminalPartialMonth))
  {
    hide Map, Ordered, Lower;
  }

  /** A valid selection's payload reads back as its normal form. */
  lemma SelectionRoundTrip(h: Host, s: Selection)
    requires Lawful(h) && ValidateSelection(s).Success?
    ensures SelectionFromPayload(h, SelectionPayload(h, s)) == Success(Normal(s))
  {
    hide SelectionPayload, Member, Map, Ordered, ValidateSelection, InputsFrom, DatesFrom, Lower;
    AcceptedFacts(s);
    SelectionMembers(h, s);
    InputsRoundTrip(h, Ordered(s));
    DatesRoundTrip(h, s.expectedRawDates);
    NormalIsValid(s);
    assert h.fromDate(h.date(s.knownSourceStart)) == Some(s.knownSourceStart);
    assert h.fromDate(h.date(s.knownSourceEnd)) == Some(s.knownSourceEnd);
    assert h.integer(h.padded(4, s.year)) == Some(s.year) && h.integer(h.padded(2, s.month)) == Some(s.month);
  }

  /** Printing a valid selection and parsing the document gives its run identifier and its normal form. */
  lemma DocumentRoundTrip(h: Host, s: Selection)
    requires Lawful(h) && ValidateSelection(s).Success?
    ensures DocumentBytes(h, s).Success?
    ensures ParseSelectionDocument(h, DocumentBytes(h, s).value) == Success((MonthlyRunId(h, s), Normal(s)))
  {
    hide SelectionPayload, RunIdentityPayload, SelectionFromPayload, ValidateSelection, Normal;
    SelectionRoundTrip(h, s);
    NormalIsValid(s);
    NormalPrintsAlike(h, s);
    assert h.decode(h.encode(Document(h, s)) + "\n") == Some(Document(h, s));
  }

  /** The accepted payloads are exactly the printed documents, and what is parsed is already in normal form. */
  lemma AcceptedAreExactlyPrinted(h: Host, payload: string)
    requires Lawful(h)
    ensures ParseSelectionDocument(h, payload).Success? <==>
            exists s: Selection :: DocumentBytes(h, s) == Success(payload)
    ensures ParseSelectionDocument(h, payload).Success? ==>
              var (id, s) := ParseSelectionDocument(h, payload).value;
              DocumentBytes(h, s) == Success(payload) && id == MonthlyRunId(h, s) && Normal(s) == s
  {
    hide SelectionPayload, RunIdentityPayload, SelectionFromPayload, ValidateSelection, Normal, Document;
    var parsed := ParseSelectionDocument(h, payload);
    if parsed.Success? {
      var s := parsed.value.1;
      assert DocumentBytes(h, s) == Success(payload);
      DocumentRoundTrip(h, s);
    }
    if s: Selection :| DocumentBytes(h, s) == Success(payload) {
      DocumentRoundTrip(h, s);
    }
  }

  // ---------------------------------------------------------------- run identity

  lemma {:induction false} PrintedInputsAgree(h: Host, xs: seq<DailyInput>, ys: seq<DailyInput>)
    requires Lawful(h)
    ensures Map(PrintInput(h), xs) == Map(PrintInput(h), ys) <==> Map(NormalInput, xs) == Map(NormalInput, ys)
  {
    hide Map, InputsFrom;
    InputsRoundTrip(h, xs);
    InputsRoundTrip(h, ys);
    if Map(NormalInput, xs) == Map(NormalInput, ys) {
      NormalPrints(h, xs);
      NormalPrints(h, ys);
    }
  }

  lemma NormalPrints(h: Host, items: seq<DailyInput>)
    ensures Map(PrintInput(h), Map(NormalInput, items)) == Map(PrintInput(h), items)
  {
    hide InputPayload, NormalInput;
    forall i | 0 <= i < |items| ensures InputPayload(h, NormalInput(items[i])) == InputPayload(h, items[i]) {
      NormalInputPrintsAlike(h, items[i]);
    }
  }

  lemma EncodingDistinguishes(h: Host, a: Doc, b: Doc)
    requires Lawful(h) && h.encode(a) == h.encode(b)
    ensures a == b
  {
    assert h.decode(h.encode(a) + "\n") == Some(a);
    assert h.decode(h.encode(b) + "\n") == Some(b);
  }

  /** Accepted selections with the same normal inputs are of the same month. */
  lemma SameInputsSameMonth(s: Selection, t: Selection)
    requires ValidateSelection(s).Success? && ValidateSelection(t).Success? && Normal(s).inputs == Normal(t).inputs
    ensures s.year == t.year && s.month == t.month
  {
    hide ValidateSelection, Sort, NormalInput, InMonth;
    AcceptedFacts(s);
    AcceptedFacts(t);
    AcceptedSelection(s);
    AcceptedSelection(t);
    KeptDates(s);
    KeptDates(t);
    OnItsMonth(Ordered(s)[0], s.year, s.month);
    OnItsMonth(Ordered(t)[0], t.year, t.month);
    assert Normal(s).inputs[0].sourceDate == Normal(t).inputs[0].sourceDate;
    MonthIsUnique(Ordered(s)[0].sourceDate, s.year, s.month, t.year, t.month);
  }

  lemma OnItsMonth(item: DailyInput, year: int, month: int)
    requires 1 <= month <= 12 && ValidateInput(item, year, month).None?
    ensures InMonth(item.sourceDate, year, month)
  {
  }

  lemma IdentityInputs(h: Host, s: Selection)
    ensures RunIdentityPayload(h, s).Object? && Inputs in RunIdentityPayload(h, s).members
    ensures RunIdentityPayload(h, s).members[Inputs] == Array(Map(PrintInput(h), Ordered(s)))
  {
    hide Map, Ordered, Lower;
  }

  /** Run identifiers agree exactly when the normalized inputs do. */
  lemma RunIdsAgreeExactlyWhen(h: Host, s: Selection, t: Selection)
    requires Lawful(h) && DigestsDistinguish(h) && ValidateSelection(s).Success? && ValidateSelection(t).Success?
    ensures MonthlyRunId(h, s) == MonthlyRunId(h, t) <==> Normal(s).inputs == Normal(t).inputs
  {
    hide Map, Ordered, ValidateSelection, RunIdentityPayload;
    PrintedInputsAgree(h, Ordered(s), Ordered(t));
    if MonthlyRunId(h, s) == MonthlyRunId(h, t) {
      EncodingDistinguishes(h, RunIdentityPayload(h, s), RunIdentityPayload(h, t));
      IdentityInputs(h, s);
      IdentityInputs(h, t);
    } else if Normal(s).inputs == Normal(t).inputs {
      SameIdentity(h, s, t);
    }
  }

  lemma SameIdentity(h: Host, s: Selection, t: Selection)
    requires ValidateSelection(s).Success? && ValidateSelection(t).Success? && Normal(s).inputs == Normal(t).inputs
    requires Map(PrintInput(h), Ordered(s)) == Map(PrintInput(h), Ordered(t))
    ensures RunIdentityPayload(h, s) == RunIdentityPayload(h, t)
  {
    hide Map, Ordered, ValidateSelection, VersionsOf, Lower;
    AcceptedFacts(s);
    AcceptedFacts(t);
    SameInputsSameMonth(s, t);
    NormalKeepsVersions(s);
    NormalKeepsVersions(t);
  }

  /** Documents agree exactly when the normal forms do: coverage is in the document but not in the run identity. */
  lemma DocumentsAgreeExactlyWhen(h: Host, s: Selection, t: Selection)
    requires Lawful(h) && ValidateSelection(s).Success? && ValidateSelection(t).Success?
    ensures DocumentBytes(h, s) == DocumentBytes(h, t) <==> Normal(s) == Normal(t)
  {
    hide ValidateSelection, Normal, Document, ParseSelectionDocument, MonthlyRunId;
    DocumentRoundTrip(h, s);
    DocumentRoundTrip(h, t);
    if Normal(s) == Normal(t) {
      NormalPrintsAlike(h, s);
      NormalPrintsAlike(h, t);
    }
  }

  function Coverage(s: Selection): (seq<int>, int, int, bool) {
    (s.expectedRawDates, s.knownSourceStart, s.knownSourceEnd, s.terminalPartialMonth)
  }

  /** Two approvals that differ in coverage only have one run identifier, and so one key, but different documents. */
  lemma CoverageSharesTheRun(h: Host, s: Selection, t: Selection)
    requires Lawful(h) && DigestsDistinguish(h) && ValidateSelection(s).Success? && ValidateSelection(t).Success?
    requires t.inputs == s.inputs
    ensures MonthlyRunId(h, s) == MonthlyRunId(h, t)
    ensures DocumentBytes(h, s) == DocumentBytes(h, t) <==> Coverage(s) == Coverage(t)
  {
    hide ValidateSelection, Map, Sort, Lower, DocumentBytes, MonthlyRunId;
    AcceptedFacts(s);
    AcceptedFacts(t);
    RunIdsAgreeExactlyWhen(h, s, t);
    SameInputsSameMonth(s, t);
    DocumentsAgreeExactlyWhen(h, s, t);
  }
}
