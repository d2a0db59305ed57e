/** Row rules of one daily object: local validation of each row, then duplicates over the whole object. */
module RowValidation {
  import opened Options
  import opened Calendar

  /** The seventeen source columns: the index, the timestamp, seven analog and eight digital signals. */
  const INDEX_COLUMN := 0
  const TIMESTAMP_COLUMN := 1
  const FIRST_ANALOG := 2
  const FIRST_DIGITAL := 9
  const COLUMNS := 17
  const INT64_MIN := -0x8000_0000_0000_0000
  const INT64_MAX := 0x7fff_ffff_ffff_ffff

  datatype SourceRecord = SourceRecord(fields: seq<string>, original: string)

  /** A parsed number; NaN and the infinities are not finite. */
  datatype Numeric = Finite(value: real) | NonFinite

  /** The text conversions of the language: each answers None where it raises. */
  datatype Parsers = Parsers(
    blank: string -> bool,
    integer: string -> Option<int>,
    time: string -> Option<int>,
    printedTime: int -> string,
    numeric: string -> Option<Numeric>
  )

  /** In the order in which a row's issues are listed. */
  datatype RowRule =
    | ColumnCount | TimestampParse | NumericParse | RequiredMissing | AnalogNonfinite | DigitalDomain
    | SourceDateMismatch | DuplicateRecordIndex | DuplicateTimestamp

  const ROW_RULE_ORDER := [ColumnCount, TimestampParse, NumericParse, RequiredMissing, AnalogNonfinite, DigitalDomain,
                           SourceDateMismatch, DuplicateRecordIndex, DuplicateTimestamp]

  datatype NormalizedRecord = NormalizedRecord(
    index: int, time: int,
    tp2: real, tp3: real, h1: real, dvPressure: real, reservoirs: real, oilTemperature: real, motorCurrent: real,
    comp: bool, dvElectric: bool, towers: bool, mpg: bool, lps: bool, pressureSwitch: bool, oilLevel: bool,
    caudalImpulses: bool,
    sourceDate: int
  )

  datatype Row = Row(
    number: nat,
    source: SourceRecord,
    index: Option<int>,
    time: Option<int>,
    normalized: Option<NormalizedRecord>,
    issues: seq<RowRule>
  )

  // ---------------------------------------------------------------- parsing

  function ParseRecordIndex(parsers: Parsers, text: string): Option<int> {
    var parsed := parsers.integer(text);
    if parsed.Some? && INT64_MIN <= parsed.value <= INT64_MAX then parsed else None
  }

  /** Only the exact printed form of a time is accepted. */
  function ParseTimestamp(parsers: Parsers, text: string): Option<int> {
    var parsed := parsers.time(text);
    if parsed.Some? && parsers.printedTime(parsed.value) == text then parsed else None
  }

  /** Two accepted timestamps are the same time only if they are the same text. */
  lemma TimestampTextIsExact(parsers: Parsers, a: string, b: string)
    requires ParseTimestamp(parsers, a).Some? && ParseTimestamp(parsers, a) == ParseTimestamp(parsers, b)
    ensures a == b
  {
  }

  // ---------------------------------------------------------------- the rules, one by one

  predicate Missing(p: Parsers, fields: seq<string>, c: nat)
    requires c < |fields|
  {
    p.blank(fields[c])
  }

  function IndexOf(p: Parsers, fields: seq<string>): Option<int>
    requires |fields| == COLUMNS
  {
    if Missing(p, fields, INDEX_COLUMN) then None else ParseRecordIndex(p, fields[INDEX_COLUMN])
  }

  function TimeOf(p: Parsers, fields: seq<string>): Option<int>
    requires |fields| == COLUMNS
  {
    if Missing(p, fields, TIMESTAMP_COLUMN) then None else ParseTimestamp(p, fields[TIMESTAMP_COLUMN])
  }

  predicate Unparseable(p: Parsers, fields: seq<string>, c: nat)
    requires |fields| == COLUMNS && c < COLUMNS
  {
    !Missing(p, fields, c) && p.numeric(fields[c]).None?
  }

  predicate Infinite(p: Parsers, fields: seq<string>, c: nat)
    requires |fields| == COLUMNS && c < COLUMNS
  {
    !Missing(p, fields, c) && p.numeric(fields[c]) == Some(NonFinite)
  }

  predicate NotDigital(p: Parsers, fields: seq<string>, c: nat)
    requires |fields| == COLUMNS && c < COLUMNS
  {
    !Missing(p, fields, c) && p.numeric(fields[c]).Some?
    && p.numeric(fields[c]).value !in {Finite(0.0), Finite(1.0)}
  }

  predicate IsDigit(p: Parsers, fields: seq<string>, c: nat)
    requires |fields| == COLUMNS && c < COLUMNS
  {
    !Missing(p, fields, c) && p.numeric(fields[c]) in {Some(Finite(0.0)), Some(Finite(1.0))}
  }

  /** The row breaks the rule, judged on its own. */
  predicate Breaks(p: Parsers, fields: seq<string>, date: int, rule: RowRule) {
    if |fields| != COLUMNS then rule == ColumnCount else
    match rule
    case ColumnCount => false
    case TimestampParse => !Missing(p, fields, TIMESTAMP_COLUMN) && TimeOf(p, fields).None?
    case NumericParse =>
      || (!Missing(p, fields, INDEX_COLUMN) && IndexOf(p, fields).None?)
      || exists c :: FIRST_ANALOG <= c < COLUMNS && Unparseable(p, fields, c)
    case RequiredMissing => exists c :: 0 <= c < COLUMNS && Missing(p, fields, c)
    case AnalogNonfinite => exists c :: FIRST_ANALOG <= c < FIRST_DIGITAL && Infinite(p, fields, c)
    case DigitalDomain => exists c :: FIRST_DIGITAL <= c < COLUMNS && NotDigital(p, fields, c)
    case SourceDateMismatch => TimeOf(p, fields).Some? && DateOf(TimeOf(p, fields).value) != date
    case DuplicateRecordIndex => false
    case DuplicateTimestamp => false
  }

  function Filter(order: seq<RowRule>, reasons: set<RowRule>): seq<RowRule> {
    if order == [] then []
    else (if order[0] in reasons then [order[0]] else []) + Filter(order[1..], reasons)
  }

  function OrderedIssues(reasons: set<RowRule>): seq<RowRule> {
    Filter(ROW_RULE_ORDER, reasons)
  }

  /** Every column is present, parses, and lies in its domain, and the time falls on the expected date. */
  predicate PassesLocally(p: Parsers, fields: seq<string>, date: int) {
    && |fields| == COLUMNS
    && (forall c :: 0 <= c < COLUMNS ==> !Missing(p, fields, c))
    && IndexOf(p, fields).Some? && TimeOf(p, fields).Some? && DateOf(TimeOf(p, fields).value) == date
    && (forall c :: FIRST_ANALOG <= c < FIRST_DIGITAL ==> p.numeric(fields[c]).Some? && p.numeric(fields[c]).value.Finite?)
    && (forall c :: FIRST_DIGITAL <= c < COLUMNS ==> p.numeric(fields[c]) in {Some(Finite(0.0)), Some(Finite(1.0))})
  }

  function Analog(p: Parsers, fields: seq<string>, date: int, c: nat): real
    requires PassesLocally(p, fields, date) && FIRST_ANALOG <= c < FIRST_DIGITAL
  {
    p.numeric(fields[c]).value.value
  }

  predicate Digital(p: Parsers, fields: seq<string>, c: nat)
    requires |fields| == COLUMNS && FIRST_DIGITAL <= c < COLUMNS
  {
    p.numeric(fields[c]) == Some(Finite(1.0))
  }

  function Normalize(p: Parsers, fields: seq<string>, date: int): NormalizedRecord
    requires PassesLocally(p, fields, date)
  {
    NormalizedRecord(
      IndexOf(p, fields).value, TimeOf(p, fields).value,
      Analog(p, fields, date, 2), Analog(p, fields, date, 3), Analog(p, fields, date, 4), Analog(p, fields, date, 5),
      Analog(p, fields, date, 6), Analog(p, fields, date, 7), Analog(p, fields, date, 8),
      Digital(p, fields, 9), Digital(p, fields, 10), Digital(p, fields, 11), Digital(p, fields, 12),
      Digital(p, fields, 13), Digital(p, fields, 14), Digital(p, fields, 15), Digital(p, fields, 16),
      DateOf(TimeOf(p, fields).value))
  }

  /** The rules that the row breaks on its own. */
  function BrokenRules(p: Parsers, fields: seq<string>, date: int): set<RowRule> {
    set rule: RowRule | Breaks(p, fields, date, rule)
  }

  /** The row before the duplicate rules: its parsed parts, its issues, and its record when it has none. */
  function Validated(p: Parsers, record: SourceRecord, number: nat, date: int): Row {
    var fields := record.fields;
    var sized := |fields| == COLUMNS;
    Row(number, record,
        if sized then IndexOf(p, fields) else None,
        if sized then TimeOf(p, fields) else None,
        if PassesLocally(p, fields, date) then Some(Normalize(p, fields, date)) else None,
        OrderedIssues(BrokenRules(p, fields, date)))
  }

  lemma {:induction false} FilterHolds(order: seq<RowRule>, reasons: set<RowRule>)
    ensures forall rule :: rule in Filter(order, reasons) <==> rule in order && rule in reasons
  {
    if order != [] {
      FilterHolds(order[1..], reasons);
      assert order == [order[0]] + order[1..];
    }
  }

  lemma EveryRuleIsOrdered(rule: RowRule)
    ensures rule in ROW_RULE_ORDER
  {
    assert ROW_RULE_ORDER[0] == ColumnCount && ROW_RULE_ORDER[1] == TimestampParse && ROW_RULE_ORDER[2] == NumericParse;
    assert ROW_RULE_ORDER[3] == RequiredMissing && ROW_RULE_ORDER[4] == AnalogNonfinite && ROW_RULE_ORDER[5] == DigitalDomain;
    assert ROW_RULE_ORDER[6] == SourceDateMismatch && ROW_RULE_ORDER[7] == DuplicateRecordIndex;
    assert ROW_RULE_ORDER[8] == DuplicateTimestamp;
  }

  /** Listing a set of rules loses none of them. */
  lemma IssuesHold(reasons: set<RowRule>)
    ensures forall rule :: rule in OrderedIssues(reasons) <==> rule in reasons
    ensures OrderedIssues(reasons) == [] <==> reasons == {}
  {
    FilterHolds(ROW_RULE_ORDER, reasons);
    forall rule: RowRule ensures rule in ROW_RULE_ORDER {
      EveryRuleIsOrdered(rule);
    }
    var issues := OrderedIssues(reasons);
    if issues == [] {
      forall rule ensures rule !in reasons {
        assert rule !in issues;
      }
      assert reasons == {};
    } else {
      assert issues[0] in issues;
    }
  }

  lemma BrokenAre(p: Parsers, fields: seq<string>, date: int)
    ensures forall rule :: rule in BrokenRules(p, fields, date) <==> Breaks(p, fields, date, rule)
  {
    hide Breaks;
  }

  /** A row has no issue of its own exactly when it passes every local rule. */
  lemma IssueFreeWhen(p: Parsers, fields: seq<string>, date: int)
    ensures BrokenRules(p, fields, date) == {} <==> PassesLocally(p, fields, date)
  {
    hide ParseRecordIndex, ParseTimestamp, DateOf, BrokenRules;
    BrokenAre(p, fields, date);
    if PassesLocally(p, fields, date) {
      forall rule: RowRule ensures rule !in BrokenRules(p, fields, date) {
        BreaksNothing(p, fields, date, rule);
      }
    } else if BrokenRules(p, fields, date) == {} {
      forall rule: RowRule ensures !Breaks(p, fields, date, rule) {
        assert rule !in BrokenRules(p, fields, date);
      }
      NothingBroken(p, fields, date);
    }
  }

  lemma BreaksNothing(p: Parsers, fields: seq<string>, date: int, rule: RowRule)
    requires PassesLocally(p, fields, date)
    ensures !Breaks(p, fields, date, rule)
  {
  }

  lemma NothingBroken(p: Parsers, fields: seq<string>, date: int)
    requires forall rule: RowRule :: !Breaks(p, fields, date, rule)
    ensures PassesLocally(p, fields, date)
  {
    hide ParseRecordIndex, ParseTimestamp, DateOf;
    assert !Breaks(p, fields, date, ColumnCount) && !Breaks(p, fields, date, RequiredMissing);
    assert !Breaks(p, fields, date, TimestampParse) && !Breaks(p, fields, date, SourceDateMismatch);
    assert !Breaks(p, fields, date, NumericParse);
    forall c | FIRST_ANALOG <= c < FIRST_DIGITAL ensures p.numeric(fields[c]).Some? && p.numeric(fields[c]).value.Finite? {
      assert !Unparseable(p, fields, c);
      assert !Breaks(p, fields, date, AnalogNonfinite);
      assert !Infinite(p, fields, c);
    }
    forall c | FIRST_DIGITAL <= c < COLUMNS ensures p.numeric(fields[c]) in {Some(Finite(0.0)), Some(Finite(1.0))} {
      assert !Unparseable(p, fields, c);
      assert !Breaks(p, fields, date, DigitalDomain);
      assert !NotDigital(p, fields, c);
    }
  }

  /** A row lists exactly the rules it breaks, and carries a record exactly when it lists none. */
  lemma ListedIssues(p: Parsers, record: SourceRecord, number: nat, date: int)
    ensures var row := Validated(p, record, number, date);
            && (forall rule :: rule in row.issues <==> Breaks(p, record.fields, date, rule))
            && (row.normalized.Some? <==> row.issues == [])
  {
    hide Breaks, BrokenRules, PassesLocally, OrderedIssues;
    BrokenAre(p, record.fields, date);
    IssuesHold(BrokenRules(p, record.fields, date));
    IssueFreeWhen(p, record.fields, date);
  }

  // ---------------------------------------------------------------- validating one row

  method ParseAnalog(p: Parsers, fields: seq<string>) returns (values: map<nat, Numeric>, failed: bool, infinite: bool)
    requires |fields| == COLUMNS
    ensures failed <==> exists c :: FIRST_ANALOG <= c < FIRST_DIGITAL && Unparseable(p, fields, c)
    ensures infinite <==> exists c :: FIRST_ANALOG <= c < FIRST_DIGITAL && Infinite(p, fields, c)
    ensures forall c :: FIRST_ANALOG <= c < FIRST_DIGITAL && !Missing(p, fields, c) && p.numeric(fields[c]).Some? ==>
              c in values && values[c] == p.numeric(fields[c]).value
  {
    values, failed, infinite := map[], false, false;
    for column := FIRST_ANALOG to FIRST_DIGITAL
      invariant failed <==> exists c :: FIRST_ANALOG <= c < column && Unparseable(p, fields, c)
      invariant infinite <==> exists c :: FIRST_ANALOG <= c < column && Infinite(p, fields, c)
      invariant forall c :: FIRST_ANALOG <= c < column && !Missing(p, fields, c) && p.numeric(fields[c]).Some? ==>
                  c in values && values[c] == p.numeric(fields[c]).value
    {
      assert Missing(p, fields, column) ==> !Unparseable(p, fields, column) && !Infinite(p, fields, column);
      if p.blank(fields[column]) {
        continue;
      }
      var value := p.numeric(fields[column]);
      if value.None? {
        assert Unparseable(p, fields, column);
        failed := true;
        continue;
      }
      values := values[column := value.value];
      if value.value.NonFinite? {
        assert Infinite(p, fields, column);
        infinite := true;
      }
    }
  }

  method ParseDigital(p: Parsers, fields: seq<string>) returns (values: map<nat, bool>, failed: bool, outside: bool)
    requires |fields| == COLUMNS
    ensures failed <==> exists c :: FIRST_DIGITAL <= c < COLUMNS && Unparseable(p, fields, c)
    ensures outside <==> exists c :: FIRST_DIGITAL <= c < COLUMNS && NotDigital(p, fields, c)
    ensures forall c :: (FIRST_DIGITAL <= c < COLUMNS && IsDigit(p, fields, c)) ==>
              c in values && values[c] == Digital(p, fields, c)
  {
    values, failed, outside := map[], false, false;
    for column := FIRST_DIGITAL to COLUMNS
      invariant failed <==> exists c :: FIRST_DIGITAL <= c < column && Unparseable(p, fields, c)
      invariant outside <==> exists c :: FIRST_DIGITAL <= c < column && NotDigital(p, fields, c)
      invariant forall c :: (FIRST_DIGITAL <= c < column && IsDigit(p, fields, c)) ==>
                  c in values && values[c] == Digital(p, fields, c)
    {
      assert Missing(p, fields, column) ==> !Unparseable(p, fields, column) && !NotDigital(p, fields, column);
      if p.blank(fields[column]) {
        continue;
      }
      var value := p.numeric(fields[column]);
      if value.None? {
        assert Unparseable(p, fields, column);
        failed := true;
        continue;
      }
      if value.value.NonFinite? || value.value !in {Finite(0.0), Finite(1.0)} {
        assert NotDigital(p, fields, column);
        outside := true;
        continue;
      }
      values := values[column := value.value == Finite(1.0)];
    }
  }

  function When(condition: bool, rule: RowRule): set<RowRule> {
    if condition then {rule} else {}
  }

  /** The reasons collected for a row of the right width are the rules it breaks. */
  lemma CollectedReasons(p: Parsers, fields: seq<string>, date: int)
    requires |fields| == COLUMNS
    ensures BrokenRules(p, fields, date) ==
            When(Breaks(p, fields, date, RequiredMissing), RequiredMissing)
            + When(Breaks(p, fields, date, TimestampParse), TimestampParse)
            + When(Breaks(p, fields, date, NumericParse), NumericParse)
            + When(Breaks(p, fields, date, AnalogNonfinite), AnalogNonfinite)
            + When(Breaks(p, fields, date, DigitalDomain), DigitalDomain)
            + When(Breaks(p, fields, date, SourceDateMismatch), SourceDateMismatch)
  {
    hide BrokenRules, Breaks;
    BrokenAre(p, fields, date);
    NeverLocal(p, fields, date);
    var collected :=
      When(Breaks(p, fields, date, RequiredMissing), RequiredMissing)
      + When(Breaks(p, fields, date, TimestampParse), TimestampParse)
      + When(Breaks(p, fields, date, NumericParse), NumericParse)
      + When(Breaks(p, fields, date, AnalogNonfinite), AnalogNonfinite)
      + When(Breaks(p, fields, date, DigitalDomain), DigitalDomain)
      + When(Breaks(p, fields, date, SourceDateMismatch), SourceDateMismatch);
    forall rule ensures rule in BrokenRules(p, fields, date) <==> rule in collected {
      EveryRuleIsOrdered(rule);
    }
  }

  lemma NeverLocal(p: Parsers, fields: seq<string>, date: int)
    requires |fields| == COLUMNS
    ensures !Breaks(p, fields, date, ColumnCount) && !Breaks(p, fields, date, DuplicateRecordIndex)
    ensures !Breaks(p, fields, date, DuplicateTimestamp)
  {
  }

  /** A row of the wrong width has that one issue. */
  lemma OnlyColumnCount(p: Parsers, fields: seq<string>, date: int)
    requires |fields| != COLUMNS
    ensures OrderedIssues(BrokenRules(p, fields, date)) == [ColumnCount]
  {
    var broken, rest := BrokenRules(p, fields, date), ROW_RULE_ORDER[1..];
    BrokenAre(p, fields, date);
    assert broken == {ColumnCount};
    NoneListed(rest, broken);
    assert Filter(ROW_RULE_ORDER, broken) == [ColumnCount] + Filter(rest, broken);
  }

  lemma {:induction false} NoneListed(order: seq<RowRule>, reasons: set<RowRule>)
    requires forall rule :: rule in order ==> rule !in reasons
    ensures Filter(order, reasons) == []
  {
    if order != [] {
      NoneListed(order[1..], reasons);
    }
  }

  method ReadIndex(p: Parsers, fields: seq<string>) returns (index: Option<int>, failed: bool)
    requires |fields| == COLUMNS
    ensures index == IndexOf(p, fields) && failed == (!Missing(p, fields, INDEX_COLUMN) && index.None?)
  {
    index, failed := None, false;
    if !p.blank(fields[INDEX_COLUMN]) {
      index := ParseRecordIndex(p, fields[INDEX_COLUMN]);
      failed := index.None?;
    }
  }

  method ReadTime(p: Parsers, fields: seq<string>) returns (time: Option<int>, failed: bool)
    requires |fields| == COLUMNS
    ensures time == TimeOf(p, fields) && failed == (!Missing(p, fields, TIMESTAMP_COLUMN) && time.None?)
  {
    time, failed := None, false;
    if !p.blank(fields[TIMESTAMP_COLUMN]) {
      time := ParseTimestamp(p, fields[TIMESTAMP_COLUMN]);
      failed := time.None?;
    }
  }

  /** In a row that passes, every signal column was kept. */
  lemma EverySignalIsRead(p: Parsers, fields: seq<string>, date: int, analog: map<nat, Numeric>, digital: map<nat, bool>)
    requires PassesLocally(p, fields, date)
    requires forall c :: FIRST_ANALOG <= c < FIRST_DIGITAL && !Missing(p, fields, c) && p.numeric(fields[c]).Some? ==>
               c in analog && analog[c] == p.numeric(fields[c]).value
    requires forall c :: (FIRST_DIGITAL <= c < COLUMNS && IsDigit(p, fields, c)) ==>
               c in digital && digital[c] == Digital(p, fields, c)
    ensures IndexOf(p, fields).Some? && TimeOf(p, fields).Some?
    ensures forall c :: FIRST_ANALOG <= c < FIRST_DIGITAL ==> c in analog && analog[c] == Finite(Analog(p, fields, date, c))
    ensures forall c :: FIRST_DIGITAL <= c < COLUMNS ==> c in digital && digital[c] == Digital(p, fields, c)
  {
    hide IndexOf, TimeOf, DateOf;
    forall c | FIRST_ANALOG <= c < FIRST_DIGITAL ensures c in analog && analog[c] == Finite(Analog(p, fields, date, c)) {
      assert !Missing(p, fields, c);
    }
    forall c | FIRST_DIGITAL <= c < COLUMNS ensures c in digital && digital[c] == Digital(p, fields, c) {
      assert !Missing(p, fields, c);
    }
  }

  method ValidateSourceRow(p: Parsers, record: SourceRecord, number: nat, date: int) returns (row: Row)
    ensures row == Validated(p, record, number, date)
  {
    hide IndexOf, TimeOf, BrokenRules, OrderedIssues, Missing, DateOf, Unparseable, Infinite, NotDigital;
    var fields := record.fields;
    if |fields| != COLUMNS {
      OnlyColumnCount(p, fields, date);
      return Row(number, record, None, None, None, [ColumnCount]);
    }
    var index, time, analog, digital, reasons := CollectReasons(p, fields, date);
    var issues := OrderedIssues(reasons);
    IssuesHold(reasons);
    IssueFreeWhen(p, fields, date);
    var normalized: Option<NormalizedRecord> := None;
    if issues == [] {
      EverySignalIsRead(p, fields, date, analog, digital);
      hide PassesLocally, IsDigit, Digital, Analog;
      normalized := Some(NormalizedRecord(
        index.value, time.value,
        analog[2].value, analog[3].value, analog[4].value, analog[5].value, analog[6].value, analog[7].value, analog[8].value,
        digital[9], digital[10], digital[11], digital[12], digital[13], digital[14], digital[15], digital[16],
        DateOf(time.value)));
    }
    row := Row(number, record, index, time, normalized, issues);
  }

  method CollectReasons(p: Parsers, fields: seq<string>, date: int)
    returns (index: Option<int>, time: Option<int>, analog: map<nat, Numeric>, digital: map<nat, bool>, reasons: set<RowRule>)
    requires |fields| == COLUMNS
    ensures index == IndexOf(p, fields) && time == TimeOf(p, fields)
    ensures reasons == BrokenRules(p, fields, date)
    ensures forall c :: FIRST_ANALOG <= c < FIRST_DIGITAL && !Missing(p, fields, c) && p.numeric(fields[c]).Some? ==>
              c in analog && analog[c] == p.numeric(fields[c]).value
    ensures forall c :: (FIRST_DIGITAL <= c < COLUMNS && IsDigit(p, fields, c)) ==>
              c in digital && digital[c] == Digital(p, fields, c)
  {
    hide IndexOf, TimeOf, DateOf, Missing, IsDigit, Unparseable, Infinite, NotDigital, Digital, BrokenRules, Breaks;
    reasons := {};
    if exists c :: 0 <= c < COLUMNS && p.blank(fields[c]) {
      reasons := reasons + {RequiredMissing};
    }
    var numericFailed, timeFailed;
    index, numericFailed := ReadIndex(p, fields);
    time, timeFailed := ReadTime(p, fields);
    if timeFailed {
      reasons := reasons + {TimestampParse};
    }
    var analogFailed, infinite, digitalFailed, outside;
    analog, analogFailed, infinite := ParseAnalog(p, fields);
    digital, digitalFailed, outside := ParseDigital(p, fields);
    NumericFailures(p, fields, date, analogFailed, digitalFailed);
    SignalFailures(p, fields, date, infinite, outside);
    if numericFailed || analogFailed || digitalFailed {
      reasons := reasons + {NumericParse};
    }
    if infinite {
      reasons := reasons + {AnalogNonfinite};
    }
    if outside {
      reasons := reasons + {DigitalDomain};
    }
    if time.Some? && DateOf(time.value) != date {
      reasons := reasons + {SourceDateMismatch};
    }
    MissingAndTime(p, fields, date);
    CollectedReasons(p, fields, date);
  }

  lemma NumericFailures(p: Parsers, fields: seq<string>, date: int, analog: bool, digital: bool)
    requires |fields| == COLUMNS
    requires analog <==> exists c :: FIRST_ANALOG <= c < FIRST_DIGITAL && Unparseable(p, fields, c)
    requires digital <==> exists c :: FIRST_DIGITAL <= c < COLUMNS && Unparseable(p, fields, c)
    ensures Breaks(p, fields, date, NumericParse)
       <==> (!Missing(p, fields, INDEX_COLUMN) && IndexOf(p, fields).None?) || analog || digital
  {
    hide Unparseable, IndexOf;
  }

  lemma SignalFailures(p: Parsers, fields: seq<string>, date: int, infinite: bool, outside: bool)
    requires |fields| == COLUMNS
    requires infinite <==> exists c :: FIRST_ANALOG <= c < FIRST_DIGITAL && Infinite(p, fields, c)
    requires outside <==> exists c :: FIRST_DIGITAL <= c < COLUMNS && NotDigital(p, fields, c)
    ensures Breaks(p, fields, date, AnalogNonfinite) == infinite && Breaks(p, fields, date, DigitalDomain) == outside
  {
    hide Infinite, NotDigital;
  }

  lemma MissingAndTime(p: Parsers, fields: seq<string>, date: int)
    requires |fields| == COLUMNS
    ensures Breaks(p, fields, date, RequiredMissing) <==> exists c :: 0 <= c < COLUMNS && p.blank(fields[c])
    ensures Breaks(p, fields, date, TimestampParse) <==> !Missing(p, fields, TIMESTAMP_COLUMN) && TimeOf(p, fields).None?
    ensures Breaks(p, fields, date, SourceDateMismatch) <==>
            TimeOf(p, fields).Some? && DateOf(TimeOf(p, fields).value) != date
  {
    hide DateOf, TimeOf;
    forall c | 0 <= c < COLUMNS ensures Missing(p, fields, c) == p.blank(fields[c]) {
    }
  }
}
