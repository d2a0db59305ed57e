/** The splitter: one pass over the routed records, one partition open at a time. */
module Splitter {
  import opened Options
  import opened Intervals
  import opened RowValidation
  import opened SourceStream

  /** A maximal run of consecutive records of one date. */
  datatype Run = Run(date: int, texts: seq<string>)

  datatype Partition = Partition(date: int, body: string, rows: nat)

  datatype Dates = Dates(start: Option<int>, end: Option<int>)

  datatype SplitError =
    | EmptyPipelineVersion | ReversedDates | InvalidProcessingTimestamp | Stream(cause: StreamError) | NoRows | Regression(date: int, after: int)

  /** The partitions handed to publication, in order, and the error that ended the run. */
  datatype SplitResult = SplitResult(published: seq<Partition>, error: Option<SplitError>)

  predicate Selected(dates: Dates, date: int) {
    (dates.start.None? || date >= dates.start.value) && (dates.end.None? || date <= dates.end.value)
  }

  function Runs(items: seq<Item>): seq<Run>
    decreases |items|
  {
    if items == [] then [] else
    var n := |items| - 1;
    AddToRuns(Runs(items[..n]), items[n])
  }

  function AddToRuns(runs: seq<Run>, item: Item): (more: seq<Run>)
    ensures more != []
  {
    var n := |runs| - 1;
    if runs != [] && runs[n].date == item.date then runs[..n] + [Run(item.date, runs[n].texts + [item.text])]
    else runs + [Run(item.date, [item.text])]
  }

  function PartitionOf(header: string, run: Run): Partition {
    Partition(run.date, header + Flatten(run.texts), |run.texts|)
  }

  function Published(header: string, runs: seq<Run>, dates: Dates): seq<Partition>
    decreases |runs|
  {
    if runs == [] then [] else
    var n := |runs| - 1;
    var before := Published(header, runs[..n], dates);
    if Selected(dates, runs[n].date) then before + [PartitionOf(header, runs[n])] else before
  }

  /** The first run whose date is before that of the run it follows. */
  function FirstRegression(runs: seq<Run>, from: nat): (found: Option<nat>)
    requires from >= 1
    ensures found.Some? ==> from <= found.value < |runs|
    decreases |runs| - from
  {
    if from >= |runs| then None
    else if runs[from].date < runs[from - 1].date then Some(from)
    else FirstRegression(runs, from + 1)
  }

  function AllButLast<T>(items: seq<T>): seq<T> {
    if items == [] then [] else items[..|items| - 1]
  }

  /** What splitting a reading publishes and how it ends. */
  function Split(header: string, reading: Reading, dates: Dates): SplitResult {
    var runs := Runs(reading.items);
    match FirstRegression(runs, 1)
    case Some(k) => SplitResult(Published(header, runs[..k], dates), Some(Regression(runs[k].date, runs[k - 1].date)))
    case None =>
      if reading.failure.Some? then SplitResult(Published(header, AllButLast(runs), dates), Some(Stream(reading.failure.value)))
      else if reading.items == [] then SplitResult([], Some(NoRows))
      else SplitResult(Published(header, runs, dates), None)
  }

  // ---------------------------------------------------------------- facts about runs

  ghost predicate DatesIncrease(runs: seq<Run>) {
    forall k :: 1 <= k < |runs| ==> runs[k - 1].date < runs[k].date
  }

  lemma {:induction false} RegressionIsFirst(runs: seq<Run>, from: nat)
    requires from >= 1
    ensures var found := FirstRegression(runs, from);
            && (found.Some? ==> from <= found.value < |runs| && runs[found.value].date < runs[found.value - 1].date
                                && forall k :: from <= k < found.value ==> runs[k - 1].date <= runs[k].date)
            && (found.None? ==> forall k :: from <= k < |runs| ==> runs[k - 1].date <= runs[k].date)
    decreases |runs| - from
  {
    if from < |runs| && runs[from].date >= runs[from - 1].date {
      RegressionIsFirst(runs, from + 1);
    }
  }

  /** Adding a record keeps the dates of the runs before it and all but the last run's texts. */
  lemma AddedRun(runs: seq<Run>, item: Item)
    ensures var more := AddToRuns(runs, item);
            && |runs| <= |more| <= |runs| + 1
            && (forall k :: 0 <= k < |runs| ==> more[k].date == runs[k].date)
            && (forall k :: 0 <= k < |more| - 1 ==> more[k] == runs[k])
            && more[|more| - 1].date == item.date
            && (|more| == |runs| <==> runs != [] && runs[|runs| - 1].date == item.date)
            && more[|more| - 1].texts == (if |more| == |runs| then runs[|runs| - 1].texts else []) + [item.text]
  {
  }

  lemma NextRuns(seen: seq<Item>, item: Item)
    ensures Runs(seen + [item]) == AddToRuns(Runs(seen), item)
  {
    hide AddToRuns;
    assert (seen + [item])[..|seen|] == seen;
  }

  lemma NewRun(runs: seq<Run>, item: Item)
    requires runs != [] ==> runs[|runs| - 1].date != item.date
    ensures AddToRuns(runs, item) == runs + [Run(item.date, [item.text])]
  {
  }

  predicate Maximal(runs: seq<Run>) {
    && (forall k :: 1 <= k < |runs| ==> runs[k - 1].date != runs[k].date)
    && (forall k :: 0 <= k < |runs| ==> runs[k].texts != [])
  }

  /** Neighbouring runs differ in date, and a run is never empty. */
  lemma {:induction false} RunsAreMaximal(items: seq<Item>)
    ensures Maximal(Runs(items))
    ensures items != [] ==> Runs(items) != [] && Runs(items)[|Runs(items)| - 1].date == items[|items| - 1].date
    decreases |items|
  {
    hide AddToRuns;
    if items != [] {
      RunsAreMaximal(items[..|items| - 1]);
      AddedRun(Runs(items[..|items| - 1]), items[|items| - 1]);
    }
  }

  /** Reading on leaves finished runs alone and only extends the last one. */
  lemma {:induction false} RunsGrow(seen: seq<Item>, rest: seq<Item>)
    requires seen != []
    ensures var before, after := Runs(seen), Runs(seen + rest);
            && 1 <= |before| <= |after| && AllButLast(before) == after[..|before| - 1]
            && before[|before| - 1].date == after[|before| - 1].date
    decreases |rest|
  {
    if rest == [] {
      assert seen + rest == seen;
    } else {
      var n := |rest| - 1;
      RunsGrow(seen, rest[..n]);
      assert (seen + rest)[..|seen + rest| - 1] == seen + rest[..n];
    }
  }

  /** A record that goes back in time ends the run list that the records before it form. */
  lemma RegressionFound(seen: seq<Item>, item: Item, rest: seq<Item>)
    requires seen != [] && DatesIncrease(Runs(seen)) && item.date < Runs(seen)[|Runs(seen)| - 1].date
    ensures var runs, all := Runs(seen), Runs(seen + ([item] + rest));
            && FirstRegression(all, 1) == Some(|runs|) && |runs| < |all|
            && all[..|runs|] == runs && all[|runs|].date == item.date
  {
    hide Runs, AddToRuns, Maximal;
    RunsAreMaximal(seen);
    var runs := Runs(seen);
    var more := seen + [item];
    NextRuns(seen, item);
    NewRun(runs, item);
    RunsGrow(more, rest);
    assert seen + ([item] + rest) == more + rest;
    var all := Runs(more + rest);
    assert all[..|runs|] == runs;
    assert forall k :: 0 <= k < |runs| ==> all[k] == all[..|runs|][k];
    RegressionIsFirst(all, 1);
  }

  lemma NoRegression(items: seq<Item>)
    requires DatesIncrease(Runs(items))
    ensures FirstRegression(Runs(items), 1) == None
  {
    RegressionIsFirst(Runs(items), 1);
  }

  // ---------------------------------------------------------------- the splitter

  /** The splitter's variables agree with the runs of the records seen. */
  ghost predicate Tracks(header: string, dates: Dates, seen: seq<Item>, current: Option<int>, rows: nat, open: Option<string>,
                         closed: set<int>, published: seq<Partition>)
  {
    var runs := Runs(seen);
    && published == Published(header, AllButLast(runs), dates)
    && DatesIncrease(runs)
    && (forall d :: d in closed ==> runs != [] && d < runs[|runs| - 1].date)
    && if seen == [] then current == None && open == None && rows == 0
       else
         && runs != []
         && var last := runs[|runs| - 1];
            && current == Some(last.date) && rows == |last.texts|
            && open == if Selected(dates, last.date) then Some(header + Flatten(last.texts)) else None
  }

  lemma NothingSeen(header: string, dates: Dates)
    ensures Tracks(header, dates, [], None, 0, None, {}, [])
  {
  }

  /** What is known of the variables without looking at the runs. */
  lemma CurrentRun(header: string, dates: Dates, seen: seq<Item>, current: Option<int>, rows: nat, open: Option<string>,
                   closed: set<int>, published: seq<Partition>)
    requires Tracks(header, dates, seen, current, rows, open, closed, published)
    ensures DatesIncrease(Runs(seen)) && (seen == [] <==> current == None) && (seen == [] ==> published == [])
    ensures seen == [] ==> forall d :: d !in closed
    ensures current.Some? ==>
              && Runs(seen) != [] && current.value == Runs(seen)[|Runs(seen)| - 1].date
              && forall d :: d in closed ==> d < current.value
  {
  }

  /** Closing the open partition publishes the last run, if it is selected. */
  lemma Closes(header: string, dates: Dates, seen: seq<Item>, current: Option<int>, rows: nat, open: Option<string>,
               closed: set<int>, published: seq<Partition>)
    requires Tracks(header, dates, seen, current, rows, open, closed, published) && seen != []
    ensures Published(header, Runs(seen), dates)
         == if open.Some? then published + [Partition(current.value, open.value, rows)] else published
  {
  }

  /** A new partition opens after the last run is closed. */
  lemma Opens(header: string, dates: Dates, seen: seq<Item>, item: Item, closed: set<int>)
    requires DatesIncrease(Runs(seen)) && (forall d :: d in closed ==> d < item.date)
    requires Runs(seen) != [] ==> Runs(seen)[|Runs(seen)| - 1].date < item.date
    ensures Tracks(header, dates, seen + [item], Some(item.date), 1,
                   if Selected(dates, item.date) then Some(header + item.text) else None,
                   closed, Published(header, Runs(seen), dates))
  {
    hide Published, Runs, AddToRuns, Selected;
    var runs := Runs(seen);
    NextRuns(seen, item);
    NewRun(runs, item);
    assert AllButLast(runs + [Run(item.date, [item.text])]) == runs;
    assert Flatten([item.text]) == item.text + Flatten([]) == item.text;
  }

  /** A record of the open partition's date is appended to it. */
  lemma Continues(header: string, dates: Dates, seen: seq<Item>, item: Item, current: Option<int>, rows: nat,
                  open: Option<string>, closed: set<int>, published: seq<Partition>)
    requires Tracks(header, dates, seen, current, rows, open, closed, published) && current == Some(item.date)
    ensures Tracks(header, dates, seen + [item], current, rows + 1,
                   if open.Some? then Some(open.value + item.text) else None, closed, published)
  {
    hide Published, Selected, AddToRuns, Runs;
    NextRuns(seen, item);
    var runs := Runs(seen);
    var n := |runs| - 1;
    var texts := runs[n].texts;
    AddedRun(runs, item);
    FlattenAppends(texts, item.text);
    assert header + (Flatten(texts) + item.text) == header + Flatten(texts) + item.text;
    SameBeforeLast(runs, AddToRuns(runs, item));
  }

  lemma SameBeforeLast(runs: seq<Run>, more: seq<Run>)
    requires |runs| == |more| >= 1 && forall k :: 0 <= k < |more| - 1 ==> more[k] == runs[k]
    requires more[|more| - 1].date == runs[|runs| - 1].date
    ensures AllButLast(more) == AllButLast(runs) && (DatesIncrease(runs) ==> DatesIncrease(more))
  {
  }

  /** Reading ends without a regression. */
  lemma Ends(header: string, dates: Dates, seen: seq<Item>, failure: Option<StreamError>)
    requires DatesIncrease(Runs(seen))
    ensures Split(header, Reading(seen, failure), dates)
         == if failure.Some? then SplitResult(Published(header, AllButLast(Runs(seen)), dates), Some(Stream(failure.value)))
            else if seen == [] then SplitResult([], Some(NoRows))
            else SplitResult(Published(header, Runs(seen), dates), None)
  {
    NoRegression(seen);
  }

  lemma GoesBack(header: string, dates: Dates, seen: seq<Item>, item: Item, later: seq<Item>, failure: Option<StreamError>)
    requires seen != [] && DatesIncrease(Runs(seen)) && Runs(seen) != []
    requires item.date < Runs(seen)[|Runs(seen)| - 1].date
    ensures Split(header, Reading(seen + ([item] + later), failure), dates)
         == SplitResult(Published(header, Runs(seen), dates),
                        Some(Regression(item.date, Runs(seen)[|Runs(seen)| - 1].date)))
  {
    hide Published, Runs;
    RegressionFound(seen, item, later);
    var runs, all := Runs(seen), Runs(seen + ([item] + later));
    assert all[|runs| - 1] == all[..|runs|][|runs| - 1];
  }

  lemma BeforeLast(header: string, dates: Dates, seen: seq<Item>, current: Option<int>, rows: nat, open: Option<string>,
                   closed: set<int>, published: seq<Partition>)
    requires Tracks(header, dates, seen, current, rows, open, closed, published)
    ensures published == Published(header, AllButLast(Runs(seen)), dates)
  {
  }

  /** The processing timestamp comes as parsed, or as None when it does not parse. */
  method RunBackfill(source: TrackingLines, lexer: Lexer, p: Parsers, pipelineVersion: string,
                     processingTimestamp: Option<int>, dates: Dates)
    returns (result: SplitResult)
    requires source.consumed == []
    modifies source
    ensures result ==
            if p.blank(pipelineVersion) then SplitResult([], Some(EmptyPipelineVersion))
            else if dates.start.Some? && dates.end.Some? && dates.start.value > dates.end.value
            then SplitResult([], Some(ReversedDates))
            else if processingTimestamp.None? then SplitResult([], Some(InvalidProcessingTimestamp))
            else if HeaderOf(lexer, old(source.remaining)).Failure?
            then SplitResult([], Some(Stream(HeaderOf(lexer, old(source.remaining)).error)))
            else Split(HeaderOf(lexer, old(source.remaining)).value,
                       ReadAll(lexer, p, BodyOf(lexer, old(source.remaining))), dates)
  {
    hide HeaderOf, BodyOf, ReadAll, Split;
    if p.blank(pipelineVersion) {
      return SplitResult([], Some(EmptyPipelineVersion));
    }
    if dates.start.Some? && dates.end.Some? && dates.start.value > dates.end.value {
      return SplitResult([], Some(ReversedDates));
    }
    if processingTimestamp.None? {
      return SplitResult([], Some(InvalidProcessingTimestamp));
    }
    var header := source.OpenSourceStream(lexer);
    if header.Failure? {
      return SplitResult([], Some(Stream(header.error)));
    }
    HeaderNeedsText(lexer, old(source.remaining));
    result := SplitRecords(source, lexer, p, header.value, dates);
  }

  lemma HeaderNeedsText(lexer: Lexer, lines: seq<string>)
    requires HeaderOf(lexer, lines).Success?
    ensures lines != [] && lexer(lines).Record?
  {
  }

  method SplitRecords(source: TrackingLines, lexer: Lexer, p: Parsers, header: string, dates: Dates)
    returns (result: SplitResult)
    requires source.consumed == []
    modifies source
    ensures result == Split(header, ReadAll(lexer, p, old(source.remaining)), dates)
  {
    hide Runs, Published, ReadAll, Tracks, Split, DatesIncrease;
    ghost var reading := ReadAll(lexer, p, source.remaining);
    ghost var seen: seq<Item> := [];
    var current: Option<int>, rows: nat, open: Option<string> := None, 0, None;
    var closed: set<int>, published: seq<Partition> := {}, [];
    NothingSeen(header, dates);
    while true
      invariant source.consumed == []
      invariant var rest := ReadAll(lexer, p, source.remaining);
                reading == Reading(seen + rest.items, rest.failure)
      invariant Tracks(header, dates, seen, current, rows, open, closed, published)
      decreases |source.remaining|
    {
      CurrentRun(header, dates, seen, current, rows, open, closed, published);
      var record := source.NextRecord(lexer, p);
      if record.Failure? {
        assert seen + [] == seen;
        Ends(header, dates, seen, Some(record.error));
        BeforeLast(header, dates, seen, current, rows, open, closed, published);
        return SplitResult(published, Some(Stream(record.error)));
      }
      if record.value.None? {
        assert seen + [] == seen;
        Ends(header, dates, seen, None);
        if current.None? {
          return SplitResult([], Some(NoRows));
        }
        Closes(header, dates, seen, current, rows, open, closed, published);
        published := if open.Some? then published + [Partition(current.value, open.value, rows)] else published;
        return SplitResult(published, None);
      }
      var item := record.value.value;
      ghost var later := ReadAll(lexer, p, source.remaining).items;
      assert seen + ([item] + later) == (seen + [item]) + later;
      if current.Some? && item.date == current.value {
        Continues(header, dates, seen, item, current, rows, open, closed, published);
        rows := rows + 1;
        open := if open.Some? then Some(open.value + item.text) else None;
      } else {
        if current.Some? {
          Closes(header, dates, seen, current, rows, open, closed, published);
          published := if open.Some? then published + [Partition(current.value, open.value, rows)] else published;
          closed := closed + {current.value};
          if item.date in closed || item.date < current.value {
            GoesBack(header, dates, seen, item, later, reading.failure);
            return SplitResult(published, Some(Regression(item.date, current.value)));
          }
        } else {
          NothingPublished(header, dates);
        }
        Opens(header, dates, seen, item, closed);
        current, rows := Some(item.date), 1;
        open := if Selected(dates, item.date) then Some(header + item.text) else None;
      }
      seen := seen + [item];
    }
  }

  lemma NothingPublished(header: string, dates: Dates)
    ensures Runs([]) == [] && Published(header, [], dates) == []
  {
  }

  // ---------------------------------------------------------------- theorems

  function BodiesOf(runs: seq<Run>): seq<string> {
    if runs == [] then [] else BodiesOf(runs[..|runs| - 1]) + [Flatten(runs[|runs| - 1].texts)]
  }

  /** The runs hold every record's text, in order. */
  lemma {:induction false} RunsAreLossless(items: seq<Item>)
    ensures Flatten(BodiesOf(Runs(items))) == Flatten(Texts(items))
    decreases |items|
  {
    if items == [] {
      assert Texts(items) == [];
    } else {
      hide BodiesOf, AddToRuns, Flatten, Texts;
      var n := |items| - 1;
      var runs, item := Runs(items[..n]), items[n];
      RunsAreLossless(items[..n]);
      TextsGrow(items);
      FlattenAppends(Texts(items[..n]), item.text);
      BodyGrows(runs, item);
    }
  }

  lemma TextsGrow(items: seq<Item>)
    requires items != []
    ensures Texts(items) == Texts(items[..|items| - 1]) + [items[|items| - 1].text]
  {
  }

  lemma BodyGrows(runs: seq<Run>, item: Item)
    ensures Flatten(BodiesOf(AddToRuns(runs, item))) == Flatten(BodiesOf(runs)) + item.text
  {
    var n := |runs| - 1;
    var more := AddToRuns(runs, item);
    if runs != [] && runs[n].date == item.date {
      var before := BodiesOf(runs[..n]);
      assert more[..|more| - 1] == runs[..n];
      FlattenAppends(runs[n].texts, item.text);
      FlattenAppends(before, Flatten(runs[n].texts));
      FlattenAppends(before, Flatten(runs[n].texts) + item.text);
      assert Flatten(before) + (Flatten(runs[n].texts) + item.text) == (Flatten(before) + Flatten(runs[n].texts)) + item.text;
    } else {
      assert more[..|more| - 1] == runs;
      assert Flatten([item.text]) == item.text + Flatten([]) == item.text;
      FlattenAppends(BodiesOf(runs), item.text);
    }
  }

  /** The bodies of the published partitions, with the header line of each taken off again. */
  function Contents(header: string, partitions: seq<Partition>): seq<string>
    requires forall i :: 0 <= i < |partitions| ==> header <= partitions[i].body
  {
    seq(|partitions|, i requires 0 <= i < |partitions| => partitions[i].body[|header|..])
  }

  lemma {:induction false} EverythingSelected(header: string, runs: seq<Run>)
    ensures var all := Published(header, runs, Dates(None, None));
            && |all| == |runs| && (forall i :: 0 <= i < |all| ==> header <= all[i].body && all[i] == PartitionOf(header, runs[i]))
            && Contents(header, all) == BodiesOf(runs)
    decreases |runs|
  {
    if runs != [] {
      EverythingSelected(header, runs[..|runs| - 1]);
    }
  }

  /**
   * Without date bounds, a run that ends without an error has split the source without loss: the partitions'
   * contents, one after another, are the lines after the header, and their dates strictly increase.
   */
  lemma SplittingIsLossless(header: string, lexer: Lexer, p: Parsers, lines: seq<string>)
    requires Split(header, ReadAll(lexer, p, lines), Dates(None, None)).error == None
    ensures var published := Split(header, ReadAll(lexer, p, lines), Dates(None, None)).published;
            && (forall i :: 0 <= i < |published| ==> header <= published[i].body)
            && Flatten(Contents(header, published)) == Flatten(lines)
            && (forall i, j :: 0 <= i < j < |published| ==> published[i].date < published[j].date)
  {
    hide ReadAll, Published, BodiesOf;
    var reading := ReadAll(lexer, p, lines);
    var runs := Runs(reading.items);
    RegressionIsFirst(runs, 1);
    ReadingIsLossless(lexer, p, lines);
    RunsAreLossless(reading.items);
    EverythingSelected(header, runs);
    RunsAreMaximal(reading.items);
    StepsIncrease(runs);
  }

  lemma {:induction false} StepsIncrease(runs: seq<Run>)
    requires DatesIncrease(runs)
    ensures forall i, j :: 0 <= i < j < |runs| ==> runs[i].date < runs[j].date
    decreases |runs|
  {
    if runs != [] {
      var n := |runs| - 1;
      StepsIncrease(runs[..n]);
      forall i | 0 <= i < n ensures runs[i].date < runs[n].date {
        assert runs[n - 1].date < runs[n].date;
        assert i < n - 1 ==> runs[..n][i].date < runs[..n][n - 1].date;
      }
    }
  }

  function TextsOn(items: seq<Item>, date: int): seq<string>
    decreases |items|
  {
    if items == [] then [] else
    var n := |items| - 1;
    TextsOn(items[..n], date) + if items[n].date == date then [items[n].text] else []
  }

  /** When dates never go back, a run holds exactly the records of its date, in source order. */
  lemma {:induction false} RunsHoldTheirDate(items: seq<Item>)
    requires DatesIncrease(Runs(items))
    ensures forall k :: 0 <= k < |Runs(items)| ==> Runs(items)[k].texts == TextsOn(items, Runs(items)[k].date)
    ensures forall d :: (Runs(items) == [] || d > Runs(items)[|Runs(items)| - 1].date) ==> TextsOn(items, d) == []
    decreases |items|
  {
    hide AddToRuns;
    if items != [] {
      var n := |items| - 1;
      var runs, more := Runs(items[..n]), Runs(items);
      EarlierRunsIncrease(runs, items[n]);
      RunsHoldTheirDate(items[..n]);
      AddedRun(runs, items[n]);
      StepsIncrease(more);
      forall k | 0 <= k < |more| ensures more[k].texts == TextsOn(items, more[k].date) {
        if k < |more| - 1 {
          assert more[k] == runs[k] && more[k].date < items[n].date;
        } else if |more| == |runs| {
          assert runs[k].date == items[n].date;
        } else {
          assert TextsOn(items[..n], items[n].date) == [];
        }
      }
    }
  }

  lemma EarlierRunsIncrease(runs: seq<Run>, item: Item)
    requires DatesIncrease(AddToRuns(runs, item))
    ensures DatesIncrease(runs)
  {
    hide AddToRuns;
    AddedRun(runs, item);
    var more := AddToRuns(runs, item);
    forall k | 1 <= k < |runs| ensures runs[k - 1].date < runs[k].date {
      assert more[k - 1].date < more[k].date;
    }
  }

  predicate GoesBackSomewhere(items: seq<Item>) {
    exists i :: 1 <= i < |items| && items[i].date < items[i - 1].date
  }

  /** Some run goes back in time exactly when some record does. */
  lemma {:induction false} RunsGoBackWithItems(items: seq<Item>)
    ensures DatesIncrease(Runs(items)) <==> !GoesBackSomewhere(items)
    decreases |items|
  {
    hide AddToRuns;
    if items != [] {
      var n := |items| - 1;
      var runs, more := Runs(items[..n]), Runs(items);
      RunsGoBackWithItems(items[..n]);
      RunsAreMaximal(items[..n]);
      AddedRun(runs, items[n]);
      if n > 0 {
        LastStep(items);
        MoreIncrease(runs, items[n]);
      }
    }
  }

  lemma LastStep(items: seq<Item>)
    requires |items| >= 2
    ensures var n := |items| - 1;
            GoesBackSomewhere(items) <==> GoesBackSomewhere(items[..n]) || items[n].date < items[n - 1].date
  {
    var n := |items| - 1;
    if i :| 1 <= i < |items| && items[i].date < items[i - 1].date {
      assert i < n ==> items[..n][i].date < items[..n][i - 1].date;
    }
    if i :| 1 <= i < n && items[..n][i].date < items[..n][i - 1].date {
      assert items[i].date < items[i - 1].date;
    }
  }

  lemma MoreIncrease(runs: seq<Run>, item: Item)
    requires runs != []
    ensures DatesIncrease(AddToRuns(runs, item)) <==> DatesIncrease(runs) && runs[|runs| - 1].date <= item.date
  {
    hide AddToRuns;
    AddedRun(runs, item);
    var more := AddToRuns(runs, item);
    if DatesIncrease(more) {
      EarlierRunsIncrease(runs, item);
    }
  }

  /** The run ends with a regression exactly when some routed record's date is before that of the record before it. */
  lemma FailsExactlyAtRegression(header: string, reading: Reading, dates: Dates)
    ensures (Split(header, reading, dates).error.Some? && Split(header, reading, dates).error.value.Regression?)
       <==> GoesBackSomewhere(reading.items)
  {
    hide Runs, Published;
    RegressionIsFirst(Runs(reading.items), 1);
    RunsAreMaximal(reading.items);
    RunsGoBackWithItems(reading.items);
  }
}
