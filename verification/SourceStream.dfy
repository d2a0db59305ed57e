/** The source CSV as a lazy stream of routed records that keep their original text. */
module SourceStream {
  import opened Options
  import opened Calendar
  import opened Intervals
  import opened RowValidation
  import opened DailyTransform

  /** What the CSV reader finds next: a record spanning some lines, or text it refuses. */
  datatype Lexed = Record(lines: nat, fields: seq<string>) | Malformed

  /** The CSV reader, looking at the lines that are left. */
  type Lexer = seq<string> -> Lexed

  datatype StreamError = EmptySource | HeaderMismatch | MalformedCsv | NoTimestampField | UnparseableTimestamp

  /** A record routed to a date, with its original text. */
  datatype Item = Item(date: int, text: string)

  /** The records read and what ended the reading, if not the end of the source. */
  datatype Reading = Reading(items: seq<Item>, failure: Option<StreamError>)

  /** A record takes at least one line and no more than are left. */
  function Extent(lexed: Lexed, lines: seq<string>): (extent: nat)
    requires lexed.Record? && lines != []
    ensures 1 <= extent <= |lines|
  {
    if lexed.lines < 1 then 1 else if lexed.lines > |lines| then |lines| else lexed.lines
  }

  function Route(p: Parsers, fields: seq<string>): Result<int, StreamError> {
    if |fields| < 2 then Failure(NoTimestampField)
    else
      var time := ParseTimestamp(p, fields[1]);
      if time.None? then Failure(UnparseableTimestamp) else Success(DateOf(time.value))
  }

  function ReadAll(lexer: Lexer, p: Parsers, lines: seq<string>): Reading
    decreases |lines|
  {
    if lines == [] then Reading([], None) else
    var lexed := lexer(lines);
    if lexed.Malformed? then Reading([], Some(MalformedCsv)) else
    var extent := Extent(lexed, lines);
    var routed := Route(p, lexed.fields);
    if routed.Failure? then Reading([], Some(routed.error)) else
    var rest := ReadAll(lexer, p, lines[extent..]);
    Reading([Item(routed.value, Flatten(lines[..extent]))] + rest.items, rest.failure)
  }

  function Texts(items: seq<Item>): (texts: seq<string>)
    ensures |texts| == |items| && forall i :: 0 <= i < |items| ==> texts[i] == items[i].text
  {
    seq(|items|, i requires 0 <= i < |items| => items[i].text)
  }

  lemma {:induction false} FlattenSplits<T>(parts: seq<seq<T>>, k: nat)
    requires k <= |parts|
    ensures Flatten(parts) == Flatten(parts[..k]) + Flatten(parts[k..])
  {
    if k == 0 {
      assert parts[..0] == [] && parts[0..] == parts;
    } else {
      FlattenSplits(parts[1..], k - 1);
      assert parts[..k][1..] == parts[1..][..k - 1] && parts[1..][k - 1..] == parts[k..];
    }
  }

  /** When reading reaches the end, no line of the source is lost, duplicated or changed. */
  lemma {:induction false} ReadingIsLossless(lexer: Lexer, p: Parsers, lines: seq<string>)
    requires ReadAll(lexer, p, lines).failure.None?
    ensures Flatten(Texts(ReadAll(lexer, p, lines).items)) == Flatten(lines)
    decreases |lines|
  {
    if lines != [] {
      var extent := Extent(lexer(lines), lines);
      ReadingIsLossless(lexer, p, lines[extent..]);
      FlattenSplits(lines, extent);
      var items := ReadAll(lexer, p, lines).items;
      assert Texts(items)[1..] == Texts(ReadAll(lexer, p, lines[extent..]).items);
    }
  }

  /** Hands lines to the CSV reader and remembers them until they are taken. */
  class TrackingLines {
    var remaining: seq<string>
    var consumed: seq<string>

    constructor (lines: seq<string>)
      ensures remaining == lines && consumed == []
    {
      remaining, consumed := lines, [];
    }

    method Next() returns (line: string)
      requires remaining != []
      modifies this
      ensures line == old(remaining[0]) && remaining == old(remaining[1..]) && consumed == old(consumed) + [line]
    {
      line := remaining[0];
      remaining := remaining[1..];
      consumed := consumed + [line];
    }

    method TakeConsumed() returns (text: string)
      modifies this
      ensures text == Flatten(old(consumed)) && consumed == [] && remaining == old(remaining)
    {
      text := Flatten(consumed);
      consumed := [];
    }

    /** The reader pulls the lines of one record. */
    method Pull(count: nat)
      requires count <= |remaining|
      modifies this
      ensures consumed == old(consumed) + old(remaining[..count]) && remaining == old(remaining[count..])
    {
      ghost var lines, before := remaining, consumed;
      for k := 0 to count
        invariant remaining == lines[k..] && consumed == before + lines[..k]
      {
        assert lines[..k + 1] == lines[..k] + [lines[k]];
        var _ := Next();
      }
    }

    /** One step of the record generator. */
    method NextRecord(lexer: Lexer, p: Parsers) returns (record: Result<Option<Item>, StreamError>)
      requires consumed == []
      modifies this
      ensures var reading := ReadAll(lexer, p, old(remaining));
              match record
              case Failure(error) => reading == Reading([], Some(error))
              case Success(None) => reading == Reading([], None)
              case Success(Some(item)) =>
                && |remaining| < |old(remaining)| && consumed == []
                && var rest := ReadAll(lexer, p, remaining);
                   reading == Reading([item] + rest.items, rest.failure)
    {
      hide Flatten, Route;
      if remaining == [] {
        return Success(None);
      }
      var lexed := lexer(remaining);
      if lexed.Malformed? {
        return Failure(MalformedCsv);
      }
      Pull(Extent(lexed, remaining));
      var text := TakeConsumed();
      var routed := Route(p, lexed.fields);
      if routed.Failure? {
        return Failure(routed.error);
      }
      assert [] + old(remaining[..Extent(lexed, remaining)]) == old(remaining[..Extent(lexed, remaining)]);
      record := Success(Some(Item(routed.value, text)));
    }

    /** The header record, which must be the exact contract. */
    method OpenSourceStream(lexer: Lexer) returns (header: Result<string, StreamError>)
      requires consumed == []
      modifies this
      ensures header == HeaderOf(lexer, old(remaining))
      ensures header.Success? ==> consumed == [] && remaining == BodyOf(lexer, old(remaining))
    {
      if remaining == [] {
        return Failure(EmptySource);
      }
      var lexed := lexer(remaining);
      if lexed.Malformed? {
        return Failure(MalformedCsv);
      }
      Pull(Extent(lexed, remaining));
      var text := TakeConsumed();
      assert [] + old(remaining[..Extent(lexed, remaining)]) == old(remaining[..Extent(lexed, remaining)]);
      if lexed.fields != SOURCE_FIELDS {
        return Failure(HeaderMismatch);
      }
      header := Success(text);
    }
  }

  function HeaderOf(lexer: Lexer, lines: seq<string>): Result<string, StreamError> {
    if lines == [] then Failure(EmptySource)
    else if lexer(lines).Malformed? then Failure(MalformedCsv)
    else if lexer(lines).fields != SOURCE_FIELDS then Failure(HeaderMismatch)
    else Success(Flatten(lines[..Extent(lexer(lines), lines)]))
  }

  function BodyOf(lexer: Lexer, lines: seq<string>): seq<string>
    requires lines != [] && lexer(lines).Record?
  {
    lines[Extent(lexer(lines), lines)..]
  }
}
