/** Publication of one day on local disk: the manifest is removed first and written last. */
module DailyPublish {
  import opened Options
  import opened Calendar
  import opened Json
  import RowValidation
  import DailyTransform
  import Ordering
  import opened Versions

  const LEGACY_MANIFEST_VERSION := "1.0.0"
  const CODECS := ["SNAPPY"]

  /** What reopening a staging file shows; a file that is not Parquet shows nothing. */
  datatype Evidence = Evidence(times: seq<int>, schemaMatches: bool, naive: bool, codecs: seq<string>)

  /** The day being published: its freshly split raw text and the settings recorded with it. */
  datatype Day = Day(
    raw: string,
    rows: nat,
    date: int,
    identity: Json<string>,
    pipelineVersion: string,
    processingTimestamp: string,
    utc: bool,
    rawPath: string,
    stagingPath: string,
    quarantinePath: string
  )

  /** The conversions and serializations of the host: hashing, byte sizes, CSV, Parquet, JSON lines and ISO times. */
  datatype Host = Host(
    sha256: string -> string,
    size: string -> nat,
    parsers: RowValidation.Parsers,
    read: string -> Option<(Option<seq<string>>, seq<RowValidation.SourceRecord>)>,
    parquet: (Day, seq<RowValidation.NormalizedRecord>) -> string,
    inspect: string -> Option<Evidence>,
    rejects: (Day, seq<RowValidation.Row>) -> string,
    notes: DailyTransform.Batch -> Json<string>,
    iso: int -> string,
    fromIso: string -> Option<Timestamp>
  )

  /** A daily manifest. A field that a file on disk lacks is any value that no check accepts. */
  datatype Manifest = Manifest(
    version: string,
    schemaVersion: string,
    pipelineVersion: string,
    processingTimestamp: string,
    date: int,
    identity: Json<string>,
    inputRows: int,
    validRows: int,
    quarantineRows: int,
    validTimestamps: Option<int>,
    first: Option<string>,
    last: Option<string>,
    rawSize: int,
    rawPath: string,
    rawSha256: string,
    stagingSize: int,
    stagingPath: string,
    stagingSha256: string,
    quarantineStatus: string,
    quarantinePath: Option<string>,
    quarantineSize: int,
    quarantineSha256: Option<string>,
    applicable: bool,
    matches: bool,
    notes: Json<string>
  )

  /** The four files of a day; a manifest file may be unreadable. */
  datatype Files = Files(
    raw: Option<string>, staging: Option<string>, quarantine: Option<string>, manifest: Option<Option<Manifest>>)

  datatype Reason = ContextRejected | Unreadable | SplitCountDiffers | BatchErrors | ReconciliationFailed

  datatype Outcome = Skipped(manifest: Manifest) | Upgraded(manifest: Manifest) | Processed(manifest: Manifest)
                   | Rebuilt(manifest: Manifest) | Failed(reason: Reason) | Stopped

  // ---------------------------------------------------------------- verification

  predicate AbsoluteText(text: Option<string>) {
    text.Some? && IsAbsoluteWindowsPath(text.value)
  }

  predicate HoldsAbsolutePath(m: Manifest) {
    || IsAbsoluteWindowsPath(m.version) || IsAbsoluteWindowsPath(m.schemaVersion)
    || IsAbsoluteWindowsPath(m.pipelineVersion) || IsAbsoluteWindowsPath(m.processingTimestamp)
    || ContainsAbsolutePath(m.identity) || AbsoluteText(m.first) || AbsoluteText(m.last)
    || IsAbsoluteWindowsPath(m.rawPath) || IsAbsoluteWindowsPath(m.rawSha256)
    || IsAbsoluteWindowsPath(m.stagingPath) || IsAbsoluteWindowsPath(m.stagingSha256)
    || IsAbsoluteWindowsPath(m.quarantineStatus) || AbsoluteText(m.quarantinePath) || AbsoluteText(m.quarantineSha256)
    || ContainsAbsolutePath(m.notes)
  }

  predicate ExpectedValues(h: Host, day: Day, m: Manifest, version: string) {
    && m.inputRows == day.rows && m.version == version && m.pipelineVersion == day.pipelineVersion
    && m.processingTimestamp == day.processingTimestamp && m.rawSize == h.size(day.raw) && m.rawPath == day.rawPath
    && m.rawSha256 == h.sha256(day.raw) && m.schemaVersion == SCHEMA_VERSION && m.date == day.date
    && m.identity == day.identity && m.stagingPath == day.stagingPath
  }

  predicate NaiveTime(h: Host, text: Option<string>) {
    text.Some? && h.fromIso(text.value).Some? && !h.fromIso(text.value).value.aware
  }

  predicate BoundaryMetadata(h: Host, m: Manifest) {
    && m.validTimestamps == Some(m.validRows)
    && (m.validRows == 0 ==> m.first == None && m.last == None)
    && (m.validRows != 0 ==> NaiveTime(h, m.first) && NaiveTime(h, m.last))
  }

  predicate FileMatches(h: Host, file: Option<string>, size: int, sha256: string) {
    file.Some? && h.size(file.value) == size && h.sha256(file.value) == sha256
  }

  predicate StagingMatches(h: Host, m: Manifest, files: Files) {
    && FileMatches(h, files.staging, m.stagingSize, m.stagingSha256)
    && var seen := h.inspect(files.staging.value);
    && seen.Some? && |seen.value.times| == m.validRows && seen.value.schemaMatches && seen.value.naive
    && (m.validRows > 0 ==> seen.value.codecs == CODECS)
  }

  function FirstTime(h: Host, times: seq<int>): Option<string> {
    if times == [] then None else Some(h.iso(times[0]))
  }

  function LastTime(h: Host, times: seq<int>): Option<string> {
    if times == [] then None else Some(h.iso(times[|times| - 1]))
  }

  predicate BoundariesMatch(h: Host, m: Manifest, times: seq<int>) {
    Some(|times|) == m.validTimestamps && FirstTime(h, times) == m.first && LastTime(h, times) == m.last
  }

  predicate QuarantineMatches(h: Host, day: Day, m: Manifest, files: Files) {
    if m.quarantineRows != 0 then
      && m.quarantineStatus == "present" && m.quarantinePath == Some(day.quarantinePath)
      && m.quarantineSha256.Some? && FileMatches(h, files.quarantine, m.quarantineSize, m.quarantineSha256.value)
    else
      && m.quarantineStatus == "absent_zero_rows" && m.quarantinePath == None && m.quarantineSha256 == None
      && m.quarantineSize == 0 && files.quarantine == None
  }

  /** The manifest records this day and every file it refers to is in place. */
  predicate VerifyManifest(h: Host, day: Day, m: Manifest, files: Files, version: string, boundaries: bool) {
    && !HoldsAbsolutePath(m)
    && ExpectedValues(h, day, m, version)
    && (boundaries ==> BoundaryMetadata(h, m))
    && m.applicable && m.matches && m.inputRows == m.validRows + m.quarantineRows
    && FileMatches(h, files.raw, h.size(day.raw), h.sha256(day.raw))
    && StagingMatches(h, m, files)
    && (boundaries ==> BoundariesMatch(h, m, h.inspect(files.staging.value).value.times))
    && QuarantineMatches(h, day, m, files)
  }

  predicate Completed(h: Host, day: Day, files: Files) {
    files.manifest.Some? && files.manifest.value.Some?
    && VerifyManifest(h, day, files.manifest.value.value, files, MANIFEST_VERSION, true)
  }

  predicate Legacy(h: Host, day: Day, files: Files) {
    files.manifest.Some? && files.manifest.value.Some?
    && VerifyManifest(h, day, files.manifest.value.value, files, LEGACY_MANIFEST_VERSION, false)
  }

  // ---------------------------------------------------------------- what is written

  function UpgradedManifest(h: Host, legacy: Manifest, times: seq<int>): Manifest {
    legacy.(version := MANIFEST_VERSION, validTimestamps := Some(|times|), first := FirstTime(h, times), last := LastTime(h, times))
  }

  function TimesOf(valid: seq<RowValidation.NormalizedRecord>): seq<int> {
    Ordering.Map((record: RowValidation.NormalizedRecord) => record.time, valid)
  }

  function BuildManifest(h: Host, day: Day, batch: DailyTransform.Batch, staging: string, quarantine: Option<string>): Manifest {
    var times, present := TimesOf(batch.valid), batch.quarantine != [];
    Manifest(
      MANIFEST_VERSION, SCHEMA_VERSION, day.pipelineVersion, day.processingTimestamp, day.date, day.identity,
      batch.reconciliation.inputRows, |batch.valid|, |batch.quarantine|,
      Some(|times|), FirstTime(h, times), LastTime(h, times),
      h.size(day.raw), day.rawPath, h.sha256(day.raw),
      h.size(staging), day.stagingPath, h.sha256(staging),
      if present then "present" else "absent_zero_rows",
      if present then Some(day.quarantinePath) else None,
      if quarantine.Some? then h.size(quarantine.value) else 0,
      if quarantine.Some? then Some(h.sha256(quarantine.value)) else None,
      batch.reconciliation.applicable, batch.reconciliation.Matches(),
      h.notes(batch))
  }

  /** The transformation of a raw file, or why it cannot be published. */
  function TransformRaw(h: Host, day: Day, raw: string): Result<DailyTransform.Batch, Reason> {
    var table := h.read(raw);
    if table.None? then Failure(Unreadable) else
    var transformed := DailyTransform.TransformDailyCsv(h.parsers, day.utc, day.pipelineVersion, table.value.0, table.value.1, day.date);
    if transformed.Failure? then Failure(ContextRejected) else
    var batch := transformed.value;
    if batch.reconciliation.inputRows != day.rows then Failure(SplitCountDiffers)
    else if batch.errors != [] then Failure(BatchErrors)
    else if !batch.reconciliation.Matches() then Failure(ReconciliationFailed)
    else Success(batch)
  }

  function Quarantined(h: Host, day: Day, batch: DailyTransform.Batch): Option<string> {
    if batch.quarantine == [] then None else Some(h.rejects(day, batch.quarantine))
  }

  predicate OutputsExist(files: Files) {
    files.raw.Some? || files.staging.Some? || files.quarantine.Some? || files.manifest.Some?
  }

  // ---------------------------------------------------------------- the plan of disk changes

  /** The manifest removed, and the raw file replaced unless it already is the split text. */
  function Opening(h: Host, day: Day, force: bool, files: Files): (states: seq<Files>)
    ensures 1 <= |states| && states[|states| - 1].raw.Some?
  {
    var unlinked := files.(manifest := None);
    if !force && FileMatches(h, files.raw, h.size(day.raw), h.sha256(day.raw)) then [unlinked]
    else [unlinked, unlinked.(raw := Some(day.raw))]
  }

  function ManifestFor(h: Host, day: Day, batch: DailyTransform.Batch): Manifest {
    BuildManifest(h, day, batch, h.parquet(day, batch.valid), Quarantined(h, day, batch))
  }

  /** The staging file, the quarantine file or its absence, and the manifest. */
  function Outputs(h: Host, day: Day, batch: DailyTransform.Batch, files: Files): (states: seq<Files>)
    ensures |states| == 3
  {
    var staged := files.(staging := Some(h.parquet(day, batch.valid)));
    var settled := staged.(quarantine := Quarantined(h, day, batch));
    [staged, settled, settled.(manifest := Some(Some(ManifestFor(h, day, batch))))]
  }

  /** The disk states a rebuild goes through, each one rename or removal after the last, and its outcome. */
  function Rebuild(h: Host, day: Day, force: bool, files: Files): (seq<Files>, Outcome) {
    var opening := Opening(h, day, force, files);
    var ready := opening[|opening| - 1];
    var transformed := TransformRaw(h, day, ready.raw.value);
    if transformed.Failure? then (opening, Failed(transformed.error)) else
    var m := ManifestFor(h, day, transformed.value);
    (opening + Outputs(h, day, transformed.value, ready),
     if OutputsExist(files) then Rebuilt(m) else Processed(m))
  }

  /** All the disk states of one publication, in order, when nothing stops it. */
  function Plan(h: Host, day: Day, force: bool, files: Files): (seq<Files>, Outcome) {
    if !force && Completed(h, day, files) then ([], Skipped(files.manifest.value.value))
    else if !force && Legacy(h, day, files) then
      var m := UpgradedManifest(h, files.manifest.value.value, h.inspect(files.staging.value).value.times);
      ([files.(manifest := Some(Some(m)))], Upgraded(m))
    else Rebuild(h, day, force, files)
  }

  /** A directory's contents, the changes the machine still allows, and the states it has gone through. */
  datatype Disk = Disk(files: Files, allowed: nat, history: seq<Files>)

  /** From one disk to another by these changes, cut short where the machine stops. */
  ghost predicate Ran(before: Disk, after: Disk, states: seq<Files>) {
    var count := if |states| <= before.allowed then |states| else before.allowed;
    && after.history == before.history + states[..count] && after.allowed == before.allowed - count
    && after.files == if count == 0 then before.files else states[count - 1]
  }

  lemma RanBoth(before: Disk, middle: Disk, after: Disk, first: seq<Files>, second: seq<Files>)
    requires Ran(before, middle, first) && |first| <= before.allowed && Ran(middle, after, second)
    ensures Ran(before, after, first + second)
  {
    var count := if |second| <= middle.allowed then |second| else middle.allowed;
    assert first[..|first|] == first;
    assert (first + second)[..|first| + count] == first + second[..count];
    assert before.history + (first + second[..count]) == (before.history + first) + second[..count];
  }

  lemma RanShort(before: Disk, after: Disk, first: seq<Files>, second: seq<Files>)
    requires Ran(before, after, first) && before.allowed < |first|
    ensures Ran(before, after, first + second)
  {
    assert (first + second)[..before.allowed] == first[..before.allowed];
  }

  /** The day's directory. The machine may stop after any number of atomic changes. */
  class Directory {
    var files: Files
    var allowed: nat
    ghost var history: seq<Files>

    ghost function Now(): Disk
      reads this
    {
      Disk(files, allowed, history)
    }

    constructor (files: Files, allowed: nat)
      ensures this.files == files && this.allowed == allowed && history == []
    {
      this.files, this.allowed, this.history := files, allowed, [];
    }

    /** One rename or removal, unless the machine has stopped. */
    method Change(next: Files) returns (done: bool)
      modifies this
      ensures done == (old(allowed) > 0) && Ran(old(Now()), Now(), [next])
      ensures done ==> files == next
    {
      if allowed == 0 {
        return false;
      }
      files, allowed, history := next, allowed - 1, history + [next];
      done := true;
    }

    /** The publication makes the planned changes in order, as many as the machine allows. */
    method PublishDay(h: Host, day: Day, force: bool) returns (outcome: Outcome)
      modifies this
      ensures var plan := Plan(h, day, force, old(files));
              && Ran(old(Now()), Now(), plan.0)
              && outcome == if |plan.0| <= old(allowed) then plan.1 else Stopped
    {
      hide VerifyManifest, UpgradedManifest, Rebuild;
      if !force && files.manifest.Some? && files.manifest.value.Some? {
        var m := files.manifest.value.value;
        if VerifyManifest(h, day, m, files, MANIFEST_VERSION, true) {
          return Skipped(m);
        }
        if VerifyManifest(h, day, m, files, LEGACY_MANIFEST_VERSION, false) {
          LegacyHasStaging(h, day, m, files);
          var upgraded := UpgradedManifest(h, m, h.inspect(files.staging.value).value.times);
          var done := Change(files.(manifest := Some(Some(upgraded))));
          return if done then Upgraded(upgraded) else Stopped;
        }
      }
      outcome := RebuildDay(h, day, force);
    }

    method RebuildDay(h: Host, day: Day, force: bool) returns (outcome: Outcome)
      modifies this
      ensures var plan := Rebuild(h, day, force, old(files));
              && Ran(old(Now()), Now(), plan.0)
              && outcome == if |plan.0| <= old(allowed) then plan.1 else Stopped
    {
      hide BuildManifest, TransformRaw, Ran, Quarantined, FileMatches;
      ghost var start := Now();
      var existing := OutputsExist(files);
      var ready := OpenDay(h, day, force);
      ghost var opening := Opening(h, day, force, start.files);
      ghost var middle := Now();
      if !ready {
        ghost var plan := Rebuild(h, day, force, start.files);
        RanShort(start, middle, opening, plan.0[|opening|..]);
        assert plan.0 == opening + plan.0[|opening|..];
        return Stopped;
      }
      var transformed := TransformRaw(h, day, files.raw.value);
      if transformed.Failure? {
        return Failed(transformed.error);
      }
      var written := WriteOutputs(h, day, transformed.value);
      RanBoth(start, middle, Now(), opening, Outputs(h, day, transformed.value, middle.files));
      outcome := if written.None? then Stopped else if existing then Rebuilt(written.value) else Processed(written.value);
    }

    /** The manifest goes first; then the raw file is replaced unless it already is the split text. */
    method OpenDay(h: Host, day: Day, force: bool) returns (ready: bool)
      modifies this
      ensures var opening := Opening(h, day, force, old(files));
              && Ran(old(Now()), Now(), opening) && ready == (|opening| <= old(allowed))
              && (ready ==> files == opening[|opening| - 1] && files.raw.Some?)
    {
      ghost var start := Now();
      var done := Change(files.(manifest := None));
      if !done {
        return false;
      }
      ghost var unlinked := Now();
      if force || !FileMatches(h, files.raw, h.size(day.raw), h.sha256(day.raw)) {
        done := Change(files.(raw := Some(day.raw)));
        RanBoth(start, unlinked, Now(), [unlinked.files], [unlinked.files.(raw := Some(day.raw))]);
        return done;
      }
      ready := true;
    }

    /** The outputs, and last of all the manifest. */
    method WriteOutputs(h: Host, day: Day, batch: DailyTransform.Batch) returns (written: Option<Manifest>)
      modifies this
      ensures Ran(old(Now()), Now(), Outputs(h, day, batch, old(files)))
      ensures written == if 3 <= old(allowed) then Some(ManifestFor(h, day, batch)) else None
    {
      hide BuildManifest;
      ghost var start, states := Now(), Outputs(h, day, batch, files);
      var staging := h.parquet(day, batch.valid);
      var done := Change(files.(staging := Some(staging)));
      ghost var staged := Now();
      assert states == states[..1] + states[1..] && states[..1] == [states[0]];
      if !done {
        RanShort(start, staged, states[..1], states[1..]);
        return None;
      }
      var quarantine := None;
      if batch.quarantine != [] {
        quarantine := Some(h.rejects(day, batch.quarantine));
      }
      done := Change(files.(quarantine := quarantine));
      ghost var settled := Now();
      RanBoth(start, staged, settled, states[..1], [states[1]]);
      assert states == states[..2] + states[2..] && states[..1] + [states[1]] == states[..2] && states[2..] == [states[2]];
      if !done {
        RanShort(start, settled, states[..2], states[2..]);
        return None;
      }
      var m := BuildManifest(h, day, batch, staging, quarantine);
      done := Change(files.(manifest := Some(Some(m))));
      RanBoth(start, settled, Now(), states[..2], states[2..]);
      written := if done then Some(m) else None;
    }
  }

  lemma LegacyHasStaging(h: Host, day: Day, m: Manifest, files: Files)
    requires VerifyManifest(h, day, m, files, LEGACY_MANIFEST_VERSION, false)
    ensures files.staging.Some? && h.inspect(files.staging.value).Some?
  {
  }
}
