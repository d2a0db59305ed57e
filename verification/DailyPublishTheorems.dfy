/** Crash safety of the daily publication, and when the next run recognizes a finished day. */
module DailyPublishTheorems {
  import opened Options
  import opened Calendar
  import opened Json
  import opened Versions
  import opened DailyPublish
  import RowValidation
  import DailyTransform

  /** Reopening a written staging file shows what was written; times survive their text; digests are not paths. */
  ghost predicate Lawful(h: Host) {
    && (forall day: Day, valid: seq<RowValidation.NormalizedRecord> :: Reopens(h, h.parquet(day, valid), valid))
    && (forall t: int :: h.fromIso(h.iso(t)) == Some(Timestamp(t, false)) && !IsAbsoluteWindowsPath(h.iso(t)))
    && (forall text: string :: !IsAbsoluteWindowsPath(h.sha256(text)))
    && (forall batch: DailyTransform.Batch :: !ContainsAbsolutePath(h.notes(batch)))
  }

  predicate Reopens(h: Host, file: string, valid: seq<RowValidation.NormalizedRecord>) {
    var seen := h.inspect(file);
    && seen.Some? && seen.value.times == TimesOf(valid) && seen.value.schemaMatches && seen.value.naive
    && (valid != [] ==> seen.value.codecs == CODECS)
  }

  /** The day's file paths are relative and its processing time is a time. */
  predicate Portable(day: Day) {
    && !IsAbsoluteWindowsPath(day.rawPath) && !IsAbsoluteWindowsPath(day.stagingPath)
    && !IsAbsoluteWindowsPath(day.quarantinePath) && !IsAbsoluteWindowsPath(day.processingTimestamp)
  }

  /** The raw, staging and quarantine files are the ones that the manifest records. */
  predicate Describes(h: Host, m: Manifest, files: Files) {
    && m.inputRows == m.validRows + m.quarantineRows
    && FileMatches(h, files.raw, m.rawSize, m.rawSha256)
    && StagingMatches(h, m, files)
    && if m.quarantineRows != 0
       then m.quarantineSha256.Some? && FileMatches(h, files.quarantine, m.quarantineSize, m.quarantineSha256.value)
       else files.quarantine == None
  }

  /** A readable manifest on disk describes the other files on disk. */
  predicate Consistent(h: Host, files: Files) {
    files.manifest.Some? && files.manifest.value.Some? ==> Describes(h, files.manifest.value.value, files)
  }

  // ---------------------------------------------------------------- what a batch records

  lemma BatchCounts(h: Host, day: Day, raw: string)
    requires TransformRaw(h, day, raw).Success?
    ensures var batch := TransformRaw(h, day, raw).value;
            && batch.reconciliation.inputRows == day.rows == |batch.valid| + |batch.quarantine|
            && batch.reconciliation.applicable && batch.reconciliation.Matches()
  {
    hide DailyTransform.Deduplicated, DailyTransform.Evaluated, DailyTransform.Records, DailyTransform.Rejected,
         DailyTransform.ParsedTimes, DailyTransform.RuleCounts;
    var table := h.read(raw).value;
    TransformCounts(h.parsers, table.0, table.1, day.date);
  }

  lemma TransformCounts(p: RowValidation.Parsers, header: Option<seq<string>>, records: seq<RowValidation.SourceRecord>, date: int)
    ensures var batch := DailyTransform.Transform(p, header, records, date);
            && batch.reconciliation.validRows == |batch.valid| && batch.reconciliation.quarantineRows == |batch.quarantine|
            && (batch.errors == [] && batch.reconciliation.Matches() ==> batch.reconciliation.applicable)
  {
    hide DailyTransform.Deduplicated, DailyTransform.Evaluated, DailyTransform.Records, DailyTransform.Rejected,
         DailyTransform.ParsedTimes, DailyTransform.RuleCounts;
  }

  /** The state that a completed rebuild leaves. */
  function Finished(h: Host, day: Day, batch: DailyTransform.Batch, raw: string): Files {
    Files(Some(raw), Some(h.parquet(day, batch.valid)), Quarantined(h, day, batch), Some(Some(ManifestFor(h, day, batch))))
  }

  predicate SameText(h: Host, day: Day, raw: string) {
    h.size(raw) == h.size(day.raw) && h.sha256(raw) == h.sha256(day.raw)
  }

  lemma OpeningKeepsText(h: Host, day: Day, force: bool, files: Files)
    ensures var opening := Opening(h, day, force, files);
            && SameText(h, day, opening[|opening| - 1].raw.value)
            && forall i :: 0 <= i < |opening| ==> opening[i].manifest == None
  {
  }

  /** A finished state is consistent. */
  lemma FinishedDescribes(h: Host, day: Day, batch: DailyTransform.Batch, raw: string)
    requires Lawful(h) && SameText(h, day, raw)
    requires batch.reconciliation.inputRows == |batch.valid| + |batch.quarantine|
    ensures Describes(h, ManifestFor(h, day, batch), Finished(h, day, batch, raw))
  {
    assert Reopens(h, h.parquet(day, batch.valid), batch.valid);
  }

  /** Every disk state of every publication, whatever was on disk before, is consistent. */
  lemma EveryStateIsConsistent(h: Host, day: Day, force: bool, files: Files, i: nat)
    requires Lawful(h) && i < |Plan(h, day, force, files).0|
    ensures Consistent(h, Plan(h, day, force, files).0[i])
  {
    hide Lawful, TransformRaw, ManifestFor, Quarantined, FileMatches;
    if !force && Completed(h, day, files) {
    } else if !force && Legacy(h, day, files) {
      UpgradeDescribes(h, day, files);
    } else {
      var opening := Opening(h, day, force, files);
      var raw := opening[|opening| - 1].raw.value;
      OpeningKeepsText(h, day, force, files);
      if i == |opening| + 2 {
        BatchCounts(h, day, raw);
        FinishedDescribes(h, day, TransformRaw(h, day, raw).value, raw);
      }
    }
  }

  lemma UpgradeDescribes(h: Host, day: Day, files: Files)
    requires Legacy(h, day, files)
    ensures files.staging.Some? && h.inspect(files.staging.value).Some?
    ensures var m := UpgradedManifest(h, files.manifest.value.value, h.inspect(files.staging.value).value.times);
            Describes(h, m, files.(manifest := Some(Some(m))))
  {
  }

  /** Whatever instant the machine stops at, the day's files are consistent if they were at the start. */
  lemma StoppingIsSafe(h: Host, day: Day, force: bool, before: Disk, after: Disk)
    requires Lawful(h) && Consistent(h, before.files) && Ran(before, after, Plan(h, day, force, before.files).0)
    ensures Consistent(h, after.files)
    ensures forall i :: |before.history| <= i < |after.history| ==> Consistent(h, after.history[i])
  {
    hide Plan, Consistent, Lawful;
    var plan := Plan(h, day, force, before.files);
    forall i | 0 <= i < |plan.0| ensures Consistent(h, plan.0[i]) {
      EveryStateIsConsistent(h, day, force, before.files, i);
    }
  }

  // ---------------------------------------------------------------- the next run

  function LastState(states: seq<Files>, files: Files): Files {
    if states == [] then files else states[|states| - 1]
  }

  predicate NamesAbsolutePath(day: Day) {
    IsAbsoluteWindowsPath(day.pipelineVersion) || ContainsAbsolutePath(day.identity)
  }

  lemma BuiltManifestPaths(h: Host, day: Day, batch: DailyTransform.Batch)
    requires Lawful(h) && Portable(day)
    ensures HoldsAbsolutePath(ManifestFor(h, day, batch)) <==> NamesAbsolutePath(day)
  {
    hide ContainsAbsolutePath;
  }

  /** A finished day is recognized exactly when its settings name no absolute path. */
  lemma FinishedIsCompleted(h: Host, day: Day, raw: string)
    requires Lawful(h) && Portable(day) && SameText(h, day, raw) && TransformRaw(h, day, raw).Success?
    ensures Completed(h, day, Finished(h, day, TransformRaw(h, day, raw).value, raw)) <==> !NamesAbsolutePath(day)
    ensures !Legacy(h, day, Finished(h, day, TransformRaw(h, day, raw).value, raw))
  {
    hide TransformRaw, HoldsAbsolutePath, NamesAbsolutePath, Portable;
    var batch := TransformRaw(h, day, raw).value;
    BatchCounts(h, day, raw);
    BuiltManifestPaths(h, day, batch);
    FinishedVerifies(h, day, batch, raw);
  }

  lemma FinishedVerifies(h: Host, day: Day, batch: DailyTransform.Batch, raw: string)
    requires Lawful(h) && SameText(h, day, raw)
    requires batch.reconciliation.inputRows == day.rows == |batch.valid| + |batch.quarantine|
    requires batch.reconciliation.applicable && batch.reconciliation.Matches()
    ensures VerifyManifest(h, day, ManifestFor(h, day, batch), Finished(h, day, batch, raw), MANIFEST_VERSION, true)
       <==> !HoldsAbsolutePath(ManifestFor(h, day, batch))
  {
    hide HoldsAbsolutePath;
    assert Reopens(h, h.parquet(day, batch.valid), batch.valid);
  }

  lemma RebuildFinishes(h: Host, day: Day, force: bool, files: Files)
    returns (raw: string)
    requires Rebuild(h, day, force, files).1.Processed? || Rebuild(h, day, force, files).1.Rebuilt?
    ensures SameText(h, day, raw) && TransformRaw(h, day, raw).Success?
    ensures LastState(Rebuild(h, day, force, files).0, files) == Finished(h, day, TransformRaw(h, day, raw).value, raw)
    ensures Rebuild(h, day, force, files).1.manifest == ManifestFor(h, day, TransformRaw(h, day, raw).value)
  {
    hide TransformRaw, ManifestFor, Quarantined, FileMatches, SameText;
    var opening := Opening(h, day, force, files);
    OpeningKeepsText(h, day, force, files);
    raw := opening[|opening| - 1].raw.value;
  }

  lemma TimeText(h: Host, t: int)
    requires Lawful(h)
    ensures h.fromIso(h.iso(t)) == Some(Timestamp(t, false)) && !IsAbsoluteWindowsPath(h.iso(t))
  {
    assert h.fromIso(h.iso(t)) == Some(Timestamp(t, false));
  }

  lemma UpgradedIsCompleted(h: Host, day: Day, files: Files)
    requires Lawful(h) && Legacy(h, day, files)
    ensures files.staging.Some? && h.inspect(files.staging.value).Some?
    ensures var m := UpgradedManifest(h, files.manifest.value.value, h.inspect(files.staging.value).value.times);
            Completed(h, day, files.(manifest := Some(Some(m))))
  {
    hide ContainsAbsolutePath;
    var legacy, times := files.manifest.value.value, h.inspect(files.staging.value).value.times;
    var m := UpgradedManifest(h, legacy, times);
    assert !IsAbsoluteWindowsPath(MANIFEST_VERSION) by { assert MANIFEST_VERSION[0] == '1'; }
    if times != [] {
      TimeText(h, times[0]);
      TimeText(h, times[|times| - 1]);
    }
    assert !HoldsAbsolutePath(m);
    assert BoundaryMetadata(h, m);
  }

  lemma FinishedRebuildsAlike(h: Host, day: Day, raw: string)
    requires SameText(h, day, raw) && TransformRaw(h, day, raw).Success?
    ensures Rebuild(h, day, false, Finished(h, day, TransformRaw(h, day, raw).value, raw)).1
         == Rebuilt(ManifestFor(h, day, TransformRaw(h, day, raw).value))
  {
    hide TransformRaw, ManifestFor, Quarantined;
  }

  /**
   * After a processed or rebuilt day, the next identical run writes nothing exactly when neither the pipeline version
   * nor the source identity holds an absolute Windows path; otherwise it rebuilds the day again. After a skipped or
   * upgraded day the next run always writes nothing.
   */
  lemma NextRunSkips(h: Host, day: Day, force: bool, files: Files)
    requires Lawful(h) && Portable(day)
    requires !Plan(h, day, force, files).1.Failed?
    ensures var (states, outcome) := Plan(h, day, force, files);
            var next := Plan(h, day, false, LastState(states, files));
            && (outcome.Skipped? || outcome.Upgraded? ==> next.0 == [] && next.1.Skipped?)
            && (outcome.Processed? || outcome.Rebuilt? ==>
                  && (next.0 == [] && next.1 == Skipped(outcome.manifest) <==> !NamesAbsolutePath(day))
                  && (NamesAbsolutePath(day) ==> next.1 == Rebuilt(outcome.manifest)))
            && !outcome.Stopped?
  {
    hide Lawful, Completed, Legacy, TransformRaw, ManifestFor, Quarantined, FileMatches, NamesAbsolutePath, Portable, SameText;
    var (states, outcome) := Plan(h, day, force, files);
    if !force && Completed(h, day, files) {
    } else if !force && Legacy(h, day, files) {
      UpgradedIsCompleted(h, day, files);
    } else {
      var raw := RebuildFinishes(h, day, force, files);
      FinishedIsCompleted(h, day, raw);
      FinishedRebuildsAlike(h, day, raw);
    }
  }

  // ---------------------------------------------------------------- resuming

  ghost predicate DigestsDistinguish(h: Host) {
    forall a, b :: h.sha256(a) == h.sha256(b) ==> a == b
  }

  /** Every rebuild of one split text that succeeds ends with the same files, whatever was on disk before. */
  lemma RebuildsEndAlike(h: Host, day: Day, force: bool, files: Files)
    requires DigestsDistinguish(h)
    ensures var (states, outcome) := Rebuild(h, day, force, files);
            && (outcome.Processed? || outcome.Rebuilt? <==> TransformRaw(h, day, day.raw).Success?)
            && (TransformRaw(h, day, day.raw).Success? ==>
                  LastState(states, files) == Finished(h, day, TransformRaw(h, day, day.raw).value, day.raw))
  {
    hide TransformRaw, ManifestFor, Quarantined, Opening;
    OpeningIsTheText(h, day, force, files);
  }

  lemma StoppedHasNoManifest(h: Host, day: Day, force: bool, files: Files, k: nat)
    requires 1 <= k < |Rebuild(h, day, force, files).0|
    ensures Rebuild(h, day, force, files).0[k - 1].manifest == None
            || Rebuild(h, day, force, files).1.Failed?
  {
    hide TransformRaw, ManifestFor, Quarantined;
    OpeningKeepsText(h, day, force, files);
  }

  lemma FinishedIsNotLegacy(h: Host, day: Day, batch: DailyTransform.Batch, raw: string)
    ensures !Legacy(h, day, Finished(h, day, batch, raw))
  {
  }

  /**
   * A rebuild stopped before, between or after any of its changes, and then repeated with or without force, ends with
   * the files that the uninterrupted run would have left. Only a forced run that never began needs its force again.
   */
  lemma ResumedRunEndsAlike(h: Host, day: Day, force: bool, files: Files, k: nat, again: bool)
    requires DigestsDistinguish(h)
    requires k <= |Plan(h, day, force, files).0| && (k > 0 || again || !force)
    requires Plan(h, day, force, files).1.Processed? || Plan(h, day, force, files).1.Rebuilt?
    ensures var states := Plan(h, day, force, files).0;
            var stopped := if k == 0 then files else states[k - 1];
            LastState(Plan(h, day, again, stopped).0, stopped) == LastState(states, files)
  {
    hide TransformRaw, ManifestFor, Quarantined, Rebuild, Legacy, Completed, Finished;
    var states := Plan(h, day, force, files).0;
    var stopped := if k == 0 then files else states[k - 1];
    RebuildsEndAlike(h, day, force, files);
    RebuildsEndAlike(h, day, again, stopped);
    if 0 < k < |states| {
      StoppedHasNoManifest(h, day, force, files, k);
      NoManifestMeansRebuild(h, day, stopped);
    } else if k > 0 {
      FinishedIsNotLegacy(h, day, TransformRaw(h, day, day.raw).value, day.raw);
    }
  }

  lemma NoManifestMeansRebuild(h: Host, day: Day, files: Files)
    requires files.manifest == None
    ensures !Completed(h, day, files) && !Legacy(h, day, files)
  {
  }

  lemma OpeningIsTheText(h: Host, day: Day, force: bool, files: Files)
    requires DigestsDistinguish(h)
    ensures var opening := Opening(h, day, force, files);
            opening[|opening| - 1].raw == Some(day.raw)
  {
  }
}
