/**
 * The daily validation protocol for one input identity: any number of deliveries of the same source object
 * share its claim, outputs and completion marker in an object store, and one clock.
 *
 * An invocation is a worker with a program counter; Ask, React, Step and Exec are as in PublicationProtocol.
 */
module ValidationProtocol {
  import opened Options
  import opened Storage
  import opened Versions

  type Pid = nat

  /** The source object and the four keys derived from its identity. */
  datatype Key = Source | Staging | Quarantine | Claim | Completed

  datatype Reference = Reference(bucket: string, key: Key, size: nat, sha256: Digest<Body>)

  datatype Reconciliation = Reconciliation(
    accounted: int, applicable: bool, input: int, matches: bool, quarantined: int, valid: int)

  datatype Marker = Marker(
    identity: string,
    completionKey: Key,
    manifestVersion: string,
    pipelineVersion: string,
    schemaVersion: string,
    inputRows: int,
    validRows: int,
    quarantineRows: int,
    staging: Reference,
    quarantine: Option<Reference>,
    reconciliation: Reconciliation,
    processedAt: int
  )

  datatype Body =
    | Bytes(content: seq<int>)
    | ClaimDoc(startedAt: int, expiresAt: int, owner: string)
    | MarkerDoc(marker: Marker)

  function Size(body: Body): nat {
    if body.Bytes? then |body.content| else 1
  }

  /** Sixteen minutes. */
  const CLAIM_TTL: int := 16 * 60

  /** What the transformation makes of the source text; the processing timestamp plays no part in it. */
  datatype Transformed =
    | Rejected
    | Accepted(inputRows: nat, validRows: nat, rows: seq<int>, rejected: seq<seq<int>>)

  /** The configuration shared by every delivery of one source object. */
  datatype Job = Job(
    identity: string,
    bucket: string,
    pipelineVersion: string,
    maximumInputBytes: nat,
    transform: Body -> Transformed
  )

  /** The outputs of one delivery: both files carry the processing timestamp. */
  datatype Outputs = Outputs(inputRows: nat, validRows: nat, rows: seq<int>, rejected: seq<seq<int>>, stamp: int) {
    function StagingBody(): Body {
      Bytes([stamp] + rows)
    }

    function QuarantineBody(): Body {
      Bytes(Lines(rejected, stamp))
    }
  }

  /** One JSON line per rejected row, or no bytes at all. */
  function Lines(rejected: seq<seq<int>>, stamp: int): (bytes: seq<int>)
    ensures bytes == [] <==> rejected == []
  {
    if rejected == [] then [] else [stamp] + rejected[0] + ['\n' as int] + Lines(rejected[1..], stamp)
  }

  function MarkerFor(job: Job, out: Outputs): Marker {
    var staging := out.StagingBody();
    var quarantine := out.QuarantineBody();
    var count := |out.rejected|;
    Marker(
      job.identity, Completed, MANIFEST_VERSION, job.pipelineVersion, SCHEMA_VERSION,
      out.inputRows, out.validRows, count,
      Reference(job.bucket, Staging, Size(staging), Digest(staging)),
      if count > 0 then Some(Reference(job.bucket, Quarantine, Size(quarantine), Digest(quarantine))) else None,
      Reconciliation(out.validRows + count, true, out.inputRows, out.inputRows == out.validRows + count, count, out.validRows),
      out.stamp)
  }

  /** One event record, and the request that carries it. */
  datatype Delivery = Delivery(size: int, etag: Option<Digest<Body>>, version: Option<string>, eventTime: int, owner: string)

  datatype Error =
    | NotFound              // ObjectNotFound
    | IdentityMismatch      // ObjectIdentityMismatch
    | Unprocessable         // ProcessingError
    | Concurrent            // ConcurrentProcessing
    | MarkerRejected        // CompletionMarkerInvalid about a marker that was read
    | WinnerAbsent          // CompletionMarkerInvalid because no marker was found after a lost race
    | Transport             // any other exception of the client

  datatype Verdict = Processed | DuplicateSkipped | ConcurrentSuccess

  datatype Pc =
    | HeadSource
    | FindMarker(first: bool)
    | CheckStaging(marker: Marker, first: bool)
    | CheckQuarantine(marker: Marker, first: bool)
    | ReadClock
    | PutClaim(now: int) | ReadClaim(now: int) | ReplaceClaim(now: int, etag: Digest<Body>)
    | GetSource(now: int)
    | PutStaging(now: int, out: Outputs)
    | PutQuarantine(now: int, out: Outputs)
    | PutMarker(now: int, out: Outputs)
    | Returned(verdict: Verdict, marker: Marker)
    | Failed(error: Error)

  /** An invocation, with the source head it verified at the beginning. */
  datatype Worker = Worker(delivery: Delivery, source: Option<Entry<Body>>, pc: Pc)

  datatype Call = OnStore(request: Request<Key, Body>) | AskClock

  datatype Response = FromStore(reply: Reply<Body>) | Time(now: int)

  function ClaimFor(delivery: Delivery, now: int): Body {
    ClaimDoc(now, now + CLAIM_TTL, delivery.owner)
  }

  function Ask(job: Job, w: Worker): Option<Call> {
    match w.pc
    case HeadSource => Some(OnStore(Get(Source)))
    case FindMarker(_) => Some(OnStore(Get(Completed)))
    case CheckStaging(_, _) => Some(OnStore(Get(Staging)))
    case CheckQuarantine(_, _) => Some(OnStore(Get(Quarantine)))
    case ReadClock => Some(AskClock)
    case PutClaim(now) => Some(OnStore(Put(Claim, ClaimFor(w.delivery, now), IfNoneMatch)))
    case ReadClaim(_) => Some(OnStore(Get(Claim)))
    case ReplaceClaim(now, etag) => Some(OnStore(Put(Claim, ClaimFor(w.delivery, now), IfMatch(etag))))
    case GetSource(_) => Some(OnStore(Get(Source)))
    case PutStaging(_, out) => Some(OnStore(Put(Staging, out.StagingBody(), Always)))
    case PutQuarantine(_, out) => Some(OnStore(Put(Quarantine, out.QuarantineBody(), Always)))
    case PutMarker(_, out) => Some(OnStore(Put(Completed, MarkerDoc(MarkerFor(job, out)), IfNoneMatch)))
    case Returned(_, _) => None
    case Failed(_) => None
  }

  function React(job: Job, w: Worker, response: Response): Worker {
    match response
    case Time(now) => if w.pc.ReadClock? then w.(pc := PutClaim(now)) else w
    case FromStore(reply) =>
      if reply.Broken? then w.(pc := Failed(Transport))
      else if w.pc.HeadSource? then AfterHead(job, w, reply)
      else w.(pc := ReactToStore(job, w, reply))
  }

  /** The event must describe the object, and the object must be small enough. */
  function AfterHead(job: Job, w: Worker, reply: Reply<Body>): Worker {
    if !reply.Found? || !Pinned(w.delivery, reply.entry) then w.(pc := Failed(NotFound))
    else if !EventMatches(w.delivery, reply.entry) then w.(pc := Failed(IdentityMismatch))
    else if Size(reply.entry.body) > job.maximumInputBytes then w.(pc := Failed(Unprocessable))
    else w.(source := Some(reply.entry), pc := FindMarker(true))
  }

  /** A read that pins a version finds only that version. */
  predicate Pinned(delivery: Delivery, entry: Entry<Body>) {
    delivery.version.Some? ==> entry.head.version == delivery.version
  }

  predicate EventMatches(delivery: Delivery, entry: Entry<Body>) {
    && delivery.size == Size(entry.body)
    && (delivery.etag.Some? ==> delivery.etag.value == entry.head.etag)
    && (delivery.version.Some? ==> delivery.version == entry.head.version)
  }

  function ReactToStore(job: Job, w: Worker, reply: Reply<Body>): Pc {
    match w.pc
    case FindMarker(first) =>
      if reply.Missing? then (if first then ReadClock else Failed(WinnerAbsent))
      else if reply.Found? && MarkerReads(job, reply.entry) then CheckStaging(reply.entry.body.marker, first)
      else Failed(MarkerRejected)
    case CheckStaging(marker, first) =>
      if !ReferenceHolds(marker.staging, reply) then Failed(MarkerRejected)
      else if marker.quarantineRows > 0 then
        if Names(marker.quarantine, job.bucket, Quarantine) then CheckQuarantine(marker, first) else Failed(MarkerRejected)
      else if marker.quarantine.Some? then Failed(MarkerRejected)
      else Conclude(marker, first)
    case CheckQuarantine(marker, first) =>
      if marker.quarantine.Some? && ReferenceHolds(marker.quarantine.value, reply) then Conclude(marker, first)
      else Failed(MarkerRejected)
    case PutClaim(now) => if reply.Stored? then GetSource(now) else ReadClaim(now)
    case ReadClaim(now) =>
      if reply.Found? && reply.entry.body.ClaimDoc? && reply.entry.body.expiresAt <= now
      then ReplaceClaim(now, reply.entry.head.etag) else Failed(Concurrent)
    case ReplaceClaim(now, _) => if reply.Stored? then GetSource(now) else Failed(Concurrent)
    case GetSource(now) =>
      if !reply.Found? || w.source.None? || !Pinned(w.delivery, reply.entry) then Failed(NotFound)
      else Transform(job, w.delivery, now, w.source.value, reply.entry)
    case PutStaging(now, out) => if |out.rejected| > 0 then PutQuarantine(now, out) else PutMarker(now, out)
    case PutQuarantine(now, out) => PutMarker(now, out)
    case PutMarker(_, out) => if reply.Stored? then Returned(Processed, MarkerFor(job, out)) else FindMarker(false)
    case _ => w.pc
  }

  /** The body read must be the object whose head was verified; then its rows must reconcile. */
  function Transform(job: Job, delivery: Delivery, now: int, expected: Entry<Body>, observed: Entry<Body>): Pc {
    if || Size(expected.body) != Size(observed.body) || expected.head.etag != observed.head.etag
       || expected.head.version != observed.head.version || expected.head.checksum != observed.head.checksum
    then Failed(IdentityMismatch)
    else if expected.head.checksum.Some? && expected.head.checksum.value != Digest(observed.body)
    then Failed(IdentityMismatch)
    else
      var made := job.transform(observed.body);
      if made.Rejected? || made.inputRows != made.validRows + |made.rejected| then Failed(Unprocessable)
      else PutStaging(now, Outputs(made.inputRows, made.validRows, made.rows, made.rejected, Stamp(expected, delivery)))
  }

  /** The processing timestamp: the object's LastModified, or failing that the event's time. */
  function Stamp(source: Entry<Body>, delivery: Delivery): int {
    if source.head.lastModified.Some? then source.head.lastModified.value else delivery.eventTime
  }

  predicate MarkerReads(job: Job, entry: Entry<Body>) {
    && entry.body.MarkerDoc?
    && entry.head.sha256 == Some(Digest(entry.body))
    && var m := entry.body.marker;
    && m.identity == job.identity && m.completionKey == Completed
    && m.manifestVersion == MANIFEST_VERSION && m.pipelineVersion == job.pipelineVersion && m.schemaVersion == SCHEMA_VERSION
    && m.inputRows == m.validRows + m.quarantineRows
    && Names(Some(m.staging), job.bucket, Staging)
  }

  predicate Names(reference: Option<Reference>, bucket: string, key: Key) {
    reference.Some? && reference.value.bucket == bucket && reference.value.key == key
  }

  predicate ReferenceHolds(reference: Reference, reply: Reply<Body>) {
    && reply.Found?
    && Size(reply.entry.body) == reference.size
    && Digest(reply.entry.body) == reference.sha256
    && reply.entry.head.sha256 == Some(reference.sha256)
  }

  predicate Reconciles(m: Marker) {
    m.reconciliation == Reconciliation(m.validRows + m.quarantineRows, true, m.inputRows, true, m.quarantineRows, m.validRows)
  }

  function Conclude(marker: Marker, first: bool): Pc {
    if !Reconciles(marker) then Failed(MarkerRejected)
    else Returned(if first then DuplicateSkipped else ConcurrentSuccess, marker)
  }

  datatype State = State(objects: map<Key, Entry<Body>>, now: int, workers: map<Pid, Worker>)

  datatype Move =
    | Begin(pid: Pid, delivery: Delivery)
    | Advance(pid: Pid, fault: Fault)
    | Tick(seconds: nat)
    | Reupload(modified: Option<int>)   // the same bytes are stored again under the source key

  /** The same object, whenever it was stored: nothing that enters its identity differs. */
  predicate SameObject(a: Entry<Body>, b: Entry<Body>) {
    a == b.(head := b.head.(lastModified := a.head.lastModified))
  }

  /**
   * The source after its bytes are stored again. A versioned object keeps its version and time, because the new
   * upload is another version with another identity; an unversioned one keeps its identity and changes its time.
   */
  function Reuploaded(source: Entry<Body>, modified: Option<int>): Entry<Body> {
    if source.head.version.Some? then source else source.(head := source.head.(lastModified := modified))
  }

  function Perform(s: State, call: Call, fault: Fault): (State, Response) {
    match call
    case AskClock => (s, Time(s.now))
    case OnStore(request) => (s.(objects := After(s.objects, request, fault)), FromStore(Answer(s.objects, request, fault)))
  }

  function Step(job: Job, s: State, move: Move): State {
    match move
    case Tick(seconds) => s.(now := s.now + seconds)
    case Reupload(modified) =>
      if Source in s.objects then s.(objects := s.objects[Source := Reuploaded(s.objects[Source], modified)]) else s
    case Begin(pid, delivery) =>
      if pid in s.workers then s else s.(workers := s.workers[pid := Worker(delivery, None, HeadSource)])
    case Advance(pid, fault) =>
      if pid !in s.workers || Ask(job, s.workers[pid]).None? then s
      else
        var (shared, response) := Perform(s, Ask(job, s.workers[pid]).value, fault);
        shared.(workers := s.workers[pid := React(job, s.workers[pid], response)])
  }

  function Exec(job: Job, origin: State, moves: seq<Move>): State {
    if moves == [] then origin else Step(job, Exec(job, origin, moves[..|moves| - 1]), moves[|moves| - 1])
  }
}
