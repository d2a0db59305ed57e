/**
 * The object processor and its control coordinator as they are written. Around every storage call the other
 * deliveries and the clock move as they like, and every call is a step of ValidationProtocol.
 */
module ValidationProcessor {
  import opened Options
  import opened Storage
  import opened ValidationProtocol
  import opened ValidationSafety
  import opened ValidationRuns

  /** What happens before one call returns: other moves, and the fate of the call. */
  datatype Turn = Turn(others: seq<Move>, fault: Fault)

  /** The step that one call makes. */
  lemma AdvancedState(job: Job, s: State, pid: Pid, w: Worker, fault: Fault)
    requires pid in s.workers && s.workers[pid] == w && Ask(job, w).Some?
    ensures var (shared, response) := Perform(s, Ask(job, w).value, fault);
            && React(job, w, response).delivery == w.delivery
            && Step(job, s, Advance(pid, fault)) ==
               State(shared.objects, shared.now, s.workers[pid := React(job, w, response)])
  {
  }

  /** The shared store and clock as one running delivery meets them. */
  class Runtime {
    const storage: InMemoryObjectStorage<Key, Body>
    const job: Job
    const delivery: Delivery
    const me: Pid
    var clock: int
    var peers: map<Pid, Worker>
    var plan: seq<Turn>
    ghost const origin: State
    ghost var moves: seq<Move>
    ghost var self: Worker

    ghost function Now(): State
      reads this, storage
    {
      State(storage.objects, clock, peers[me := self])
    }

    ghost predicate Valid()
      reads this, storage
    {
      && me !in peers && storage.conditionalRaces == map[] && self.delivery == delivery
      && Origin(origin) && Now() == Exec(job, origin, moves)
    }

    ghost predicate About(request: Request<Key, Body>)
      reads this
    {
      Ask(job, self) == Some(OnStore(request))
    }

    /** The store holds this object now. */
    ghost predicate Stands(key: Key, entry: Entry<Body>)
      reads storage
    {
      key in storage.objects && storage.objects[key] == entry
    }

    constructor (storage: InMemoryObjectStorage<Key, Body>, clock: int, job: Job, delivery: Delivery, me: Pid, plan: seq<Turn>)
      requires storage.conditionalRaces == map[] && Origin(State(storage.objects, clock, map[]))
      ensures Valid() && this.storage == storage && this.job == job && this.delivery == delivery
      ensures self == Worker(delivery, None, HeadSource)
      ensures origin == State(storage.objects, clock, map[]) && moves == [Begin(me, delivery)]
    {
      this.storage, this.clock, this.job, this.delivery, this.me, this.plan := storage, clock, job, delivery, me, plan;
      peers := map[];
      origin := State(storage.objects, clock, map[]);
      moves := [Begin(me, delivery)];
      self := Worker(delivery, None, HeadSource);
      new;
      assert moves[..0] == [];
    }

    /** Whatever every run keeps holds of this delivery, too. */
    lemma KeepsPlan()
      requires Valid()
      ensures Source in storage.objects && WorkerPlan(job, Now(), self)
    {
      hide Exec, Step, Origin, WorkerPlan, MarkerPlanned;
      RunsKeepPlan(job, origin, moves, |moves|);
      assert moves[..|moves|] == moves;
      assert Now().workers[me] == self;
    }

    lemma StandsInRun(key: Key, entry: Entry<Body>)
      requires Valid() && Stands(key, entry)
      ensures key in Exec(job, origin, moves).objects && Exec(job, origin, moves).objects[key] == entry
    {
      hide Exec, Origin;
    }

    /** A marker once seen in the store is still the one that stands there. */
    lemma MarkerStands(earlier: seq<Move>)
      requires Valid() && Continues(earlier, moves)
      requires var before := Exec(job, origin, earlier).objects; Completed in before && before[Completed].body.MarkerDoc?
      ensures Completed in storage.objects
      ensures storage.objects[Completed] == Exec(job, origin, earlier).objects[Completed]
    {
      hide Exec;
      assert moves[..|earlier|] == earlier && moves[..|moves|] == moves;
      MarkerIsFinal(job, origin, moves, |earlier|, |moves|);
    }

    /** Another delivery makes one move, or time passes. */
    method Interfere(move: Move)
      requires Valid() && Foreign(move, me)
      modifies this`clock, this`peers, this`moves, storage`objects
      ensures Valid() && moves == old(moves) + [move]
    {
      var s := Step(job, State(storage.objects, clock, peers), move);
      OthersStepAlone(job, State(storage.objects, clock, peers), me, self, move);
      storage.objects := s.objects;
      clock, peers := s.now, s.workers;
      moves := moves + [move];
      assert moves[..|moves| - 1] == old(moves);
    }

    method Await() returns (fault: Fault)
      requires Valid()
      modifies this`clock, this`peers, this`moves, this`plan, storage`objects
      ensures Valid() && Continues(old(moves), moves)
    {
      if plan == [] {
        return Healthy;
      }
      var others := plan[0].others;
      fault := plan[0].fault;
      plan := plan[1..];
      for i := 0 to |others|
        invariant Valid() && Continues(old(moves), moves)
      {
        if Foreign(others[i], me) {
          Interfere(others[i]);
        }
      }
    }

    /** The delivery's own worker follows the call it has just made. */
    ghost method Record(before: State, fault: Fault)
      requires Origin(origin) && me !in peers && storage.conditionalRaces == map[] && self.delivery == delivery
      requires before == Exec(job, origin, moves) && before.workers == peers[me := self]
      requires Ask(job, self).Some?
      requires Perform(before, Ask(job, self).value, fault).0 == State(storage.objects, clock, before.workers)
      modifies this`moves, this`self
      ensures Valid() && moves == old(moves) + [Advance(me, fault)]
      ensures self == React(job, old(self), Perform(before, Ask(job, old(self)).value, fault).1)
    {
      hide Ask, React, Perform;
      AdvancedState(job, before, me, self, fault);
      self := React(job, self, Perform(before, Ask(job, self).value, fault).1);
      moves := moves + [Advance(me, fault)];
      assert moves[..|moves| - 1] == old(moves);
    }

    method Fetch(key: Key) returns (reply: Reply<Body>)
      requires Valid() && About(Get(key))
      modifies this, storage
      ensures Valid() && Continues(old(moves), moves) && self == React(job, old(self), FromStore(reply))
      ensures reply.Found? || reply.Missing? || reply.Broken?
      ensures reply.Found? ==> Stands(key, reply.entry)
    {
      var fault := Await();
      ghost var before := Now();
      reply := storage.Fetch(key, None);
      if fault.RequestLost? || fault.ReplyLost? {
        reply := Broken;
      }
      Record(before, fault);
    }

    /** A read that pins the version the event named. */
    method FetchPinned() returns (reply: Reply<Body>)
      requires Valid() && (self.pc.HeadSource? || self.pc.GetSource?)
      modifies this, storage
      ensures Valid() && Continues(old(moves), moves)
      ensures reply.Found? || reply.Missing? || reply.Broken?
      ensures reply.Missing? ==> self.pc == Failed(NotFound)
      ensures !reply.Missing? ==> self == React(job, old(self), FromStore(reply))
      ensures reply.Found? ==> Pinned(delivery, reply.entry) && Stands(Source, reply.entry)
    {
      hide EventMatches, Transform, MarkerReads, ReferenceHolds, Reconciles, Exec, Step, Origin;
      var fault := Await();
      ghost var before := Now();
      reply := storage.Fetch(Source, delivery.version);
      if fault.RequestLost? || fault.ReplyLost? {
        reply := Broken;
      }
      Record(before, fault);
    }

    method Store(key: Key, body: Body, condition: Condition<Body>) returns (reply: Reply<Body>)
      requires Valid() && About(Put(key, body, condition))
      modifies this, storage
      ensures Valid() && Continues(old(moves), moves) && self == React(job, old(self), FromStore(reply))
      ensures reply.Stored? || reply.Broken? || (reply.ConditionFailed? && !condition.Always?)
      ensures reply.Stored? ==> key in storage.objects && storage.objects[key] == Written(body)
    {
      var fault := Await();
      ghost var before := Now();
      reply := ConditionFailed;
      if !fault.RequestLost? && (fault.Conflicted? ==> condition.Always?) {
        reply := storage.Store(key, body, condition);
      }
      if fault.RequestLost? || fault.ReplyLost? {
        reply := Broken;
      }
      Record(before, fault);
    }

    method UtcNow() returns (now: int)
      requires Valid() && self.pc.ReadClock?
      modifies this, storage
      ensures Valid() && Continues(old(moves), moves)
      ensures self == old(self).(pc := PutClaim(now)) && self.delivery == delivery
    {
      var fault := Await();
      now := clock;
      Record(Now(), fault);
    }
  }

  /** The referenced object is in the store with the recorded size, checksum and checksum metadata. */
  ghost predicate ReferenceStands(objects: map<Key, Entry<Body>>, reference: Reference) {
    reference.key in objects && ReferenceHolds(reference, Found(objects[reference.key]))
  }

  /** Claims and completion markers of one identity. */
  class ControlCoordinator {
    const runtime: Runtime

    constructor (runtime: Runtime)
      ensures this.runtime == runtime
    {
      this.runtime := runtime;
    }

    /** A fully verified completion marker, or None when there is none. */
    method Completion() returns (r: Result<Option<Marker>, Error>)
      requires runtime.Valid() && runtime.self.pc.FindMarker?
      modifies runtime, runtime.storage
      ensures runtime.Valid() && Continues(old(runtime.moves), runtime.moves)
      ensures var first := old(runtime.self).pc.first;
              && (r.Failure? ==> runtime.self.pc == Failed(r.error))
              && (r.Success? ==> runtime.self == old(runtime.self).(pc :=
                    if r.value.Some? then Returned(if first then DuplicateSkipped else ConcurrentSuccess, r.value.value)
                    else if first then ReadClock else Failed(WinnerAbsent)))
      ensures r.Success? && r.value.Some? ==>
                && Completed in runtime.storage.objects && runtime.storage.objects[Completed].body == MarkerDoc(r.value.value)
                && MarkerReads(runtime.job, runtime.storage.objects[Completed]) && Reconciles(r.value.value)
                && (if r.value.value.quarantineRows > 0 then Names(r.value.value.quarantine, runtime.job.bucket, Quarantine)
                    else r.value.value.quarantine.None?)
    {
      hide Exec, Step, Origin, Runtime.Valid, Runtime.Now, Continues;
      HistoriesContinue<Move>();
      var stored := runtime.Fetch(Completed);
      if stored.Broken? {
        return Failure(Transport);
      }
      if stored.Missing? {
        return Success(None);
      }
      if !MarkerReads(runtime.job, stored.entry) {
        return Failure(MarkerRejected);
      }
      var marker := stored.entry.body.marker;
      ghost var seen := runtime.moves;
      runtime.StandsInRun(Completed, stored.entry);
      :- VerifyReference(marker.staging);
      if marker.quarantineRows > 0 {
        if !Names(marker.quarantine, runtime.job.bucket, Quarantine) {
          return Failure(MarkerRejected);
        }
        :- VerifyReference(marker.quarantine.value);
      } else if marker.quarantine.Some? {
        return Failure(MarkerRejected);
      }
      if !Reconciles(marker) {
        return Failure(MarkerRejected);
      }
      runtime.MarkerStands(seen);
      return Success(Some(marker));
    }

    /** Pass only for a reference that stands. */
    method VerifyReference(reference: Reference) returns (r: Check<Error>)
      requires runtime.Valid() && runtime.About(Get(reference.key))
      requires var pc := runtime.self.pc;
               || (pc.CheckStaging? && reference == pc.marker.staging)
               || (pc.CheckQuarantine? && pc.marker.quarantine == Some(reference))
      modifies runtime, runtime.storage
      ensures runtime.Valid() && Continues(old(runtime.moves), runtime.moves)
      ensures r.Fail? ==> runtime.self.pc == Failed(r.error)
      ensures r.Pass? ==> ReferenceStands(runtime.storage.objects, reference)
      ensures r.Pass? ==>
                var m := old(runtime.self).pc.marker;
                var first := old(runtime.self).pc.first;
                runtime.self == old(runtime.self).(pc :=
                  if old(runtime.self).pc.CheckQuarantine? then Conclude(m, first)
                  else if m.quarantineRows > 0 then
                    if Names(m.quarantine, runtime.job.bucket, Quarantine) then CheckQuarantine(m, first) else Failed(MarkerRejected)
                  else if m.quarantine.Some? then Failed(MarkerRejected)
                  else Conclude(m, first))
    {
      hide Exec, Step, Origin, Runtime.Valid, Runtime.Now, Continues;
      HistoriesContinue<Move>();
      var stored := runtime.Fetch(reference.key);
      if stored.Broken? {
        return Fail(Transport);
      }
      if !ReferenceHolds(reference, stored) {
        return Fail(MarkerRejected);
      }
      return Pass;
    }

    /** Create a claim, or replace exactly the expired claim that was read. */
    method AcquireClaim() returns (r: Check<Error>)
      requires runtime.Valid() && runtime.self.pc.ReadClock?
      modifies runtime, runtime.storage
      ensures runtime.Valid() && Continues(old(runtime.moves), runtime.moves)
      ensures r.Fail? ==> runtime.self.pc == Failed(r.error)
      ensures r.Pass? ==>
                && runtime.self.pc.GetSource? && runtime.self == old(runtime.self).(pc := runtime.self.pc)
                && Claim in runtime.storage.objects
                && runtime.storage.objects[Claim] == Written(ClaimFor(runtime.delivery, runtime.self.pc.now))
    {
      hide Exec, Step, Origin, Runtime.Valid, Runtime.Now, Continues;
      HistoriesContinue<Move>();
      var now := runtime.UtcNow();
      var body := ClaimFor(runtime.delivery, now);
      var reply := runtime.Store(Claim, body, IfNoneMatch);
      if reply.Broken? {
        return Fail(Transport);
      }
      if reply.Stored? {
        return Pass;
      }
      var existing := runtime.Fetch(Claim);
      if existing.Broken? {
        return Fail(Transport);
      }
      if existing.Missing? || !existing.entry.body.ClaimDoc? {
        return Fail(Concurrent);
      }
      if existing.entry.body.expiresAt > now {
        return Fail(Concurrent);
      }
      reply := runtime.Store(Claim, body, IfMatch(existing.entry.head.etag));
      if reply.Broken? {
        return Fail(Transport);
      }
      return if reply.Stored? then Pass else Fail(Concurrent);
    }
  }

  /** The result of one record; it carries the marker's counts and keys. */
  datatype ProcessingResult = ProcessingResult(
    verdict: Verdict,
    identity: string,
    inputRows: int,
    validRows: int,
    quarantineRows: int,
    stagingKey: Key,
    quarantineKey: Option<Key>,
    completionKey: Key
  )

  function ResultFromManifest(marker: Marker, verdict: Verdict): ProcessingResult {
    ProcessingResult(
      verdict, marker.identity, marker.inputRows, marker.validRows, marker.quarantineRows, marker.staging.key,
      if marker.quarantine.Some? then Some(marker.quarantine.value.key) else None, marker.completionKey)
  }

  /** Everything that makes up an object's identity agrees, and a checksum is that of the body read. */
  predicate Identified(head: Entry<Body>, observed: Entry<Body>) {
    && Size(head.body) == Size(observed.body) && head.head.etag == observed.head.etag
    && head.head.version == observed.head.version && head.head.checksum == observed.head.checksum
    && (head.head.checksum.Some? ==> head.head.checksum.value == Digest(observed.body))
  }

  /** The idempotent processor of one daily raw object. */
  class ObjectProcessor {
    const runtime: Runtime
    const control: ControlCoordinator

    constructor (runtime: Runtime, control: ControlCoordinator)
      requires control.runtime == runtime
      ensures this.runtime == runtime && this.control == control
    {
      this.runtime, this.control := runtime, control;
    }

    /** Process one delivery; its result is that of the completion marker standing in the store. */
    method Process() returns (r: Result<ProcessingResult, Error>)
      requires control.runtime == runtime && runtime.Valid() && runtime.self.pc.HeadSource?
      modifies runtime, runtime.storage
      ensures runtime.Valid() && Continues(old(runtime.moves), runtime.moves)
      ensures r.Failure? ==> runtime.self.pc == Failed(r.error)
      ensures r.Success? ==>
                && runtime.self.pc.Returned? && runtime.self.pc.verdict == r.value.verdict
                && Completed in runtime.storage.objects
                && runtime.storage.objects[Completed].body == MarkerDoc(runtime.self.pc.marker)
                && r.value == ResultFromManifest(runtime.self.pc.marker, r.value.verdict)
    {
      r := Run();
      runtime.KeepsPlan();
    }

    method Run() returns (r: Result<ProcessingResult, Error>)
      requires control.runtime == runtime && runtime.Valid() && runtime.self.pc.HeadSource?
      modifies runtime, runtime.storage
      ensures runtime.Valid() && Continues(old(runtime.moves), runtime.moves)
      ensures r.Failure? ==> runtime.self.pc == Failed(r.error)
      ensures r.Success? ==>
                && runtime.self.pc.Returned? && r.value == ResultFromManifest(runtime.self.pc.marker, r.value.verdict)
                && runtime.self.pc.verdict == r.value.verdict
    {
      hide Exec, Step, Origin, Runtime.Valid, Runtime.Now, Continues, EventMatches, Pinned, Identified, Reconciles, MarkerReads;
      HistoriesContinue<Move>();
      var head :- HeadSource();
      var existing :- control.Completion();
      if existing.Some? {
        return Success(ResultFromManifest(existing.value, DuplicateSkipped));
      }
      :- control.AcquireClaim();
      var out :- ReadAndTransform(head);
      r := Publish(out);
    }

    /** The object as the event describes it. */
    method HeadSource() returns (r: Result<Entry<Body>, Error>)
      requires runtime.Valid() && runtime.self.pc.HeadSource?
      modifies runtime, runtime.storage
      ensures runtime.Valid() && Continues(old(runtime.moves), runtime.moves)
      ensures r.Failure? ==> runtime.self.pc == Failed(r.error)
      ensures r.Success? ==> runtime.self.pc == FindMarker(true) && runtime.self.source == Some(r.value)
      ensures r.Success? ==>
                && runtime.Stands(Source, r.value) && Pinned(runtime.delivery, r.value)
                && EventMatches(runtime.delivery, r.value) && Size(r.value.body) <= runtime.job.maximumInputBytes
    {
      var head := runtime.FetchPinned();
      if head.Broken? {
        return Failure(Transport);
      }
      if head.Missing? {
        return Failure(NotFound);
      }
      if !EventMatches(runtime.delivery, head.entry) {
        return Failure(IdentityMismatch);
      }
      if Size(head.entry.body) > runtime.job.maximumInputBytes {
        return Failure(Unprocessable);
      }
      return Success(head.entry);
    }

    /** The body belongs to the verified head, and its rows reconcile. */
    method ReadAndTransform(head: Entry<Body>) returns (r: Result<Outputs, Error>)
      requires runtime.Valid() && runtime.self.pc.GetSource? && runtime.self.source == Some(head)
      modifies runtime, runtime.storage
      ensures runtime.Valid() && Continues(old(runtime.moves), runtime.moves)
      ensures r.Failure? ==> runtime.self.pc == Failed(r.error)
      ensures r.Success? ==> runtime.self.pc == PutStaging(old(runtime.self).pc.now, r.value)
      ensures r.Success? ==>
                && Source in runtime.storage.objects
                && var observed := runtime.storage.objects[Source];
                && Pinned(runtime.delivery, observed) && Identified(head, observed)
                && runtime.job.transform(observed.body) == Accepted(r.value.inputRows, r.value.validRows, r.value.rows, r.value.rejected)
                && r.value.inputRows == r.value.validRows + |r.value.rejected|
                && r.value.stamp == Stamp(head, runtime.delivery)
    {
      var source := runtime.FetchPinned();
      if source.Broken? {
        return Failure(Transport);
      }
      if source.Missing? {
        return Failure(NotFound);
      }
      var observed := source.entry;
      if || Size(head.body) != Size(observed.body) || head.head.etag != observed.head.etag
         || head.head.version != observed.head.version || head.head.checksum != observed.head.checksum
      {
        return Failure(IdentityMismatch);
      }
      if head.head.checksum.Some? && head.head.checksum.value != Digest(observed.body) {
        return Failure(IdentityMismatch);
      }
      var made := runtime.job.transform(observed.body);
      if made.Rejected? || made.inputRows != made.validRows + |made.rejected| {
        return Failure(Unprocessable);
      }
      return Success(Outputs(made.inputRows, made.validRows, made.rows, made.rejected, Stamp(head, runtime.delivery)));
    }

    /** Overwrite the deterministic outputs, then create the marker or accept the winner's. */
    method Publish(out: Outputs) returns (r: Result<ProcessingResult, Error>)
      requires control.runtime == runtime && runtime.Valid()
      requires runtime.self.pc.PutStaging? && runtime.self.pc.out == out
      modifies runtime, runtime.storage
      ensures runtime.Valid() && Continues(old(runtime.moves), runtime.moves)
      ensures r.Failure? ==> runtime.self.pc == Failed(r.error)
      ensures r.Success? ==>
                && runtime.self.pc.Returned? && r.value == ResultFromManifest(runtime.self.pc.marker, r.value.verdict)
                && runtime.self.pc.verdict == r.value.verdict
                && runtime.self.pc.verdict != DuplicateSkipped
                && (runtime.self.pc.verdict == Processed ==> runtime.self.pc.marker == MarkerFor(runtime.job, out))
                && Completed in runtime.storage.objects
                && runtime.storage.objects[Completed].body == MarkerDoc(runtime.self.pc.marker)
    {
      hide Exec, Step, Origin, Runtime.Valid, Runtime.Now, Continues;
      HistoriesContinue<Move>();
      :- WriteOutput(Staging, out.StagingBody());
      if |out.rejected| > 0 {
        :- WriteOutput(Quarantine, out.QuarantineBody());
      }
      var manifest := MarkerFor(runtime.job, out);
      var reply := runtime.Store(Completed, MarkerDoc(manifest), IfNoneMatch);
      if reply.Broken? {
        return Failure(Transport);
      }
      if reply.ConditionFailed? {
        var winner :- control.Completion();
        if winner.None? {
          return Failure(WinnerAbsent);
        }
        return Success(ResultFromManifest(winner.value, ConcurrentSuccess));
      }
      runtime.KeepsPlan();
      return Success(ResultFromManifest(manifest, Processed));
    }

    method WriteOutput(key: Key, body: Body) returns (r: Check<Error>)
      requires runtime.Valid() && runtime.About(Put(key, body, Always))
      modifies runtime, runtime.storage
      ensures runtime.Valid() && Continues(old(runtime.moves), runtime.moves)
      ensures r.Fail? ==> runtime.self.pc == Failed(r.error)
      ensures r.Pass? ==>
                && key in runtime.storage.objects && runtime.storage.objects[key] == Written(body)
                && runtime.self == React(runtime.job, old(runtime.self), FromStore(Stored))
    {
      hide Exec, Step, Origin, Runtime.Valid, Runtime.Now, Continues;
      HistoriesContinue<Move>();
      var reply := runtime.Store(key, body, Always);
      return if reply.Stored? then Pass else Fail(Transport);
    }
  }
}
