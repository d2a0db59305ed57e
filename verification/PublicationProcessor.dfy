/**
 * The compaction processor and the Glue publisher as they are written: methods that call the store and the
 * catalog one after the other. Around every call the other invocations take any steps they like, and every
 * call the methods make is a step of PublicationProtocol, so its theorems hold of this code.
 */
module PublicationProcessor {
  import opened Options
  import opened Storage
  import opened PublicationProtocol
  import opened PublicationSafety
  import opened PublicationRuns

  /** What the world does before one call returns: other invocations' moves, and the fate of the call. */
  datatype Turn = Turn(others: seq<Move>, fault: Fault)

  /** The step that one call makes. */
  lemma AdvancedState(s: State, pid: Pid, inv: Invocation, pc: Pc, fault: Fault)
    requires pid in s.workers && s.workers[pid] == Worker(inv, pc) && Ask(inv, pc).Some?
    ensures var (shared, response) := Perform(s, Ask(inv, pc).value, fault);
            Step(s, Advance(pid, fault)) ==
            State(shared.objects, shared.partition, shared.inflight, s.workers[pid := Worker(inv, React(inv, pc, response))])
  {
  }

  /** The shared store and catalog as one running invocation meets them. */
  class Cloud {
    const storage: InMemoryObjectStorage<Key, Body>
    var partition: Option<Location>
    var inflight: set<Mutation>
    var peers: map<Pid, Worker>       // the other invocations
    var plan: seq<Turn>               // any schedule and any faults
    const me: Pid
    const invocation: Invocation
    ghost const origin: State
    ghost var moves: seq<Move>
    ghost var pc: Pc

    ghost function Now(): State
      reads this, storage
    {
      State(storage.objects, partition, inflight, peers[me := Worker(invocation, pc)])
    }

    /** The present state is where the recorded moves lead. */
    ghost predicate Valid()
      reads this, storage
    {
      && me !in peers && storage.conditionalRaces == map[]
      && Origin(origin) && Now() == Exec(origin, moves)
    }

    ghost predicate About(request: Request<Key, Body>)
      reads this
    {
      Ask(invocation, pc) == Some(OnStore(request))
    }

    constructor (storage: InMemoryObjectStorage<Key, Body>, partition: Option<Location>, invocation: Invocation,
                 me: Pid, plan: seq<Turn>)
      requires storage.conditionalRaces == map[]
      requires partition.Some? ==> partition.value.RunDirectory? && RunComplete(storage.objects, partition.value.run)
      ensures Valid() && this.storage == storage && this.invocation == invocation && pc == Start(invocation)
      ensures origin == State(storage.objects, partition, {}, map[]) && moves == [Begin(me, invocation)]
    {
      this.storage, this.partition, this.invocation, this.me, this.plan := storage, partition, invocation, me, plan;
      inflight, peers := {}, map[];
      origin := State(storage.objects, partition, {}, map[]);
      moves := [Begin(me, invocation)];
      pc := Start(invocation);
      new;
      assert moves[..0] == [];
    }

    /** Whatever every run keeps holds of this invocation, too. */
    lemma KeepsInvariant()
      requires Valid()
      ensures Inv(Now()) && WorkerInv(storage.objects, Worker(invocation, pc))
    {
      hide Exec, Step, Origin, WorkerInv, MutationInv, Visible;
      RunsKeepInv(origin, moves, |moves|);
      assert moves[..|moves|] == moves;
      assert Now().workers[me] == Worker(invocation, pc);
    }

    /** Another invocation, or Glue, makes one move. */
    method Interfere(move: Move)
      requires Valid() && Foreign(move, me)
      modifies this`partition, this`inflight, this`peers, this`moves, storage`objects
      ensures Valid() && moves == old(moves) + [move]
    {
      var s := Step(State(storage.objects, partition, inflight, peers), move);
      OthersStepAlone(State(storage.objects, partition, inflight, peers), me, Worker(invocation, pc), move);
      storage.objects := s.objects;
      partition, inflight, peers := s.partition, s.inflight, s.workers;
      moves := moves + [move];
      assert moves[..|moves| - 1] == old(moves);
    }

    /** Everything that happens before the next call of this invocation is carried out. */
    method Await() returns (fault: Fault)
      requires Valid()
      modifies this`partition, this`inflight, this`peers, this`moves, this`plan, storage`objects
      ensures Valid() && Continues(old(moves), moves)
    {
      if plan == [] {
        return Healthy;
      }
      var others := plan[0].others;
      fault := plan[0].fault;
      plan := plan[1..];
      for i := 0 to |others|
        invariant Valid() && Continues(old(moves), moves)
      {
        if Foreign(others[i], me) {
          Interfere(others[i]);
        }
      }
    }

    /** The invocation's own program counter follows the call it has just made. */
    ghost method Record(before: State, fault: Fault)
      requires Origin(origin) && me !in peers && storage.conditionalRaces == map[]
      requires before == Exec(origin, moves) && before.workers == peers[me := Worker(invocation, pc)]
      requires Ask(invocation, pc).Some?
      requires Perform(before, Ask(invocation, pc).value, fault).0
               == State(storage.objects, partition, inflight, before.workers)
      modifies this`moves, this`pc
      ensures Valid() && moves == old(moves) + [Advance(me, fault)]
      ensures pc == React(invocation, old(pc), Perform(before, Ask(invocation, old(pc)).value, fault).1)
    {
      hide Ask, React, Perform;
      AdvancedState(before, me, invocation, pc, fault);
      pc := React(invocation, pc, Perform(before, Ask(invocation, pc).value, fault).1);
      moves := moves + [Advance(me, fault)];
      assert moves[..|moves| - 1] == old(moves);
    }

    method Fetch(key: Key) returns (reply: Reply<Body>)
      requires Valid() && About(Get(key))
      modifies this, storage
      ensures Valid() && Continues(old(moves), moves) && pc == ReactToStore(invocation, old(pc), reply)
      ensures reply.Found? || reply.Missing? || reply.Broken?
      ensures reply.Found? ==> key in storage.objects && storage.objects[key] == reply.entry
    {
      var fault := Await();
      ghost var before := Now();
      reply := storage.Fetch(key, None);
      if fault.RequestLost? || fault.ReplyLost? {
        reply := Broken;
      }
      Record(before, fault);
    }

    method Store(key: Key, body: Body, condition: Condition<Body>) returns (reply: Reply<Body>)
      requires Valid() && About(Put(key, body, condition)) && !condition.Always?
      modifies this, storage
      ensures Valid() && Continues(old(moves), moves) && pc == ReactToStore(invocation, old(pc), reply)
      ensures reply.Stored? || reply.ConditionFailed? || reply.Broken?
      ensures reply.Stored? ==> Holds(storage.objects, key, body)
    {
      var fault := Await();
      ghost var before := Now();
      reply := ConditionFailed;
      if !fault.RequestLost? && !fault.Conflicted? {
        reply := storage.Store(key, body, condition);
      }
      if fault.RequestLost? || fault.ReplyLost? {
        reply := Broken;
      }
      Record(before, fault);
    }

    /** Glue's GetPartition: None in the error for a client exception other than "not found". */
    method ReadLocation() returns (r: Result<Option<Location>, Conflict>)
      requires Valid() && Ask(invocation, pc) == Some(ReadPartition)
      modifies this, storage
      ensures Valid() && Continues(old(moves), moves)
      ensures r.Success? ==> pc == ReactToPartition(invocation, old(pc), r.value)
      ensures r.Failure? ==> r.error == Transport && pc == Failed(Transport)
    {
      var fault := Await();
      ghost var before := Now();
      r := if fault.RequestLost? || fault.ReplyLost? then Failure(Transport) else Success(partition);
      Record(before, fault);
    }

    /** Glue's UpdatePartition or CreatePartition; whatever it answers is ignored. */
    method SendMutation(creates: bool, location: Location)
      requires Valid()
      requires Ask(invocation, pc) == Some(Mutate(Mutation(creates, location, invocation.owner, invocation.run)))
      modifies this, storage
      ensures Valid() && Continues(old(moves), moves) && pc == React(invocation, old(pc), Unclear)
    {
      var fault := Await();
      ghost var before := Now();
      if !fault.RequestLost? {
        inflight := inflight + {Mutation(creates, location, invocation.owner, invocation.run)};
      }
      Record(before, fault);
    }
  }

  /** The catalog publisher. */
  class GluePartitionPublisher {
    const cloud: Cloud

    constructor (cloud: Cloud)
      ensures this.cloud == cloud
    {
      this.cloud := cloud;
    }

    /** Create, update or confirm the partition, accepting only an exact read-back. */
    method Publish(location: Location, expectedCurrentLocation: Option<Location>) returns (r: Result<Outcome, Conflict>)
      requires cloud.Valid() && cloud.pc.GetPartition? && location == cloud.invocation.Location()
      requires expectedCurrentLocation == if cloud.pc.mode.Retry? then Some(location) else cloud.invocation.expected
      modifies cloud, cloud.storage
      ensures cloud.Valid() && Continues(old(cloud.moves), cloud.moves)
      ensures r.Success? ==> cloud.pc == AfterPublish(old(cloud.pc).mode, r.value)
      ensures r.Failure? ==> cloud.pc == Failed(r.error)
    {
      hide Exec, Step, Origin, Cloud.Valid, Cloud.Now, Continues;
      HistoriesContinue<Move>();
      var outcome: Outcome;
      var current :- cloud.ReadLocation();
      if current.Some? {
        if current.value == location {
          return Success(NoOp);
        }
        if expectedCurrentLocation.None? || current.value != expectedCurrentLocation.value {
          return Failure(Publication);
        }
        cloud.SendMutation(false, location);
        outcome := Updated;
      } else {
        if expectedCurrentLocation.Some? {
          return Failure(Publication);
        }
        cloud.SendMutation(true, location);
        outcome := Created;
      }
      var observed :- cloud.ReadLocation();
      if observed.None? || observed.value != location {
        return Failure(Publication);
      }
      return Success(outcome);
    }
  }

  datatype Summary = Summary(
    run: string,
    location: Location,
    outcome: Outcome,
    owner: string,
    processedAt: Instant,
    newlyCompleted: bool,
    newlyPublished: bool
  ) {
    function Status(): string {
      if newlyPublished then "published" else "verified_no_op"
    }
  }

  /** The S3 processor of one invocation. */
  class S3MonthlyCompactionProcessor {
    const cloud: Cloud
    const publisher: GluePartitionPublisher

    constructor (cloud: Cloud, publisher: GluePartitionPublisher)
      requires publisher.cloud == cloud
      ensures this.cloud == cloud && this.publisher == publisher
    {
      this.cloud, this.publisher := cloud, publisher;
    }

    /** Construct, complete and expose one immutable monthly run. */
    method Process() returns (r: Result<Summary, Conflict>)
      requires publisher.cloud == cloud && cloud.Valid() && cloud.pc == Start(cloud.invocation)
      modifies cloud, cloud.storage
      ensures cloud.Valid() && Continues(old(cloud.moves), cloud.moves) && Inv(cloud.Now())
      ensures r.Failure? ==> cloud.pc == Failed(r.error)
      ensures r.Success? ==>
                && cloud.pc == Finished(r.value.outcome, r.value.newlyCompleted, r.value.newlyPublished)
                && r.value.run == cloud.invocation.run && r.value.location == cloud.invocation.Location()
                && r.value.owner == cloud.invocation.owner && r.value.processedAt == cloud.invocation.processedAt
                && Published(r.value.run) in cloud.storage.objects
                && RunComplete(cloud.storage.objects, r.value.run)
    {
      r := Run();
      cloud.KeepsInvariant();
      if r.Success? {
        CompleteWhenFinished(cloud.storage.objects, Worker(cloud.invocation, cloud.pc));
      }
    }

    method Run() returns (r: Result<Summary, Conflict>)
      requires publisher.cloud == cloud && cloud.Valid() && cloud.pc == Start(cloud.invocation)
      modifies cloud, cloud.storage
      ensures cloud.Valid() && Continues(old(cloud.moves), cloud.moves)
      ensures r.Failure? ==> cloud.pc == Failed(r.error)
      ensures r.Success? ==>
                && cloud.pc == Finished(r.value.outcome, r.value.newlyCompleted, r.value.newlyPublished)
                && r.value.run == cloud.invocation.run && r.value.location == cloud.invocation.Location()
                && r.value.owner == cloud.invocation.owner && r.value.processedAt == cloud.invocation.processedAt
    {
      hide Exec, Step, Origin, Cloud.Valid, Cloud.Now, Holds, CompletedAlike, ReactToStore, NonBlank, Continues;
      HistoriesContinue<Move>();
      var inv := cloud.invocation;
      if !inv.processedAt.zoned || !NonBlank(inv.owner) {
        return Failure(InvalidArguments);
      }
      var priorReceipt :- ReadReceipt(Published(inv.run));
      if priorReceipt.Some? {
        :- VerifyCompletedPublication(priorReceipt.value);
        var confirmed :- publisher.Publish(inv.Location(), Some(inv.Location()));
        return Success(Result(confirmed, false, false));
      }
      var newlyCompleted :- Construct();
      :- OwnMonth();
      r := Expose(newlyCompleted);
    }

    /** First own the run's key prefix and store its three objects. */
    method Construct() returns (r: Result<bool, Conflict>)
      requires cloud.Valid() && cloud.pc.PutClaim?
      modifies cloud, cloud.storage
      ensures cloud.Valid() && Continues(old(cloud.moves), cloud.moves)
      ensures r.Failure? ==> cloud.pc == Failed(r.error)
      ensures r.Success? ==> cloud.pc == PutMonthClaim(r.value)
    {
      hide Exec, Step, Origin, Cloud.Valid, Cloud.Now, Holds, CompletedAlike, ReactToStore, NonBlank, Continues;
      HistoriesContinue<Move>();
      var inv := cloud.invocation;
      :- AcquireOwnedClaim(ConstructionClaim(inv.run), inv.ConstructionDoc());
      :- VerifyOwnClaim(ConstructionClaim(inv.run), inv.ConstructionDoc());
      var _ :- PutImmutable(Data(inv.run, Selection), inv.selectionBody);
      var _ :- PutImmutable(Data(inv.run, Curated), inv.curatedBody);
      r := PutImmutable(Data(inv.run, Completion), inv.completionBody);
    }

    /** Then own the month. */
    method OwnMonth() returns (r: Check<Conflict>)
      requires cloud.Valid() && cloud.pc.PutMonthClaim?
      modifies cloud, cloud.storage
      ensures cloud.Valid() && Continues(old(cloud.moves), cloud.moves)
      ensures r.Fail? ==> cloud.pc == Failed(r.error)
      ensures r.Pass? ==> cloud.pc == GetPartition(Publish(old(cloud.pc).completed))
    {
      hide Exec, Step, Origin, Cloud.Valid, Cloud.Now, Continues;
      HistoriesContinue<Move>();
      r := AcquirePublicationClaim(MonthClaim, cloud.invocation.MonthDoc(), cloud.invocation.authorized);
      if r.Pass? {
        r := VerifyOwnClaim(MonthClaim, cloud.invocation.MonthDoc());
      }
    }

    /** Then switch the partition and leave a receipt. */
    method Expose(newlyCompleted: bool) returns (r: Result<Summary, Conflict>)
      requires publisher.cloud == cloud && cloud.Valid() && cloud.pc == GetPartition(Publish(newlyCompleted))
      modifies cloud, cloud.storage
      ensures cloud.Valid() && Continues(old(cloud.moves), cloud.moves)
      ensures r.Failure? ==> cloud.pc == Failed(r.error)
      ensures r.Success? ==>
                && cloud.pc == Finished(r.value.outcome, r.value.newlyCompleted, r.value.newlyPublished)
                && r.value == Result(r.value.outcome, newlyCompleted, r.value.newlyPublished)
    {
      hide Exec, Step, Origin, Cloud.Valid, Cloud.Now, Holds, CompletedAlike, ReactToStore, NonBlank, Continues;
      HistoriesContinue<Move>();
      var inv := cloud.invocation;
      var publication :- publisher.Publish(inv.Location(), inv.expected);
      :- VerifyOwnClaim(MonthClaim, inv.MonthDoc());
      var newlyPublished :- PutImmutable(Published(inv.run), inv.Receipt(publication));
      return Success(Result(publication, newlyCompleted, newlyPublished));
    }

    function Result(outcome: Outcome, newlyCompleted: bool, newlyPublished: bool): Summary
      reads cloud
    {
      Summary(cloud.invocation.run, cloud.invocation.Location(), outcome, cloud.invocation.owner,
              cloud.invocation.processedAt, newlyCompleted, newlyPublished)
    }

    /** The receipt of an earlier invocation, when there is one that reads as a JSON object. */
    method ReadReceipt(key: Key) returns (r: Result<Option<Body>, Conflict>)
      requires cloud.Valid() && cloud.pc.ReadReceipt? && key == Published(cloud.invocation.run)
      modifies cloud, cloud.storage
      ensures cloud.Valid() && Continues(old(cloud.moves), cloud.moves)
      ensures r.Failure? ==> cloud.pc == Failed(r.error)
      ensures r.Success? && r.value.None? ==> cloud.pc.PutClaim?
      ensures r.Success? && r.value.Some? ==>
                cloud.pc == if cloud.invocation.AcceptsReceipt(r.value.value) then CheckPart(Selection)
                            else Failed(ImmutableOutput)
    {
      var reply := cloud.Fetch(key);
      match reply {
        case Missing => return Success(None);
        case Found(entry) =>
          if entry.body.Bytes? {
            return Failure(ImmutableOutput);
          }
          return Success(Some(entry.body));
        case _ => return Failure(Transport);
      }
    }

    /** The receipt and the three immutable objects must all be the ones this invocation would have written. */
    method VerifyCompletedPublication(receipt: Body) returns (r: Check<Conflict>)
      requires cloud.Valid()
      requires cloud.pc == if cloud.invocation.AcceptsReceipt(receipt) then CheckPart(Selection) else Failed(ImmutableOutput)
      modifies cloud, cloud.storage
      ensures cloud.Valid() && Continues(old(cloud.moves), cloud.moves)
      ensures r.Fail? ==> cloud.pc == Failed(r.error)
      ensures r.Pass? ==> cloud.pc == GetPartition(Retry) && cloud.invocation.AcceptsReceipt(receipt)
      ensures r.Pass? ==> CompletedAlike(cloud.storage.objects, cloud.invocation)
    {
      hide Exec, Step, Origin, Cloud.Valid, Cloud.Now, WorkerInv, Continues;
      HistoriesContinue<Move>();
      if !cloud.invocation.AcceptsReceipt(receipt) {
        return Fail(ImmutableOutput);
      }
      var parts := [Selection, Curated, Completion];
      for i := 0 to |parts|
        invariant cloud.Valid() && Continues(old(cloud.moves), cloud.moves)
        invariant cloud.pc == if i < |parts| then CheckPart(parts[i]) else GetPartition(Retry)
      {
        var reply := cloud.Fetch(Data(cloud.invocation.run, parts[i]));
        if reply.Broken? {
          return Fail(Transport);
        }
        if reply.Missing? || reply.entry.body != cloud.invocation.Payload(parts[i]) {
          return Fail(ImmutableOutput);
        }
      }
      cloud.KeepsInvariant();
      RetriesAreBacked(cloud.storage.objects, Worker(cloud.invocation, cloud.pc));
      return Pass;
    }

    /** Create an object, or accept an existing one with exactly these bytes. */
    method PutImmutable(key: Key, body: Body) returns (r: Result<bool, Conflict>)
      requires cloud.Valid() && cloud.About(Put(key, body, IfNoneMatch)) && (cloud.pc.PutPart? || cloud.pc.PutReceipt?)
      modifies cloud, cloud.storage
      ensures cloud.Valid() && Continues(old(cloud.moves), cloud.moves)
      ensures r.Failure? ==> cloud.pc == Failed(r.error)
      ensures r.Success? ==>
                && Holds(cloud.storage.objects, key, body)
                && cloud.pc == if old(cloud.pc).PutPart? then AfterPart(old(cloud.pc).part, r.value)
                               else Finished(old(cloud.pc).outcome, old(cloud.pc).completed, r.value)
    {
      hide Exec, Step, Origin, Cloud.Valid, Cloud.Now, Continues;
      HistoriesContinue<Move>();
      var reply := cloud.Store(key, body, IfNoneMatch);
      if reply.Stored? {
        return Success(true);
      }
      if reply.Broken? {
        return Failure(Transport);
      }
      var existing := cloud.Fetch(key);
      match existing {
        case Found(entry) =>
          if entry.body != body {
            return Failure(ImmutableOutput);
          }
          return Success(false);
        case Missing => return Failure(NotFound);
        case _ => return Failure(Transport);
      }
    }

    method AcquireOwnedClaim(key: Key, body: Body) returns (r: Check<Conflict>)
      requires cloud.Valid() && cloud.About(Put(key, body, IfNoneMatch)) && cloud.pc.PutClaim?
      modifies cloud, cloud.storage
      ensures cloud.Valid() && Continues(old(cloud.moves), cloud.moves)
      ensures r.Fail? ==> cloud.pc == Failed(r.error)
      ensures r.Pass? ==> cloud.pc.VerifyClaim? && Holds(cloud.storage.objects, key, body)
    {
      hide Exec, Step, Origin, Cloud.Valid, Cloud.Now, Continues;
      HistoriesContinue<Move>();
      var reply := cloud.Store(key, body, IfNoneMatch);
      if reply.Stored? {
        return Pass;
      }
      if reply.Broken? {
        return Fail(Transport);
      }
      var existing := cloud.Fetch(key);
      match existing {
        case Found(entry) =>
          if entry.body != body {
            return Fail(Publication);
          }
          return Pass;
        case Missing => return Fail(NotFound);
        case _ => return Fail(Transport);
      }
    }

    /** Create the month claim, or replace exactly the claim an operator authorized. */
    method AcquirePublicationClaim(key: Key, body: Body, authorizedPreviousEtag: Option<Digest<Body>>)
      returns (r: Check<Conflict>)
      requires cloud.Valid() && cloud.About(Put(key, body, IfNoneMatch)) && cloud.pc.PutMonthClaim?
      requires authorizedPreviousEtag == cloud.invocation.authorized
      modifies cloud, cloud.storage
      ensures cloud.Valid() && Continues(old(cloud.moves), cloud.moves)
      ensures r.Fail? ==> cloud.pc == Failed(r.error)
      ensures r.Pass? ==>
                cloud.pc == VerifyMonthClaim(old(cloud.pc).completed) && Holds(cloud.storage.objects, key, body)
    {
      hide Exec, Step, Origin, Cloud.Valid, Cloud.Now, Continues;
      HistoriesContinue<Move>();
      var reply := cloud.Store(key, body, IfNoneMatch);
      if reply.Stored? {
        return Pass;
      }
      if reply.Broken? {
        return Fail(Transport);
      }
      var existing := cloud.Fetch(key);
      if existing.Broken? {
        return Fail(Transport);
      }
      if existing.Missing? {
        return Fail(NotFound);
      }
      if existing.entry.body == body {
        return Pass;
      }
      if authorizedPreviousEtag.None? || existing.entry.head.etag != authorizedPreviousEtag.value {
        return Fail(Publication);
      }
      reply := cloud.Store(key, body, IfMatch(authorizedPreviousEtag.value));
      if reply.Broken? {
        return Fail(Transport);
      }
      return if reply.Stored? then Pass else Fail(Publication);
    }

    /** The claim must still be there with exactly this body. */
    method VerifyOwnClaim(key: Key, body: Body) returns (r: Check<Conflict>)
      requires cloud.Valid() && cloud.About(Get(key))
      requires || (cloud.pc.VerifyClaim? && body == cloud.invocation.ConstructionDoc())
               || ((cloud.pc.VerifyMonthClaim? || cloud.pc.RecheckMonthClaim?) && body == cloud.invocation.MonthDoc())
      modifies cloud, cloud.storage
      ensures cloud.Valid() && Continues(old(cloud.moves), cloud.moves)
      ensures r.Fail? ==> cloud.pc == Failed(r.error)
      ensures r.Pass? ==>
                && Holds(cloud.storage.objects, key, body)
                && cloud.pc == (match old(cloud.pc)
                                case VerifyMonthClaim(c) => GetPartition(Publish(c))
                                case RecheckMonthClaim(c, o) => PutReceipt(c, o)
                                case _ => PutPart(Selection))
    {
      var observed := cloud.Fetch(key);
      match observed {
        case Found(entry) =>
          if entry.body != body {
            return Fail(Publication);
          }
          return Pass;
        case Missing => return Fail(Publication);
        case _ => return Fail(Transport);
      }
    }
  }

  /** The store holds an acceptable receipt of the run and the very three objects this invocation would write. */
  ghost predicate CompletedAlike(objects: map<Key, Entry<Body>>, inv: Invocation) {
    && Published(inv.run) in objects && inv.AcceptsReceipt(objects[Published(inv.run)].body)
    && Holds(objects, Data(inv.run, Selection), inv.selectionBody)
    && Holds(objects, Data(inv.run, Curated), inv.curatedBody)
    && Holds(objects, Data(inv.run, Completion), inv.completionBody)
  }

  lemma RetriesAreBacked(objects: map<Key, Entry<Body>>, w: Worker)
    requires WorkerInv(objects, w) && w.pc == GetPartition(Retry)
    ensures CompletedAlike(objects, w.inv)
  {
    assert Selection in Secured(w.pc) && Curated in Secured(w.pc) && Completion in Secured(w.pc);
  }

  lemma CompleteWhenFinished(objects: map<Key, Entry<Body>>, w: Worker)
    requires WorkerInv(objects, w) && w.pc.Finished?
    ensures RunComplete(objects, w.inv.run)
  {
    forall part: Part ensures Data(w.inv.run, part) in objects {
      assert part in Secured(w.pc) by {
        match part { case Selection => case Curated => case Completion => }
      }
    }
  }
}
