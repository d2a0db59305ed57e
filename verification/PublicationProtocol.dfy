/**
 * The monthly publication protocol: any number of compaction invocations for one month share an object
 * store and one Glue partition, and every storage or Glue call is one atomic step.
 *
 * An invocation is a program counter. Ask gives the call it makes next, React where the answer takes it;
 * Step carries one call out against the shared state, and Exec runs any sequence of steps whatever.
 */
module PublicationProtocol {
  import opened Options
  import opened Storage

  type Pid = nat

  datatype Part = Selection | Curated | Completion

  datatype Key =
    | ConstructionClaim(run: string)
    | Data(run: string, part: Part)
    | MonthClaim
    | Published(run: string)

  /** A partition location: the directory of one completed run, or anything else. */
  datatype Location = RunDirectory(run: string) | Elsewhere(uri: string)

  datatype Instant = Instant(seconds: int, zoned: bool)

  datatype Body =
    | Bytes(content: seq<int>)
    | ConstructionClaimDoc(owner: string, run: string)
    | MonthClaimDoc(owner: string, run: string)
    | ReceiptDoc(contract: string, location: Location, issuer: Option<string>, outcome: string,
                 processedAt: Option<Instant>, run: string)

  const RECEIPT_CONTRACT := "metropulse-compaction-publication-receipt-v1"

  datatype Outcome = Created | Updated | NoOp {
    function Text(): string {
      match this
      case Created => "created"
      case Updated => "updated"
      case NoOp => "no_op"
    }
  }

  datatype Conflict =
    | InvalidArguments     // ValueError
    | ImmutableOutput      // ImmutableOutputConflict
    | Publication          // PublicationConflict
    | NotFound             // ObjectNotFound
    | Transport            // any other exception of a client

  /** What one call of process brings along, its compaction result included. */
  datatype Invocation = Invocation(
    run: string,
    owner: string,
    selectionBody: Body,
    curatedBody: Body,
    completionBody: Body,
    expected: Option<Location>,
    authorized: Option<Digest<Body>>,
    processedAt: Instant
  ) {
    function Payload(part: Part): Body {
      match part
      case Selection => selectionBody
      case Curated => curatedBody
      case Completion => completionBody
    }

    function Location(): Location {
      RunDirectory(run)
    }

    function ConstructionDoc(): Body {
      ConstructionClaimDoc(owner, run)
    }

    function MonthDoc(): Body {
      MonthClaimDoc(owner, run)
    }

    function Receipt(outcome: Outcome): Body {
      ReceiptDoc(RECEIPT_CONTRACT, Location(), Some(owner), outcome.Text(), Some(processedAt), run)
    }

    /** The receipt of an earlier invocation that this run may rely on. */
    predicate AcceptsReceipt(body: Body) {
      && body.ReceiptDoc?
      && body.contract == RECEIPT_CONTRACT
      && body.location == Location()
      && body.run == run
      && body.outcome in {Created.Text(), Updated.Text(), NoOp.Text()}
      && body.issuer.Some? && NonBlank(body.issuer.value)
      && body.processedAt.Some? && body.processedAt.value.zoned
    }
  }

  predicate NonBlank(text: string) {
    exists i :: 0 <= i < |text| && text[i] !in {' ', '\t', '\n', '\r', '\U{000B}', '\U{000C}'}
  }

  /** Completed retries call the publisher too, with their own location as the expected one. */
  datatype Mode = Retry | Publish(newlyCompleted: bool)

  datatype Pc =
    | ReadReceipt
    | CheckPart(part: Part)
    | PutClaim | ReadClaim | VerifyClaim
    | PutPart(part: Part) | ReadPart(part: Part)
    | PutMonthClaim(completed: bool) | ReadMonthClaim(completed: bool) | ReplaceMonthClaim(completed: bool)
    | VerifyMonthClaim(completed: bool)
    | GetPartition(mode: Mode) | SendUpdate(mode: Mode) | SendCreate(mode: Mode)
    | ReadBack(mode: Mode, outcome: Outcome)
    | RecheckMonthClaim(completed: bool, outcome: Outcome)
    | PutReceipt(completed: bool, outcome: Outcome)
    | ReadBackReceipt(completed: bool, outcome: Outcome)
    | Finished(outcome: Outcome, newlyCompleted: bool, newlyPublished: bool)
    | Failed(error: Conflict)

  /** A partition mutation on its way to Glue, with the invocation's owner and run. */
  datatype Mutation = Mutation(creates: bool, location: Location, owner: string, run: string)

  datatype Call =
    | OnStore(request: Request<Key, Body>)
    | ReadPartition
    | Mutate(mutation: Mutation)

  datatype Response =
    | FromStore(reply: Reply<Body>)
    | Partition(location: Option<Location>)
    | Unclear          // a mutation's response is never looked at
    | PartitionBroken

  function Start(invocation: Invocation): Pc {
    if !invocation.processedAt.zoned || !NonBlank(invocation.owner) then Failed(InvalidArguments) else ReadReceipt
  }

  /** The call an invocation makes at this program point, if it still runs. */
  function Ask(inv: Invocation, pc: Pc): Option<Call> {
    match pc
    case ReadReceipt => Some(OnStore(Get(Published(inv.run))))
    case CheckPart(part) => Some(OnStore(Get(Data(inv.run, part))))
    case PutClaim => Some(OnStore(Put(ConstructionClaim(inv.run), inv.ConstructionDoc(), IfNoneMatch)))
    case ReadClaim => Some(OnStore(Get(ConstructionClaim(inv.run))))
    case VerifyClaim => Some(OnStore(Get(ConstructionClaim(inv.run))))
    case PutPart(part) => Some(OnStore(Put(Data(inv.run, part), inv.Payload(part), IfNoneMatch)))
    case ReadPart(part) => Some(OnStore(Get(Data(inv.run, part))))
    case PutMonthClaim(_) => Some(OnStore(Put(MonthClaim, inv.MonthDoc(), IfNoneMatch)))
    case ReadMonthClaim(_) => Some(OnStore(Get(MonthClaim)))
    case ReplaceMonthClaim(_) =>
      if inv.authorized.None? then None
      else Some(OnStore(Put(MonthClaim, inv.MonthDoc(), IfMatch(inv.authorized.value))))
    case VerifyMonthClaim(_) => Some(OnStore(Get(MonthClaim)))
    case GetPartition(_) => Some(ReadPartition)
    case SendUpdate(_) => Some(Mutate(Mutation(false, inv.Location(), inv.owner, inv.run)))
    case SendCreate(_) => Some(Mutate(Mutation(true, inv.Location(), inv.owner, inv.run)))
    case ReadBack(_, _) => Some(ReadPartition)
    case RecheckMonthClaim(_, _) => Some(OnStore(Get(MonthClaim)))
    case PutReceipt(_, outcome) => Some(OnStore(Put(Published(inv.run), inv.Receipt(outcome), IfNoneMatch)))
    case ReadBackReceipt(_, _) => Some(OnStore(Get(Published(inv.run))))
    case Finished(_, _, _) => None
    case Failed(_) => None
  }

  /** Where the answer to that call takes the invocation. */
  function React(inv: Invocation, pc: Pc, response: Response): Pc {
    match response
    case FromStore(reply) => ReactToStore(inv, pc, reply)
    case Partition(current) => ReactToPartition(inv, pc, current)
    case Unclear =>
      (match pc
       case SendUpdate(mode) => ReadBack(mode, Updated)
       case SendCreate(mode) => ReadBack(mode, Created)
       case _ => pc)
    case PartitionBroken => Failed(Transport)
  }

  function ReactToStore(inv: Invocation, pc: Pc, reply: Reply<Body>): Pc {
    if reply.Broken? then Failed(Transport)
    else match pc
      case ReadReceipt =>
        if reply.Missing? then PutClaim
        else if reply.Found? && inv.AcceptsReceipt(reply.entry.body) then CheckPart(Selection)
        else Failed(ImmutableOutput)
      case CheckPart(part) =>
        if reply.Found? && reply.entry.body == inv.Payload(part) then
          (match part
           case Selection => CheckPart(Curated)
           case Curated => CheckPart(Completion)
           case Completion => GetPartition(Retry))
        else Failed(ImmutableOutput)
      case PutClaim => if reply.Stored? then VerifyClaim else ReadClaim
      case ReadClaim => Own(reply, inv.ConstructionDoc(), VerifyClaim, Publication, NotFound)
      case VerifyClaim => Own(reply, inv.ConstructionDoc(), PutPart(Selection), Publication, Publication)
      case PutPart(part) => if reply.Stored? then AfterPart(part, true) else ReadPart(part)
      case ReadPart(part) => Own(reply, inv.Payload(part), AfterPart(part, false), ImmutableOutput, NotFound)
      case PutMonthClaim(c) => if reply.Stored? then VerifyMonthClaim(c) else ReadMonthClaim(c)
      case ReadMonthClaim(c) =>
        if reply.Found? && reply.entry.body != inv.MonthDoc() && inv.authorized.Some?
           && reply.entry.head.etag == inv.authorized.value
        then ReplaceMonthClaim(c)
        else Own(reply, inv.MonthDoc(), VerifyMonthClaim(c), Publication, NotFound)
      case ReplaceMonthClaim(c) => if reply.Stored? then VerifyMonthClaim(c) else Failed(Publication)
      case VerifyMonthClaim(c) => Own(reply, inv.MonthDoc(), GetPartition(Publish(c)), Publication, Publication)
      case RecheckMonthClaim(c, o) => Own(reply, inv.MonthDoc(), PutReceipt(c, o), Publication, Publication)
      case PutReceipt(c, o) => if reply.Stored? then Finished(o, c, true) else ReadBackReceipt(c, o)
      case ReadBackReceipt(c, o) =>
        Own(reply, inv.Receipt(o), Finished(o, c, false), ImmutableOutput, NotFound)
      case _ => pc
  }

  /** Continue only on a stored object with exactly this body. */
  function Own(reply: Reply<Body>, body: Body, next: Pc, differs: Conflict, missing: Conflict): Pc {
    if reply.Found? then (if reply.entry.body == body then next else Failed(differs)) else Failed(missing)
  }

  function AfterPart(part: Part, created: bool): Pc {
    match part
    case Selection => PutPart(Curated)
    case Curated => PutPart(Completion)
    case Completion => PutMonthClaim(created)
  }

  function ReactToPartition(inv: Invocation, pc: Pc, current: Option<Location>): Pc {
    match pc
    case GetPartition(mode) =>
      var expected := if mode.Retry? then Some(inv.Location()) else inv.expected;
      if current == Some(inv.Location()) then AfterPublish(mode, NoOp)
      else if current != expected then Failed(Publication)
      else if current.Some? then SendUpdate(mode)
      else SendCreate(mode)
    case ReadBack(mode, outcome) =>
      if current == Some(inv.Location()) then AfterPublish(mode, outcome) else Failed(Publication)
    case _ => pc
  }

  function AfterPublish(mode: Mode, outcome: Outcome): Pc {
    match mode
    case Retry => Finished(outcome, false, false)
    case Publish(c) => RecheckMonthClaim(c, outcome)
  }

  datatype Worker = Worker(inv: Invocation, pc: Pc)

  datatype State = State(
    objects: map<Key, Entry<Body>>,
    partition: Option<Location>,
    inflight: set<Mutation>,        // everything ever sent to Glue
    workers: map<Pid, Worker>
  )

  datatype Move =
    | Begin(pid: Pid, inv: Invocation)       // a new invocation
    | Advance(pid: Pid, fault: Fault)        // one call of a running one; a crashed one is never advanced again
    | Land(mutation: Mutation)               // Glue carries out, late or again, something that was sent

  /** The shared state after one call, and the answer to it. */
  function Perform(s: State, call: Call, fault: Fault): (State, Response) {
    match call
    case OnStore(request) =>
      (s.(objects := After(s.objects, request, fault)), FromStore(Answer(s.objects, request, fault)))
    case ReadPartition =>
      (s, if fault.RequestLost? || fault.ReplyLost? then PartitionBroken else Partition(s.partition))
    case Mutate(mutation) =>
      (if fault.RequestLost? then s else s.(inflight := s.inflight + {mutation}), Unclear)
  }

  function Landed(partition: Option<Location>, mutation: Mutation): Option<Location> {
    if mutation.creates == partition.None? then Some(mutation.location) else partition
  }

  function Step(s: State, move: Move): State {
    match move
    case Begin(pid, inv) =>
      if pid in s.workers then s else s.(workers := s.workers[pid := Worker(inv, Start(inv))])
    case Advance(pid, fault) =>
      if pid !in s.workers then s
      else
        var w := s.workers[pid];
        var call := Ask(w.inv, w.pc);
        if call.None? then s
        else
          var (shared, response) := Perform(s, call.value, fault);
          shared.(workers := s.workers[pid := Worker(w.inv, React(w.inv, w.pc, response))])
    case Land(mutation) =>
      if mutation in s.inflight then s.(partition := Landed(s.partition, mutation)) else s
  }

  /** The state after a whole run: any moves, in any order, stopped anywhere. */
  function Exec(origin: State, moves: seq<Move>): State {
    if moves == [] then origin else Step(Exec(origin, moves[..|moves| - 1]), moves[|moves| - 1])
  }
}
