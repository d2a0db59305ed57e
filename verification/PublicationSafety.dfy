/** What every step of the monthly publication protocol keeps, and what follows for whole runs. */
module PublicationSafety {
  import opened Options
  import opened Storage
  import opened PublicationProtocol

  predicate Holds(objects: map<Key, Entry<Body>>, key: Key, body: Body) {
    key in objects && objects[key].body == body
  }

  /** Selection, curated output and completion of this run all exist. */
  ghost predicate RunComplete(objects: map<Key, Entry<Body>>, run: string) {
    forall part: Part :: Data(run, part) in objects
  }

  /** Glue names no run, or one whose three objects exist. */
  ghost predicate Visible(s: State) {
    s.partition.Some? ==> s.partition.value.RunDirectory? && RunComplete(s.objects, s.partition.value.run)
  }

  /** Where a history may begin: nothing running, nothing sent, any objects at all. */
  ghost predicate Origin(s: State) {
    s.workers == map[] && s.inflight == {} && Visible(s)
  }

  /** Nothing is ever removed, and only the month claim is ever replaced. */
  ghost predicate Extends(before: map<Key, Entry<Body>>, after: map<Key, Entry<Body>>) {
    forall key :: key in before ==> key in after && (key == MonthClaim || after[key] == before[key])
  }

  /** The parts this invocation has seen in place with its own bytes. */
  function Secured(pc: Pc): set<Part> {
    match pc
    case ReadReceipt => {}
    case PutClaim => {}
    case ReadClaim => {}
    case VerifyClaim => {}
    case Failed(_) => {}
    case CheckPart(part) => Before(part)
    case PutPart(part) => Before(part)
    case ReadPart(part) => Before(part)
    case _ => {Selection, Curated, Completion}
  }

  function Before(part: Part): set<Part> {
    match part
    case Selection => {}
    case Curated => {Selection}
    case Completion => {Selection, Curated}
  }

  /** The points of the path that only an invocation holding its construction claim reaches. */
  predicate Constructing(pc: Pc) {
    match pc
    case PutPart(_) => true
    case ReadPart(_) => true
    case _ => Publishing(pc) || pc.PutMonthClaim? || pc.ReadMonthClaim? || pc.ReplaceMonthClaim? || pc.VerifyMonthClaim?
  }

  /** The points after the first successful check of the month claim. */
  predicate Publishing(pc: Pc) {
    match pc
    case GetPartition(mode) => mode.Publish?
    case SendUpdate(_) => true
    case SendCreate(_) => true
    case ReadBack(_, _) => true
    case RecheckMonthClaim(_, _) => true
    case PutReceipt(_, _) => true
    case ReadBackReceipt(_, _) => true
    case _ => false
  }

  /** The points of a completed retry before it returns. */
  predicate Retrying(pc: Pc) {
    pc.CheckPart? || pc == GetPartition(Retry)
  }

  predicate Coherent(pc: Pc) {
    match pc
    case SendUpdate(mode) => mode.Publish?
    case SendCreate(mode) => mode.Publish?
    case ReadBack(mode, _) => mode.Publish?
    case _ => true
  }

  ghost predicate WorkerInv(objects: map<Key, Entry<Body>>, w: Worker) {
    && Coherent(w.pc)
    && (forall part :: part in Secured(w.pc) ==> Holds(objects, Data(w.inv.run, part), w.inv.Payload(part)))
    && (Constructing(w.pc) ==> Holds(objects, ConstructionClaim(w.inv.run), w.inv.ConstructionDoc()))
    && (w.pc.Finished? ==> Published(w.inv.run) in objects)
    && (Retrying(w.pc) ==>
          Published(w.inv.run) in objects && w.inv.AcceptsReceipt(objects[Published(w.inv.run)].body))
    && (w.pc.ReplaceMonthClaim? ==> w.inv.authorized.Some?)
  }

  ghost predicate MutationInv(objects: map<Key, Entry<Body>>, m: Mutation) {
    && m.location == RunDirectory(m.run)
    && RunComplete(objects, m.run)
    && Holds(objects, ConstructionClaim(m.run), ConstructionClaimDoc(m.owner, m.run))
  }

  ghost predicate Inv(s: State) {
    && Visible(s)
    && (forall pid :: pid in s.workers ==> WorkerInv(s.objects, s.workers[pid]))
    && (forall m :: m in s.inflight ==> MutationInv(s.objects, m))
  }

  /** Every put is guarded: create-only everywhere, replace-if-unchanged on the month claim alone. */
  lemma PutsAreGuarded(inv: Invocation, pc: Pc)
    requires Ask(inv, pc).Some? && Ask(inv, pc).value.OnStore? && Ask(inv, pc).value.request.Put?
    ensures var put := Ask(inv, pc).value.request;
            put.condition.IfNoneMatch? || (put.key == MonthClaim && put.condition.IfMatch?)
  {
  }

  lemma StepExtends(s: State, move: Move)
    ensures Extends(s.objects, Step(s, move).objects)
  {
    if move.Advance? && move.pid in s.workers {
      var w := s.workers[move.pid];
      var call := Ask(w.inv, w.pc);
      if call.Some? && call.value.OnStore? && call.value.request.Put? {
        PutsAreGuarded(w.inv, w.pc);
      }
    }
  }

  lemma WorkerInvExtends(before: map<Key, Entry<Body>>, after: map<Key, Entry<Body>>, w: Worker)
    requires WorkerInv(before, w) && Extends(before, after)
    ensures WorkerInv(after, w)
  {
  }

  lemma MutationInvExtends(before: map<Key, Entry<Body>>, after: map<Key, Entry<Body>>, m: Mutation)
    requires MutationInv(before, m) && Extends(before, after)
    ensures MutationInv(after, m)
  {
  }

  /** A part becomes secured only by an answer that shows it in place. */
  lemma ReplyKeepsSecured(objects: map<Key, Entry<Body>>, w: Worker, request: Request<Key, Body>, reply: Reply<Body>, part: Part)
    requires WorkerInv(objects, w) && Ask(w.inv, w.pc) == Some(OnStore(request)) && Explains(objects, request, reply)
    requires part in Secured(ReactToStore(w.inv, w.pc, reply))
    ensures Holds(objects, Data(w.inv.run, part), w.inv.Payload(part))
  {
    if part !in Secured(w.pc) {
      match w.pc {
        case CheckPart(_) =>
        case PutPart(_) =>
        case ReadPart(_) =>
        case _ =>
      }
    }
  }

  /** The construction claim is entered on, and the receipt relied on, only after being read. */
  lemma ReplyKeepsClaims(objects: map<Key, Entry<Body>>, w: Worker, request: Request<Key, Body>, reply: Reply<Body>)
    requires WorkerInv(objects, w) && Ask(w.inv, w.pc) == Some(OnStore(request)) && Explains(objects, request, reply)
    ensures var pc' := ReactToStore(w.inv, w.pc, reply);
            && Coherent(pc')
            && (Constructing(pc') ==> Holds(objects, ConstructionClaim(w.inv.run), w.inv.ConstructionDoc()))
            && (pc'.Finished? ==> Published(w.inv.run) in objects)
            && (Retrying(pc') ==>
                  Published(w.inv.run) in objects && w.inv.AcceptsReceipt(objects[Published(w.inv.run)].body))
            && (pc'.ReplaceMonthClaim? ==> w.inv.authorized.Some?)
  {
    hide Secured;
  }

  /** The answer to a storage call tells an invocation enough to keep its own invariant. */
  lemma ReplyKeepsWorker(objects: map<Key, Entry<Body>>, w: Worker, request: Request<Key, Body>, reply: Reply<Body>)
    requires WorkerInv(objects, w) && Ask(w.inv, w.pc) == Some(OnStore(request)) && Explains(objects, request, reply)
    ensures WorkerInv(objects, Worker(w.inv, ReactToStore(w.inv, w.pc, reply)))
  {
    hide Secured, Constructing, Retrying, Coherent, ReactToStore, Holds, Ask;
    ReplyKeepsClaims(objects, w, request, reply);
    forall part | part in Secured(ReactToStore(w.inv, w.pc, reply))
      ensures Holds(objects, Data(w.inv.run, part), w.inv.Payload(part))
    {
      ReplyKeepsSecured(objects, w, request, reply, part);
    }
  }

  /** An answer from Glue changes nothing that an invocation relies on. */
  lemma GlueKeepsWorker(s: State, w: Worker, fault: Fault)
    requires WorkerInv(s.objects, w) && Ask(w.inv, w.pc).Some? && !Ask(w.inv, w.pc).value.OnStore?
    ensures var (s', response) := Perform(s, Ask(w.inv, w.pc).value, fault);
            WorkerInv(s'.objects, Worker(w.inv, React(w.inv, w.pc, response)))
  {
    hide Holds;
  }

  lemma StoreKeepsWorker(s: State, w: Worker, request: Request<Key, Body>, fault: Fault)
    requires WorkerInv(s.objects, w) && Ask(w.inv, w.pc) == Some(OnStore(request))
    ensures WorkerInv(After(s.objects, request, fault),
                      Worker(w.inv, ReactToStore(w.inv, w.pc, Answer(s.objects, request, fault))))
  {
    hide WorkerInv, ReactToStore;
    if request.Put? {
      PutsAreGuarded(w.inv, w.pc);
    }
    var objects' := After(s.objects, request, fault);
    assert Extends(s.objects, objects');
    WorkerInvExtends(s.objects, objects', w);
    AnswerExplains(s.objects, request, fault);
    ReplyKeepsWorker(objects', w, request, Answer(s.objects, request, fault));
  }

  lemma AdvanceKeepsWorker(s: State, w: Worker, fault: Fault)
    requires WorkerInv(s.objects, w) && Ask(w.inv, w.pc).Some?
    ensures var (s', response) := Perform(s, Ask(w.inv, w.pc).value, fault);
            WorkerInv(s'.objects, Worker(w.inv, React(w.inv, w.pc, response)))
  {
    hide WorkerInv, ReactToStore, ReactToPartition, After, Answer, Ask;
    var call := Ask(w.inv, w.pc).value;
    if call.OnStore? {
      StoreKeepsWorker(s, w, call.request, fault);
    } else {
      GlueKeepsWorker(s, w, fault);
    }
  }

  /** Whatever is sent to Glue is sent by an owner whose run is complete. */
  lemma MutationsAreBacked(objects: map<Key, Entry<Body>>, w: Worker)
    requires WorkerInv(objects, w) && Ask(w.inv, w.pc).Some? && Ask(w.inv, w.pc).value.Mutate?
    ensures MutationInv(objects, Ask(w.inv, w.pc).value.mutation)
  {
    forall part: Part ensures Data(w.inv.run, part) in objects {
      assert part in {Selection, Curated, Completion} by {
        match part { case Selection => case Curated => case Completion => }
      }
      assert part in Secured(w.pc);
    }
  }

  lemma WorkersKeepInv(s: State, move: Move, pid: Pid)
    requires Inv(s) && pid in Step(s, move).workers
    ensures WorkerInv(Step(s, move).objects, Step(s, move).workers[pid])
  {
    hide WorkerInv, MutationInv, Ask, React, After, Visible;
    var s' := Step(s, move);
    StepExtends(s, move);
    if move.Advance? && move.pid == pid && Ask(s.workers[pid].inv, s.workers[pid].pc).Some? {
      AdvanceKeepsWorker(s, s.workers[pid], move.fault);
    } else if pid in s.workers {
      WorkerInvExtends(s.objects, s'.objects, s.workers[pid]);
    } else {
      NewcomerKeepsInv(s'.objects, move.inv);
    }
  }

  lemma NewcomerKeepsInv(objects: map<Key, Entry<Body>>, inv: Invocation)
    ensures WorkerInv(objects, Worker(inv, Start(inv)))
  {
  }

  lemma MutationsKeepInv(s: State, move: Move, m: Mutation)
    requires Inv(s) && m in Step(s, move).inflight
    ensures MutationInv(Step(s, move).objects, m)
  {
    hide WorkerInv, MutationInv, Ask, React, After, Visible;
    StepExtends(s, move);
    if m in s.inflight {
      MutationInvExtends(s.objects, Step(s, move).objects, m);
    } else {
      MutationsAreBacked(s.objects, s.workers[move.pid]);
      MutationInvExtends(s.objects, Step(s, move).objects, m);
    }
  }

  lemma VisibilityIsKept(s: State, move: Move)
    requires Inv(s)
    ensures Visible(Step(s, move))
  {
    hide WorkerInv, Ask, React, After;
    StepExtends(s, move);
  }

  /** Every step keeps the invariant, and every object but the month claim. */
  lemma StepKeepsInv(s: State, move: Move)
    requires Inv(s)
    ensures Inv(Step(s, move)) && Extends(s.objects, Step(s, move).objects)
  {
    hide Step, WorkerInv, MutationInv, Visible;
    var s' := Step(s, move);
    StepExtends(s, move);
    VisibilityIsKept(s, move);
    forall pid | pid in s'.workers ensures WorkerInv(s'.objects, s'.workers[pid]) {
      WorkersKeepInv(s, move, pid);
    }
    forall m | m in s'.inflight ensures MutationInv(s'.objects, m) {
      MutationsKeepInv(s, move, m);
    }
  }
}
