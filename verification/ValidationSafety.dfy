/** What every step of the daily validation protocol keeps. */
module ValidationSafety {
  import opened Options
  import opened Storage
  import opened ValidationProtocol

  /** Where a history may begin: the source exists, nothing is completed; claim and outputs may be left over. */
  ghost predicate Origin(s: State) {
    && s.workers == map[] && Source in s.objects && Completed !in s.objects && ClaimTagged(s.objects)
  }

  /** The claim carries the tag of its body, and a readable claim is a sixteen-minute lease. */
  ghost predicate ClaimTagged(objects: map<Key, Entry<Body>>) {
    Claim in objects ==>
      var e := objects[Claim];
      e.head.etag == Digest(e.body) && (e.body.ClaimDoc? ==> e.body.expiresAt == e.body.startedAt + CLAIM_TTL)
  }

  /** The source stays the same object, and a present marker never changes. */
  ghost predicate Extends(before: map<Key, Entry<Body>>, after: map<Key, Entry<Body>>) {
    && (Source in before ==> Source in after && SameObject(after[Source], before[Source]))
    && (Completed in before ==> Completed in after && after[Completed] == before[Completed])
  }

  /** Between claim and completion. */
  predicate Working(pc: Pc) {
    pc.GetSource? || pc.PutStaging? || pc.PutQuarantine? || pc.PutMarker?
  }

  // ---------------------------------------------------------------- leases

  ghost predicate LeaseCovers(objects: map<Key, Entry<Body>>, pc: Pc)
    requires Working(pc)
  {
    Claim in objects && objects[Claim].body.ClaimDoc? && pc.now + CLAIM_TTL <= objects[Claim].body.expiresAt
  }

  ghost predicate WorkerLease(s: State, w: Worker) {
    && (Working(w.pc) ==> w.pc.now <= s.now && LeaseCovers(s.objects, w.pc))
    && (w.pc.PutClaim? || w.pc.ReadClaim? || w.pc.ReplaceClaim? ==> w.pc.now <= s.now)
    && (w.pc.ReplaceClaim? ==> w.pc.etag.of.ClaimDoc? && w.pc.etag.of.expiresAt <= w.pc.now)
  }

  predicate Apart(p: Pc, q: Pc) {
    Working(p) && Working(q) ==> p.now + CLAIM_TTL <= q.now || q.now + CLAIM_TTL <= p.now
  }

  ghost predicate LeaseInv(s: State) {
    && ClaimTagged(s.objects)
    && (forall p :: p in s.workers ==> WorkerLease(s, s.workers[p]))
    && (forall p, q :: p in s.workers && q in s.workers && p != q ==> Apart(s.workers[p].pc, s.workers[q].pc))
  }

  /** Every step leaves the claim alone or replaces a lease that had expired before the new one began. */
  ghost predicate ClaimFollows(before: map<Key, Entry<Body>>, after: map<Key, Entry<Body>>) {
    Claim in before ==>
      && Claim in after
      && (after[Claim] == before[Claim]
          || (&& before[Claim].body.ClaimDoc? && after[Claim].body.ClaimDoc?
              && before[Claim].body.expiresAt <= after[Claim].body.startedAt))
  }

  lemma AdvanceFollowsClaim(job: Job, s: State, pid: Pid, fault: Fault)
    requires LeaseInv(s) && pid in s.workers && Ask(job, s.workers[pid]).Some?
    ensures var objects' := Step(job, s, Advance(pid, fault)).objects;
            ClaimFollows(s.objects, objects') && ClaimTagged(objects')
  {
    assert WorkerLease(s, s.workers[pid]);
  }

  /** A worker works on from before, or has just stored its claim. */
  lemma WorksByClaim(job: Job, w: Worker, response: Response)
    requires Working(React(job, w, response).pc)
    ensures Working(w.pc) || w.pc.PutClaim? || w.pc.ReplaceClaim?
    ensures React(job, w, response).pc.now == w.pc.now
    ensures !Working(w.pc) ==> response.FromStore? && response.reply.Stored?
  {
  }

  /** A claim is replaced only after an expired one was read. */
  lemma ReplacesExpired(job: Job, w: Worker, reply: Reply<Body>)
    requires var pc := React(job, w, FromStore(reply)).pc; pc.PutClaim? || pc.ReadClaim? || pc.ReplaceClaim?
    ensures var pc := React(job, w, FromStore(reply)).pc;
            && (pc == w.pc || w.pc.PutClaim? || w.pc.ReadClaim?)
            && pc.now == w.pc.now
            && (pc.ReplaceClaim? && pc != w.pc ==>
                  && w.pc.ReadClaim? && reply.Found? && pc.etag == reply.entry.head.etag
                  && reply.entry.body.ClaimDoc? && reply.entry.body.expiresAt <= pc.now)
  {
  }

  /** A worker that starts working has just replaced an expired lease, or found none. */
  lemma ClaimingIsApart(job: Job, s: State, pid: Pid, fault: Fault, q: Pid)
    requires LeaseInv(s) && pid in s.workers && q in s.workers && q != pid && Ask(job, s.workers[pid]).Some?
    ensures Apart(Step(job, s, Advance(pid, fault)).workers[pid].pc, s.workers[q].pc)
  {
    var w := s.workers[pid];
    assert WorkerLease(s, w) && WorkerLease(s, s.workers[q]);
    assert Apart(w.pc, s.workers[q].pc);
    hide React;
    var response := Perform(s, Ask(job, w).value, fault).1;
    if Working(React(job, w, response).pc) {
      WorksByClaim(job, w, response);
    }
  }

  lemma ClaimingIsLeased(job: Job, s: State, pid: Pid, fault: Fault)
    requires LeaseInv(s) && pid in s.workers && Ask(job, s.workers[pid]).Some?
    ensures var s' := Step(job, s, Advance(pid, fault)); WorkerLease(s', s'.workers[pid])
  {
    var w := s.workers[pid];
    assert WorkerLease(s, w);
    AdvanceFollowsClaim(job, s, pid, fault);
    var call := Ask(job, w).value;
    if call.OnStore? {
      AnswerExplains(s.objects, call.request, fault);
      var s' := s.(objects := After(s.objects, call.request, fault));
      OthersStayLeased(s, s', w);
      ReplyKeepsLease(job, s', w, call.request, Answer(s.objects, call.request, fault));
    }
  }

  lemma ReplyKeepsLease(job: Job, s: State, w: Worker, request: Request<Key, Body>, reply: Reply<Body>)
    requires WorkerLease(s, w) && ClaimTagged(s.objects)
    requires Ask(job, w) == Some(OnStore(request)) && Explains(s.objects, request, reply)
    ensures WorkerLease(s, React(job, w, FromStore(reply)))
  {
    hide React;
    var pc := React(job, w, FromStore(reply)).pc;
    if Working(pc) {
      WorksByClaim(job, w, FromStore(reply));
    } else if pc.PutClaim? || pc.ReadClaim? || pc.ReplaceClaim? {
      ReplacesExpired(job, w, reply);
    }
  }

  lemma OthersStayLeased(s: State, s': State, w: Worker)
    requires WorkerLease(s, w) && s.now <= s'.now && ClaimFollows(s.objects, s'.objects) && ClaimTagged(s'.objects)
    ensures WorkerLease(s', w)
  {
  }

  lemma AdvanceKeepsLeases(job: Job, s: State, pid: Pid, fault: Fault)
    requires LeaseInv(s) && pid in s.workers && Ask(job, s.workers[pid]).Some?
    ensures LeaseInv(Step(job, s, Advance(pid, fault)))
    ensures ClaimFollows(s.objects, Step(job, s, Advance(pid, fault)).objects)
  {
    hide React, Perform, Ask, WorkerLease, ClaimFollows, ClaimTagged;
    var s' := Step(job, s, Advance(pid, fault));
    AdvanceFollowsClaim(job, s, pid, fault);
    ClaimingIsLeased(job, s, pid, fault);
    ClockStands(s, Ask(job, s.workers[pid]).value, fault);
    forall p | p in s'.workers && p != pid
      ensures WorkerLease(s', s'.workers[p]) && Apart(s'.workers[pid].pc, s'.workers[p].pc)
    {
      OthersStayLeased(s, s', s.workers[p]);
      ClaimingIsApart(job, s, pid, fault, p);
    }
  }

  lemma ClockStands(s: State, call: Call, fault: Fault)
    ensures Perform(s, call, fault).0.now == s.now
  {
  }

  /** Every step keeps the leases apart, and a claim gives way only after it has expired. */
  lemma StepKeepsLeases(job: Job, s: State, move: Move)
    requires LeaseInv(s)
    ensures LeaseInv(Step(job, s, move)) && ClaimFollows(s.objects, Step(job, s, move).objects)
  {
    hide React, Perform, Ask;
    if move.Advance? && move.pid in s.workers && Ask(job, s.workers[move.pid]).Some? {
      hide LeaseInv, ClaimFollows;
      AdvanceKeepsLeases(job, s, move.pid, move.fault);
    } else {
      hide WorkerLease, Apart;
      var s' := Step(job, s, move);
      forall p | p in s'.workers && p in s.workers ensures WorkerLease(s', s'.workers[p]) {
        OthersStayLeased(s, s', s.workers[p]);
      }
      NewcomerIsLeased(s');
    }
  }

  lemma NewcomerIsLeased(s: State)
    ensures forall delivery: Delivery :: WorkerLease(s, Worker(delivery, None, HeadSource))
    ensures forall pc: Pc :: Apart(HeadSource, pc) && Apart(pc, HeadSource)
  {
  }

  // ---------------------------------------------------------------- outputs and marker

  /** What a delivery with this processing timestamp makes of the source, if it makes anything. */
  function Plan(job: Job, source: Entry<Body>, stamp: int): Option<Outputs> {
    var made := job.transform(source.body);
    if || Size(source.body) > job.maximumInputBytes
       || (source.head.checksum.Some? && source.head.checksum.value != Digest(source.body))
       || made.Rejected? || made.inputRows != made.validRows + |made.rejected|
    then None
    else Some(Outputs(made.inputRows, made.validRows, made.rows, made.rejected, stamp))
  }

  ghost predicate Has(objects: map<Key, Entry<Body>>, key: Key, body: Body) {
    key in objects && objects[key] == Written(body)
  }

  /** The points at which the outputs, and at which the marker, are at hand. */
  predicate Writing(pc: Pc) {
    pc.PutStaging? || pc.PutQuarantine? || pc.PutMarker?
  }

  predicate Relying(pc: Pc) {
    pc.CheckStaging? || pc.CheckQuarantine? || pc.Returned?
  }

  /** The outputs a worker is still writing are those the source and one timestamp determine. */
  ghost predicate WorkerPlan(job: Job, s: State, w: Worker)
    requires Source in s.objects
  {
    && (w.source.Some? ==>
          SameObject(w.source.value, s.objects[Source]) && Size(s.objects[Source].body) <= job.maximumInputBytes)
    && (Writing(w.pc) ==>
          Plan(job, s.objects[Source], w.pc.out.stamp) == Some(w.pc.out))
    && (Relying(w.pc) ==>
          Completed in s.objects && s.objects[Completed].body == MarkerDoc(w.pc.marker))
  }

  /** The marker is the one that the source and some timestamp determine. */
  ghost predicate MarkerPlanned(job: Job, objects: map<Key, Entry<Body>>)
    requires Source in objects
  {
    exists stamp {:trigger Plan(job, objects[Source], stamp)} ::
      && Plan(job, objects[Source], stamp).Some?
      && Has(objects, Completed, MarkerDoc(MarkerFor(job, Plan(job, objects[Source], stamp).value)))
  }

  ghost predicate PlanInv(job: Job, s: State) {
    && Source in s.objects
    && (forall p :: p in s.workers ==> WorkerPlan(job, s, s.workers[p]))
    && (Completed in s.objects ==> MarkerPlanned(job, s.objects))
  }

  /** What is planned for an object does not depend on when it was stored. */
  lemma SamePlan(job: Job, a: Entry<Body>, b: Entry<Body>, stamp: int)
    requires SameObject(a, b)
    ensures Plan(job, a, stamp) == Plan(job, b, stamp)
  {
  }

  lemma StepExtends(job: Job, s: State, move: Move)
    ensures Extends(s.objects, Step(job, s, move).objects)
  {
  }

  /** The verified source is the head that was read. */
  lemma SourceIsRead(job: Job, w: Worker, reply: Reply<Body>)
    requires React(job, w, FromStore(reply)).source != w.source
    ensures w.pc.HeadSource? && reply.Found? && React(job, w, FromStore(reply)).source == Some(reply.entry)
    ensures Size(reply.entry.body) <= job.maximumInputBytes && !Writing(React(job, w, FromStore(reply)).pc)
  {
  }

  /** Outputs come from the transformation of the object that was read. */
  lemma OutputsAreTransformed(job: Job, w: Worker, reply: Reply<Body>)
    requires Writing(React(job, w, FromStore(reply)).pc)
    ensures var pc := React(job, w, FromStore(reply)).pc;
            || (Writing(w.pc) && pc.out == w.pc.out)
            || (w.pc.GetSource? && w.source.Some? && reply.Found?
                && pc == Transform(job, w.delivery, w.pc.now, w.source.value, reply.entry))
  {
    hide Transform;
  }

  /** The marker a worker relies on is one it read, or one it has just stored. */
  lemma MarkersAreStored(job: Job, w: Worker, reply: Reply<Body>)
    requires Relying(React(job, w, FromStore(reply)).pc)
    ensures var marker := React(job, w, FromStore(reply)).pc.marker;
            || (Relying(w.pc) && marker == w.pc.marker)
            || (w.pc.FindMarker? && reply.Found? && reply.entry.body == MarkerDoc(marker))
            || (w.pc.PutMarker? && reply.Stored? && marker == MarkerFor(job, w.pc.out))
  {
    hide ReferenceHolds, Names, Reconciles;
  }

  lemma ReplyKeepsPlan(job: Job, s: State, w: Worker, request: Request<Key, Body>, reply: Reply<Body>)
    requires Source in s.objects && WorkerPlan(job, s, w)
    requires Ask(job, w) == Some(OnStore(request)) && Explains(s.objects, request, reply)
    ensures WorkerPlan(job, s, React(job, w, FromStore(reply)))
  {
    hide React;
    var next := React(job, w, FromStore(reply));
    if next.source != w.source {
      SourceIsRead(job, w, reply);
    }
    if Writing(next.pc) {
      OutputsAreTransformed(job, w, reply);
    } else if Relying(next.pc) {
      MarkersAreStored(job, w, reply);
    }
  }

  lemma AdvanceKeepsPlan(job: Job, s: State, pid: Pid, fault: Fault)
    requires PlanInv(job, s) && pid in s.workers && Ask(job, s.workers[pid]).Some?
    ensures var s' := Step(job, s, Advance(pid, fault));
            Source in s'.objects && WorkerPlan(job, s', s'.workers[pid])
  {
    var w := s.workers[pid];
    assert WorkerPlan(job, s, w);
    StepExtends(job, s, Advance(pid, fault));
    var call := Ask(job, w).value;
    if call.OnStore? {
      AnswerExplains(s.objects, call.request, fault);
      var s' := s.(objects := After(s.objects, call.request, fault));
      ReplyKeepsPlan(job, s', w, call.request, Answer(s.objects, call.request, fault));
    }
  }

  lemma OthersStayPlanned(job: Job, s: State, s': State, w: Worker)
    requires Source in s.objects && WorkerPlan(job, s, w) && Extends(s.objects, s'.objects)
    ensures WorkerPlan(job, s', w)
  {
    hide Plan;
    if Writing(w.pc) {
      SamePlan(job, s'.objects[Source], s.objects[Source], w.pc.out.stamp);
    }
  }

  lemma WorkersStayPlanned(job: Job, s: State, move: Move, p: Pid)
    requires PlanInv(job, s) && p in Step(job, s, move).workers
    ensures var s' := Step(job, s, move);
            Source in s'.objects && WorkerPlan(job, s', s'.workers[p])
  {
    StepExtends(job, s, move);
    if move.Advance? && move.pid == p && Ask(job, s.workers[p]).Some? {
      AdvanceKeepsPlan(job, s, p, move.fault);
    } else if p in s.workers {
      OthersStayPlanned(job, s, Step(job, s, move), s.workers[p]);
    }
  }

  lemma MarkerStaysPlanned(job: Job, before: map<Key, Entry<Body>>, after: map<Key, Entry<Body>>)
    requires Source in before && MarkerPlanned(job, before) && Extends(before, after)
    ensures MarkerPlanned(job, after)
  {
    hide Plan;
    var stamp :| Plan(job, before[Source], stamp).Some?
      && Has(before, Completed, MarkerDoc(MarkerFor(job, Plan(job, before[Source], stamp).value)));
    SamePlan(job, after[Source], before[Source], stamp);
  }

  lemma StepKeepsPlan(job: Job, s: State, move: Move)
    requires PlanInv(job, s)
    ensures PlanInv(job, Step(job, s, move)) && Extends(s.objects, Step(job, s, move).objects)
  {
    hide Step, Plan, WorkerPlan, MarkerPlanned;
    var s' := Step(job, s, move);
    StepExtends(job, s, move);
    forall p | p in s'.workers ensures WorkerPlan(job, s', s'.workers[p]) {
      WorkersStayPlanned(job, s, move, p);
    }
    if Completed in s'.objects {
      if Completed in s.objects {
        MarkerStaysPlanned(job, s.objects, s'.objects);
      } else {
        NewMarkerIsPlanned(job, s, move);
      }
    }
  }

  lemma NewMarkerIsPlanned(job: Job, s: State, move: Move)
    requires PlanInv(job, s) && Completed !in s.objects && Completed in Step(job, s, move).objects
    ensures MarkerPlanned(job, Step(job, s, move).objects)
  {
    MarkerIsPlanned(job, s, move);
    hide Plan, React, Ask;
    var out := s.workers[move.pid].pc.out;
    StepExtends(job, s, move);
    SamePlan(job, Step(job, s, move).objects[Source], s.objects[Source], out.stamp);
  }

  lemma MarkerIsPlanned(job: Job, s: State, move: Move)
    requires PlanInv(job, s) && Completed !in s.objects && Completed in Step(job, s, move).objects
    ensures move.Advance? && move.pid in s.workers && s.workers[move.pid].pc.PutMarker?
    ensures var out := s.workers[move.pid].pc.out;
            && Plan(job, s.objects[Source], out.stamp) == Some(out)
            && Has(Step(job, s, move).objects, Completed, MarkerDoc(MarkerFor(job, out)))
  {
    assert WorkerPlan(job, s, s.workers[move.pid]);
  }
}
