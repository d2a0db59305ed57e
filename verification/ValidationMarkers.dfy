/** When a completion marker can be trusted: while the source object keeps one LastModified time. */
module ValidationMarkers {
  import opened Options
  import opened Storage
  import opened ValidationProtocol
  import opened ValidationSafety
  import opened ValidationRuns

  /** The stored marker passes every check of completion() against the objects stored with it. */
  ghost predicate Verifies(job: Job, objects: map<Key, Entry<Body>>) {
    && Completed in objects && MarkerReads(job, objects[Completed])
    && var m := objects[Completed].body.marker;
    && Staging in objects && ReferenceHolds(m.staging, Found(objects[Staging]))
    && (if m.quarantineRows > 0
        then && Names(m.quarantine, job.bucket, Quarantine) && Quarantine in objects
             && ReferenceHolds(m.quarantine.value, Found(objects[Quarantine]))
        else m.quarantine.None?)
    && Reconciles(m)
  }

  ghost predicate Trustworthy(job: Job, s: State) {
    Completed in s.objects ==> Verifies(job, s.objects)
  }

  /** Both outputs of this plan are in place, the quarantine file only when a row was rejected. */
  ghost predicate Ready(objects: map<Key, Entry<Body>>, out: Outputs) {
    && Has(objects, Staging, out.StagingBody())
    && (out.rejected != [] ==> Has(objects, Quarantine, out.QuarantineBody()))
  }

  ghost predicate Backing(s: State, w: Worker) {
    && (w.pc.PutQuarantine? ==> Has(s.objects, Staging, w.pc.out.StagingBody()))
    && (w.pc.PutMarker? ==> Ready(s.objects, w.pc.out))
    && (w.pc.CheckQuarantine? ==> w.pc.marker.quarantineRows > 0)
    && w.pc != Failed(MarkerRejected)
  }

  /** Everything the worker took from the source carries this one time. */
  ghost predicate Stamped(w: Worker, modified: int) {
    && (w.source.Some? ==> w.source.value.head.lastModified == Some(modified))
    && (Writing(w.pc) ==> w.pc.out.stamp == modified)
  }

  /** The source is not stored again at another time. */
  predicate KeepsTime(s: State, move: Move, modified: int)
    requires Source in s.objects
  {
    move.Reupload? ==> s.objects[Source].head.version.Some? || move.modified == Some(modified)
  }

  /** The invariant, for a source that is always last modified at the given time. */
  ghost predicate BackInv(job: Job, s: State, modified: int) {
    && PlanInv(job, s) && s.objects[Source].head.lastModified == Some(modified)
    && (forall p :: p in s.workers ==> Backing(s, s.workers[p]) && Stamped(s.workers[p], modified))
    && (Completed in s.objects ==> MarkerBacked(job, s.objects, modified))
  }

  lemma PlannedMarkersVerify(job: Job, objects: map<Key, Entry<Body>>, source: Entry<Body>, stamp: int)
    requires Plan(job, source, stamp).Some?
    requires Has(objects, Completed, MarkerDoc(MarkerFor(job, Plan(job, source, stamp).value)))
    requires Ready(objects, Plan(job, source, stamp).value)
    ensures Verifies(job, objects)
  {
  }

  /** A worker that writes outputs writes those of the one time. */
  lemma WritersAgree(job: Job, s: State, modified: int, p: Pid)
    requires BackInv(job, s, modified) && p in s.workers
    requires Writing(s.workers[p].pc)
    ensures Plan(job, s.objects[Source], modified) == Some(s.workers[p].pc.out)
  {
    hide Plan;
    assert WorkerPlan(job, s, s.workers[p]) && Stamped(s.workers[p], modified);
  }

  /** No step disturbs outputs that are already in place: whoever rewrites them writes the same bytes. */
  lemma OutputsPersist(job: Job, s: State, move: Move, modified: int, out: Outputs)
    requires BackInv(job, s, modified) && Plan(job, s.objects[Source], modified) == Some(out)
    ensures var objects' := Step(job, s, move).objects;
            && (Has(s.objects, Staging, out.StagingBody()) ==> Has(objects', Staging, out.StagingBody()))
            && (Has(s.objects, Quarantine, out.QuarantineBody()) ==> Has(objects', Quarantine, out.QuarantineBody()))
  {
    hide Plan, BackInv, React;
    if move.Advance? && move.pid in s.workers {
      var pc := s.workers[move.pid].pc;
      if Writing(pc) {
        WritersAgree(job, s, modified, move.pid);
      }
    }
  }

  /** A marker that verifies is not rejected. */
  lemma TrustedMarkersPass(job: Job, s: State, w: Worker, request: Request<Key, Body>, reply: Reply<Body>)
    requires Source in s.objects && WorkerPlan(job, s, w) && Backing(s, w) && Trustworthy(job, s)
    requires Ask(job, w) == Some(OnStore(request)) && request.Get? && Explains(s.objects, request, reply)
    ensures React(job, w, FromStore(reply)).pc != Failed(MarkerRejected)
  {
    hide EventMatches, Plan, ReferenceHolds, Stamp;
  }

  lemma ReadsPlaceNothing(job: Job, s: State, w: Worker, request: Request<Key, Body>, reply: Reply<Body>)
    requires Backing(s, w) && Ask(job, w) == Some(OnStore(request)) && request.Get?
    requires React(job, w, FromStore(reply)).pc != Failed(MarkerRejected)
    ensures Backing(s, React(job, w, FromStore(reply)))
  {
    hide MarkerReads, ReferenceHolds, Names, EventMatches, Has, Ready;
  }

  lemma ReadsKeepBacking(job: Job, s: State, w: Worker, request: Request<Key, Body>, reply: Reply<Body>)
    requires Source in s.objects && WorkerPlan(job, s, w) && Backing(s, w) && Trustworthy(job, s)
    requires Ask(job, w) == Some(OnStore(request)) && request.Get? && Explains(s.objects, request, reply)
    ensures Backing(s, React(job, w, FromStore(reply)))
  {
    hide React, Backing;
    TrustedMarkersPass(job, s, w, request, reply);
    ReadsPlaceNothing(job, s, w, request, reply);
  }

  lemma OthersStayBacked(job: Job, s: State, move: Move, modified: int, p: Pid)
    requires BackInv(job, s, modified) && p in s.workers
    ensures Backing(Step(job, s, move), s.workers[p])
  {
    hide Plan, Step;
    var w := s.workers[p];
    assert Backing(s, w);
    if w.pc.PutQuarantine? || w.pc.PutMarker? {
      WritersAgree(job, s, modified, p);
      OutputsPersist(job, s, move, modified, w.pc.out);
    }
  }

  lemma BackedMarkersVerify(job: Job, s: State, modified: int)
    requires BackInv(job, s, modified)
    ensures Trustworthy(job, s)
  {
    hide Plan, Verifies;
    if Completed in s.objects {
      PlannedMarkersVerify(job, s.objects, s.objects[Source], modified);
    }
  }

  lemma AdvanceKeepsBacking(job: Job, s: State, pid: Pid, fault: Fault, modified: int)
    requires BackInv(job, s, modified) && pid in s.workers && Ask(job, s.workers[pid]).Some?
    ensures var s' := Step(job, s, Advance(pid, fault)); Backing(s', s'.workers[pid])
  {
    hide Plan, BackInv, Backing, WorkerPlan, Trustworthy, React;
    var w := s.workers[pid];
    var call := Ask(job, w).value;
    KeptFor(job, s, modified, pid);
    if call.OnStore? {
      var s1 := s.(objects := After(s.objects, call.request, fault));
      OthersStayBacked(job, s, Advance(pid, fault), modified, pid);
      SameObjectsBack(Step(job, s, Advance(pid, fault)), s1, w);
      AnswerExplains(s.objects, call.request, fault);
      var reply := Answer(s.objects, call.request, fault);
      if call.request.Get? {
        BackedMarkersVerify(job, s, modified);
        assert s1 == s;
        ReadsKeepBacking(job, s, w, call.request, reply);
        SameObjectsBack(s, Step(job, s, Advance(pid, fault)), React(job, w, FromStore(reply)));
      } else {
        WritesKeepBacking(job, s1, w, call.request, reply);
        SameObjectsBack(s1, Step(job, s, Advance(pid, fault)), React(job, w, FromStore(reply)));
      }
    } else {
      ClockKeepsBacking(job, s, Step(job, s, Advance(pid, fault)), w);
    }
  }

  lemma KeptFor(job: Job, s: State, modified: int, p: Pid)
    requires BackInv(job, s, modified) && p in s.workers
    ensures Source in s.objects && WorkerPlan(job, s, s.workers[p]) && Backing(s, s.workers[p]) && Stamped(s.workers[p], modified)
  {
    hide Plan, WorkerPlan, Backing, Stamped;
  }

  lemma SameObjectsBack(s: State, s': State, w: Worker)
    requires s.objects == s'.objects && Backing(s, w)
    ensures Backing(s', w)
  {
  }

  lemma ClockKeepsBacking(job: Job, s: State, s': State, w: Worker)
    requires Ask(job, w) == Some(AskClock)
    ensures Backing(s', React(job, w, Time(s.now)))
  {
  }

  lemma WritesKeepBacking(job: Job, s: State, w: Worker, request: Request<Key, Body>, reply: Reply<Body>)
    requires Backing(s, w) && Ask(job, w) == Some(OnStore(request)) && request.Put? && Explains(s.objects, request, reply)
    requires request.condition.Always? ==> reply.Stored? || reply.Broken?
    ensures Backing(s, React(job, w, FromStore(reply)))
  {
  }

  /** Every time a delivery takes over from the source is the one time the source ever has. */
  lemma ReplyKeepsStamp(job: Job, s: State, w: Worker, request: Request<Key, Body>, reply: Reply<Body>, modified: int)
    requires Source in s.objects && s.objects[Source].head.lastModified == Some(modified) && Stamped(w, modified)
    requires Ask(job, w) == Some(OnStore(request)) && Explains(s.objects, request, reply)
    ensures Stamped(React(job, w, FromStore(reply)), modified)
  {
  }

  lemma WorkersStayStamped(job: Job, s: State, move: Move, modified: int, p: Pid)
    requires BackInv(job, s, modified) && p in Step(job, s, move).workers
    ensures Stamped(Step(job, s, move).workers[p], modified)
  {
    hide Plan, BackInv, React, Stamped;
    if p in s.workers {
      KeptFor(job, s, modified, p);
    }
    if move.Advance? && move.pid == p && Ask(job, s.workers[p]).Some? {
      var w := s.workers[p];
      if Ask(job, w).value.OnStore? {
        var request := Ask(job, w).value.request;
        SourceTime(job, s, modified);
        ReadsLeaveSource(job, s, p, move.fault);
        AnswerExplains(s.objects, request, move.fault);
        ReplyKeepsStamp(job, s.(objects := After(s.objects, request, move.fault)), w, request,
                        Answer(s.objects, request, move.fault), modified);
      } else {
        ClockKeepsStamp(job, w, s.now, modified);
      }
    } else if move.Begin? && p !in s.workers {
      NewcomerIsStamped(move.delivery, modified);
    }
  }

  lemma SourceTime(job: Job, s: State, modified: int)
    requires BackInv(job, s, modified)
    ensures Source in s.objects && s.objects[Source].head.lastModified == Some(modified)
  {
    hide Plan;
  }

  lemma ReadsLeaveSource(job: Job, s: State, p: Pid, fault: Fault)
    requires Source in s.objects && p in s.workers && Ask(job, s.workers[p]).Some? && Ask(job, s.workers[p]).value.OnStore?
    ensures var objects' := After(s.objects, Ask(job, s.workers[p]).value.request, fault);
            Source in objects' && objects'[Source] == s.objects[Source]
  {
  }

  lemma ClockKeepsStamp(job: Job, w: Worker, now: int, modified: int)
    requires Stamped(w, modified)
    ensures Stamped(React(job, w, Time(now)), modified)
  {
  }

  lemma NewcomerIsStamped(delivery: Delivery, modified: int)
    ensures Stamped(Worker(delivery, None, HeadSource), modified)
  {
  }

  lemma WorkersStayBacked(job: Job, s: State, move: Move, modified: int, p: Pid)
    requires BackInv(job, s, modified) && p in Step(job, s, move).workers
    ensures Backing(Step(job, s, move), Step(job, s, move).workers[p])
  {
    hide Plan, BackInv, React;
    if move.Advance? && move.pid == p && Ask(job, s.workers[p]).Some? {
      AdvanceKeepsBacking(job, s, p, move.fault, modified);
    } else if p in s.workers {
      OthersStayBacked(job, s, move, modified, p);
    }
  }

  lemma SourceKeepsTime(job: Job, s: State, move: Move, modified: int)
    requires Source in s.objects && s.objects[Source].head.lastModified == Some(modified) && KeepsTime(s, move, modified)
    ensures var objects' := Step(job, s, move).objects;
            Source in objects' && objects'[Source].head.lastModified == Some(modified)
  {
    hide React;
  }

  /** The marker that stands is the planned one, with its outputs in place. */
  ghost predicate MarkerBacked(job: Job, objects: map<Key, Entry<Body>>, modified: int)
    requires Source in objects
  {
    var plan := Plan(job, objects[Source], modified);
    plan.Some? && Has(objects, Completed, MarkerDoc(MarkerFor(job, plan.value))) && Ready(objects, plan.value)
  }

  lemma MarkerStaysBacked(job: Job, s: State, move: Move, modified: int)
    requires BackInv(job, s, modified) && Completed in Step(job, s, move).objects
    ensures Source in Step(job, s, move).objects && MarkerBacked(job, Step(job, s, move).objects, modified)
  {
    hide Plan, Step, React;
    var s' := Step(job, s, move);
    StepExtends(job, s, move);
    SamePlan(job, s'.objects[Source], s.objects[Source], modified);
    if Completed !in s.objects {
      MarkerIsPlanned(job, s, move);
      KeptFor(job, s, modified, move.pid);
      WritersAgree(job, s, modified, move.pid);
    }
    OutputsPersist(job, s, move, modified, Plan(job, s.objects[Source], modified).value);
  }

  lemma StepKeepsBacking(job: Job, s: State, move: Move, modified: int)
    requires BackInv(job, s, modified) && KeepsTime(s, move, modified)
    ensures BackInv(job, Step(job, s, move), modified)
  {
    hide Plan, Step, Backing, Stamped, MarkerBacked;
    var s' := Step(job, s, move);
    StepKeepsPlan(job, s, move);
    SourceKeepsTime(job, s, move, modified);
    forall p | p in s'.workers ensures Backing(s', s'.workers[p]) && Stamped(s'.workers[p], modified) {
      WorkersStayBacked(job, s, move, modified, p);
      WorkersStayStamped(job, s, move, modified, p);
    }
    if Completed in s'.objects {
      MarkerStaysBacked(job, s, move, modified);
    }
  }

  /** The source is never stored again at another time while it keeps its identity. */
  predicate Steady(source: Entry<Body>, moves: seq<Move>) {
    forall i :: 0 <= i < |moves| && moves[i].Reupload? ==>
      source.head.version.Some? || moves[i].modified == source.head.lastModified
  }

  lemma {:induction false} RunsKeepBacking(job: Job, origin: State, moves: seq<Move>, i: nat)
    requires Origin(origin) && i <= |moves| && origin.objects[Source].head.lastModified.Some?
    requires Steady(origin.objects[Source], moves)
    ensures BackInv(job, At(job, origin, moves, i), origin.objects[Source].head.lastModified.value)
  {
    if i > 0 {
      hide Exec, Step, Plan, Backing, Stamped, MarkerBacked, WorkerPlan;
      RunsKeepBacking(job, origin, moves, i - 1);
      AtNext(job, origin, moves, i - 1);
      RunsExtend(job, origin, moves, 0, i - 1);
      AtStart(job, origin, moves);
      StepKeepsBacking(job, At(job, origin, moves, i - 1), moves[i - 1], origin.objects[Source].head.lastModified.value);
    }
  }

  lemma AtStart(job: Job, origin: State, moves: seq<Move>)
    ensures At(job, origin, moves, 0) == origin
  {
    assert moves[..0] == [];
  }

  /**
   * While the source keeps one LastModified time: at every moment of every run a present marker agrees with the
   * staging object, and with the quarantine object exactly when its count is positive, and no invocation ever rejects
   * a marker.
   */
  lemma MarkersAreTrustworthy(job: Job, origin: State, moves: seq<Move>, n: nat)
    requires Origin(origin) && n <= |moves| && origin.objects[Source].head.lastModified.Some?
    requires Steady(origin.objects[Source], moves)
    ensures var s := At(job, origin, moves, n);
            && Trustworthy(job, s)
            && forall p :: p in s.workers ==> s.workers[p].pc != Failed(MarkerRejected)
  {
    hide Plan, Exec, Verifies;
    RunsKeepBacking(job, origin, moves, n);
    var s := At(job, origin, moves, n);
    BackedMarkersVerify(job, s, origin.objects[Source].head.lastModified.value);
    forall p | p in s.workers ensures s.workers[p].pc != Failed(MarkerRejected) {
      assert Backing(s, s.workers[p]);
    }
  }

  // ---------------------------------------------------------------- with two times for one identity

  /** A new identity: nothing but its source. */
  ghost predicate Fresh(s: State) {
    s.workers == map[] && s.objects.Keys == {Source}
  }

  predicate Processable(job: Job, source: Entry<Body>) {
    Plan(job, source, 0).Some?
  }

  /** Nobody stores the source again. */
  predicate Quiet(moves: seq<Move>) {
    forall move :: move in moves ==> !move.Reupload?
  }

  /** What one invocation does in n healthy calls when nothing else moves. */
  function Solo(job: Job, now: int, objects: map<Key, Entry<Body>>, w: Worker, n: nat): (map<Key, Entry<Body>>, Worker)
    decreases n
  {
    if n == 0 || Ask(job, w).None? then (objects, w)
    else
      var (s, response) := Perform(State(objects, now, map[]), Ask(job, w).value, Healthy);
      Solo(job, now, s.objects, React(job, w, response), n - 1)
  }

  lemma {:induction false} SoloIsARun(job: Job, s: State, pid: Pid, n: nat) returns (moves: seq<Move>)
    requires pid in s.workers
    ensures var (objects, w) := Solo(job, s.now, s.objects, s.workers[pid], n);
            Exec(job, s, moves) == State(objects, s.now, s.workers[pid := w])
    ensures Quiet(moves)
    decreases n
  {
    hide React, Ask;
    moves := [];
    if n > 0 && Ask(job, s.workers[pid]).Some? {
      var next := Step(job, s, Advance(pid, Healthy));
      var rest := SoloIsARun(job, next, pid, n - 1);
      moves := [Advance(pid, Healthy)] + rest;
      Snoc(job, s, [], Advance(pid, Healthy));
      ExecConcat(job, s, [Advance(pid, Healthy)], rest);
      var w := Solo(job, next.now, next.objects, next.workers[pid], n - 1).1;
      assert next.workers[pid := w] == s.workers[pid := w];
    }
  }

  lemma Snoc(job: Job, s: State, moves: seq<Move>, move: Move)
    ensures Exec(job, s, moves + [move]) == Step(job, Exec(job, s, moves), move)
  {
    assert (moves + [move])[..|moves|] == moves;
  }

  lemma {:induction false} ExecConcat(job: Job, s: State, first: seq<Move>, second: seq<Move>)
    ensures Exec(job, s, first + second) == Exec(job, Exec(job, s, first), second)
    decreases |second|
  {
    if second == [] {
      assert first + second == first;
    } else {
      var last := |second| - 1;
      ExecConcat(job, s, first, second[..last]);
      Snoc(job, s, first + second[..last], second[last]);
      assert first + second == (first + second[..last]) + [second[last]];
    }
  }

  /** The delivery of this source with the given event time. */
  function DeliveryAt(source: Entry<Body>, eventTime: int): Delivery {
    Delivery(Size(source.body), None, None, eventTime, "request")
  }

  function Begun(source: Entry<Body>, time: int, pc: Pc): Worker {
    Worker(DeliveryAt(source, time), Some(source), pc)
  }

  function PlanOf(job: Job, source: Entry<Body>, time: int): Outputs
    requires Processable(job, source)
  {
    Plan(job, source, Stamp(source, DeliveryAt(source, time))).value
  }

  /** The first of n healthy calls. */
  lemma SoloStep(job: Job, now: int, objects: map<Key, Entry<Body>>, w: Worker, n: nat)
    requires Ask(job, w).Some?
    ensures var (s, response) := Perform(State(objects, now, map[]), Ask(job, w).value, Healthy);
            Solo(job, now, objects, w, n + 1) == Solo(job, now, s.objects, React(job, w, response), n)
  {
  }

  /** Run undisturbed, a delivery of an identity without a marker comes to its claim. */
  lemma SoloReachesClaim(job: Job, now: int, objects: map<Key, Entry<Body>>, time: int, n: nat)
    requires Source in objects && Completed !in objects && Processable(job, objects[Source])
    ensures var source := objects[Source];
            Solo(job, now, objects, Worker(DeliveryAt(source, time), None, HeadSource), n + 3)
            == Solo(job, now, objects, Begun(source, time, PutClaim(now)), n)
  {
    hide Solo;
    var source := objects[Source];
    SoloStep(job, now, objects, Worker(DeliveryAt(source, time), None, HeadSource), n + 2);
    SoloStep(job, now, objects, Begun(source, time, FindMarker(true)), n + 1);
    SoloStep(job, now, objects, Begun(source, time, ReadClock), n);
  }

  /** It gets a new claim, or replaces an expired one. */
  lemma SoloGetsClaim(job: Job, now: int, objects: map<Key, Entry<Body>>, source: Entry<Body>, time: int, n: nat)
    requires Claim in objects ==> objects[Claim].body.ClaimDoc? && objects[Claim].body.expiresAt <= now
    ensures Solo(job, now, objects, Begun(source, time, PutClaim(now)), if Claim in objects then n + 3 else n + 1)
         == Solo(job, now, objects[Claim := Written(ClaimFor(DeliveryAt(source, time), now))],
                 Begun(source, time, GetSource(now)), n)
  {
    hide Solo;
    if Claim in objects {
      var etag := objects[Claim].head.etag;
      SoloStep(job, now, objects, Begun(source, time, PutClaim(now)), n + 2);
      SoloStep(job, now, objects, Begun(source, time, ReadClaim(now)), n + 1);
      SoloStep(job, now, objects, Begun(source, time, ReplaceClaim(now, etag)), n);
    } else {
      SoloStep(job, now, objects, Begun(source, time, PutClaim(now)), n);
    }
  }

  /** It reads the source it has verified. */
  lemma SoloReads(job: Job, now: int, objects: map<Key, Entry<Body>>, time: int)
    requires Source in objects && Processable(job, objects[Source])
    ensures var source := objects[Source];
            Solo(job, now, objects, Begun(source, time, GetSource(now)), 1)
            == (objects, Begun(source, time, PutStaging(now, PlanOf(job, source, time))))
  {
    var source := objects[Source];
    SoloStep(job, now, objects, Begun(source, time, GetSource(now)), 0);
  }

  /** Together: it claims and reads the source. */
  lemma SoloClaims(job: Job, now: int, objects: map<Key, Entry<Body>>, time: int)
    requires Source in objects && Completed !in objects && Processable(job, objects[Source])
    requires Claim in objects ==> objects[Claim].body.ClaimDoc? && objects[Claim].body.expiresAt <= now
    ensures var source := objects[Source];
            Solo(job, now, objects, Worker(DeliveryAt(source, time), None, HeadSource), if Claim in objects then 7 else 5)
            == (objects[Claim := Written(ClaimFor(DeliveryAt(source, time), now))],
                Begun(source, time, PutStaging(now, PlanOf(job, source, time))))
  {
    hide Solo, Plan, React;
    var source := objects[Source];
    SoloReachesClaim(job, now, objects, time, if Claim in objects then 4 else 2);
    SoloGetsClaim(job, now, objects, source, time, 1);
    SoloReads(job, now, objects[Claim := Written(ClaimFor(DeliveryAt(source, time), now))], time);
  }

  lemma SoloStages(job: Job, now: int, objects: map<Key, Entry<Body>>, w: Worker, n: nat)
    requires w.pc.PutStaging?
    ensures var next := if w.pc.out.rejected == [] then PutMarker(w.pc.now, w.pc.out) else PutQuarantine(w.pc.now, w.pc.out);
            Solo(job, now, objects, w, n + 1)
            == Solo(job, now, objects[Staging := Written(w.pc.out.StagingBody())], w.(pc := next), n)
  {
    hide Solo;
    SoloStep(job, now, objects, w, n);
  }

  lemma SoloQuarantines(job: Job, now: int, objects: map<Key, Entry<Body>>, w: Worker, n: nat)
    requires w.pc.PutQuarantine?
    ensures Solo(job, now, objects, w, n + 1)
         == Solo(job, now, objects[Quarantine := Written(w.pc.out.QuarantineBody())],
                 w.(pc := PutMarker(w.pc.now, w.pc.out)), n)
  {
    hide Solo;
    SoloStep(job, now, objects, w, n);
  }

  lemma SoloCompletes(job: Job, now: int, objects: map<Key, Entry<Body>>, w: Worker)
    requires w.pc.PutMarker? && Completed !in objects
    ensures Solo(job, now, objects, w, 1).0 == objects[Completed := Written(MarkerDoc(MarkerFor(job, w.pc.out)))]
  {
    hide MarkerFor;
    SoloStep(job, now, objects, w, 0);
  }

  /** Then it writes its outputs and its marker. */
  lemma SoloPublishes(job: Job, now: int, objects: map<Key, Entry<Body>>, w: Worker)
    requires Completed !in objects && w.pc.PutStaging?
    ensures Has(Solo(job, now, objects, w, if w.pc.out.rejected == [] then 2 else 3).0, Completed,
                MarkerDoc(MarkerFor(job, w.pc.out)))
  {
    hide Solo, MarkerFor;
    var staged := objects[Staging := Written(w.pc.out.StagingBody())];
    var last := w.(pc := PutMarker(w.pc.now, w.pc.out));
    if w.pc.out.rejected == [] {
      SoloStages(job, now, objects, w, 1);
      SoloCompletes(job, now, staged, last);
    } else {
      SoloStages(job, now, objects, w, 2);
      SoloQuarantines(job, now, staged, w.(pc := PutQuarantine(w.pc.now, w.pc.out)), 1);
      SoloCompletes(job, now, staged[Quarantine := Written(w.pc.out.QuarantineBody())], last);
    }
  }

  /** One delivery gets as far as its first output. */
  lemma Starts(job: Job, s: State, pid: Pid, time: int) returns (moves: seq<Move>)
    requires pid !in s.workers && Source in s.objects && Completed !in s.objects && Processable(job, s.objects[Source])
    requires Claim in s.objects ==> s.objects[Claim].body.ClaimDoc? && s.objects[Claim].body.expiresAt <= s.now
    ensures var source := s.objects[Source];
            Exec(job, s, moves) == State(
              s.objects[Claim := Written(ClaimFor(DeliveryAt(source, time), s.now))], s.now,
              s.workers[pid := Begun(source, time, PutStaging(s.now, PlanOf(job, source, time)))])
    ensures Quiet(moves)
  {
    var delivery := DeliveryAt(s.objects[Source], time);
    var begun := Step(job, s, Begin(pid, delivery));
    Snoc(job, s, [], Begin(pid, delivery));
    hide Exec, Step, React, Solo;
    SoloClaims(job, begun.now, begun.objects, time);
    var rest := SoloIsARun(job, begun, pid, if Claim in s.objects then 7 else 5);
    moves := [Begin(pid, delivery)] + rest;
    ExecConcat(job, s, [Begin(pid, delivery)], rest);
    var w := Begun(s.objects[Source], time, PutStaging(s.now, PlanOf(job, s.objects[Source], time)));
    assert begun.workers[pid := w] == s.workers[pid := w];
  }

  /** A delivery about to write its first output completes. */
  lemma Completes(job: Job, s: State, pid: Pid) returns (moves: seq<Move>)
    requires pid in s.workers && s.workers[pid].pc.PutStaging? && Completed !in s.objects
    ensures var s' := Exec(job, s, moves);
            && Has(s'.objects, Completed, MarkerDoc(MarkerFor(job, s.workers[pid].pc.out)))
            && forall p :: p in s.workers && p != pid ==> p in s'.workers && s'.workers[p] == s.workers[p]
    ensures Quiet(moves)
  {
    hide Exec, Step, React, Solo;
    SoloPublishes(job, s.now, s.objects, s.workers[pid]);
    moves := SoloIsARun(job, s, pid, if s.workers[pid].pc.out.rejected == [] then 2 else 3);
  }

  lemma LateStagingBreaksMarker(job: Job, s: State, other: Outputs)
    requires 0 in s.workers && s.workers[0].pc.PutStaging? && s.workers[0].pc.out.stamp != other.stamp
    requires Has(s.objects, Completed, MarkerDoc(MarkerFor(job, other)))
    ensures !Trustworthy(job, Step(job, s, Advance(0, Healthy)))
  {
    var mine := s.workers[0].pc.out.StagingBody();
    assert Has(Step(job, s, Advance(0, Healthy)).objects, Staging, mine);
    assert mine.content[0] != other.StagingBody().content[0];
  }

  /**
   * One delivery, its lease expired, is about to write; another that stamps its outputs differently claims and
   * completes; then the first one's staging object lands, and the marker lies.
   */
  lemma SecondDeliveryBreaksMarker(job: Job, s: State, time: int) returns (moves: seq<Move>)
    requires s.workers.Keys == {0} && s.workers[0].pc.PutStaging?
    requires Source in s.objects && Completed !in s.objects && Processable(job, s.objects[Source])
    requires Claim in s.objects ==> s.objects[Claim].body.ClaimDoc? && s.objects[Claim].body.expiresAt <= s.now
    requires PlanOf(job, s.objects[Source], time).stamp != s.workers[0].pc.out.stamp
    ensures !Trustworthy(job, Exec(job, s, moves)) && Quiet(moves)
  {
    hide Exec, Plan;
    moves := Starts(job, s, 1, time);
    var more := Completes(job, Exec(job, s, moves), 1);
    ExecConcat(job, s, moves, more);
    moves := moves + more;
    LateStagingBreaksMarker(job, Exec(job, s, moves), PlanOf(job, s.objects[Source], time));
    Snoc(job, s, moves, Advance(0, Healthy));
    moves := moves + [Advance(0, Healthy)];
  }

  /** A delivery is held up before its first output until its lease has expired. */
  lemma HeldUp(job: Job, origin: State, time: int) returns (moves: seq<Move>)
    requires Fresh(origin) && Processable(job, origin.objects[Source])
    ensures var source, held := origin.objects[Source], Exec(job, origin, moves);
            && held.objects.Keys == {Source, Claim} && held.objects[Source] == source
            && held.objects[Claim].body.ClaimDoc? && held.objects[Claim].body.expiresAt <= held.now
            && held.workers == map[0 := Begun(source, time, PutStaging(origin.now, PlanOf(job, source, time)))]
    ensures Quiet(moves)
  {
    hide Exec, Plan;
    moves := Starts(job, origin, 0, time);
    Snoc(job, origin, moves, Tick(CLAIM_TTL));
    moves := moves + [Tick(CLAIM_TTL)];
  }

  /** Without LastModified, the event times of two deliveries of one object differ, and that is enough. */
  lemma LateWriterBreaksMarker(job: Job, origin: State, t0: int, t1: int) returns (moves: seq<Move>)
    requires Fresh(origin) && Processable(job, origin.objects[Source]) && t0 != t1
    requires origin.objects[Source].head.lastModified.None?
    ensures !Trustworthy(job, Exec(job, origin, moves)) && Quiet(moves)
  {
    hide Exec, Trustworthy;
    moves := HeldUp(job, origin, t0);
    var more := SecondDeliveryBreaksMarker(job, Exec(job, origin, moves), t1);
    ExecConcat(job, origin, moves, more);
    moves := moves + more;
  }

  /** With or without LastModified, storing the bytes of an unversioned source again gives one identity two times. */
  lemma ReuploadBreaksMarker(job: Job, origin: State) returns (moves: seq<Move>)
    requires Fresh(origin) && Processable(job, origin.objects[Source])
    requires origin.objects[Source].head.version.None?
    ensures !Trustworthy(job, Exec(job, origin, moves))
  {
    hide Exec, Plan, Trustworthy;
    moves := HeldUp(job, origin, 0);
    var source := origin.objects[Source];
    var later := Some(PlanOf(job, source, 0).stamp + 1);
    Snoc(job, origin, moves, Reupload(later));
    moves := moves + [Reupload(later)];
    var s := Exec(job, origin, moves);
    SamePlan(job, s.objects[Source], source, 0);
    SamePlan(job, s.objects[Source], source, later.value);
    PlansCarryTheirStamp(job, source);
    var more := SecondDeliveryBreaksMarker(job, s, 0);
    ExecConcat(job, origin, moves, more);
    moves := moves + more;
  }

  lemma PlansCarryTheirStamp(job: Job, source: Entry<Body>)
    requires Processable(job, source)
    ensures forall stamp :: Plan(job, source, stamp).Some? && Plan(job, source, stamp).value.stamp == stamp
  {
  }

  // ---------------------------------------------------------------- exact conditions

  lemma UnprocessableNeverCompletes(job: Job, origin: State, moves: seq<Move>)
    requires Origin(origin) && !Processable(job, origin.objects[Source])
    ensures Trustworthy(job, Exec(job, origin, moves))
  {
    hide Exec, Plan;
    assert moves[..|moves|] == moves;
    AtStart(job, origin, moves);
    RunsExtend(job, origin, moves, 0, |moves|);
    RunsKeepPlan(job, origin, moves, |moves|);
    var objects := Exec(job, origin, moves).objects;
    if Completed in objects {
      var stamp :| Plan(job, objects[Source], stamp).Some?;
      SamePlan(job, objects[Source], origin.objects[Source], stamp);
      NothingPlanned(job, origin.objects[Source], stamp);
    }
  }

  lemma NothingPlanned(job: Job, source: Entry<Body>, stamp: int)
    requires !Processable(job, source)
    ensures Plan(job, source, stamp).None?
  {
  }

  /**
   * For a new identity whose source is never stored again: every run keeps its marker trustworthy if and only if the
   * source has a LastModified time or cannot be processed.
   */
  lemma TrustworthyIffLastModified(job: Job, origin: State)
    requires Origin(origin) && Fresh(origin)
    ensures (forall moves :: Quiet(moves) ==> Trustworthy(job, Exec(job, origin, moves)))
       <==> (origin.objects[Source].head.lastModified.Some? || !Processable(job, origin.objects[Source]))
  {
    hide Exec, Plan, Trustworthy;
    var source := origin.objects[Source];
    if !Processable(job, source) {
      forall moves ensures Trustworthy(job, Exec(job, origin, moves)) {
        UnprocessableNeverCompletes(job, origin, moves);
      }
    } else if source.head.lastModified.Some? {
      forall moves | Quiet(moves) ensures Trustworthy(job, Exec(job, origin, moves)) {
        assert moves[..|moves|] == moves;
        assert forall i :: 0 <= i < |moves| ==> moves[i] in moves;
        MarkersAreTrustworthy(job, origin, moves, |moves|);
      }
    } else {
      var moves := LateWriterBreaksMarker(job, origin, 0, 1);
    }
  }

  /** Storing the bytes again makes another identity, and this one has a time. */
  predicate OneTime(source: Entry<Body>) {
    source.head.version.Some? && source.head.lastModified.Some?
  }

  /**
   * The exact condition over all runs, in which the source's bytes may be stored again at any time: the source is a
   * version of a versioned object and has a LastModified time, or it cannot be processed.
   */
  lemma TrustworthyIffVersioned(job: Job, origin: State)
    requires Origin(origin) && Fresh(origin)
    ensures (forall moves :: Trustworthy(job, Exec(job, origin, moves)))
       <==> (OneTime(origin.objects[Source]) || !Processable(job, origin.objects[Source]))
  {
    hide Exec, Plan, Trustworthy;
    var source := origin.objects[Source];
    if !Processable(job, source) {
      forall moves ensures Trustworthy(job, Exec(job, origin, moves)) {
        UnprocessableNeverCompletes(job, origin, moves);
      }
    } else if source.head.version.None? {
      var moves := ReuploadBreaksMarker(job, origin);
    } else if source.head.lastModified.None? {
      var moves := LateWriterBreaksMarker(job, origin, 0, 1);
    } else {
      forall moves ensures Trustworthy(job, Exec(job, origin, moves)) {
        assert moves[..|moves|] == moves;
        MarkersAreTrustworthy(job, origin, moves, |moves|);
      }
    }
  }
}
