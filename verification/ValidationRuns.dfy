/** Theorems about whole runs of the daily validation protocol, in every interleaving. */
module ValidationRuns {
  import opened Options
  import opened Storage
  import opened ValidationProtocol
  import opened ValidationSafety

  /** The state after the first i moves. */
  function At(job: Job, origin: State, moves: seq<Move>, i: nat): State
    requires i <= |moves|
  {
    Exec(job, origin, moves[..i])
  }

  lemma AtNext(job: Job, origin: State, moves: seq<Move>, i: nat)
    requires i < |moves|
    ensures At(job, origin, moves, i + 1) == Step(job, At(job, origin, moves, i), moves[i])
  {
    assert moves[..i + 1][..i] == moves[..i];
  }

  lemma NothingRunsAtFirst(job: Job, origin: State, moves: seq<Move>, n: nat)
    requires Origin(origin) && n <= |moves| && At(job, origin, moves, n).workers != map[]
    ensures n > 0
  {
  }

  lemma {:induction false} RunsKeepLeases(job: Job, origin: State, moves: seq<Move>, i: nat)
    requires Origin(origin) && i <= |moves|
    ensures LeaseInv(At(job, origin, moves, i))
  {
    if i > 0 {
      hide Exec, Step;
      RunsKeepLeases(job, origin, moves, i - 1);
      AtNext(job, origin, moves, i - 1);
      StepKeepsLeases(job, At(job, origin, moves, i - 1), moves[i - 1]);
    }
  }

  lemma {:induction false} RunsKeepPlan(job: Job, origin: State, moves: seq<Move>, i: nat)
    requires Origin(origin) && i <= |moves|
    ensures PlanInv(job, At(job, origin, moves, i))
  {
    if i > 0 {
      hide Exec, Step;
      RunsKeepPlan(job, origin, moves, i - 1);
      AtNext(job, origin, moves, i - 1);
      StepKeepsPlan(job, At(job, origin, moves, i - 1), moves[i - 1]);
    }
  }

  lemma {:induction false} RunsExtend(job: Job, origin: State, moves: seq<Move>, i: nat, j: nat)
    requires i <= j <= |moves|
    ensures Extends(At(job, origin, moves, i).objects, At(job, origin, moves, j).objects)
    decreases j - i
  {
    if i < j {
      hide Exec, Step;
      RunsExtend(job, origin, moves, i, j - 1);
      AtNext(job, origin, moves, j - 1);
      StepExtends(job, At(job, origin, moves, j - 1), moves[j - 1]);
    }
  }

  // ---------------------------------------------------------------- leases

  /** The claim standing after i moves. */
  predicate Claimed(job: Job, origin: State, moves: seq<Move>, i: nat)
    requires i <= |moves|
  {
    var objects := At(job, origin, moves, i).objects;
    Claim in objects && objects[Claim].body.ClaimDoc?
  }

  function ClaimAt(job: Job, origin: State, moves: seq<Move>, i: nat): Entry<Body>
    requires i <= |moves| && Claimed(job, origin, moves, i)
  {
    At(job, origin, moves, i).objects[Claim]
  }

  /**
   * Leases are disjoint and in order: a later claim is either the same object or one that started at or after
   * the earlier one's expiry.
   */
  lemma {:induction false} LeasesFollow(job: Job, origin: State, moves: seq<Move>, i: nat, j: nat)
    requires Origin(origin) && i <= j <= |moves| && Claimed(job, origin, moves, i)
    ensures Claimed(job, origin, moves, j)
    ensures var earlier, later := ClaimAt(job, origin, moves, i), ClaimAt(job, origin, moves, j);
            && earlier.body.expiresAt == earlier.body.startedAt + CLAIM_TTL
            && (later == earlier || earlier.body.expiresAt <= later.body.startedAt)
    decreases j - i
  {
    hide Exec, Step;
    RunsKeepLeases(job, origin, moves, i);
    if i < j {
      LeasesFollow(job, origin, moves, i, j - 1);
      RunsKeepLeases(job, origin, moves, j - 1);
      AtNext(job, origin, moves, j - 1);
      StepKeepsLeases(job, At(job, origin, moves, j - 1), moves[j - 1]);
      RunsKeepLeases(job, origin, moves, j);
    }
  }

  /** Once replaced, a claim never comes back: neither the object nor its entity tag. */
  lemma ClaimsNeverRecur(job: Job, origin: State, moves: seq<Move>, i: nat, j: nat, k: nat)
    requires Origin(origin) && i <= j <= k <= |moves| && Claimed(job, origin, moves, i)
    ensures Claimed(job, origin, moves, j) && Claimed(job, origin, moves, k)
    ensures ClaimAt(job, origin, moves, j) != ClaimAt(job, origin, moves, i) ==>
              ClaimAt(job, origin, moves, k).head.etag != ClaimAt(job, origin, moves, i).head.etag
  {
    hide Exec, Step;
    LeasesFollow(job, origin, moves, i, j);
    LeasesFollow(job, origin, moves, j, k);
    LeasesFollow(job, origin, moves, i, k);
    RunsKeepLeases(job, origin, moves, i);
    RunsKeepLeases(job, origin, moves, k);
  }

  /** Moments in order, the claim standing at each different from the one before. */
  ghost predicate Successive(job: Job, origin: State, moves: seq<Move>, at: seq<nat>) {
    && (forall c :: 0 <= c < |at| ==> at[c] <= |moves| && Claimed(job, origin, moves, at[c]))
    && (forall c :: 0 < c < |at| ==>
          && at[c - 1] <= at[c]
          && ClaimAt(job, origin, moves, at[c]) != ClaimAt(job, origin, moves, at[c - 1]))
  }

  /** n successive claims span at least n times sixteen minutes. */
  lemma {:induction false} LeasesSpan(job: Job, origin: State, moves: seq<Move>, at: seq<nat>)
    requires Origin(origin) && at != [] && Successive(job, origin, moves, at)
    ensures ClaimAt(job, origin, moves, at[0]).body.startedAt + |at| * CLAIM_TTL
         <= ClaimAt(job, origin, moves, at[|at| - 1]).body.expiresAt
  {
    hide Exec, Step;
    var last := |at| - 1;
    LeasesFollow(job, origin, moves, at[last], at[last]);
    if last > 0 {
      LeasesSpan(job, origin, moves, at[..last]);
      LeasesFollow(job, origin, moves, at[last - 1], at[last]);
    }
  }

  /**
   * One clock, and invocations that stop within sixteen minutes of reading it: no two of them are ever between
   * claim and completion at the same time.
   */
  lemma OneLiveOwner(job: Job, origin: State, moves: seq<Move>, n: nat, p: Pid, q: Pid)
    requires Origin(origin) && n <= |moves|
    requires var s := At(job, origin, moves, n);
             && p in s.workers && Working(s.workers[p].pc) && s.now < s.workers[p].pc.now + CLAIM_TTL
             && q in s.workers && Working(s.workers[q].pc) && s.now < s.workers[q].pc.now + CLAIM_TTL
    ensures p == q
  {
    RunsKeepLeases(job, origin, moves, n);
    var s := At(job, origin, moves, n);
    assert WorkerLease(s, s.workers[p]) && WorkerLease(s, s.workers[q]);
    assert p != q ==> Apart(s.workers[p].pc, s.workers[q].pc);
  }

  // ---------------------------------------------------------------- results

  /** The completion marker is written at most once: what is there stays there. */
  lemma MarkerIsFinal(job: Job, origin: State, moves: seq<Move>, i: nat, j: nat)
    requires i <= j <= |moves| && Completed in At(job, origin, moves, i).objects
    ensures Completed in At(job, origin, moves, j).objects
    ensures At(job, origin, moves, j).objects[Completed] == At(job, origin, moves, i).objects[Completed]
  {
    RunsExtend(job, origin, moves, i, j);
  }

  /** Every invocation that returns, whatever its verdict, returns the counts and keys of the one marker. */
  lemma ResultsAgree(job: Job, origin: State, moves: seq<Move>, n: nat, p: Pid, q: Pid)
    requires Origin(origin) && n <= |moves|
    requires var s := At(job, origin, moves, n);
             && p in s.workers && s.workers[p].pc.Returned? && q in s.workers && s.workers[q].pc.Returned?
    ensures var s := At(job, origin, moves, n);
            && s.workers[p].pc.marker == s.workers[q].pc.marker
            && Completed in s.objects && s.objects[Completed].body == MarkerDoc(s.workers[p].pc.marker)
  {
    RunsKeepPlan(job, origin, moves, n);
    var s := At(job, origin, moves, n);
    assert WorkerPlan(job, s, s.workers[p]) && WorkerPlan(job, s, s.workers[q]);
  }

  ghost predicate HasProcessed(s: State, p: Pid) {
    p in s.workers && s.workers[p].pc.Returned? && s.workers[p].pc.verdict == Processed
  }

  lemma ProcessingCreatesMarker(job: Job, s: State, move: Move, p: Pid)
    requires HasProcessed(Step(job, s, move), p) && !HasProcessed(s, p)
    ensures move.Advance? && move.pid == p && Completed !in s.objects
  {
    assert p in s.workers;
  }

  /** At most one invocation ever returns "processed". */
  lemma {:induction false} OneProcessed(job: Job, origin: State, moves: seq<Move>, n: nat, p: Pid, q: Pid)
    requires Origin(origin) && n <= |moves|
    requires HasProcessed(At(job, origin, moves, n), p) && HasProcessed(At(job, origin, moves, n), q)
    ensures p == q
  {
    hide Exec, Step;
    NothingRunsAtFirst(job, origin, moves, n);
    AtNext(job, origin, moves, n - 1);
    var s := At(job, origin, moves, n - 1);
    if HasProcessed(s, p) && HasProcessed(s, q) {
      OneProcessed(job, origin, moves, n - 1, p, q);
    } else if p != q {
      RunsKeepPlan(job, origin, moves, n - 1);
      assert HasProcessed(s, p) ==> WorkerPlan(job, s, s.workers[p]);
      assert HasProcessed(s, q) ==> WorkerPlan(job, s, s.workers[q]);
      if !HasProcessed(s, p) {
        ProcessingCreatesMarker(job, s, moves[n - 1], p);
      }
      if !HasProcessed(s, q) {
        ProcessingCreatesMarker(job, s, moves[n - 1], q);
      }
    }
  }

  // ---------------------------------------------------------------- late requests

  /** A move of another delivery, of the clock or of whoever stores the source again. */
  predicate Foreign(move: Move, me: Pid) {
    move.Tick? || move.Reupload? || move.pid != me
  }

  /** A move that is not this delivery's sees only the shared state. */
  lemma OthersStepAlone(job: Job, s: State, me: Pid, w: Worker, move: Move)
    requires me !in s.workers && Foreign(move, me)
    ensures me !in Step(job, s, move).workers
    ensures Step(job, s.(workers := s.workers[me := w]), move)
         == Step(job, s, move).(workers := Step(job, s, move).workers[me := w])
  {
    var with := s.(workers := s.workers[me := w]);
    if move.Begin? && move.pid !in s.workers {
      var begun := Worker(move.delivery, None, HeadSource);
      assert with.workers[move.pid := begun] == s.workers[move.pid := begun][me := w];
    } else if move.Advance? && move.pid in s.workers && Ask(job, s.workers[move.pid]).Some? {
      var v := s.workers[move.pid];
      var next := React(job, v, Perform(s, Ask(job, v).value, move.fault).1);
      assert with.workers[move.pid := next] == s.workers[move.pid := next][me := w];
    }
  }

  /** Other moves see nothing of this delivery's own state. */
  lemma {:induction false} OthersRunAlone(job: Job, s: State, me: Pid, w: Worker, moves: seq<Move>)
    requires me !in s.workers && forall i :: 0 <= i < |moves| ==> Foreign(moves[i], me)
    ensures me !in Exec(job, s, moves).workers
    ensures Exec(job, s.(workers := s.workers[me := w]), moves)
         == Exec(job, s, moves).(workers := Exec(job, s, moves).workers[me := w])
  {
    if moves != [] {
      hide Step;
      var n := |moves| - 1;
      OthersRunAlone(job, s, me, w, moves[..n]);
      OthersStepAlone(job, Exec(job, s, moves[..n]), me, w, moves[n]);
    }
  }

  /**
   * A put that lands only after its caller has given up on it leaves the state of a run in which the caller made the
   * call that much later and lost the reply; so late puts add no state to those the theorems are about.
   */
  lemma LatePutIsPausedCaller(job: Job, s: State, pid: Pid, request: Request<Key, Body>, others: seq<Move>)
    requires pid in s.workers && Ask(job, s.workers[pid]) == Some(OnStore(request)) && request.Put?
    requires forall i :: 0 <= i < |others| ==> Foreign(others[i], pid)
    ensures var abandoned := Exec(job, Step(job, s, Advance(pid, RequestLost)), others);
            abandoned.(objects := After(abandoned.objects, request, Healthy))
            == Step(job, Exec(job, s, others), Advance(pid, ReplyLost))
  {
    hide Exec;
    var w := s.workers[pid];
    var rest := s.(workers := s.workers - {pid});
    assert s.workers == rest.workers[pid := w];
    assert Step(job, s, Advance(pid, RequestLost)).workers == rest.workers[pid := w.(pc := Failed(Transport))];
    OthersRunAlone(job, rest, pid, w, others);
    OthersRunAlone(job, rest, pid, w.(pc := Failed(Transport)), others);
    var after: map<Pid, Worker> := Exec(job, rest, others).workers;
    assert after[pid := w][pid := w.(pc := Failed(Transport))] == after[pid := w.(pc := Failed(Transport))];
  }
}
