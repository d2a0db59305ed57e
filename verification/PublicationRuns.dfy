/** Theorems about whole runs of the monthly publication protocol, in every interleaving. */
module PublicationRuns {
  import opened Options
  import opened Storage
  import opened PublicationProtocol
  import opened PublicationSafety

  /** The state after the first i moves. */
  function At(origin: State, moves: seq<Move>, i: nat): State
    requires i <= |moves|
  {
    Exec(origin, moves[..i])
  }

  lemma AtNext(origin: State, moves: seq<Move>, i: nat)
    requires i < |moves|
    ensures At(origin, moves, i + 1) == Step(At(origin, moves, i), moves[i])
  {
    assert moves[..i + 1][..i] == moves[..i];
  }

  lemma AtStart(origin: State, moves: seq<Move>)
    ensures At(origin, moves, 0) == origin
  {
    assert moves[..0] == [];
  }

  lemma StepKeepsInvocations(s: State, move: Move, pid: Pid)
    requires pid in s.workers
    ensures var s' := Step(s, move);
            && pid in s'.workers && s'.workers[pid].inv == s.workers[pid].inv
            && (s.workers[pid].pc.Finished? || s.workers[pid].pc.Failed? ==> s'.workers[pid] == s.workers[pid])
  {
  }

  lemma NothingRunsAtFirst(origin: State, moves: seq<Move>, n: nat)
    requires Origin(origin) && n <= |moves| && At(origin, moves, n).workers != map[]
    ensures n > 0
  {
  }

  lemma {:induction false} RunsKeepInv(origin: State, moves: seq<Move>, i: nat)
    requires Origin(origin) && i <= |moves|
    ensures Inv(At(origin, moves, i))
  {
    if i > 0 {
      RunsKeepInv(origin, moves, i - 1);
      AtNext(origin, moves, i - 1);
      StepKeepsInv(At(origin, moves, i - 1), moves[i - 1]);
    }
  }

  lemma {:induction false} RunsExtend(origin: State, moves: seq<Move>, i: nat, j: nat)
    requires i <= j <= |moves|
    ensures Extends(At(origin, moves, i).objects, At(origin, moves, j).objects)
    decreases j - i
  {
    if i < j {
      RunsExtend(origin, moves, i, j - 1);
      AtNext(origin, moves, j - 1);
      StepExtends(At(origin, moves, j - 1), moves[j - 1]);
    }
  }

  /**
   * Visibility: whatever Glue names at any moment is a run whose selection, curated and completion objects
   * exist at that moment and are the same objects ever after.
   */
  lemma GlueNamesCompletedRuns(origin: State, moves: seq<Move>, i: nat, j: nat)
    requires Origin(origin) && i <= j <= |moves|
    ensures var seen := At(origin, moves, i);
            var later := At(origin, moves, j);
            seen.partition.Some? ==>
              && seen.partition.value.RunDirectory?
              && forall part: Part ::
                   var key := Data(seen.partition.value.run, part);
                   key in seen.objects && key in later.objects && later.objects[key] == seen.objects[key]
  {
    RunsKeepInv(origin, moves, i);
    RunsExtend(origin, moves, i, j);
  }

  /** The invocation that move i advances. */
  function Mover(origin: State, moves: seq<Move>, i: nat): Option<Worker>
    requires i < |moves|
  {
    if moves[i].Advance? && moves[i].pid in At(origin, moves, i).workers
    then Some(At(origin, moves, i).workers[moves[i].pid]) else None
  }

  /** Move i sends a put of a data object under this run, whether it takes effect, is refused or is lost. */
  ghost predicate SendsData(origin: State, moves: seq<Move>, i: nat, run: string)
    requires i < |moves|
  {
    var mover := Mover(origin, moves, i);
    && mover.Some?
    && exists part: Part, body: Body, condition: Condition<Body> ::
         Ask(mover.value.inv, mover.value.pc) == Some(OnStore(Put(Data(run, part), body, condition)))
  }

  /** A data object appears only by a put that was sent. */
  lemma WrittenDataWasSent(origin: State, moves: seq<Move>, i: nat, run: string, part: Part)
    requires i < |moves|
    requires Data(run, part) !in At(origin, moves, i).objects && Data(run, part) in At(origin, moves, i + 1).objects
    ensures SendsData(origin, moves, i, run)
  {
    hide Exec, Ask, React;
    AtNext(origin, moves, i);
  }

  lemma SenderConstructs(inv: Invocation, pc: Pc, run: string, part: Part, body: Body, condition: Condition<Body>)
    requires Ask(inv, pc) == Some(OnStore(Put(Data(run, part), body, condition)))
    ensures inv.run == run && Constructing(pc)
  {
  }

  lemma DataSenderHoldsClaim(origin: State, moves: seq<Move>, i: nat, run: string)
    requires Origin(origin) && i < |moves| && SendsData(origin, moves, i, run)
    ensures Mover(origin, moves, i).Some? && Mover(origin, moves, i).value.inv.run == run
    ensures Holds(At(origin, moves, i).objects, ConstructionClaim(run), Mover(origin, moves, i).value.inv.ConstructionDoc())
  {
    hide Exec, Ask, Constructing;
    RunsKeepInv(origin, moves, i);
    var w := Mover(origin, moves, i).value;
    assert WorkerInv(At(origin, moves, i).objects, w);
    var part: Part, body: Body, condition: Condition<Body> :|
      Ask(w.inv, w.pc) == Some(OnStore(Put(Data(run, part), body, condition)));
    SenderConstructs(w.inv, w.pc, run, part, body, condition);
  }

  /** All the data ever put under one run is sent by invocations carrying a single owner token. */
  lemma RunDataHasOneOwner(origin: State, moves: seq<Move>, i: nat, j: nat, run: string)
    requires Origin(origin) && i <= j < |moves|
    requires SendsData(origin, moves, i, run) && SendsData(origin, moves, j, run)
    ensures Mover(origin, moves, i).Some? && Mover(origin, moves, j).Some?
    ensures Mover(origin, moves, i).value.inv.owner == Mover(origin, moves, j).value.inv.owner
  {
    hide Exec, Ask;
    DataSenderHoldsClaim(origin, moves, i, run);
    DataSenderHoldsClaim(origin, moves, j, run);
    RunsExtend(origin, moves, i, j);
  }

  // ---------------------------------------------------------------- without operator authorization

  ghost predicate NoTakeover(moves: seq<Move>) {
    forall i :: 0 <= i < |moves| && moves[i].Begin? ==> moves[i].inv.authorized.None?
  }

  ghost predicate Unauthorized(s: State) {
    forall pid :: pid in s.workers ==> s.workers[pid].inv.authorized.None?
  }

  /** Every publishing invocation and every mutation is the month claim's own. */
  ghost predicate ClaimRules(s: State) {
    && Unauthorized(s)
    && (forall pid :: pid in s.workers && Publishing(s.workers[pid].pc) ==>
          Holds(s.objects, MonthClaim, s.workers[pid].inv.MonthDoc()))
    && (forall m :: m in s.inflight ==> Holds(s.objects, MonthClaim, MonthClaimDoc(m.owner, m.run)))
  }

  lemma StepKeepsMonthClaim(s: State, move: Move)
    requires Unauthorized(s) && MonthClaim in s.objects
    ensures MonthClaim in Step(s, move).objects && Step(s, move).objects[MonthClaim] == s.objects[MonthClaim]
  {
  }

  lemma StepKeepsClaimRules(s: State, move: Move)
    requires ClaimRules(s) && (move.Begin? ==> move.inv.authorized.None?)
    ensures ClaimRules(Step(s, move))
  {
    hide Publishing, React, After, Ask;
    var s' := Step(s, move);
    if MonthClaim in s.objects {
      StepKeepsMonthClaim(s, move);
    }
    forall m | m in s'.inflight && m !in s.inflight ensures Holds(s.objects, MonthClaim, MonthClaimDoc(m.owner, m.run)) {
      SendersPublish(s.workers[move.pid].inv, s.workers[move.pid].pc);
    }
    forall pid | pid in s'.workers && Publishing(s'.workers[pid].pc)
      ensures Holds(s'.objects, MonthClaim, s'.workers[pid].inv.MonthDoc())
    {
      if pid in s.workers {
        PublishingMeansClaimed(s, move, pid);
        StepKeepsInvocations(s, move, pid);
      } else {
        NewcomersDoNotPublish(move.inv);
      }
    }
  }

  lemma NewcomersDoNotPublish(inv: Invocation)
    ensures !Publishing(Start(inv))
  {
  }

  lemma SendersPublish(inv: Invocation, pc: Pc)
    requires Ask(inv, pc).Some? && Ask(inv, pc).value.Mutate?
    ensures Publishing(pc) && Ask(inv, pc).value.mutation.owner == inv.owner && Ask(inv, pc).value.mutation.run == inv.run
  {
  }

  lemma EntersPublishing(inv: Invocation, pc: Pc, response: Response)
    requires Publishing(React(inv, pc, response)) && !Publishing(pc)
    ensures pc.VerifyMonthClaim? && response.FromStore? && response.reply.Found?
    ensures response.reply.entry.body == inv.MonthDoc()
  {
  }

  /** An invocation enters, or stays on, the publishing part of the path only while the claim is its own. */
  lemma PublishingMeansClaimed(s: State, move: Move, pid: Pid)
    requires ClaimRules(s) && pid in s.workers && pid in Step(s, move).workers
    requires Publishing(Step(s, move).workers[pid].pc)
    ensures Holds(s.objects, MonthClaim, s.workers[pid].inv.MonthDoc())
  {
    var w := s.workers[pid];
    if move.Advance? && move.pid == pid && Ask(w.inv, w.pc).Some? && !Publishing(w.pc) {
      hide React, Publishing;
      EntersPublishing(w.inv, w.pc, Perform(s, Ask(w.inv, w.pc).value, move.fault).1);
    }
  }

  lemma {:induction false} RunsKeepClaimRules(origin: State, moves: seq<Move>, i: nat)
    requires Origin(origin) && NoTakeover(moves) && i <= |moves|
    ensures ClaimRules(At(origin, moves, i))
  {
    if i > 0 {
      RunsKeepClaimRules(origin, moves, i - 1);
      AtNext(origin, moves, i - 1);
      StepKeepsClaimRules(At(origin, moves, i - 1), moves[i - 1]);
    }
  }

  /** Without an authorized etag the month claim, once there, is never replaced. */
  lemma {:induction false} MonthClaimNeverChanges(origin: State, moves: seq<Move>, i: nat, j: nat)
    requires Origin(origin) && NoTakeover(moves) && i <= j <= |moves|
    requires MonthClaim in At(origin, moves, i).objects
    ensures MonthClaim in At(origin, moves, j).objects
    ensures At(origin, moves, j).objects[MonthClaim] == At(origin, moves, i).objects[MonthClaim]
    decreases j - i
  {
    if i < j {
      hide Exec, Step, Publishing;
      MonthClaimNeverChanges(origin, moves, i, j - 1);
      RunsKeepClaimRules(origin, moves, j - 1);
      AtNext(origin, moves, j - 1);
      StepKeepsMonthClaim(At(origin, moves, j - 1), moves[j - 1]);
    }
  }

  /** Without an authorized etag, all the mutations ever sent to Glue are one owner's, for one run. */
  lemma OneMutatorPerMonth(origin: State, moves: seq<Move>, i: nat, j: nat, first: Mutation, second: Mutation)
    requires Origin(origin) && NoTakeover(moves) && i <= j <= |moves|
    requires first in At(origin, moves, i).inflight && second in At(origin, moves, j).inflight
    ensures first.owner == second.owner && first.run == second.run && first.location == second.location
  {
    hide Exec, Publishing, WorkerInv;
    RunsKeepClaimRules(origin, moves, i);
    RunsKeepClaimRules(origin, moves, j);
    MonthClaimNeverChanges(origin, moves, i, j);
    RunsKeepInv(origin, moves, i);
    RunsKeepInv(origin, moves, j);
  }

  /** The partition moves only when Glue carries out something that was sent. */
  lemma PartitionSteps(s: State, move: Move)
    requires Step(s, move).partition != s.partition
    ensures move.Land? && move.mutation in s.inflight && Step(s, move).partition == Some(move.mutation.location)
    ensures Step(s, move).objects == s.objects
  {
    hide Ask, React;
  }

  /** A partition that has moved at all sits at the run of the month claim. */
  lemma {:induction false} MovedPartitionIsClaimed(origin: State, moves: seq<Move>, i: nat)
    requires Origin(origin) && NoTakeover(moves) && i <= |moves|
    ensures var s := At(origin, moves, i);
            s.partition != origin.partition ==>
              && MonthClaim in s.objects && s.objects[MonthClaim].body.MonthClaimDoc?
              && s.partition == Some(RunDirectory(s.objects[MonthClaim].body.run))
  {
    if i > 0 {
      hide Exec, Step, Publishing, WorkerInv, RunComplete;
      var s, move := At(origin, moves, i - 1), moves[i - 1];
      MovedPartitionIsClaimed(origin, moves, i - 1);
      AtNext(origin, moves, i - 1);
      RunsKeepInv(origin, moves, i - 1);
      RunsKeepClaimRules(origin, moves, i - 1);
      if Step(s, move).partition != s.partition {
        PartitionSteps(s, move);
      } else if MonthClaim in s.objects {
        StepKeepsMonthClaim(s, move);
      }
    } else {
      AtStart(origin, moves);
    }
  }

  /** Without an authorized etag the partition's location changes at most once. */
  lemma {:induction false} PartitionMovesAtMostOnce(origin: State, moves: seq<Move>, i: nat, j: nat)
    requires Origin(origin) && NoTakeover(moves) && i <= j <= |moves|
    ensures At(origin, moves, i).partition != origin.partition ==>
              At(origin, moves, j).partition == At(origin, moves, i).partition
    decreases j - i
  {
    if i < j && At(origin, moves, i).partition != origin.partition {
      hide Exec, Step, Publishing, WorkerInv, RunComplete;
      var s, move := At(origin, moves, j - 1), moves[j - 1];
      PartitionMovesAtMostOnce(origin, moves, i, j - 1);
      MovedPartitionIsClaimed(origin, moves, j - 1);
      AtNext(origin, moves, j - 1);
      if Step(s, move).partition != s.partition {
        RunsKeepInv(origin, moves, j - 1);
        RunsKeepClaimRules(origin, moves, j - 1);
        PartitionSteps(s, move);
      }
    }
  }

  // ---------------------------------------------------------------- receipts

  /** Move i is this invocation reading the partition at its own, complete run. */
  ghost predicate Observes(origin: State, moves: seq<Move>, i: nat, pid: Pid, run: string)
    requires i < |moves|
  {
    var s := At(origin, moves, i);
    && moves[i].Advance? && moves[i].pid == pid && pid in s.workers
    && Ask(s.workers[pid].inv, s.workers[pid].pc) == Some(ReadPartition)
    && s.partition == Some(RunDirectory(run))
    && RunComplete(s.objects, run)
  }

  /** Move j is this invocation reading the month claim and finding it its own. */
  ghost predicate Rechecks(origin: State, moves: seq<Move>, j: nat, pid: Pid, owner: string, run: string)
    requires j < |moves|
  {
    var s := At(origin, moves, j);
    && moves[j].Advance? && moves[j].pid == pid && pid in s.workers
    && s.workers[pid].pc.RecheckMonthClaim?
    && Holds(s.objects, MonthClaim, MonthClaimDoc(owner, run))
  }

  lemma EntersRecheck(inv: Invocation, pc: Pc, response: Response)
    requires React(inv, pc, response).RecheckMonthClaim? && !pc.RecheckMonthClaim?
    ensures Ask(inv, pc) == Some(ReadPartition) && pc != GetPartition(Retry)
    ensures response == Partition(Some(inv.Location()))
  {
  }

  lemma EnteringRecheckObserves(s: State, move: Move, pid: Pid)
    requires Inv(s) && pid in Step(s, move).workers && Step(s, move).workers[pid].pc.RecheckMonthClaim?
    requires !(pid in s.workers && s.workers[pid].pc.RecheckMonthClaim?)
    ensures move.Advance? && move.pid == pid && pid in s.workers
    ensures var w := s.workers[pid];
            && w.inv == Step(s, move).workers[pid].inv && Ask(w.inv, w.pc) == Some(ReadPartition)
            && s.partition == Some(RunDirectory(w.inv.run)) && RunComplete(s.objects, w.inv.run)
  {
    hide WorkerInv, MutationInv, React;
    assert pid in s.workers;
    var w := s.workers[pid];
    EntersRecheck(w.inv, w.pc, Perform(s, Ask(w.inv, w.pc).value, move.fault).1);
  }

  /** An invocation about to re-read the claim has seen Glue at its run. */
  lemma {:induction false} RecheckFollowsObservation(origin: State, moves: seq<Move>, n: nat, pid: Pid) returns (i: nat)
    requires Origin(origin) && n <= |moves|
    requires pid in At(origin, moves, n).workers && At(origin, moves, n).workers[pid].pc.RecheckMonthClaim?
    ensures i < n && Observes(origin, moves, i, pid, At(origin, moves, n).workers[pid].inv.run)
  {
    hide Exec, Step;
    NothingRunsAtFirst(origin, moves, n);
    AtNext(origin, moves, n - 1);
    RunsKeepInv(origin, moves, n - 1);
    var s := At(origin, moves, n - 1);
    if pid !in s.workers || !s.workers[pid].pc.RecheckMonthClaim? {
      EnteringRecheckObserves(s, moves[n - 1], pid);
      i := n - 1;
    } else {
      i := RecheckFollowsObservation(origin, moves, n - 1, pid);
      StepKeepsInvocations(s, moves[n - 1], pid);
    }
  }

  lemma ReachingReceiptRechecks(s: State, move: Move, pid: Pid)
    requires pid in Step(s, move).workers && Step(s, move).workers[pid].pc.PutReceipt?
    requires !(pid in s.workers && s.workers[pid].pc.PutReceipt?)
    ensures move.Advance? && move.pid == pid && pid in s.workers && s.workers[pid].pc.RecheckMonthClaim?
    ensures s.workers[pid].inv == Step(s, move).workers[pid].inv
    ensures Holds(s.objects, MonthClaim, s.workers[pid].inv.MonthDoc())
  {
    assert pid in s.workers;
  }

  /** An invocation about to write its receipt has re-read the claim as its own after that. */
  lemma {:induction false} ReceiptFollowsRecheck(origin: State, moves: seq<Move>, n: nat, pid: Pid) returns (i: nat, j: nat)
    requires Origin(origin) && n <= |moves|
    requires pid in At(origin, moves, n).workers && At(origin, moves, n).workers[pid].pc.PutReceipt?
    ensures var inv := At(origin, moves, n).workers[pid].inv;
            i < j < n && Observes(origin, moves, i, pid, inv.run) && Rechecks(origin, moves, j, pid, inv.owner, inv.run)
  {
    hide Exec, Step;
    NothingRunsAtFirst(origin, moves, n);
    AtNext(origin, moves, n - 1);
    var s := At(origin, moves, n - 1);
    if pid in s.workers && s.workers[pid].pc.PutReceipt? {
      i, j := ReceiptFollowsRecheck(origin, moves, n - 1, pid);
      StepKeepsInvocations(s, moves[n - 1], pid);
    } else {
      ReachingReceiptRechecks(s, moves[n - 1], pid);
      j := n - 1;
      i := RecheckFollowsObservation(origin, moves, j, pid);
    }
  }

  /**
   * Evidence: behind every receipt the protocol wrote there is an invocation that read Glue at the run's
   * location with its three objects in place, then re-read the month claim as its own, then wrote the receipt.
   */
  lemma {:induction false} ReceiptsAreEarned(origin: State, moves: seq<Move>, n: nat, run: string)
    returns (pid: Pid, i: nat, j: nat, k: nat)
    requires Origin(origin) && n <= |moves|
    requires Published(run) !in origin.objects && Published(run) in At(origin, moves, n).objects
    ensures i < j < k < n && Mover(origin, moves, k).Some? && moves[k].pid == pid
    ensures var inv := Mover(origin, moves, k).value.inv;
            && inv.run == run
            && Observes(origin, moves, i, pid, run)
            && Rechecks(origin, moves, j, pid, inv.owner, run)
            && exists outcome :: At(origin, moves, n).objects[Published(run)].body == inv.Receipt(outcome)
  {
    hide Exec, Step, Ask, RunComplete;
    if n == 0 {
      AtStart(origin, moves);
    } else {
      AtNext(origin, moves, n - 1);
      RunsExtend(origin, moves, n - 1, n);
      if Published(run) in At(origin, moves, n - 1).objects {
        pid, i, j, k := ReceiptsAreEarned(origin, moves, n - 1, run);
      } else {
        k := n - 1;
        ReceiptIsWritten(At(origin, moves, k), moves[k], run);
        pid := moves[k].pid;
        i, j := ReceiptFollowsRecheck(origin, moves, k, pid);
      }
    }
  }

  /** A receipt appears only when an invocation of its run, at its last put, writes it. */
  lemma ReceiptIsWritten(s: State, move: Move, run: string)
    requires Published(run) !in s.objects && Published(run) in Step(s, move).objects
    ensures move.Advance? && move.pid in s.workers && s.workers[move.pid].pc.PutReceipt?
    ensures var w := s.workers[move.pid];
            w.inv.run == run && Step(s, move).objects[Published(run)].body == w.inv.Receipt(w.pc.outcome)
  {
    hide React;
  }

  lemma RecheckOfAnothersFails(s: State, move: Move, pid: Pid)
    requires pid in s.workers && s.workers[pid].pc.RecheckMonthClaim? && move.Advance? && move.pid == pid
    requires !Holds(s.objects, MonthClaim, s.workers[pid].inv.MonthDoc())
    ensures pid in Step(s, move).workers && Step(s, move).workers[pid].pc.Failed?
  {
  }

  /** An invocation that finds the claim replaced when it re-reads it has failed for good and writes no receipt. */
  lemma {:induction false} ReplacedClaimWritesNoReceipt(origin: State, moves: seq<Move>, j: nat, k: nat, pid: Pid)
    requires j < k <= |moves| && Mover(origin, moves, j).Some? && moves[j].pid == pid
    requires Mover(origin, moves, j).value.pc.RecheckMonthClaim?
    requires !Holds(At(origin, moves, j).objects, MonthClaim, Mover(origin, moves, j).value.inv.MonthDoc())
    ensures pid in At(origin, moves, k).workers && At(origin, moves, k).workers[pid].pc.Failed?
    decreases k
  {
    hide Exec, Step;
    AtNext(origin, moves, k - 1);
    if j == k - 1 {
      RecheckOfAnothersFails(At(origin, moves, j), moves[j], pid);
    } else {
      ReplacedClaimWritesNoReceipt(origin, moves, j, k - 1, pid);
      StepKeepsInvocations(At(origin, moves, k - 1), moves[k - 1], pid);
    }
  }

  ghost predicate HasPublished(s: State, pid: Pid) {
    pid in s.workers && s.workers[pid].pc.Finished? && s.workers[pid].pc.newlyPublished
  }

  lemma ReturnsPublished(inv: Invocation, pc: Pc, response: Response)
    requires React(inv, pc, response).Finished? && React(inv, pc, response).newlyPublished
    requires !(pc.Finished? && pc.newlyPublished)
    ensures pc.PutReceipt? && response == FromStore(Stored)
  {
  }

  lemma PublishingCreatesReceipt(s: State, move: Move, pid: Pid)
    requires HasPublished(Step(s, move), pid) && !HasPublished(s, pid)
    ensures move.Advance? && move.pid == pid && Published(Step(s, move).workers[pid].inv.run) !in s.objects
  {
    hide React;
    assert pid in s.workers;
    var w := s.workers[pid];
    ReturnsPublished(w.inv, w.pc, Perform(s, Ask(w.inv, w.pc).value, move.fault).1);
  }

  /** At most one invocation of a run reports having published it. */
  lemma {:induction false} OnePublisherPerRun(origin: State, moves: seq<Move>, n: nat, p: Pid, q: Pid)
    requires Origin(origin) && n <= |moves|
    requires HasPublished(At(origin, moves, n), p) && HasPublished(At(origin, moves, n), q)
    requires At(origin, moves, n).workers[p].inv.run == At(origin, moves, n).workers[q].inv.run
    ensures p == q
  {
    hide Exec, Step;
    NothingRunsAtFirst(origin, moves, n);
    AtNext(origin, moves, n - 1);
    RunsKeepInv(origin, moves, n - 1);
    var s := At(origin, moves, n - 1);
    if HasPublished(s, p) {
      StepKeepsInvocations(s, moves[n - 1], p);
    }
    if HasPublished(s, q) {
      StepKeepsInvocations(s, moves[n - 1], q);
    }
    if HasPublished(s, p) && HasPublished(s, q) {
      OnePublisherPerRun(origin, moves, n - 1, p, q);
    } else if HasPublished(s, p) {
      PublishingCreatesReceipt(s, moves[n - 1], q);
    } else {
      PublishingCreatesReceipt(s, moves[n - 1], p);
      if !HasPublished(s, q) {
        PublishingCreatesReceipt(s, moves[n - 1], q);
      }
    }
  }

  // ---------------------------------------------------------------- completed retries

  /** One call of a completed retry writes nothing, and returns only on seeing Glue at its own location. */
  lemma RetryStepReadsOnly(s: State, pid: Pid, move: Move)
    requires pid in s.workers && Retrying(s.workers[pid].pc)
    ensures var s' := Step(s, move);
            && pid in s'.workers && s'.workers[pid].inv == s.workers[pid].inv
            && RetryPath(s'.workers[pid].pc)
            && (s'.workers[pid].pc.Finished? ==> s.partition == Some(s.workers[pid].inv.Location()))
            && (move.Advance? && move.pid == pid ==>
                  s'.objects == s.objects && s'.inflight == s.inflight && s'.partition == s.partition)
  {
  }

  predicate RetryPath(pc: Pc) {
    Retrying(pc) || pc.Failed? || (pc.Finished? && !pc.newlyCompleted && !pc.newlyPublished)
  }

  /** A retry stays on its path, and one that returned had seen Glue at its location on the way. */
  lemma {:induction false} RetriesStayOnPath(origin: State, moves: seq<Move>, i: nat, j: nat, pid: Pid) returns (k: nat)
    requires i <= j <= |moves| && pid in At(origin, moves, i).workers && Retrying(At(origin, moves, i).workers[pid].pc)
    ensures pid in At(origin, moves, j).workers
    ensures At(origin, moves, j).workers[pid].inv == At(origin, moves, i).workers[pid].inv
    ensures RetryPath(At(origin, moves, j).workers[pid].pc)
    ensures At(origin, moves, j).workers[pid].pc.Finished? ==>
              i <= k < j && At(origin, moves, k).partition == Some(At(origin, moves, i).workers[pid].inv.Location())
    decreases j
  {
    hide *;
    k := i;
    if i < j {
      k := RetriesStayOnPath(origin, moves, i, j - 1, pid);
      AtNext(origin, moves, j - 1);
      var s := At(origin, moves, j - 1);
      RetriesGoOn(s, pid, moves[j - 1]);
      if !s.workers[pid].pc.Finished? {
        k := j - 1;
      }
    } else {
      RetryingIsOnPath(At(origin, moves, i).workers[pid].pc);
    }
  }

  lemma RetryingIsOnPath(pc: Pc)
    requires Retrying(pc)
    ensures RetryPath(pc) && !pc.Finished?
  {
  }

  lemma RetriesGoOn(s: State, pid: Pid, move: Move)
    requires pid in s.workers && RetryPath(s.workers[pid].pc)
    ensures var s' := Step(s, move);
            && pid in s'.workers && s'.workers[pid].inv == s.workers[pid].inv && RetryPath(s'.workers[pid].pc)
            && (s'.workers[pid].pc.Finished? ==>
                  s.workers[pid].pc.Finished? || s.partition == Some(s.workers[pid].inv.Location()))
  {
    hide Step, Retrying;
    StepKeepsInvocations(s, move, pid);
    if Retrying(s.workers[pid].pc) {
      RetryStepReadsOnly(s, pid, move);
    }
  }

  lemma StoppedStepsDoNothing(s: State, pid: Pid, move: Move)
    requires pid in s.workers && (s.workers[pid].pc.Failed? || s.workers[pid].pc.Finished?)
    requires move.Advance? && move.pid == pid
    ensures Step(s, move) == s
  {
  }

  /** No call of an invocation that once found a valid receipt changes the store or anything sent to Glue. */
  lemma RetriesNeverWrite(origin: State, moves: seq<Move>, i: nat, j: nat, pid: Pid)
    requires i <= j < |moves| && pid in At(origin, moves, i).workers && Retrying(At(origin, moves, i).workers[pid].pc)
    requires moves[j].Advance? && moves[j].pid == pid
    ensures var before, after := At(origin, moves, j), At(origin, moves, j + 1);
            after.objects == before.objects && after.inflight == before.inflight && after.partition == before.partition
  {
    hide Exec, Step;
    AtNext(origin, moves, j);
    var _ := RetriesStayOnPath(origin, moves, i, j, pid);
    var s := At(origin, moves, j);
    if Retrying(s.workers[pid].pc) {
      RetryStepReadsOnly(s, pid, moves[j]);
    } else {
      StoppedStepsDoNothing(s, pid, moves[j]);
    }
  }

  /**
   * A completed retry that returns does so only when receipt, selection, curated output and completion all
   * agree with its own bytes, after reading Glue at its location.
   */
  lemma RetriesReturnOnAgreement(origin: State, moves: seq<Move>, i: nat, j: nat, pid: Pid) returns (k: nat)
    requires Origin(origin) && i <= j <= |moves|
    requires pid in At(origin, moves, i).workers && Retrying(At(origin, moves, i).workers[pid].pc)
    requires pid in At(origin, moves, j).workers && At(origin, moves, j).workers[pid].pc.Finished?
    ensures var w := At(origin, moves, j).workers[pid];
            var objects := At(origin, moves, j).objects;
            && i <= k < j && At(origin, moves, k).partition == Some(w.inv.Location())
            && Published(w.inv.run) in objects && w.inv.AcceptsReceipt(objects[Published(w.inv.run)].body)
            && forall part: Part :: Holds(objects, Data(w.inv.run, part), w.inv.Payload(part))
  {
    k := RetriesStayOnPath(origin, moves, i, j, pid);
    RunsKeepInv(origin, moves, i);
    RunsKeepInv(origin, moves, j);
    RunsExtend(origin, moves, i, j);
    var w := At(origin, moves, j).workers[pid];
    forall part: Part ensures Holds(At(origin, moves, j).objects, Data(w.inv.run, part), w.inv.Payload(part)) {
      assert part in {Selection, Curated, Completion} by {
        match part { case Selection => case Curated => case Completion => }
      }
      assert part in Secured(w.pc);
    }
  }

  // ---------------------------------------------------------------- late requests

  /** A move of another invocation, or Glue's. */
  predicate Foreign(move: Move, me: Pid) {
    move.Land? || move.pid != me
  }

  /** A move that is not this invocation's sees only the shared state. */
  lemma OthersStepAlone(s: State, me: Pid, w: Worker, move: Move)
    requires me !in s.workers && Foreign(move, me)
    ensures me !in Step(s, move).workers
    ensures Step(s.(workers := s.workers[me := w]), move) == Step(s, move).(workers := Step(s, move).workers[me := w])
  {
    var with := s.(workers := s.workers[me := w]);
    if move.Begin? && move.pid !in s.workers {
      assert with.workers[move.pid := Worker(move.inv, Start(move.inv))]
          == s.workers[move.pid := Worker(move.inv, Start(move.inv))][me := w];
    } else if move.Advance? && move.pid in s.workers {
      var v := s.workers[move.pid];
      if Ask(v.inv, v.pc).Some? {
        var next := Worker(v.inv, React(v.inv, v.pc, Perform(s, Ask(v.inv, v.pc).value, move.fault).1));
        assert with.workers[move.pid := next] == s.workers[move.pid := next][me := w];
      }
    }
  }

  /** Other moves see nothing of this invocation's own state. */
  lemma {:induction false} OthersRunAlone(s: State, me: Pid, w: Worker, moves: seq<Move>)
    requires me !in s.workers && forall i :: 0 <= i < |moves| ==> Foreign(moves[i], me)
    ensures me !in Exec(s, moves).workers
    ensures Exec(s.(workers := s.workers[me := w]), moves) == Exec(s, moves).(workers := Exec(s, moves).workers[me := w])
  {
    if moves != [] {
      hide Step;
      var n := |moves| - 1;
      OthersRunAlone(s, me, w, moves[..n]);
      OthersStepAlone(Exec(s, moves[..n]), me, w, moves[n]);
    }
  }

  /**
   * A put that lands only after its caller has given up on it leaves the state of a run in which the caller made the
   * call that much later and lost the reply; so late puts add no state to those the theorems are about.
   */
  lemma LatePutIsPausedCaller(s: State, pid: Pid, request: Request<Key, Body>, others: seq<Move>)
    requires pid in s.workers && Ask(s.workers[pid].inv, s.workers[pid].pc) == Some(OnStore(request)) && request.Put?
    requires forall i :: 0 <= i < |others| ==> Foreign(others[i], pid)
    ensures var abandoned := Exec(Step(s, Advance(pid, RequestLost)), others);
            abandoned.(objects := After(abandoned.objects, request, Healthy))
            == Step(Exec(s, others), Advance(pid, ReplyLost))
  {
    hide Exec;
    var w := s.workers[pid];
    var failed := w.(pc := Failed(Transport));
    var rest := s.(workers := s.workers - {pid});
    assert s.workers == rest.workers[pid := w];
    assert Step(s, Advance(pid, RequestLost)).workers == rest.workers[pid := failed];
    OthersRunAlone(rest, pid, w, others);
    OthersRunAlone(rest, pid, failed, others);
    var after: map<Pid, Worker> := Exec(rest, others).workers;
    assert after[pid := w][pid := failed] == after[pid := failed];
  }
}
