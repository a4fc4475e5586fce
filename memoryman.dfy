/** The memoryman executable: main checks its interval argument, connects to
    the hypervisor and runs the memory load balancer once per interval,
    giving up after the third failed round; load_balancer chains the
    per-round steps and stops at the first that fails. */
module Memoryman {
  import opened Libvirt
  import opened Driver
  import opened MemoryDomain
  import opened MemoryHardware
  import opened MemoryScheduler

  /** maximum_failures. */
  const MAXIMUM_FAILURES: nat := 3

  /** What the hypervisor answers during one balancer round. The domain table
      is the list of domain handles domain::data walks; the statuses of the
      table, collection-period and UUID-saving steps are given as they come;
      `limit` is the uninitialised system_memory_limit the hardware scan
      starts from. */
  datatype Round = Round(tableStatus: Status, table: seq<DomainRef>, periodStatus: Status,
                         uuidsStatus: Status, probes: seq<MemProbe>, firstCount: int,
                         nodeStats: seq<NodeStat>, secondCount: int, limit: int)

  /** The answers are consistent with the calls that ask for them. */
  predicate WellFormed(round: Round)
  {
    |round.probes| == |round.table| &&
    (round.firstCount >= 1 ==> |round.nodeStats| == round.firstCount)
  }

  /** Every step before the scheduler succeeds. */
  predicate StepsSucceed(round: Round)
    requires WellFormed(round)
  {
    round.tableStatus == Success && round.periodStatus == Success &&
    round.uuidsStatus == Success &&
    |round.table| > 0 && Stop(round.probes) == |round.table| &&
    round.firstCount >= 1 && round.secondCount >= 1 &&
    LastNonTotal(round.nodeStats, round.limit) != 0
  }

  /** The result of one round: its status and the memory requests the
      scheduler issued. */
  function Balance(round: Round, accepts: SetRequest -> bool): (Status, seq<SetRequest>)
    requires WellFormed(round)
  {
    if !StepsSucceed(round) then (Failure, [])
    else
      Outcome(Refreshed(round.table, round.probes, []), LastNonTotal(round.nodeStats, round.limit), accepts)
  }

  /** A round succeeds exactly when every step and the scheduler succeed;
      no memory is moved unless every step before the scheduler succeeded;
      and no request asks for a negative amount. */
  lemma BalanceChain(round: Round, accepts: SetRequest -> bool)
    requires WellFormed(round)
    ensures Balance(round, accepts).0 == Success <==>
      StepsSucceed(round) &&
      Outcome(Refreshed(round.table, round.probes, []), LastNonTotal(round.nodeStats, round.limit), accepts).0 == Success
    ensures Balance(round, accepts).1 != [] ==> StepsSucceed(round)
    ensures forall k :: 0 <= k < |Balance(round, accepts).1| ==> Balance(round, accepts).1[k].kib >= 0
  {
    if StepsSucceed(round) {
      var data := Refreshed(round.table, round.probes, []);
      var limit := LastNonTotal(round.nodeStats, round.limit);
      if Classify(data, limit - MINIMUM_SYSTEM_MEMORY).ok {
        OutcomeKeepsBudget(data, limit, accepts);
      }
    }
  }

  /** manager::load_balancer: the steps in order, each failure ending the
      round with EXIT_FAILURE before any later step runs. */
  method LoadBalancer(round: Round, accepts: SetRequest -> bool) returns (status: Status, requests: seq<SetRequest>)
    requires WellFormed(round)
    ensures (status, requests) == Balance(round, accepts)
  {
    if round.tableStatus == Failure {
      return Failure, [];
    }
    if round.periodStatus == Failure {
      return Failure, [];
    }
    if round.uuidsStatus == Failure {
      return Failure, [];
    }
    var dataStatus, list', data := MemoryDomain.Data(round.table, round.probes, []);
    if dataStatus == Failure {
      return Failure, [];
    }
    var limitStatus, systemLimit := MemoryLimit(round.firstCount, round.nodeStats, round.secondCount, round.limit);
    if limitStatus == Failure {
      return Failure, [];
    }
    status, requests := MemoryScheduler.Schedule(data, systemLimit, accepts);
  }

  /** Failed rounds among `statuses`. */
  function FailureCount(statuses: seq<Status>): nat
    decreases |statuses|
  {
    if statuses == [] then 0
    else (if statuses[0] == Failure then 1 else 0) + FailureCount(statuses[1..])
  }

  /** The balancing loop entered with `failures` failures already counted:
      how it ends, and how many passes complete (each completed pass
      increments balancer_iteration). */
  function Loop(failures: nat, statuses: seq<Status>): (Exit, nat)
    requires failures < MAXIMUM_FAILURES
    decreases |statuses|
  {
    if statuses == [] then (Running, 0)
    else if statuses[0] == Failure && failures + 1 >= MAXIMUM_FAILURES then (Exited(Failure), 0)
    else
      var next := Loop(if statuses[0] == Failure then failures + 1 else failures, statuses[1..]);
      (next.0, next.1 + 1)
  }

  /** The statuses of the balancer rounds, in order. */
  function Statuses(rounds: seq<Round>, accepts: SetRequest -> bool): (s: seq<Status>)
    requires forall k :: 0 <= k < |rounds| ==> WellFormed(rounds[k])
    ensures |s| == |rounds|
    decreases |rounds|
  {
    if rounds == [] then [] else [Balance(rounds[0], accepts).0] + Statuses(rounds[1..], accepts)
  }

  /** Round `i`'s entry is that round's balancer status. */
  lemma {:induction false} StatusAt(rounds: seq<Round>, i: nat, accepts: SetRequest -> bool)
    requires i < |rounds| && forall k :: 0 <= k < |rounds| ==> WellFormed(rounds[k])
    ensures Statuses(rounds, accepts)[i] == Balance(rounds[i], accepts).0
    decreases i
  {
    if i > 0 {
      StatusAt(rounds[1..], i - 1, accepts);
    }
  }

  /** The status of round `i` is the status its balancer run returns. */
  method RoundStatus(rounds: seq<Round>, i: nat, accepts: SetRequest -> bool) returns (status: Status)
    requires i < |rounds| && forall k :: 0 <= k < |rounds| ==> WellFormed(rounds[k])
    ensures status == Statuses(rounds, accepts)[i]
  {
    var requests;
    status, requests := LoadBalancer(rounds[i], accepts);
    StatusAt(rounds, i, accepts);
  }

  /** main, given its arguments, whether the connection opened, the signal
      value the loop guard reads and the balancer rounds: how the process
      ends and how many passes complete. */
  function Run(argv: seq<string>, connected: bool, signal: int, rounds: seq<Round>,
               accepts: SetRequest -> bool): (Exit, nat)
    requires forall k :: 0 <= k < |rounds| ==> WellFormed(rounds[k])
  {
    if !Validate(argv).Interval? || !connected then (Exited(Failure), 0)
    else if signal != SIG_NULL then (Exited(Success), 0)
    else Loop(0, Statuses(rounds, accepts))
  }

  /** Failures are never reset: the loop exits with EXIT_FAILURE exactly when
      the rounds hold the third failure, whatever succeeded in between. */
  lemma {:induction false} ThirdFailureAborts(failures: nat, statuses: seq<Status>)
    requires failures < MAXIMUM_FAILURES
    ensures Loop(failures, statuses).0 == Exited(Failure) <==> failures + FailureCount(statuses) >= MAXIMUM_FAILURES
    ensures Loop(failures, statuses).0 != Exited(Success)
    decreases |statuses|
  {
    if statuses != [] && !(statuses[0] == Failure && failures + 1 >= MAXIMUM_FAILURES) {
      ThirdFailureAborts(if statuses[0] == Failure then failures + 1 else failures, statuses[1..]);
    }
  }

  /** balancer_iteration counts every completed pass: all of them while the
      loop still runs, and on abort exactly the passes before the round
      that brought the third failure. */
  lemma {:induction false} LoopPasses(failures: nat, statuses: seq<Status>)
    requires failures < MAXIMUM_FAILURES
    ensures Loop(failures, statuses).0 == Running ==> Loop(failures, statuses).1 == |statuses|
    ensures Loop(failures, statuses).0 == Exited(Failure) ==>
      var n := Loop(failures, statuses).1;
      n < |statuses| && statuses[n] == Failure &&
      failures + FailureCount(statuses[..n]) == MAXIMUM_FAILURES - 1
    decreases |statuses|
  {
    if statuses != [] && !(statuses[0] == Failure && failures + 1 >= MAXIMUM_FAILURES) {
      var f := if statuses[0] == Failure then failures + 1 else failures;
      LoopPasses(f, statuses[1..]);
      var n := Loop(f, statuses[1..]).1;
      if Loop(f, statuses[1..]).0 == Exited(Failure) {
        assert statuses[..n + 1][1..] == statuses[1..][..n];
      }
    }
  }

  /** One pass of the loop, seen from pass `i`. */
  lemma LoopStep(failures: nat, statuses: seq<Status>, i: nat)
    requires failures < MAXIMUM_FAILURES && i < |statuses|
    ensures statuses[i] == Failure && failures + 1 >= MAXIMUM_FAILURES ==>
      Loop(failures, statuses[i..]) == (Exited(Failure), 0)
    ensures !(statuses[i] == Failure && failures + 1 >= MAXIMUM_FAILURES) ==>
      var f := if statuses[i] == Failure then failures + 1 else failures;
      Loop(failures, statuses[i..]) == (Loop(f, statuses[i + 1..]).0, Loop(f, statuses[i + 1..]).1 + 1)
  {
    assert statuses[i..][1..] == statuses[i + 1..];
  }

  /** As written, the exit signal starts at SIG_DEF, so the loop guard is
      false on entry: a validated, connected memoryman exits with
      EXIT_SUCCESS without running a single balancer round. */
  lemma NeverBalances(argv: seq<string>, rounds: seq<Round>, accepts: SetRequest -> bool)
    requires forall k :: 0 <= k < |rounds| ==> WellFormed(rounds[k])
    requires Validate(argv).Interval?
    ensures Run(argv, true, SIG_DEF, rounds, accepts) == (Exited(Success), 0)
  {
  }

  /** The process state main and its loop keep: the exit signal the
      interrupt handler would set and the iteration counter. */
  class Memoryman {
    var exitSignal: int
    var balancerIteration: nat

    /** Static initialisation: exit_signal is SIG_DEF, balancer_iteration 0. */
    constructor()
      ensures exitSignal == SIG_DEF && balancerIteration == 0
    {
      exitSignal := SIG_DEF;
      balancerIteration := 0;
    }

    /** main: validates the command, connects, and runs one balancer round
        per pass while the exit signal is clear, exiting with EXIT_FAILURE on
        the third failed round. */
    method Execute(argv: seq<string>, connected: bool, rounds: seq<Round>, accepts: SetRequest -> bool)
      returns (e: Exit)
      requires forall k :: 0 <= k < |rounds| ==> WellFormed(rounds[k])
      modifies this
      ensures e == Run(argv, connected, old(exitSignal), rounds, accepts).0
      ensures balancerIteration == old(balancerIteration) + Run(argv, connected, old(exitSignal), rounds, accepts).1
      ensures exitSignal == old(exitSignal)
    {
      if Validate(argv) == Usage {
        return Exited(Failure);
      }
      if !IsInterval(argv[1]) {
        return Exited(Failure);
      }
      if !connected {
        return Exited(Failure);
      }
      e := BalanceLoop(rounds, accepts);
    }

    /** The balancing loop of main: one balancer round per pass while the
        exit signal is clear, each completed pass counted. */
    method BalanceLoop(rounds: seq<Round>, accepts: SetRequest -> bool) returns (e: Exit)
      requires forall k :: 0 <= k < |rounds| ==> WellFormed(rounds[k])
      modifies this
      ensures exitSignal == old(exitSignal)
      ensures exitSignal != SIG_NULL ==> e == Exited(Success) && balancerIteration == old(balancerIteration)
      ensures exitSignal == SIG_NULL ==>
        e == Loop(0, Statuses(rounds, accepts)).0 &&
        balancerIteration == old(balancerIteration) + Loop(0, Statuses(rounds, accepts)).1
    {
      ghost var statuses := Statuses(rounds, accepts);
      ghost var clear := exitSignal == SIG_NULL;
      ghost var total := Loop(0, statuses);
      var failures := 0;
      var i := 0;
      while exitSignal == SIG_NULL
        invariant 0 <= i <= |rounds| && failures < MAXIMUM_FAILURES
        invariant exitSignal == old(exitSignal) && (!clear ==> i == 0)
        invariant balancerIteration == old(balancerIteration) + i
        invariant clear ==> total.0 == Loop(failures, statuses[i..]).0
        invariant clear ==> total.1 == Loop(failures, statuses[i..]).1 + i
        decreases |rounds| - i
      {
        if i == |rounds| {
          return Running;
        }
        var status := RoundStatus(rounds, i, accepts);
        LoopStep(failures, statuses, i);
        if status == Failure {
          failures := failures + 1;
          if failures >= MAXIMUM_FAILURES {
            return Exited(Failure);
          }
        }
        balancerIteration := balancerIteration + 1;
        i := i + 1;
      }
      return Exited(Success);
    }
  }
}
