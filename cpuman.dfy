/** The cpuman executable: main checks its interval argument, connects to
    the hypervisor and runs the CPU load balancer once per interval until an
    interrupt sets the exit signal, exiting at the first failed round;
    load_balancer lists the domains and builds their vCPU table. */
module Cpuman {
  import opened Libvirt
  import opened Driver
  import opened Vcpu

  /** What the hypervisor answers during one balancer round: the status of
      the domain listing, the domain table the vCPU step enumerates (UUID
      and handle, in enumeration order) and each domain's vCPU query. */
  datatype Round = Round(listStatus: Status, domains: seq<(Uuid, DomainRef)>, probes: seq<VcpuProbe>)

  /** The answers are consistent: one vCPU query per domain, and a table
      never holds one UUID twice. */
  predicate WellFormed(round: Round)
  {
    |round.probes| == |round.domains| &&
    forall i, j :: 0 <= i < j < |round.domains| ==> round.domains[i].0 != round.domains[j].0
  }

  /** manager::load_balancer: fails when the domain listing fails or when
      the vCPU table cannot be built, which happens exactly when there is
      no domain; succeeds otherwise. The table itself is discarded. */
  method LoadBalancer(round: Round) returns (status: Status)
    requires WellFormed(round)
    ensures status == Failure <==> round.listStatus == Failure || |round.domains| == 0
  {
    if round.listStatus == Failure {
      return Failure;
    }
    var table: Table := map[];
    status, table := TableOf(round.domains, round.probes, table);
    if status == Failure {
      return Failure;
    }
    status := Success;
  }

  /** The status a round ends with. */
  function RoundStatus(round: Round): (s: Status)
  {
    if round.listStatus == Failure || |round.domains| == 0 then Failure else Success
  }

  /** One pass of main's loop: whether the interrupt handler ran before its
      guard test, and the balancer round it runs if the guard holds. */
  datatype Pass = Pass(interrupted: bool, round: Round)

  /** The loop from a guard test that reads `signal`: an interrupt before
      the test sets the signal to SIG_DEF; a non-zero signal ends the loop
      with EXIT_SUCCESS; otherwise the round runs and its failure ends the
      process with EXIT_FAILURE. */
  function Loop(signal: int, passes: seq<Pass>): Exit
    decreases |passes|
  {
    var s := if passes != [] && passes[0].interrupted then SIG_DEF else signal;
    if s != SIG_NULL then Exited(Success)
    else if passes == [] then Running
    else if RoundStatus(passes[0].round) == Failure then Exited(Failure)
    else Loop(s, passes[1..])
  }

  /** main, given its arguments, whether the connection opened, the signal
      at the first guard test and the passes. */
  function Run(argv: seq<string>, connected: bool, signal: int, passes: seq<Pass>): Exit
  {
    if !Validate(argv).Interval? || !connected then Exited(Failure)
    else Loop(signal, passes)
  }

  /** First pass whose round fails, or the number of passes. */
  function FirstFailure(passes: seq<Pass>): (k: nat)
    ensures k <= |passes|
    ensures forall j :: 0 <= j < k ==> RoundStatus(passes[j].round) == Success
    ensures k < |passes| ==> RoundStatus(passes[k].round) == Failure
    decreases |passes|
  {
    if passes == [] || RoundStatus(passes[0].round) == Failure then 0
    else 1 + FirstFailure(passes[1..])
  }

  /** First pass preceded by an interrupt, or the number of passes. */
  function FirstInterrupt(passes: seq<Pass>): (k: nat)
    ensures k <= |passes|
    ensures forall j :: 0 <= j < k ==> !passes[j].interrupted
    ensures k < |passes| ==> passes[k].interrupted
    decreases |passes|
  {
    if passes == [] || passes[0].interrupted then 0
    else 1 + FirstInterrupt(passes[1..])
  }

  /** There is no retry budget: starting from SIG_NULL, the process exits
      with EXIT_FAILURE exactly when a round fails before any interrupt,
      exits with EXIT_SUCCESS when an interrupt comes first, and is still
      running otherwise. */
  lemma {:induction false} FailFast(passes: seq<Pass>)
    ensures Loop(SIG_NULL, passes) ==
      if FirstFailure(passes) < FirstInterrupt(passes) then Exited(Failure)
      else if FirstInterrupt(passes) < |passes| then Exited(Success)
      else Running
    decreases |passes|
  {
    if passes != [] && !passes[0].interrupted && RoundStatus(passes[0].round) == Success {
      FailFast(passes[1..]);
    }
  }

  /** A signal that is already set stops the loop at its first guard test. */
  lemma SetSignalStops(signal: int, passes: seq<Pass>)
    requires signal != SIG_NULL
    ensures Loop(signal, passes) == Exited(Success)
  {
  }

  /** The exit signal main's loop reads and the interrupt handler sets. */
  class Cpuman {
    var exitSignal: int

    /** Static initialisation: exit_signal is SIG_NULL. */
    constructor()
      ensures exitSignal == SIG_NULL
    {
      exitSignal := SIG_NULL;
    }

    /** The SIGINT handler: sets the exit signal to SIG_DEF. */
    method Interrupt()
      modifies this
      ensures exitSignal == SIG_DEF
    {
      exitSignal := SIG_DEF;
    }

    /** main: validates the command, connects, and runs one balancer round
        per pass while the exit signal is clear, exiting with EXIT_FAILURE
        at the first failed round. */
    method Execute(argv: seq<string>, connected: bool, passes: seq<Pass>) returns (e: Exit)
      requires forall k :: 0 <= k < |passes| ==> WellFormed(passes[k].round)
      modifies this
      ensures e == Run(argv, connected, old(exitSignal), passes)
    {
      if Validate(argv) == Usage {
        return Exited(Failure);
      }
      if !IsInterval(argv[1]) {
        return Exited(Failure);
      }
      if !connected {
        return Exited(Failure);
      }
      e := BalanceLoop(passes);
    }

    /** The balancing loop of main. */
    method BalanceLoop(passes: seq<Pass>) returns (e: Exit)
      requires forall k :: 0 <= k < |passes| ==> WellFormed(passes[k].round)
      modifies this
      ensures e == Loop(old(exitSignal), passes)
    {
      ghost var total := Loop(exitSignal, passes);
      var i := 0;
      if i < |passes| && passes[i].interrupted {
        Interrupt();
      }
      while exitSignal == SIG_NULL
        invariant 0 <= i <= |passes|
        invariant total == Loop(exitSignal, passes[i..])
        invariant i < |passes| && passes[i].interrupted ==> exitSignal != SIG_NULL
        decreases |passes| - i
      {
        if i == |passes| {
          return Running;
        }
        var status := LoadBalancer(passes[i].round);
        if status == Failure {
          return Exited(Failure);
        }
        assert passes[i..][1..] == passes[i + 1..];
        i := i + 1;
        // the handler may run while the loop sleeps
        if i < |passes| && passes[i].interrupted {
          Interrupt();
        }
      }
      return Exited(Success);
    }
  }
}
