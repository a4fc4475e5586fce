/** What the two balancer executables, memoryman and cpuman, share: the
    command-line check of the interval argument, the signal values their
    main loops test, and the way a run of the main loop ends. */
module Driver {
  import opened Libvirt

  /** os::signal::SIG_NULL and os::signal::SIG_DEF. */
  const SIG_NULL: int := 0
  const SIG_DEF: int := 1

  /** How a run of a main loop ends: the process exits with a status, or it
      is still balancing when the modelled passes run out. */
  datatype Exit = Exited(status: Status) | Running

  /** std::isdigit in the C locale. */
  predicate IsDigit(c: char)
  {
    '0' <= c <= '9'
  }

  /** is_interval: std::all_of over the characters of the argument. */
  predicate IsInterval(s: string)
    decreases |s|
  {
    s == [] || (IsDigit(s[0]) && IsInterval(s[1..]))
  }

  /** The interval check accepts exactly the strings made only of digits, so
      the empty string passes. */
  lemma {:induction false} IsIntervalAllDigits(s: string)
    ensures IsInterval(s) <==> forall k :: 0 <= k < |s| ==> IsDigit(s[k])
    decreases |s|
  {
    if s != [] {
      IsIntervalAllDigits(s[1..]);
      assert forall k :: 1 <= k < |s| ==> s[1..][k - 1] == s[k];
    }
  }

  /** The value std::atoi gives a string of digits, read left to right. */
  function Decimal(s: string): nat
    requires forall k :: 0 <= k < |s| ==> IsDigit(s[k])
    decreases |s|
  {
    if s == [] then 0
    else
      assert IsDigit(s[|s| - 1]);
      Decimal(s[..|s| - 1]) * 10 + (s[|s| - 1] as int - '0' as int)
  }

  /** The decimal numeral of `n`, without leading zeros. */
  function Numeral(n: nat): (s: string)
    ensures s != [] && forall k :: 0 <= k < |s| ==> IsDigit(s[k])
    decreases n
  {
    if n < 10 then [('0' as int + n) as char]
    else Numeral(n / 10) + [('0' as int + n % 10) as char]
  }

  /** Every interval written as a numeral passes the check and is read back
      as itself. */
  lemma {:induction false} NumeralRoundTrip(n: nat)
    ensures IsInterval(Numeral(n))
    ensures Decimal(Numeral(n)) == n
    decreases n
  {
    IsIntervalAllDigits(Numeral(n));
    if n >= 10 {
      NumeralRoundTrip(n / 10);
      var s := Numeral(n);
      assert s[..|s| - 1] == Numeral(n / 10);
    }
  }

  /** The outcome of the argument checks at the head of main. */
  datatype Command = Usage | NotInterval | Interval(ms: nat)

  /** main's argument checks: exactly one argument after the program name,
      made only of digits; the interval is its decimal value. */
  function Validate(argv: seq<string>): (c: Command)
    ensures c == Usage <==> |argv| != 2
    ensures c.Interval? ==> |argv| == 2 && IsInterval(argv[1])
  {
    if |argv| != 2 then Usage
    else if !IsInterval(argv[1]) then NotInterval
    else
      IsIntervalAllDigits(argv[1]);
      Interval(Decimal(argv[1]))
  }

  /** A validated command line is one whose argument is all digits; the
      empty argument is accepted, as an interval of zero milliseconds. */
  lemma ValidateAccepts(argv: seq<string>)
    ensures Validate(argv).Interval? <==>
      |argv| == 2 && forall k :: 0 <= k < |argv[1]| ==> IsDigit(argv[1][k])
    ensures Validate(["balancer", ""]) == Interval(0)
  {
    if |argv| == 2 {
      IsIntervalAllDigits(argv[1]);
    }
  }
}
