/** util::log::record: every message both balancers log becomes one line,
    the time, a prefix naming the message type and the message, written to
    the error stream for error types and to the log stream otherwise. The
    clock is an input. */
module Record {
  import opened Libvirt

  /** The message type codes of util::log::type. */
  const STATUS: int := 0x00
  const ERROR: int := 0x01
  const START: int := 0x02
  const STOP: int := 0x04
  const FLAG: int := 0x08
  const ABORT: int := 0x10

  /** util::log::ASYNC, the default of the flush argument. */
  const ASYNC: bool := true

  /** What the message-type switch picks: the line prefix and whether the
      type is an error type. */
  datatype Kind = Kind(prefix: string, error: bool)

  /** The switch over the message type; an unknown code has no kind. */
  function KindOf(code: int): (k: Option<Kind>)
    ensures k.Some? <==> code in {STATUS, ERROR, START, STOP, FLAG, ABORT}
    ensures k.Some? ==> (k.value.error <==> code in {ERROR, FLAG, ABORT})
  {
    if code == STATUS then Some(Kind("STATUS:", false))
    else if code == START then Some(Kind("START:", false))
    else if code == STOP then Some(Kind("STOP:", false))
    else if code == FLAG then Some(Kind("FLAG:", true))
    else if code == ERROR then Some(Kind("ERROR:", true))
    else if code == ABORT then Some(Kind("ABORT:", true))
    else None
  }

  /** The type code a prefix names, if any. */
  function CodeOf(prefix: string): Option<int>
  {
    if prefix == "STATUS:" then Some(STATUS)
    else if prefix == "START:" then Some(START)
    else if prefix == "STOP:" then Some(STOP)
    else if prefix == "FLAG:" then Some(FLAG)
    else if prefix == "ERROR:" then Some(ERROR)
    else if prefix == "ABORT:" then Some(ABORT)
    else None
  }

  /** Distinct types get distinct prefixes: each prefix names its type back,
      and none holds a space. */
  lemma PrefixNamesType(code: int)
    requires KindOf(code).Some?
    ensures CodeOf(KindOf(code).value.prefix) == Some(code)
    ensures forall k :: 0 <= k < |KindOf(code).value.prefix| ==> KindOf(code).value.prefix[k] != ' '
  {
  }

  /** The line written for a known type. */
  function Line(time: string, prefix: string, message: string): (line: string)
    ensures |line| == |time| + |prefix| + |message| + 3
  {
    time + " " + prefix + " " + message + "\n"
  }

  /** Index of the first space in `s`, or |s|. */
  function FirstSpace(s: string): (k: nat)
    ensures k <= |s|
    ensures forall j :: 0 <= j < k ==> s[j] != ' '
    ensures k < |s| ==> s[k] == ' '
    decreases |s|
  {
    if s == [] || s[0] == ' ' then 0 else 1 + FirstSpace(s[1..])
  }

  /** Reads a line back, knowing the time stamp it starts with: the type
      code its prefix names and the message. */
  function Parse(time: string, line: string): Option<(int, string)>
  {
    if |line| < |time| + 2 || line[..|time| + 1] != time + " " || line[|line| - 1] != '\n' then None
    else
      var body := line[|time| + 1..|line| - 1];
      var k := FirstSpace(body);
      if k == |body| then None
      else
        match CodeOf(body[..k])
        case None => None
        case Some(code) => Some((code, body[k + 1..]))
  }

  /** A logged line can be read back: its prefix names the message type and
      the rest of the line is the message, whatever the message holds. */
  lemma LineRoundTrip(time: string, code: int, message: string)
    requires KindOf(code).Some?
    ensures Parse(time, Line(time, KindOf(code).value.prefix, message)) == Some((code, message))
  {
    var prefix := KindOf(code).value.prefix;
    PrefixNamesType(code);
    var line := Line(time, prefix, message);
    assert line[..|time| + 1] == time + " ";
    var body := line[|time| + 1..|line| - 1];
    assert body == prefix + " " + message;
    FirstSpaceAfter(prefix, message);
    assert body[..|prefix|] == prefix;
    assert body[|prefix| + 1..] == message;
  }

  lemma {:induction false} FirstSpaceAfter(prefix: string, rest: string)
    requires forall k :: 0 <= k < |prefix| ==> prefix[k] != ' '
    ensures FirstSpace(prefix + " " + rest) == |prefix|
    decreases |prefix|
  {
    if prefix != [] {
      assert (prefix + " " + rest)[1..] == prefix[1..] + " " + rest;
      FirstSpaceAfter(prefix[1..], rest);
    }
  }

  /** The two standard streams the logger writes to: the text written to
      each, and how much of it has been flushed to the device. std::cerr is
      unit-buffered, so every write to it is flushed at once; std::clog is
      buffered and is flushed by an explicit flush. */
  class Streams {
    var clog: string
    var cerr: string
    var clogFlushed: nat
    var cerrFlushed: nat

    /** Flushed text never exceeds the written text, and the error stream
        holds nothing unflushed. */
    ghost predicate Valid()
      reads this
    {
      clogFlushed <= |clog| && cerrFlushed == |cerr|
    }

    constructor()
      ensures Valid()
      ensures clog == [] && cerr == [] && clogFlushed == 0
    {
      clog, cerr := [], [];
      clogFlushed, cerrFlushed := 0, 0;
    }

    /** util::log::record: an unknown type writes only the unknown-type
        notice to the error stream; a known type writes its line to the
        error stream for error types and to the log stream otherwise. The
        error stream is flushed by every write, whatever `flush` says; the
        log stream is flushed iff `flush`. */
    method Log(message: string, code: int, flush: bool, time: string)
      requires Valid()
      modifies this
      ensures Valid()
      ensures cerrFlushed == |cerr|
      ensures KindOf(code).None? ==>
        cerr == old(cerr) + "ERROR: Unkown error type\n" &&
        clog == old(clog) && clogFlushed == old(clogFlushed)
      ensures KindOf(code).Some? && KindOf(code).value.error ==>
        cerr == old(cerr) + Line(time, KindOf(code).value.prefix, message) &&
        clog == old(clog) && clogFlushed == old(clogFlushed)
      ensures KindOf(code).Some? && !KindOf(code).value.error ==>
        clog == old(clog) + Line(time, KindOf(code).value.prefix, message) &&
        clogFlushed == (if flush then |clog| else old(clogFlushed)) &&
        cerr == old(cerr)
    {
      var kind := KindOf(code);
      if kind.None? {
        cerr := cerr + "ERROR: Unkown error type\n";
        cerrFlushed := |cerr|;
        return;
      }
      var line := Line(time, kind.value.prefix, message);
      if kind.value.error {
        cerr := cerr + line;
        cerrFlushed := |cerr|;
        if flush {
          cerrFlushed := |cerr|;
        }
      } else {
        clog := clog + line;
        if flush {
          clogFlushed := |clog|;
        }
      }
    }
  }
}
