/**
 * The network-test application's loop as it runs: the state record updated in place
 * field by field, the incoming buffer zeroed and filled in place, and the
 * `for(processing)` loop. Each method is proved against the functions of NetworkTest.
 */
module NetworkTestApp {
  import opened Wrappers
  import opened Input
  import opened CString
  import opened NetworkTest

  /** The ten-character server string built in a NUL-terminated `char arr[11]`. */
  method GenerateServerString(rands: RandDraws) returns (str: seq<byte>)
    ensures str == ServerString(rands)
  {
    var arr := new byte[ServerStringLen + 1];
    for i := 0 to ServerStringLen
      invariant forall j :: 0 <= j < i ==> arr[j] as int == rands[j] % 26 + 40
    {
      arr[i] := (rands[i] % 26 + 40) as byte;
    }
    arr[ServerStringLen] := 0;
    var n := StrLen(arr[..]);
    assert n == ServerStringLen by {
      assert forall j :: 0 <= j < ServerStringLen ==> arr[..][j] != 0;
    }
    str := arr[..n];
  }

  /** `memset(buf, 0, len)` over the whole buffer. */
  method ZeroBuffer(buf: array<byte>)
    modifies buf
    ensures forall i :: 0 <= i < buf.Length ==> buf[i] == 0
  {
    for i := 0 to buf.Length
      invariant forall j :: 0 <= j < i ==> buf[j] == 0
    {
      buf[i] := 0;
    }
  }

  /** A radio read storing `read` at the start of the buffer and leaving the rest alone. */
  method ReadInto(buf: array<byte>, read: seq<byte>)
    requires |read| <= buf.Length
    modifies buf
    ensures buf[..|read|] == read
    ensures forall i :: |read| <= i < buf.Length ==> buf[i] == old(buf[i])
  {
    for i := 0 to |read|
      invariant buf[..i] == read[..i]
      invariant forall j :: i <= j < buf.Length ==> buf[j] == old(buf[j])
    {
      buf[i] := read[i];
    }
  }

  /** The heap-allocated state record together with the loop's incoming buffer. */
  class App {
    var isServerSet: bool
    var isServer: bool
    var isServerStringSet: bool
    var isClientStringSet: bool
    var serverString: seq<byte>
    var clientString: seq<byte>
    /** `incomingMessage[64]`, kept across iterations. */
    const incomingMessage: array<byte>

    ghost predicate Valid()
      reads this
    {
      incomingMessage.Length == MessageMaxLen
    }

    /** The record as a value. */
    function Snapshot(): State
      reads this
    {
      State(isServerSet, isServer, isServerStringSet, isClientStringSet, serverString, clientString)
    }

    /** Allocation and initialisation: all flags false, the buffer zero-initialised. */
    constructor ()
      ensures Valid() && fresh(incomingMessage)
      ensures Snapshot() == Init()
      ensures forall i :: 0 <= i < MessageMaxLen ==> incomingMessage[i] == 0
    {
      isServerSet := false;
      isServer := false;
      isServerStringSet := false;
      isClientStringSet := false;
      serverString := [];
      clientString := [];
      incomingMessage := new byte[MessageMaxLen](_ => 0);
    }

    /**
     * One loop iteration. Returns the new value of the loop flag and the bytes handed
     * to the radio worker's write, if any.
     */
    method Step(received: Received<Event>, rands: RandDraws, radio: Radio)
      returns (processing: bool, sent: Option<seq<byte>>)
      requires Valid()
      modifies this, incomingMessage
      ensures Valid()
      ensures Outcome(Snapshot(), processing, sent) == Next(old(Snapshot()), received, rands, radio)
      ensures received == Got(Tick) && radio.available ==> incomingMessage[..] == Buffer(radio.read)
      ensures !(received == Got(Tick) && radio.available) ==> unchanged(incomingMessage)
    {
      processing, sent := true, None;
      match received {
        case Timeout =>
        case Got(Tick) =>
          if radio.available {
            ZeroBuffer(incomingMessage);
            ReadInto(incomingMessage, radio.read);
            assert incomingMessage[..] == Buffer(radio.read);
            var n := StrLen(incomingMessage[..]);
            clientString := incomingMessage[..n];
            isClientStringSet := true;
          }
        case Got(Key(input)) =>
          if input.kind == Press {
            match input.key {
              case Up =>
                if !isServerSet {
                  isServerSet := true;
                  isServer := true;
                  serverString := GenerateServerString(rands);
                  isServerStringSet := true;
                }
              case Down =>
                if !isServerSet {
                  isServerSet := true;
                  isServer := false;
                }
              case Right =>
              case Left =>
              case Ok =>
                if isServerSet && isServer {
                  var n := StrLen(serverString);
                  sent := Some(serverString[..n]);
                }
              case Back =>
                processing := false;
            }
          }
      }
    }

    /**
     * The `for(processing)` loop over a finite script of iterations: it ends when Back
     * clears the flag or the script is exhausted, returning the radio writes made.
     */
    method Loop(script: seq<Iteration>) returns (sent: seq<seq<byte>>, stopped: bool)
      requires Valid()
      modifies this, incomingMessage
      ensures Valid()
      ensures Trace(Snapshot(), sent, stopped) == Run(old(Snapshot()), script)
    {
      ghost var start := Snapshot();
      var processing := true;
      var i := 0;
      sent := [];
      while processing && i < |script|
        invariant Valid()
        invariant 0 <= i <= |script|
        invariant processing ==> Run(start, script) == Prefix(sent, Run(Snapshot(), script[i..]))
        invariant !processing ==> Run(start, script) == Trace(Snapshot(), sent, true)
      {
        ghost var before := Snapshot();
        ghost var earlier := sent;
        var out;
        processing, out := Step(script[i].received, script[i].rands, script[i].radio);
        var o := Outcome(Snapshot(), processing, out);
        assert script[i..][0] == script[i] && script[i..][1..] == script[i + 1..];
        assert Run(before, script[i..]) == if !processing then Trace(Snapshot(), Sent(o), true)
          else Prefix(Sent(o), Run(Snapshot(), script[i + 1..]));
        sent := sent + Sent(o);
        PrefixTwice(earlier, Sent(o), Run(Snapshot(), script[i + 1..]));
        i := i + 1;
      }
      stopped := !processing;
    }
  }
}
