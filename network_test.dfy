/**
 * The network-test application: one iteration of its event loop as a function of the
 * shared state, the event received (or the timeout), the random values drawn and what
 * the sub-GHz radio reports, and the frame its render callback draws.
 */
module NetworkTest {
  import opened Wrappers
  import opened Input
  import opened Canvas
  import opened CString

  /** Capacity of the incoming message buffer and the most one radio read returns. */
  const MessageMaxLen: nat := 64
  /** Characters in a generated server string. */
  const ServerStringLen: nat := 10

  /** The shared record guarded by the state mutex (the unused `isPixel` is dropped). */
  datatype State = State(
    isServerSet: bool,
    isServer: bool,
    isServerStringSet: bool,
    isClientStringSet: bool,
    serverString: seq<byte>,
    clientString: seq<byte>)

  /** The record as the application allocates it: no role chosen, no string set, so it is consistent. */
  function Init(): (s: State)
    ensures !s.isServerSet && !s.isServer && !s.isServerStringSet && !s.isClientStringSet
    ensures Inv(s)
  {
    State(false, false, false, false, [], [])
  }

  /** Queue entries: a timer tick or a key event. */
  datatype Event = Tick | Key(input: InputEvent)

  /** The values `rand()` returns in one iteration, in call order. */
  type RandDraws = r: seq<nat> | |r| >= ServerStringLen witness [0, 0, 0, 0, 0, 0, 0, 0, 0, 0]

  /** The bytes one radio read stores; the worker never returns more than asked for. */
  type ReadBytes = b: seq<byte> | |b| <= MessageMaxLen

  /** What the radio worker reports if polled: data available, and what a read yields. */
  datatype Radio = Radio(available: bool, read: ReadBytes)

  /** The result of one loop iteration: the new state, the loop flag, the radio write. */
  datatype Outcome = Outcome(state: State, processing: bool, sent: Option<seq<byte>>)

  /** The server string generated from the drawn values, each `r % 26 + 40`. */
  function ServerString(rands: RandDraws): (r: seq<byte>)
    ensures |r| == ServerStringLen
    ensures forall i :: 0 <= i < |r| ==> 40 <= r[i] <= 65
  {
    seq(ServerStringLen, i requires 0 <= i < ServerStringLen => (rands[i] % 26 + 40) as byte)
  }

  /** The incoming buffer after it is zeroed whole and a read stores `read` at its start. */
  function Buffer(read: ReadBytes): (buf: seq<byte>)
    ensures |buf| == MessageMaxLen
    ensures buf[..|read|] == read
    ensures forall i :: |read| <= i < MessageMaxLen ==> buf[i] == 0
  {
    read + seq(MessageMaxLen - |read|, _ => 0)
  }

  /** A key press dispatched on its key. */
  function PressKey(s: State, key: InputKey, rands: RandDraws): (r: Outcome)
    ensures r.processing <==> key != Back
    ensures r.sent.Some? <==> key == Ok && s.isServerSet && s.isServer
    ensures r.state.clientString == s.clientString && r.state.isClientStringSet == s.isClientStringSet
    ensures s.isServerSet ==> r.state == s
  {
    match key
    case Up =>
      if s.isServerSet then Outcome(s, true, None)
      else Outcome(s.(isServerSet := true, isServer := true,
                      serverString := ServerString(rands), isServerStringSet := true), true, None)
    case Down =>
      if s.isServerSet then Outcome(s, true, None)
      else Outcome(s.(isServerSet := true, isServer := false), true, None)
    case Right => Outcome(s, true, None)
    case Left => Outcome(s, true, None)
    case Ok =>
      if !s.isServerSet || !s.isServer then Outcome(s, true, None)
      else Outcome(s, true, Some(UpToNul(s.serverString)))
    case Back => Outcome(s, false, None)
  }

  /** A tick polls the radio; available data replaces the client string. */
  function Poll(s: State, radio: Radio): (r: State)
    ensures r.(clientString := s.clientString, isClientStringSet := s.isClientStringSet) == s
    ensures radio.available ==>
      r.isClientStringSet && NoNul(r.clientString) && |r.clientString| <= MessageMaxLen
    ensures !radio.available ==> r == s
  {
    if radio.available then
      s.(clientString := UpToNul(Buffer(radio.read)), isClientStringSet := true)
    else s
  }

  /** One iteration of the loop body, between acquiring and releasing the state mutex. */
  function Next(s: State, received: Received<Event>, rands: RandDraws, radio: Radio): (r: Outcome)
    ensures !r.processing <==> received == Got(Key(InputEvent(Back, Press)))
    ensures r.sent.Some? <==> received == Got(Key(InputEvent(Ok, Press))) && s.isServerSet && s.isServer
    ensures s.isServerSet ==>
      && r.state.isServerSet && r.state.isServer == s.isServer
      && r.state.serverString == s.serverString && r.state.isServerStringSet == s.isServerStringSet
  {
    match received
    case Timeout => Outcome(s, true, None)
    case Got(Tick) => Outcome(Poll(s, radio), true, None)
    case Got(Key(input)) =>
      if input.kind == Press then PressKey(s, input.key, rands) else Outcome(s, true, None)
  }

  /** Everything one loop iteration is given. */
  datatype Iteration = Iteration(received: Received<Event>, rands: RandDraws, radio: Radio)

  /** The state after a run of iterations, the radio writes made, and whether Back ended it. */
  datatype Trace = Trace(state: State, sent: seq<seq<byte>>, stopped: bool)

  /** The radio writes of one iteration: none, or the one payload it sent. */
  function Sent(o: Outcome): seq<seq<byte>> {
    if o.sent.Some? then [o.sent.value] else []
  }

  /** The loop run over a finite script: it stops at the iteration that clears `processing`. */
  function Run(s: State, script: seq<Iteration>): (t: Trace)
    ensures t.stopped <==> exists i :: 0 <= i < |script| && script[i].received == Got(Key(InputEvent(Back, Press)))
    ensures |t.sent| <= |script|
    decreases |script|
  {
    if script == [] then Trace(s, [], false)
    else
      var o := Next(s, script[0].received, script[0].rands, script[0].radio);
      if !o.processing then Trace(o.state, Sent(o), true)
      else
        Prefix(Sent(o), Run(o.state, script[1..]))
  }

  /** A trace preceded by earlier radio writes. */
  function Prefix(earlier: seq<seq<byte>>, t: Trace): Trace {
    Trace(t.state, earlier + t.sent, t.stopped)
  }

  /** Prefixing two batches of writes in turn is prefixing their concatenation. */
  lemma PrefixTwice(a: seq<seq<byte>>, b: seq<seq<byte>>, t: Trace)
    ensures Prefix(a, Prefix(b, t)) == Prefix(a + b, t)
  {
  }

  /** The consistency the loop keeps: a role is chosen before it is used, and only the server has a server string. */
  predicate Inv(s: State) {
    && (s.isServer ==> s.isServerSet)
    && (s.isServer <==> s.isServerStringSet)
    && (s.isServerStringSet ==> |s.serverString| == ServerStringLen)
    && NoNul(s.serverString)
    && NoNul(s.clientString)
  }

  /** The frame the render callback draws; `locked` is None when the mutex was not acquired in time. */
  function Render(locked: Option<State>): (ops: seq<DrawOp>)
    ensures locked.None? ==> ops == []
    ensures locked.Some? ==> (|ops| == 1 || |ops| == 3) && ops[0] == DrawFrame(0, 0, 128, 64)
  {
    match locked
    case None => []
    case Some(s) =>
      [DrawFrame(0, 0, 128, 64)]
      + (if s.isServer && s.isServerStringSet then
           [DrawStr(37, 31, "Server"), DrawStrAligned(64, 41, AlignCenter, AlignBottom, AsText(s.serverString))]
         else [])
      + (if !s.isServer && s.isClientStringSet then
           [DrawStr(37, 31, "Client"), DrawStrAligned(64, 41, AlignCenter, AlignBottom, AsText(s.clientString))]
         else [])
  }

  // ---------------------------------------------------------------------------
  // Role selection

  /** Up with no role chosen makes this device the server with a fresh 10-character string. */
  lemma UpChoosesServer(s: State, rands: RandDraws, radio: Radio)
    requires !s.isServerSet
    ensures var o := Next(s, Got(Key(InputEvent(Up, Press))), rands, radio);
      && o.state.isServerSet && o.state.isServer && o.state.isServerStringSet
      && |o.state.serverString| == ServerStringLen
      && (forall i :: 0 <= i < ServerStringLen ==>
            o.state.serverString[i] as int == rands[i] % 26 + 40 && 40 <= o.state.serverString[i] <= 65)
      && o.state.clientString == s.clientString && o.state.isClientStringSet == s.isClientStringSet
      && o.processing && o.sent == None
  {
  }

  /** Down with no role chosen makes this device the client and touches neither string. */
  lemma DownChoosesClient(s: State, rands: RandDraws, radio: Radio)
    requires !s.isServerSet
    ensures Next(s, Got(Key(InputEvent(Down, Press))), rands, radio)
         == Outcome(s.(isServerSet := true, isServer := false), true, None)
  {
  }

  /** Once a role is chosen, Up and Down change nothing. */
  lemma RoleLatched(s: State, key: InputKey, rands: RandDraws, radio: Radio)
    requires s.isServerSet
    requires key == Up || key == Down
    ensures Next(s, Got(Key(InputEvent(key, Press))), rands, radio) == Outcome(s, true, None)
  {
  }

  /** Over any run, a chosen role, and the server string with it, never changes again. */
  lemma {:induction false} RunKeepsRole(s: State, script: seq<Iteration>)
    requires s.isServerSet
    ensures var t := Run(s, script);
      t.state.isServerSet && t.state.isServer == s.isServer && t.state.serverString == s.serverString
      && t.state.isServerStringSet == s.isServerStringSet
    decreases |script|
  {
    if script != [] {
      var o := Next(s, script[0].received, script[0].rands, script[0].radio);
      if o.processing {
        RunKeepsRole(o.state, script[1..]);
      }
    }
  }

  /** The run ends at the first Back press: iterations after it have no effect. */
  lemma {:induction false} RunStopsAtBack(s: State, script: seq<Iteration>, k: nat)
    requires k < |script|
    requires script[k].received == Got(Key(InputEvent(Back, Press)))
    requires forall j :: 0 <= j < k ==> script[j].received != Got(Key(InputEvent(Back, Press)))
    ensures Run(s, script) == Run(s, script[..k + 1])
    decreases k
  {
    var o := Next(s, script[0].received, script[0].rands, script[0].radio);
    if k > 0 {
      assert script[..k + 1][1..] == script[1..][..k];
      RunStopsAtBack(o.state, script[1..], k - 1);
    }
  }

  // ---------------------------------------------------------------------------
  // Invariant

  /** Every iteration preserves the invariant. */
  lemma NextPreservesInv(s: State, received: Received<Event>, rands: RandDraws, radio: Radio)
    requires Inv(s)
    ensures Inv(Next(s, received, rands, radio).state)
  {
  }

  /** Every run from a consistent state, in particular from Init, ends in a consistent state. */
  lemma {:induction false} RunPreservesInv(s: State, script: seq<Iteration>)
    requires Inv(s)
    ensures Inv(Run(s, script).state)
    decreases |script|
  {
    if script != [] {
      var o := Next(s, script[0].received, script[0].rands, script[0].radio);
      NextPreservesInv(s, script[0].received, script[0].rands, script[0].radio);
      if o.processing {
        RunPreservesInv(o.state, script[1..]);
      }
    }
  }

  // ---------------------------------------------------------------------------
  // Radio write

  /**
   * An iteration writes to the radio exactly when it handles an Ok press in the server
   * role; the bytes written are the whole server string, and no field changes.
   */
  lemma OkSendsServerString(s: State, received: Received<Event>, rands: RandDraws, radio: Radio)
    requires Inv(s)
    ensures var o := Next(s, received, rands, radio);
      && (o.sent.Some? <==> received == Got(Key(InputEvent(Ok, Press))) && s.isServerSet && s.isServer)
      && (o.sent.Some? ==> o.sent.value == s.serverString && |o.sent.value| == ServerStringLen)
      && (received == Got(Key(InputEvent(Ok, Press))) ==> o.state == s && o.processing)
  {
  }

  // ---------------------------------------------------------------------------
  // Events that change nothing

  /** Back only ends the loop. */
  lemma BackStops(s: State, received: Received<Event>, rands: RandDraws, radio: Radio)
    ensures received == Got(Key(InputEvent(Back, Press))) ==>
      Next(s, received, rands, radio) == Outcome(s, false, None)
  {
  }

  /** Right, Left, every non-press key event and a queue timeout leave the state as it was. */
  lemma QuietInputs(s: State, received: Received<Event>, rands: RandDraws, radio: Radio)
    requires || received == Timeout
             || (received.Got? && received.event.Key? &&
                 (received.event.input.kind != Press || received.event.input.key in {Right, Left, Back}))
    ensures Next(s, received, rands, radio).state == s
    ensures Next(s, received, rands, radio).sent == None
  {
  }

  // ---------------------------------------------------------------------------
  // Radio polling

  /**
   * A tick with data available stores the bytes read up to their first NUL as the
   * client string, whatever the role; the zeroed buffer holds nothing past the read.
   */
  lemma TickReceives(s: State, rands: RandDraws, radio: Radio)
    requires radio.available
    ensures var o := Next(s, Got(Tick), rands, radio);
      && o.state == s.(clientString := UpToNul(radio.read), isClientStringSet := true)
      && o.processing && o.sent == None
  {
    var read := radio.read;
    assert Buffer(read) == read + seq(MessageMaxLen - |read|, _ => 0);
    UpToNulPadded(read, seq(MessageMaxLen - |read|, _ => 0));
  }

  /** A tick with nothing available changes nothing. */
  lemma TickIdle(s: State, rands: RandDraws, radio: Radio)
    requires !radio.available
    ensures Next(s, Got(Tick), rands, radio) == Outcome(s, true, None)
  {
  }

  // ---------------------------------------------------------------------------
  // Rendering

  /** "Server" and the server string are drawn exactly when the server string is set in the server role. */
  lemma RenderServer(s: State)
    ensures DrawStr(37, 31, "Server") in Render(Some(s)) <==> s.isServer && s.isServerStringSet
    ensures s.isServer && s.isServerStringSet ==>
      DrawStrAligned(64, 41, AlignCenter, AlignBottom, AsText(s.serverString)) in Render(Some(s))
  {
  }

  /** "Client" and the client string are drawn exactly when isServer is false and a message has arrived (a role need not be chosen). */
  lemma RenderClient(s: State)
    ensures DrawStr(37, 31, "Client") in Render(Some(s)) <==> !s.isServer && s.isClientStringSet
    ensures !s.isServer && s.isClientStringSet ==>
      DrawStrAligned(64, 41, AlignCenter, AlignBottom, AsText(s.clientString)) in Render(Some(s))
  {
  }

  /** At most one role is shown. */
  lemma RenderOneRole(s: State)
    ensures var ops := Render(Some(s));
      !(DrawStr(37, 31, "Server") in ops && DrawStr(37, 31, "Client") in ops)
  {
  }
}
