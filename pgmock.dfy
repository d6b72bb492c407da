/** The script engine: steps, the functions that build them, what running a
    step does to an endpoint (as functions on EndpointState), and the methods
    that run steps against a Frontend object, each proved to act as its
    function says. */
module PgMock {
  import opened Messages
  import opened Endpoint

  /** A unit of work against the endpoint. A Script is itself a step. */
  datatype Step =
    | ExpectStep(want: BackendMessage, any: bool) // expectMessageStep; any: compare types only
    | SendStep(msg: FrontendMessage)             // sendMessageStep
    | WaitStep                                   // waitForCloseCompleteStep
    | ScriptStep(steps: seq<Step>)               // a nested Script

  // ---------------------------------------------------------------------------
  // Building steps

  /** Expects the next message to deeply equal want. */
  function ExpectMessage(want: BackendMessage): (s: Step)
    ensures forall st: EndpointState | st.input != [] && st.input[0].Msg? ::
      StepSpec(s, st).0 == (if st.input[0].msg == want then Pass else Fail(Mismatch(st.input[0].msg, want)))
  {
    expectMessage(want, false)
  }

  /** Expects the next message to have want's type; want's fields are ignored.
      On a message of another type it answers as ExpectMessage would. */
  function ExpectAnyMessage(want: BackendMessage): (s: Step)
    ensures forall st: EndpointState | st.input != [] && st.input[0].Msg? ::
      StepSpec(s, st).0.Pass? <==> TypeOf(st.input[0].msg) == TypeOf(want)
    ensures forall st: EndpointState | st.input != [] && st.input[0].Msg? &&
                                       TypeOf(st.input[0].msg) != TypeOf(want) ::
      StepSpec(s, st) == StepSpec(ExpectMessage(want), st) &&
      StepSpec(s, st).0 == Fail(Mismatch(st.input[0].msg, want))
  {
    expectMessage(want, true)
  }

  /** An expect step of either mode: it runs as ExpectSpec says. */
  function expectMessage(want: BackendMessage, any: bool): (s: Step)
    ensures forall st: EndpointState :: StepSpec(s, st) == ExpectSpec(want, any, st)
  {
    ExpectStep(want, any)
  }

  /** A send step: it runs as SendSpec says. */
  function SendMessage(msg: FrontendMessage): (s: Step)
    ensures forall st: EndpointState :: StepSpec(s, st) == SendSpec(msg, st)
  {
    SendStep(msg)
  }

  /** A wait-for-CloseComplete step: it runs as WaitSpec says. */
  function WaitForClose(): (s: Step)
    ensures forall st: EndpointState :: StepSpec(s, st) == WaitSpec(st)
  {
    WaitStep
  }

  /** The canned handshake: the server accepts the authentication, then reports
      that it is idle and ready for a query. */
  function AcceptAuthenticatedConnRequestSteps(): (steps: seq<Step>)
    ensures forall st: EndpointState :: RunSpec(steps, st) == HandshakeSpec(st)
  {
    var handshake := [ExpectMessage(AuthenticationOk), ExpectMessage(ReadyForQuery(TxIdle))];
    assert forall st: EndpointState :: RunSpec(handshake, st) == HandshakeSpec(st) by {
      forall st: EndpointState ensures RunSpec(handshake, st) == HandshakeSpec(st) {
        var (r, st') := StepSpec(handshake[0], st);
        assert handshake[1..] == [handshake[1]] && handshake[1..][1..] == [];
        if r.Pass? {
          assert RunSpec(handshake[1..], st') == StepSpec(handshake[1], st');
        }
      }
    }
    handshake
  }

  /** What the handshake does: it passes exactly when the next two messages are
      AuthenticationOk and an idle ReadyForQuery, and then has consumed just
      those; otherwise it fails as the first expect that disagrees does. */
  function HandshakeSpec(st: EndpointState): (res: (Outcome, EndpointState))
    ensures res.0.Pass? <==>
      |st.input| >= 2 && st.input[0] == Msg(AuthenticationOk) && st.input[1] == Msg(ReadyForQuery(TxIdle))
    ensures res.0.Pass? ==> res.1 == st.(input := st.input[2..])
  {
    var (r, st') := ExpectSpec(AuthenticationOk, false, st);
    if r.Fail? then (r, st') else ExpectSpec(ReadyForQuery(TxIdle), false, st')
  }

  // ---------------------------------------------------------------------------
  // What each step does, as a function of the endpoint state

  /** The verdict of an expect step on a received message. */
  function Judge(got: BackendMessage, want: BackendMessage, any: bool): (r: Outcome)
    ensures r.Pass? <==> got == want || (any && TypeOf(got) == TypeOf(want))
    ensures r.Fail? ==> r.error == Mismatch(got, want)
  {
    if any && TypeOf(got) == TypeOf(want) then Pass
    else if got != want then Fail(Mismatch(got, want))
    else Pass
  }

  /** Receive once: a receive failure, the end of the stream included, is the
      result as it is; a message is judged. Exactly one receive result is
      consumed and nothing is written. */
  function ExpectSpec(want: BackendMessage, any: bool, st: EndpointState): (res: (Outcome, EndpointState))
    ensures res.1.input == (if st.input == [] then [] else st.input[1..])
    ensures res.1.output == st.output && res.1.flushes == st.flushes
    ensures st.input == [] || st.input[0].EOF? ==> res.0 == Fail(Eof)
    ensures st.input != [] && st.input[0].Err? ==> res.0 == Fail(Io(st.input[0].cause))
    ensures st.input != [] && st.input[0].Msg? ==> res.0 == Judge(st.input[0].msg, want, any)
  {
    var (got, st') := ReceiveSpec(st);
    if !got.Msg? then (Fail(ReceiveError(got)), st')
    else (Judge(got.msg, want, any), st')
  }

  /** Send, then flush: the log gains exactly the message and one flush, no
      input is consumed, and the result is the flush's. */
  function SendSpec(msg: FrontendMessage, st: EndpointState): (res: (Outcome, EndpointState))
    ensures res.1.output == st.output + [Sent(msg), Flushed] && res.1.input == st.input
    ensures st.flushes == [] ==> res == (Pass, res.1) && res.1.flushes == []
    ensures st.flushes != [] ==> res.1.flushes == st.flushes[1..]
    ensures st.flushes != [] ==>
              res.0 == (if st.flushes[0].Some? then Fail(Io(st.flushes[0].value)) else Pass)
  {
    FlushSpec(st.(output := st.output + [Sent(msg)]))
  }

  /** Receive and discard until a CloseComplete, the end of the stream or a
      failure. Nothing is written, and the only possible error is a receive
      failure taken from the input. */
  function WaitSpec(st: EndpointState): (res: (Outcome, EndpointState))
    ensures res.1.output == st.output && res.1.flushes == st.flushes
    ensures res.0.Fail? ==> res.0.error.Io? && Err(res.0.error.cause) in st.input
    ensures |res.1.input| <= |st.input|
    decreases |st.input|
  {
    var (got, st') := ReceiveSpec(st);
    match got
    case EOF => (Pass, st')
    case Err(e) => (Fail(Io(e)), st')
    case Msg(m) =>
      if TypeOf(m) == CloseCompleteType then (Pass, st')
      else
        assert st'.input == st.input[1..];
        WaitSpec(st')
  }

  /** One step of any kind. No step gives back input it has consumed or takes
      back output it has written. */
  function StepSpec(s: Step, st: EndpointState): (res: (Outcome, EndpointState))
    ensures |res.1.input| <= |st.input| && |st.output| <= |res.1.output|
    decreases s
  {
    match s
    case ExpectStep(want, any) => ExpectSpec(want, any, st)
    case SendStep(msg) => SendSpec(msg, st)
    case WaitStep => WaitSpec(st)
    case ScriptStep(steps) => RunSpec(steps, st)
  }

  /** Runs the steps in order and stops at the first one that fails. An empty
      script passes and changes nothing; no run gives back input or takes back
      output. */
  function RunSpec(steps: seq<Step>, st: EndpointState): (res: (Outcome, EndpointState))
    ensures steps == [] ==> res == (Pass, st)
    ensures |res.1.input| <= |st.input| && |st.output| <= |res.1.output|
    decreases steps
  {
    if steps == [] then (Pass, st)
    else
      var (r, st') := StepSpec(steps[0], st);
      if r.Fail? then (r, st') else RunSpec(steps[1..], st')
  }

  // ---------------------------------------------------------------------------
  // Running steps against a Frontend

  method RunExpect(want: BackendMessage, any: bool, fe: Frontend) returns (r: Outcome)
    modifies fe
    ensures (r, fe.Snapshot()) == ExpectSpec(want, any, old(fe.Snapshot()))
    ensures fe.output == old(fe.output) && fe.flushes == old(fe.flushes)
    ensures fe.input == if old(fe.input) == [] then [] else old(fe.input)[1..]
  {
    var got := fe.Receive();
    if !got.Msg? {
      return Fail(ReceiveError(got));
    }
    if any && TypeOf(got.msg) == TypeOf(want) {
      return Pass;
    }
    if got.msg != want {
      return Fail(Mismatch(got.msg, want));
    }
    return Pass;
  }

  method RunSend(msg: FrontendMessage, fe: Frontend) returns (r: Outcome)
    modifies fe
    ensures (r, fe.Snapshot()) == SendSpec(msg, old(fe.Snapshot()))
    ensures fe.output == old(fe.output) + [Sent(msg), Flushed]
    ensures fe.input == old(fe.input)
  {
    fe.Send(msg);
    r := fe.Flush();
  }

  method RunWaitForClose(fe: Frontend) returns (r: Outcome)
    modifies fe
    ensures (r, fe.Snapshot()) == WaitSpec(old(fe.Snapshot()))
  {
    while true
      invariant WaitSpec(fe.Snapshot()) == WaitSpec(old(fe.Snapshot()))
      decreases |fe.input|
    {
      var got := fe.Receive();
      match got
      case EOF =>
        return Pass;
      case Err(e) =>
        return Fail(Io(e));
      case Msg(m) =>
        if TypeOf(m) == CloseCompleteType {
          return Pass;
        }
    }
  }

  /** Runs one step; a Script step runs its steps. */
  method RunStep(s: Step, fe: Frontend) returns (r: Outcome)
    modifies fe
    decreases s
    ensures (r, fe.Snapshot()) == StepSpec(s, old(fe.Snapshot()))
  {
    match s
    case ExpectStep(want, any) => r := RunExpect(want, any, fe);
    case SendStep(msg) => r := RunSend(msg, fe);
    case WaitStep => r := RunWaitForClose(fe);
    case ScriptStep(steps) => r := Run(steps, fe);
  }

  /** Runs a script: each step in order, returning the first error unchanged. */
  method Run(steps: seq<Step>, fe: Frontend) returns (r: Outcome)
    modifies fe
    decreases steps
    ensures (r, fe.Snapshot()) == RunSpec(steps, old(fe.Snapshot()))
    ensures steps == [] ==> r == Pass && fe.Snapshot() == old(fe.Snapshot())
  {
    for i := 0 to |steps|
      invariant RunSpec(steps, old(fe.Snapshot())) == RunSpec(steps[i..], fe.Snapshot())
    {
      assert steps[i..][0] == steps[i] && steps[i..][1..] == steps[i + 1..];
      r := RunStep(steps[i], fe);
      if r.Fail? {
        return r;
      }
    }
    return Pass;
  }
}
