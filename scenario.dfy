/** The scenario of the repository's own test, as a client of the methods in
    PgMock: the mock client sends a CancelRequest, expects a FATAL ErrorResponse,
    sends a StartupMessage and then runs the canned handshake. The peer's replies
    are queued on the endpoint in the order the peer writes them. */
module Scenario {
  import opened Messages
  import opened Endpoint
  import opened PgMock
  import opened Properties

  const FatalError: BackendMessage :=
    ErrorResponse(NoErrorFields.(severity := "FATAL", message := "some error"))

  const Startup: FrontendMessage :=
    StartupMessage(ProtocolVersionNumber, map["user" := "test_user", "database" := "test_db"])

  /** The steps the test writes itself, before the canned handshake. */
  function Prelude(): (steps: seq<Step>)
  {
    [SendMessage(CancelRequest(0, 0)), ExpectMessage(FatalError), SendMessage(Startup)]
  }

  function TestScript(): (steps: seq<Step>)
  {
    Prelude() + AcceptAuthenticatedConnRequestSteps()
  }

  /** A passing first step hands its final state to the rest of the script. */
  lemma PassingStepContinues(s: Step, rest: seq<Step>, st: EndpointState)
    requires StepSpec(s, st).0 == Pass
    ensures RunSpec([s] + rest, st) == RunSpec(rest, StepSpec(s, st).1)
  {
    assert ([s] + rest)[0] == s && ([s] + rest)[1..] == rest;
  }

  /** With working flushes a send step passes, logging the message and a flush. */
  lemma SendPasses(msg: FrontendMessage, st: EndpointState)
    requires st.flushes == []
    ensures StepSpec(SendMessage(msg), st) == (Pass, st.(output := st.output + [Sent(msg), Flushed]))
  {
    assert StepSpec(SendMessage(msg), st) == SendSpec(msg, st);
  }

  /** An exact expect passes on the wanted message and consumes just it. */
  lemma ExpectPasses(want: BackendMessage, st: EndpointState)
    requires st.input != [] && st.input[0] == Msg(want)
    ensures StepSpec(ExpectMessage(want), st) == (Pass, st.(input := st.input[1..]))
  {
    assert StepSpec(ExpectMessage(want), st) == ExpectSpec(want, false, st);
  }

  /** With working flushes and the wanted reply first, a send, an expect and a
      send pass: both messages are logged with their flushes and the reply is
      consumed. */
  lemma SendExpectSendPasses(m1: FrontendMessage, want: BackendMessage, m2: FrontendMessage, st: EndpointState)
    requires st.flushes == [] && st.input != [] && st.input[0] == Msg(want)
    ensures RunSpec([SendMessage(m1), ExpectMessage(want), SendMessage(m2)], st) ==
      (Pass, st.(input := st.input[1..], output := st.output + [Sent(m1), Flushed, Sent(m2), Flushed]))
  {
    var st1 := st.(output := st.output + [Sent(m1), Flushed]);
    var st2 := st1.(input := st.input[1..]);
    var st3 := st2.(output := st1.output + [Sent(m2), Flushed]);
    assert [SendMessage(m1), ExpectMessage(want), SendMessage(m2)] ==
           [SendMessage(m1)] + ([ExpectMessage(want)] + [SendMessage(m2)]);
    SendPasses(m1, st);
    PassingStepContinues(SendMessage(m1), [ExpectMessage(want)] + [SendMessage(m2)], st);
    ExpectPasses(want, st1);
    PassingStepContinues(ExpectMessage(want), [SendMessage(m2)], st1);
    SendPasses(m2, st2);
    PassingStepContinues(SendMessage(m2), [], st2);
    assert st3.output == st.output + [Sent(m1), Flushed, Sent(m2), Flushed];
  }

  /** With working flushes and the ErrorResponse as the first reply, the
      prelude passes, having sent and flushed both messages and consumed that
      reply. */
  lemma PreludePasses(st: EndpointState)
    requires st.flushes == [] && st.input != [] && st.input[0] == Msg(FatalError)
    ensures RunSpec(Prelude(), st) ==
      (Pass, st.(input := st.input[1..],
                 output := st.output + [Sent(CancelRequest(0, 0)), Flushed, Sent(Startup), Flushed]))
  {
    SendExpectSendPasses(CancelRequest(0, 0), FatalError, Startup, st);
  }

  /** The whole script is the prelude followed by the handshake. */
  lemma TestScriptRuns(st: EndpointState)
    requires st.flushes == [] && st.input != [] && st.input[0] == Msg(FatalError)
    ensures var st3 := RunSpec(Prelude(), st).1;
      RunSpec(TestScript(), st) == HandshakeSpec(st3) &&
      st3.output == st.output + [Sent(CancelRequest(0, 0)), Flushed, Sent(Startup), Flushed] &&
      st3.input == st.input[1..] && st3.flushes == []
  {
    PreludePasses(st);
    RunAppend(Prelude(), AcceptAuthenticatedConnRequestSteps(), st);
  }

  /** The peer answers as the test's peer does: the script runs to the end,
      having sent and flushed both messages and consumed every reply. */
  method RunWithIdlePeer() returns (r: Outcome, log: seq<Event>, left: seq<Received>)
    ensures r == Pass
    ensures log == [Sent(CancelRequest(0, 0)), Flushed, Sent(Startup), Flushed]
    ensures left == []
  {
    var fe := new Frontend([Msg(FatalError), Msg(AuthenticationOk), Msg(ReadyForQuery(TxIdle))], []);
    TestScriptRuns(fe.Snapshot());
    r := Run(TestScript(), fe);
    log, left := fe.output, fe.input;
  }

  /** The peer reports a transaction in progress instead of an idle state: the
      run fails with a mismatch naming the received and the expected message. */
  method RunWithBusyPeer() returns (r: Outcome, log: seq<Event>)
    ensures r == Fail(Mismatch(ReadyForQuery(TxInTransaction), ReadyForQuery(TxIdle)))
    ensures log == [Sent(CancelRequest(0, 0)), Flushed, Sent(Startup), Flushed]
  {
    var fe := new Frontend([Msg(FatalError), Msg(AuthenticationOk), Msg(ReadyForQuery(TxInTransaction))], []);
    TestScriptRuns(fe.Snapshot());
    r := Run(TestScript(), fe);
    log := fe.output;
  }

  /** The peer closes the connection instead of answering the StartupMessage:
      the handshake's first expectFatal returns the end of the stream, and nothing
      after it runs. */
  method RunWithClosingPeer() returns (r: Outcome, log: seq<Event>)
    ensures r == Fail(Eof)
    ensures log == [Sent(CancelRequest(0, 0)), Flushed, Sent(Startup), Flushed]
  {
    var fe := new Frontend([Msg(FatalError)], []);
    TestScriptRuns(fe.Snapshot());
    r := Run(TestScript(), fe);
    log := fe.output;
  }

  /** The first flush fails: the script stops there, before receiving anything. */
  method RunWithBrokenTransport(e: IoError) returns (r: Outcome, log: seq<Event>, left: seq<Received>)
    ensures r == Fail(Io(e))
    ensures log == [Sent(CancelRequest(0, 0)), Flushed]
    ensures left == [Msg(FatalError)]
  {
    var fe := new Frontend([Msg(FatalError)], [Some(e)]);
    r := Run(TestScript(), fe);
    log, left := fe.output, fe.input;
  }
}
