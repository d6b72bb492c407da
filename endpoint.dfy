/** The client endpoint a script runs against: an abstraction of the protocol
    codec's Frontend (Receive, Send, Flush). The transport behind it is replaced
    by a finite queue of receive results, a log of what was sent and flushed, and
    a queue of the results the flushes will report. */
module Endpoint {
  import opened Messages

  /** A transport or decoding failure reported by the codec. */
  datatype IoError = IoError(reason: string)

  /** The errors a step can return (a non-nil Go `error`). */
  datatype Error =
    | Eof                                             // io.EOF: the stream ended
    | Io(cause: IoError)                              // any other receive or flush failure
    | Mismatch(got: BackendMessage, want: BackendMessage) // an expect step saw the wrong message

  /** What a step returns: nil or an error. */
  datatype Outcome = Pass | Fail(error: Error)

  /** One result of Receive: a decoded message, the end of the stream, or a failure. */
  datatype Received = Msg(msg: BackendMessage) | EOF | Err(cause: IoError)

  /** One call made on the outbound side of the endpoint. */
  datatype Event = Sent(msg: FrontendMessage) | Flushed

  /** The whole observable state of an endpoint, as a value. */
  datatype EndpointState = EndpointState(
    input: seq<Received>,      // receive results not yet consumed
    output: seq<Event>,        // every Send and Flush so far, in order
    flushes: seq<Option<IoError>>) // results the next flushes report

  datatype Option<T> = None | Some(value: T)

  /** The error Receive reports for a result that carries no message. */
  function ReceiveError(r: Received): (e: Error)
    requires !r.Msg?
    ensures e.Eof? <==> r.EOF?
    ensures r.Err? ==> e == Io(r.cause)
  {
    if r.EOF? then Eof else Io(r.cause)
  }

  /** Receive on a state: the head of the queue, or EOF once the queue is exhausted. */
  function ReceiveSpec(st: EndpointState): (res: (Received, EndpointState))
    ensures st.input != [] ==> res.0 == st.input[0] && res.1.input == st.input[1..]
    ensures st.input == [] ==> res.0 == EOF && res.1.input == []
    ensures res.1.output == st.output && res.1.flushes == st.flushes
  {
    if st.input == [] then (EOF, st) else (st.input[0], st.(input := st.input[1..]))
  }

  /** Flush on a state: logs the flush and reports the next queued result
      (success once the queue of flush results is exhausted). */
  function FlushSpec(st: EndpointState): (res: (Outcome, EndpointState))
    ensures res.1.output == st.output + [Flushed] && res.1.input == st.input
    ensures st.flushes == [] ==> res.0 == Pass && res.1.flushes == []
    ensures st.flushes != [] ==> res.1.flushes == st.flushes[1..]
    ensures st.flushes != [] ==>
              res.0 == (if st.flushes[0].Some? then Fail(Io(st.flushes[0].value)) else Pass)
  {
    var out := st.output + [Flushed];
    if st.flushes == [] then (Pass, st.(output := out))
    else
      var r := if st.flushes[0].Some? then Fail(Io(st.flushes[0].value)) else Pass;
      (r, st.(output := out, flushes := st.flushes[1..]))
  }

  class Frontend {
    var input: seq<Received>
    var output: seq<Event>
    var flushes: seq<Option<IoError>>

    function Snapshot(): (st: EndpointState)
      reads this
      ensures st.input == input && st.output == output && st.flushes == flushes
    {
      EndpointState(input, output, flushes)
    }

    constructor (input: seq<Received>, flushes: seq<Option<IoError>>)
      ensures Snapshot() == EndpointState(input, [], flushes)
    {
      this.input := input;
      this.output := [];
      this.flushes := flushes;
    }

    /** Receives the next message, the end of the stream, or a failure. */
    method Receive() returns (r: Received)
      modifies this
      ensures (r, Snapshot()) == ReceiveSpec(old(Snapshot()))
    {
      if input == [] {
        r := EOF;
      } else {
        r := input[0];
        input := input[1..];
      }
    }

    /** Buffers a message for sending; it cannot fail. */
    method Send(m: FrontendMessage)
      modifies this
      ensures Snapshot() == old(Snapshot()).(output := old(output) + [Sent(m)])
    {
      output := output + [Sent(m)];
    }

    /** Writes the buffered messages out and reports the transport's result. */
    method Flush() returns (r: Outcome)
      modifies this
      ensures (r, Snapshot()) == FlushSpec(old(Snapshot()))
    {
      output := output + [Flushed];
      if flushes == [] {
        r := Pass;
      } else {
        r := if flushes[0].Some? then Fail(Io(flushes[0].value)) else Pass;
        flushes := flushes[1..];
      }
    }
  }
}
