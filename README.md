# pgmock frontend script engine, in Dafny

pgmock's `frontend` package mocks a PostgreSQL client. The test writes a
`Script`: an ordered list of steps. The script then runs against a
`pgproto3.Frontend`, the codec's client endpoint. There are five kinds of step:

- expect an exact backend message (deep equality);
- expect any backend message of a given type;
- send a frontend message and flush;
- discard backend messages until a `CloseComplete` or the end of the stream;
- a nested `Script`.

`Run` executes the steps in order and returns the first error unchanged.

The model has five modules:

- `Messages` (messages.dfy): backend and frontend messages as datatypes, and `TypeOf`, which gives a message's concrete type.
- `Endpoint` (endpoint.dfy): the endpoint. `Frontend` is a class with three fields:
  - a finite queue of receive results: `Msg(m)`, `EOF` or `Err(e)`;
  - a log of `Sent(m)` and `Flushed` events;
  - a queue of the results the next flushes will report.

  `Receive` and `Flush` are proved to act as the functions `ReceiveSpec` and `FlushSpec`. `Send`'s contract states its new state directly: the log gains the message. These methods stand in for the codec library, which is not part of this model.
- `PgMock` (pgmock.dfy): three parts.
  - The `Step` datatype. Its constructors `ExpectStep`, `SendStep`, `WaitStep` and `ScriptStep` stand for Go's step structs: `expectMessageStep`, `sendMessageStep`, `waitForCloseCompleteStep` and `Script`.
  - The functions that build steps, under the Go names: `ExpectMessage`, `ExpectAnyMessage`, `expectMessage`, `SendMessage`, `WaitForClose` and `AcceptAuthenticatedConnRequestSteps`.
  - What each step does to an `EndpointState` value: `ExpectSpec`, `SendSpec`, `WaitSpec`, `StepSpec`, `RunSpec`, and `HandshakeSpec` for the canned handshake.
  - The imperative methods that run steps against a `Frontend`. Each method is proved to follow its function. `Run` is a `for` loop with early return. The wait step is a `while` loop.
- `Properties` (properties.dfy): lemmas about those functions.
- `Scenario` (scenario.dfy): the scenario of the repository's test. It is a client of the methods, run against four different peers.

An error is `Eof` (Go's `io.EOF`), `Io(e)` (any other transport or decode failure) or `Mismatch(got, want)`.

## Model

| member | source | states |
|---|---|---|
| Messages.TypeOf | frontend/pgmock.go:45 | the concrete type of a message; it is CloseComplete, ReadyForQuery or AuthenticationOk exactly when the message is one |
| PgMock.ExpectMessage | frontend/pgmock.go:56-58 | on any state whose next item is a message, the step passes iff that message equals want, and otherwise fails with Mismatch(got, want) |
| PgMock.ExpectAnyMessage | frontend/pgmock.go:60-62 | on any state whose next item is a message, the step passes iff that message has want's type; on a different type its result and state equal ExpectMessage's, a Mismatch naming both |
| PgMock.expectMessage | frontend/pgmock.go:64-66 | builds the step that, on every state, acts as ExpectSpec in the given mode |
| PgMock.SendMessage | frontend/pgmock.go:77-79 | builds the step that, on every state, acts as SendSpec |
| PgMock.WaitForClose | frontend/pgmock.go:98-100 | builds the step that, on every state, acts as WaitSpec |
| PgMock.AcceptAuthenticatedConnRequestSteps | frontend/pgmock.go:102-107 | the two steps, run on any state, act as HandshakeSpec |
| PgMock.HandshakeSpec | frontend/pgmock.go:104-105 | passes iff the next two messages are AuthenticationOk and ReadyForQuery with status 'I', and then has consumed exactly those two |
| PgMock.ExpectSpec | frontend/pgmock.go:39-54 | consumes exactly one receive result and writes nothing; a receive failure, EOF included, is returned verbatim; a received message is judged by Judge |
| PgMock.SendSpec | frontend/pgmock.go:72-75 | the log gains exactly Sent(msg) then Flushed; no input is consumed; the result is the flush's queued result, or success once none is queued |
| PgMock.WaitSpec | frontend/pgmock.go:83-96 | writes nothing and consumes no flush result; its only error is Io(e) for some Err(e) in the input, never EOF or a mismatch |
| PgMock.StepSpec | frontend/pgmock.go:12-13 | a step of any kind, a Script included, never gives back input or takes back output; StepAdvances and NestingIsInlining state the rest |
| PgMock.RunSpec | frontend/pgmock.go:20-28 | an empty script passes and changes nothing; no run gives back input or takes back output; RunAppend, FirstErrorStops, FailureComesFromAStep and RunAdvances state the rest |
| PgMock.Judge | frontend/pgmock.go:45-53 | an expect passes iff the message deeply equals the wanted one, or, in any-mode, has its type; every failure is Mismatch(got, want) |
| PgMock.RunExpect | frontend/pgmock.go:39-54 | receives once and acts as ExpectSpec; output and flush queue unchanged; input loses exactly its first item |
| PgMock.RunSend | frontend/pgmock.go:72-75 | acts as SendSpec: the log gains exactly Sent(msg) then Flushed, and the input is unchanged |
| PgMock.RunWaitForClose | frontend/pgmock.go:83-96 | the receive loop acts as WaitSpec; the loop invariant keeps WaitSpec of the current state equal to that of the initial state |
| PgMock.RunStep | frontend/pgmock.go:30-32 | runs one step as StepSpec says; a Script step runs its own steps through Run |
| PgMock.Run | frontend/pgmock.go:20-28 | the loop acts as RunSpec; an empty script passes and leaves the endpoint untouched |
| Properties.RunAppend | frontend/pgmock.go:20-28 | running a + b runs a, then runs b from a's final state only if a passed; otherwise a's error and state are the result |
| Properties.NestingIsInlining | frontend/pgmock.go:30-32 | a Script used as a step gives the same result, input consumption and output log as its steps spliced inline |
| Properties.FirstErrorStops | frontend/pgmock.go:21-25 | if step k is the first to fail, Run returns exactly its error, and the endpoint is exactly as step k left it, so steps after k never run |
| Properties.FailureComesFromAStep | frontend/pgmock.go:21-27 | a failing Run fails with the result of some step k, reached after all earlier steps passed |
| Properties.PassedRunPassedEveryPrefix | frontend/pgmock.go:21-27 | a passing Run passes on every prefix of its steps |
| Properties.StepAdvances | frontend/pgmock.go:20-96 | every step only consumes input from the front, only appends to the output log and only consumes flush results |
| Properties.RunAdvances | frontend/pgmock.go:20-28 | a whole run only consumes input from the front and only appends to the output log |
| Properties.WaitAdvances | frontend/pgmock.go:83-96 | the wait step consumes input only from the front |
| Properties.ExpectAnyIsWeaker | frontend/pgmock.go:45-51 | whenever ExpectMessage passes, ExpectAnyMessage passes, and both leave the endpoint in the same state |
| Properties.WaitDiscardsUntil | frontend/pgmock.go:83-100 | after N non-CloseComplete messages, WaitForClose stops at item N+1: it passes on CloseComplete or EOF and returns any other error; it consumes N+1 items |
| Properties.WaitSucceedsAtStreamEnd | frontend/pgmock.go:84-88 | a stream that ends with no CloseComplete makes WaitForClose pass, with all the input consumed |
| Scenario.SendExpectSendPasses | frontend/pgmock_test.go:31-37 | any send, exact expect, send script passes when flushes work and the wanted reply comes first; it logs both messages with their flushes and consumes just that reply |
| Scenario.PreludePasses | frontend/pgmock_test.go:31-37 | with working flushes and the ErrorResponse as first reply, the test's own three steps pass, logging two send/flush pairs and consuming that reply |
| Scenario.TestScriptRuns | frontend/pgmock_test.go:38 | the test's script is its three steps followed by the handshake, which starts where they left the endpoint |
| Scenario.RunWithIdlePeer | frontend/pgmock_test.go:31-105 | the test's script against the test's peer: Run passes, the log is send/flush twice, and every reply is consumed |
| Scenario.RunWithBusyPeer | frontend/pgmock.go:49-50 | with a ReadyForQuery of status 'T', Run fails with Mismatch(ReadyForQuery('T'), ReadyForQuery('I')) |
| Scenario.RunWithClosingPeer | frontend/pgmock.go:40-43 | if the peer closes after its first reply, the handshake's first expect returns EOF and nothing after it runs |
| Scenario.RunWithBrokenTransport | frontend/pgmock.go:72-75 | a failing first flush stops the script before anything is received |

## Left out

- The pgproto3 codec is not part of this model. This covers wire encoding and decoding, and the internals of the Frontend's `Receive`, `Send` and `Flush`. The endpoint stands in for it: a queue of receive results, a log of sends and flushes, and a queue of flush results. `Send` cannot fail, as in the codec, which only buffers.
- Blocking, connection deadlines and an endless stream are left out. The input queue is finite, and once it is exhausted every receive reports end of stream and consumes nothing. The wait loop therefore always terminates; its measure is the queue's length.
- `reflect.DeepEqual` is modelled as datatype equality. Go distinctions that this equality does not see are left out: a nil slice or map versus an empty one, and identity of the pointed-to structs.
- The `fmt.Errorf` text of a mismatch is left out. The error is the value `Mismatch(got, want)`, which carries both messages.
- Only part of the codec's message family is modelled, but each modelled message has every field of the codec's struct. `ErrorResponse` and `NoticeResponse` share one record of nineteen fields, and the MD5 salt is exactly four bytes. The other message types are left out. The engine reads messages only through equality and `TypeOf`, so they would add one more type tag each and no new behaviour.
- `Step` cannot describe a cyclic script. In Go a `*Script` can contain itself, directly or through a nested script, and then `Run` and `Step` recurse forever. `Step` is an inductive datatype, so every script is finite and acyclic, and the termination arguments of `StepSpec`, `RunSpec`, `RunStep` and `Run` rely on that.
- The end of the stream is assumed to reach the engine as `io.EOF`, which is the only value the wait step compares against. What the codec reports when a connection closes cleanly is not part of this model. All the model's EOF facts hold under this assumption: `EOF` in the input queue, an exhausted queue, `WaitDiscardsUntil`, `WaitSucceedsAtStreamEnd` and `RunWithClosingPeer`. If the codec reported some other error, the wait step would return it, as it returns any `Err(e)`.
- `Step` is a closed datatype with the four kinds of step the package defines. User-defined implementations of the Go `Step` interface, and nil steps or nil message pointers, are left out.
- The test file's TCP listener, dialling, goroutine, channel, deadline and hand decoding of bytes are left out. Its scenario is the `Scenario` module: the peer's replies are queued in the order the peer writes them.
- The codec reuses the message objects `Receive` returns. The engine compares each message before the next receive, so this aliasing is left out.
