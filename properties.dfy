/** What running steps does, proved about the functions of module PgMock
    (which the methods there are proved to follow). */
module Properties {
  import opened Messages
  import opened Endpoint
  import opened PgMock

  // ---------------------------------------------------------------------------
  // Script.Run: order, early exit, composition

  /** Running a + b runs a, and runs b afterwards only when a passed. */
  lemma {:induction false} RunAppend(a: seq<Step>, b: seq<Step>, st: EndpointState)
    ensures RunSpec(a + b, st) ==
      (var (r, st') := RunSpec(a, st); if r.Fail? then (r, st') else RunSpec(b, st'))
    decreases a
  {
    if a == [] {
      assert a + b == b;
    } else {
      assert (a + b)[0] == a[0];
      assert (a + b)[1..] == a[1..] + b;
      var (r, st') := StepSpec(a[0], st);
      if r.Pass? {
        RunAppend(a[1..], b, st');
      }
    }
  }

  /** A Script used as a step behaves exactly like its steps spliced in its place:
      same result, same input consumed, same output log. */
  lemma NestingIsInlining(pre: seq<Step>, inner: seq<Step>, post: seq<Step>, st: EndpointState)
    ensures StepSpec(ScriptStep(inner), st) == RunSpec(inner, st)
    ensures RunSpec(pre + [ScriptStep(inner)] + post, st) == RunSpec(pre + inner + post, st)
  {
    assert pre + [ScriptStep(inner)] + post == pre + ([ScriptStep(inner)] + post);
    assert pre + inner + post == pre + (inner + post);
    RunAppend(pre, [ScriptStep(inner)] + post, st);
    RunAppend(pre, inner + post, st);
    var (r, st') := RunSpec(pre, st);
    if r.Pass? {
      assert ([ScriptStep(inner)] + post)[0] == ScriptStep(inner);
      assert ([ScriptStep(inner)] + post)[1..] == post;
      RunAppend(inner, post, st');
    }
  }

  /** If step k is the first to fail, the run returns exactly its error and
      leaves the endpoint exactly as step k left it: steps k+1.. never run. */
  lemma FirstErrorStops(steps: seq<Step>, k: nat, st: EndpointState)
    requires k < |steps|
    requires RunSpec(steps[..k], st).0 == Pass
    requires StepSpec(steps[k], RunSpec(steps[..k], st).1).0.Fail?
    ensures RunSpec(steps, st) == StepSpec(steps[k], RunSpec(steps[..k], st).1)
  {
    var rest := [steps[k]] + steps[k + 1..];
    assert steps == steps[..k] + rest;
    RunAppend(steps[..k], rest, st);
    assert rest[0] == steps[k];
  }

  /** Conversely, a failing run fails with the error of one of its steps, the
      first one that failed, reached after every earlier step passed. */
  lemma {:induction false} FailureComesFromAStep(steps: seq<Step>, st: EndpointState)
    requires RunSpec(steps, st).0.Fail?
    ensures exists k :: 0 <= k < |steps| && RunSpec(steps[..k], st).0 == Pass &&
                        StepSpec(steps[k], RunSpec(steps[..k], st).1) == RunSpec(steps, st)
    decreases steps
  {
    assert steps[..0] == [];
    var (r, st') := StepSpec(steps[0], st);
    if r.Pass? {
      FailureComesFromAStep(steps[1..], st');
      var k :| 0 <= k < |steps[1..]| && RunSpec(steps[1..][..k], st').0 == Pass &&
               StepSpec(steps[1..][k], RunSpec(steps[1..][..k], st').1) == RunSpec(steps[1..], st');
      assert steps[..k + 1][0] == steps[0] && steps[..k + 1][1..] == steps[1..][..k];
      assert steps[k + 1] == steps[1..][k];
    }
  }

  /** A passing run passed every prefix of its steps. */
  lemma {:induction false} PassedRunPassedEveryPrefix(steps: seq<Step>, k: nat, st: EndpointState)
    requires k <= |steps|
    requires RunSpec(steps, st).0 == Pass
    ensures RunSpec(steps[..k], st).0 == Pass
  {
    assert steps == steps[..k] + steps[k..];
    RunAppend(steps[..k], steps[k..], st);
  }

  // ---------------------------------------------------------------------------
  // Every step only consumes input from the front and only appends output

  /** st' is st after some receives, sends and flushes. */
  ghost predicate Advances(st: EndpointState, st': EndpointState)
  {
    |st'.input| <= |st.input| && st'.input == st.input[|st.input| - |st'.input|..] &&
    st.output <= st'.output &&
    |st'.flushes| <= |st.flushes| && st'.flushes == st.flushes[|st.flushes| - |st'.flushes|..]
  }

  lemma AdvancesTransitive(a: EndpointState, b: EndpointState, c: EndpointState)
    requires Advances(a, b) && Advances(b, c)
    ensures Advances(a, c)
  {
    assert c.input == a.input[|a.input| - |c.input|..] by {
      assert b.input[|b.input| - |c.input|..] == a.input[|a.input| - |c.input|..];
    }
    assert c.flushes == a.flushes[|a.flushes| - |c.flushes|..] by {
      assert b.flushes[|b.flushes| - |c.flushes|..] == a.flushes[|a.flushes| - |c.flushes|..];
    }
  }

  lemma {:induction false} WaitAdvances(st: EndpointState)
    ensures Advances(st, WaitSpec(st).1)
    decreases |st.input|
  {
    var (got, st') := ReceiveSpec(st);
    assert Advances(st, st');
    if got.Msg? && TypeOf(got.msg) != CloseCompleteType {
      WaitAdvances(st');
      AdvancesTransitive(st, st', WaitSpec(st').1);
    }
  }

  lemma {:induction false} StepAdvances(s: Step, st: EndpointState)
    ensures Advances(st, StepSpec(s, st).1)
    decreases s
  {
    match s
    case ExpectStep(want, any) =>
    case SendStep(msg) =>
    case WaitStep => WaitAdvances(st);
    case ScriptStep(steps) => RunAdvances(steps, st);
  }

  lemma {:induction false} RunAdvances(steps: seq<Step>, st: EndpointState)
    ensures Advances(st, RunSpec(steps, st).1)
    decreases steps
  {
    if steps != [] {
      var (r, st') := StepSpec(steps[0], st);
      StepAdvances(steps[0], st);
      if r.Pass? {
        RunAdvances(steps[1..], st');
        AdvancesTransitive(st, st', RunSpec(steps[1..], st').1);
      }
    }
  }

  // ---------------------------------------------------------------------------
  // expectMessageStep

  /** Whatever is received, ExpectAnyMessage passes whenever ExpectMessage does. */
  lemma ExpectAnyIsWeaker(want: BackendMessage, st: EndpointState)
    ensures StepSpec(ExpectMessage(want), st).0.Pass? ==> StepSpec(ExpectAnyMessage(want), st).0.Pass?
    ensures StepSpec(ExpectMessage(want), st).1 == StepSpec(ExpectAnyMessage(want), st).1
  {
  }

  // ---------------------------------------------------------------------------
  // waitForCloseCompleteStep

  /** Backend messages as the receive results that deliver them. */
  function Msgs(ms: seq<BackendMessage>): (rs: seq<Received>)
  {
    if ms == [] then [] else [Msg(ms[0])] + Msgs(ms[1..])
  }

  /** After N messages that are not CloseComplete, the wait step stops at the
      next receive result: a CloseComplete or the end of the stream is success,
      any other failure is returned. It consumes exactly N + 1 results and writes
      nothing. */
  lemma {:induction false} WaitDiscardsUntil(skipped: seq<BackendMessage>, last: Received,
                                             rest: seq<Received>, st: EndpointState)
    requires forall i :: 0 <= i < |skipped| ==> TypeOf(skipped[i]) != CloseCompleteType
    requires last == EOF || last.Err? || last == Msg(CloseComplete)
    requires st.input == Msgs(skipped) + [last] + rest
    ensures StepSpec(WaitForClose(), st) ==
      (if last.Err? then Fail(Io(last.cause)) else Pass, st.(input := rest))
    decreases skipped
  {
    if skipped == [] {
      assert st.input == [last] + rest;
    } else {
      assert st.input[0] == Msg(skipped[0]);
      assert st.input[1..] == Msgs(skipped[1..]) + [last] + rest;
      WaitDiscardsUntil(skipped[1..], last, rest, st.(input := st.input[1..]));
    }
  }

  /** A stream that ends before any CloseComplete arrives is success too. */
  lemma {:induction false} WaitSucceedsAtStreamEnd(skipped: seq<BackendMessage>, st: EndpointState)
    requires forall i :: 0 <= i < |skipped| ==> TypeOf(skipped[i]) != CloseCompleteType
    requires st.input == Msgs(skipped)
    ensures StepSpec(WaitForClose(), st) == (Pass, st.(input := []))
    decreases skipped
  {
    if skipped != [] {
      assert st.input[0] == Msg(skipped[0]);
      WaitSucceedsAtStreamEnd(skipped[1..], st.(input := st.input[1..]));
    }
  }

}
