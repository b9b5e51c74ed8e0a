/** The agent's control loop: one model call per iteration under a hard
    ceiling, an append-only message list shared with `generate_content`, and an
    append-only history of per-iteration records. The model client and the
    tool dispatcher are oracles passed in as functions. */
module AgentLoop {
  import opened Wrappers
  import opened Strings

  /** A function call proposed by the model. */
  datatype FunctionCall = FunctionCall(name: string, args: map<string, string>)

  /** The payload a tool sends back for a call. */
  datatype FunctionResponse = FunctionResponse(name: string, response: map<string, string>)

  /** One part of a message; each of its optional fields may be unset. */
  datatype Part = Part(text: Option<string>, functionCall: Option<FunctionCall>, functionResponse: Option<FunctionResponse>)

  /** A message: who sent it and its parts. */
  datatype Content = Content(role: string, parts: seq<Part>)

  /** What the model sent back: candidate contents (a candidate may have none),
      the function calls it asks for, and the reply's text, if any. */
  datatype Reply = Reply(candidates: seq<Option<Content>>, functionCalls: seq<FunctionCall>, text: Option<string>)

  /** One call of the client: a reply, or the error it raised. */
  datatype ModelOutcome = Replied(reply: Reply) | ApiError(message: string)

  /** What `generate_content` returns, `(final_text, response.text)`, or the
      message of the exception it raises. */
  datatype GenerateOutcome = Returned(final: Option<string>, responseText: Option<string>) | Raised(error: string)

  /** The outcome of one turn together with the message list after it. */
  datatype Turn = Turn(outcome: GenerateOutcome, messages: seq<Content>)

  /** One entry of the conversation history. */
  datatype IterationRecord =
    | Completed(iteration: nat, messages: seq<Content>, response: Option<string>)
    | Failed(iteration: nat, error: string, messages: seq<Content>)

  /** The state the loop leaves behind: the counter, the history, the message
      list and the final response that was printed, if any. */
  datatype Run = Run(iterations: nat, history: seq<IterationRecord>, messages: seq<Content>, answer: Option<string>)

  /** The client: the call number and the messages it is sent. */
  type Client = (nat, seq<Content>) -> ModelOutcome

  /** The tool dispatcher (`call_function`). */
  type Dispatcher = FunctionCall -> Content

  const ToolRole: string := "tool"
  const UserRole: string := "user"
  const NoResponsesError: string := "No function responses generated"

  /** The message list a run starts from: the user's prompt alone. */
  function Initial(prompt: string): seq<Content>
  {
    [Content(UserRole, [Part(Some(prompt), None, None)])]
  }

  /** The values of the present entries, in order. */
  function Somes<T(!new)>(xs: seq<Option<T>>): (r: seq<T>)
    ensures |r| <= |xs|
    ensures forall x :: x in r <==> Some(x) in xs
  {
    if xs == [] then []
    else
      var last := xs[|xs| - 1];
      Somes(xs[..|xs| - 1]) + (if last.Some? then [last.value] else [])
  }

  /** The first part of a tool result, kept when it carries a function
      response. A proof aid for `Kept`: its ensures only spell out its
      body for callers that do not unfold it. */
  function FirstResponse(result: Content): (r: Option<Part>)
    ensures r.Some? <==> result.parts != [] && result.parts[0].functionResponse.Some?
    ensures r.Some? ==> r.value == result.parts[0]
  {
    if result.parts != [] && result.parts[0].functionResponse.Some? then Some(result.parts[0]) else None
  }

  /** The dispatcher's results for the calls, one per call, in order. A
      proof aid for `Kept`: its ensures only spell out its body for callers
      that do not unfold it. */
  function Responses(calls: seq<FunctionCall>, dispatch: Dispatcher): (r: seq<Option<Part>>)
    ensures |r| == |calls|
    ensures forall i :: 0 <= i < |calls| ==> r[i] == FirstResponse(dispatch(calls[i]))
  {
    seq(|calls|, i requires 0 <= i < |calls| => FirstResponse(dispatch(calls[i])))
  }

  /** The parts that go into the tool message for a batch of calls. */
  function Kept(calls: seq<FunctionCall>, dispatch: Dispatcher): seq<Part>
  {
    Somes(Responses(calls, dispatch))
  }

  /** One turn of `generate_content` on the message list `msgs`. */
  function Generate(msgs: seq<Content>, outcome: ModelOutcome, dispatch: Dispatcher): (r: Turn)
    ensures msgs <= r.messages
    ensures outcome.ApiError? ==> r == Turn(Raised(outcome.message), msgs)
    ensures outcome.Replied? ==> |r.messages| <= |msgs| + |outcome.reply.candidates| + 1
    ensures r.outcome.Returned? && r.outcome.final.Some? ==> outcome.Replied? && outcome.reply.functionCalls == []
    ensures outcome.Replied? && r.outcome.Raised? ==>
      outcome.reply.functionCalls != [] && Kept(outcome.reply.functionCalls, dispatch) == []
      && r.outcome.error == NoResponsesError
    ensures outcome.Replied? && outcome.reply.functionCalls != [] && Kept(outcome.reply.functionCalls, dispatch) == [] ==>
      r == Turn(Raised(NoResponsesError), msgs + Somes(outcome.reply.candidates))
    ensures outcome.Replied? && outcome.reply.functionCalls != [] && r.outcome.Returned? ==>
      r.outcome == Returned(None, outcome.reply.text)
  {
    match outcome
    case ApiError(message) => Turn(Raised(message), msgs)
    case Replied(reply) =>
      var withCandidates := msgs + Somes(reply.candidates);
      if reply.functionCalls == [] then Turn(Returned(reply.text, reply.text), withCandidates)
      else
        var kept := Kept(reply.functionCalls, dispatch);
        if kept == [] then Turn(Raised(NoResponsesError), withCandidates)
        else Turn(Returned(None, reply.text), withCandidates + [Content(ToolRole, kept)])
  }

  /** The ceiling as a count of calls: a negative ceiling allows none. */
  function Cap(maxIters: int): nat
  {
    if maxIters < 0 then 0 else maxIters
  }

  /** The rest of the loop from counter `iters`, with the history and the
      message list built so far. */
  function RunFrom(maxIters: int, client: Client, dispatch: Dispatcher,
                   iters: nat, history: seq<IterationRecord>, msgs: seq<Content>): Run
    requires iters <= Cap(maxIters)
    decreases Cap(maxIters) - iters
  {
    var i := iters + 1;
    if i > maxIters then Run(i, history, msgs, None)
    else
      var turn := Generate(msgs, client(i, msgs), dispatch);
      match turn.outcome
      case Raised(e) => Run(i, history + [Failed(i, e, turn.messages)], turn.messages, None)
      case Returned(final, text) =>
        var h := history + [Completed(i, turn.messages, text)];
        if Truthy(final) then Run(i, h, turn.messages, final)
        else RunFrom(maxIters, client, dispatch, i, h, turn.messages)
  }

  /** A whole run for a prompt. */
  function RunAll(prompt: string, maxIters: int, client: Client, dispatch: Dispatcher): Run
  {
    RunFrom(maxIters, client, dispatch, 0, [], Initial(prompt))
  }

  /** The run stopped at the ceiling: nothing printed and no error recorded. */
  predicate EndedAtCeiling(r: Run)
  {
    r.answer.None? && (r.history == [] || r.history[|r.history| - 1].Completed?)
  }

  // ---------------------------------------------------------------------
  // The tool batch

  /** Filtering present values respects concatenation, so order is kept. */
  lemma {:induction false} SomesAppend<T(!new)>(xs: seq<Option<T>>, ys: seq<Option<T>>)
    ensures Somes(xs + ys) == Somes(xs) + Somes(ys)
    decreases |ys|
  {
    if ys == [] {
      assert xs + ys == xs;
    } else {
      var ys' := ys[..|ys| - 1];
      assert (xs + ys)[..|xs + ys| - 1] == xs + ys';
      SomesAppend(xs, ys');
    }
  }

  /** When every entry is present, nothing is dropped. */
  lemma {:induction false} SomesAllPresent<T(!new)>(xs: seq<Option<T>>)
    requires forall i :: 0 <= i < |xs| ==> xs[i].Some?
    ensures |Somes(xs)| == |xs|
    ensures forall i :: 0 <= i < |xs| ==> Somes(xs)[i] == xs[i].value
  {
    if xs != [] {
      SomesAllPresent(xs[..|xs| - 1]);
    }
  }

  /** The tool batch of two runs of calls is the two batches in call order. */
  lemma KeptAppend(a: seq<FunctionCall>, b: seq<FunctionCall>, dispatch: Dispatcher)
    ensures Kept(a + b, dispatch) == Kept(a, dispatch) + Kept(b, dispatch)
  {
    assert Responses(a + b, dispatch) == Responses(a, dispatch) + Responses(b, dispatch);
    SomesAppend(Responses(a, dispatch), Responses(b, dispatch));
  }

  /** Taking one more call keeps its first part exactly when that part
      carries a function response. */
  lemma KeptStep(calls: seq<FunctionCall>, j: nat, dispatch: Dispatcher)
    requires j < |calls|
    ensures var result := dispatch(calls[j]);
      Kept(calls[..j + 1], dispatch)
        == if result.parts != [] && result.parts[0].functionResponse.Some?
           then Kept(calls[..j], dispatch) + [result.parts[0]]
           else Kept(calls[..j], dispatch)
  {
    KeptAppend(calls[..j], [calls[j]], dispatch);
    assert calls[..j] + [calls[j]] == calls[..j + 1];
    var r := Responses([calls[j]], dispatch);
    assert r == [FirstResponse(dispatch(calls[j]))];
    assert r[..0] == [];
  }

  /** Every kept part carries a function response, and a call's first part is
      kept exactly when it carries one. */
  lemma KeptParts(calls: seq<FunctionCall>, dispatch: Dispatcher)
    ensures forall p :: p in Kept(calls, dispatch) ==> p.functionResponse.Some?
    ensures forall i :: 0 <= i < |calls| ==>
      (FirstResponse(dispatch(calls[i])).Some? ==> dispatch(calls[i]).parts[0] in Kept(calls, dispatch))
  {
    var rs := Responses(calls, dispatch);
    forall p | p in Kept(calls, dispatch)
      ensures p.functionResponse.Some?
    {
      var i :| 0 <= i < |rs| && rs[i] == Some(p);
    }
    forall i | 0 <= i < |calls| && FirstResponse(dispatch(calls[i])).Some?
      ensures dispatch(calls[i]).parts[0] in Kept(calls, dispatch)
    {
      assert rs[i] == Some(dispatch(calls[i]).parts[0]);
    }
  }

  /** When every call answers with a function response, the batch holds every
      first part, one per call, in call order. */
  lemma KeptAll(calls: seq<FunctionCall>, dispatch: Dispatcher)
    requires forall i :: 0 <= i < |calls| ==> FirstResponse(dispatch(calls[i])).Some?
    ensures |Kept(calls, dispatch)| == |calls|
    ensures forall i :: 0 <= i < |calls| ==> Kept(calls, dispatch)[i] == dispatch(calls[i]).parts[0]
  {
    SomesAllPresent(Responses(calls, dispatch));
  }

  /** The batch is empty (and so, by `Generate`, the turn raises) exactly
      when no call answers with a function response. */
  lemma KeptEmpty(calls: seq<FunctionCall>, dispatch: Dispatcher)
    ensures Kept(calls, dispatch) == [] <==> forall i :: 0 <= i < |calls| ==> FirstResponse(dispatch(calls[i])).None?
  {
    var rs := Responses(calls, dispatch);
    if Kept(calls, dispatch) == [] {
      forall i | 0 <= i < |calls|
        ensures FirstResponse(dispatch(calls[i])).None?
      {
        assert rs[i] == FirstResponse(dispatch(calls[i]));
      }
    } else {
      var p := Kept(calls, dispatch)[0];
      assert Some(p) in rs;
    }
  }

  /** A turn with function calls that does not raise appends exactly one tool
      message, holding the batch, after the candidates; a turn without calls
      appends only the candidates. */
  lemma ToolMessage(msgs: seq<Content>, reply: Reply, dispatch: Dispatcher)
    ensures var r := Generate(msgs, Replied(reply), dispatch);
      var added := r.messages[|msgs|..];
      && (reply.functionCalls == [] ==> added == Somes(reply.candidates) && r.outcome == Returned(reply.text, reply.text))
      && (reply.functionCalls != [] && r.outcome.Returned? ==>
            added == Somes(reply.candidates) + [Content(ToolRole, Kept(reply.functionCalls, dispatch))]
            && r.outcome == Returned(None, reply.text))
      && (reply.functionCalls != [] && r.outcome.Raised? ==> added == Somes(reply.candidates))
  {
  }

  // ---------------------------------------------------------------------
  // The loop

  /** Below the ceiling, a turn that returns a truthy final text ends the
      loop at once: its record is the last one and that text is the answer. */
  lemma FinalEnds(maxIters: int, client: Client, dispatch: Dispatcher,
                  iters: nat, history: seq<IterationRecord>, msgs: seq<Content>)
    requires iters < Cap(maxIters)
    requires var t := Generate(msgs, client(iters + 1, msgs), dispatch);
      t.outcome.Returned? && Truthy(t.outcome.final)
    ensures var t := Generate(msgs, client(iters + 1, msgs), dispatch);
      RunFrom(maxIters, client, dispatch, iters, history, msgs)
        == Run(iters + 1, history + [Completed(iters + 1, t.messages, t.outcome.responseText)], t.messages, t.outcome.final)
  {
  }

  /** Below the ceiling, a turn that raises ends the loop at once with one
      error record and no answer: no further model call is made. */
  lemma ErrorEnds(maxIters: int, client: Client, dispatch: Dispatcher,
                  iters: nat, history: seq<IterationRecord>, msgs: seq<Content>)
    requires iters < Cap(maxIters)
    requires Generate(msgs, client(iters + 1, msgs), dispatch).outcome.Raised?
    ensures var t := Generate(msgs, client(iters + 1, msgs), dispatch);
      RunFrom(maxIters, client, dispatch, iters, history, msgs)
        == Run(iters + 1, history + [Failed(iters + 1, t.outcome.error, t.messages)], t.messages, None)
  {
  }

  /** Below the ceiling, a turn that returns no final text, or an empty one,
      is recorded and the loop goes on from the next counter. */
  lemma NoFinalContinues(maxIters: int, client: Client, dispatch: Dispatcher,
                         iters: nat, history: seq<IterationRecord>, msgs: seq<Content>)
    requires iters < Cap(maxIters)
    requires var t := Generate(msgs, client(iters + 1, msgs), dispatch);
      t.outcome.Returned? && !Truthy(t.outcome.final)
    ensures var t := Generate(msgs, client(iters + 1, msgs), dispatch);
      RunFrom(maxIters, client, dispatch, iters, history, msgs)
        == RunFrom(maxIters, client, dispatch, iters + 1,
                   history + [Completed(iters + 1, t.messages, t.outcome.responseText)], t.messages)
  {
  }

  /** At the ceiling the counter passes `MAX_ITERS` and the loop stops
      without calling the model: nothing is recorded and nothing changes. */
  lemma CeilingEnds(maxIters: int, client: Client, dispatch: Dispatcher,
                    iters: nat, history: seq<IterationRecord>, msgs: seq<Content>)
    requires iters == Cap(maxIters)
    ensures RunFrom(maxIters, client, dispatch, iters, history, msgs) == Run(iters + 1, history, msgs, None)
  {
  }

  /** The model is called at most `MAX_ITERS` times, one history record per
      call, with the counter of that call: indices run 1, 2, 3, ... */
  lemma {:induction false} CallBound(maxIters: int, client: Client, dispatch: Dispatcher,
                                     iters: nat, history: seq<IterationRecord>, msgs: seq<Content>)
    requires iters <= Cap(maxIters) && |history| == iters
    requires forall k :: 0 <= k < |history| ==> history[k].iteration == k + 1
    ensures var r := RunFrom(maxIters, client, dispatch, iters, history, msgs);
      && history <= r.history
      && |r.history| <= Cap(maxIters)
      && forall k :: 0 <= k < |r.history| ==> r.history[k].iteration == k + 1
    decreases Cap(maxIters) - iters
  {
    var i := iters + 1;
    if i <= maxIters {
      var turn := Generate(msgs, client(i, msgs), dispatch);
      if turn.outcome.Returned? && !Truthy(turn.outcome.final) {
        var h := history + [Completed(i, turn.messages, turn.outcome.responseText)];
        CallBound(maxIters, client, dispatch, i, h, turn.messages);
      }
    }
  }

  /** The three exits. An error is recorded only as the last record, and a
      printed answer is non-empty and follows a completed call. When the
      ceiling ends the run, the counter is one past the ceiling and every
      allowed call was made; otherwise it is the index of the last call. */
  lemma {:induction false} Exits(maxIters: int, client: Client, dispatch: Dispatcher,
                                 iters: nat, history: seq<IterationRecord>, msgs: seq<Content>)
    requires iters <= Cap(maxIters) && |history| == iters
    requires forall k :: 0 <= k < |history| ==> history[k].Completed?
    ensures var r := RunFrom(maxIters, client, dispatch, iters, history, msgs);
      && (forall k :: 0 <= k < |r.history| - 1 ==> r.history[k].Completed?)
      && (r.answer.Some? ==> Truthy(r.answer) && r.history != [] && r.history[|r.history| - 1].Completed?)
      && (EndedAtCeiling(r) ==> r.iterations == Cap(maxIters) + 1 && |r.history| == Cap(maxIters))
      && (!EndedAtCeiling(r) ==> r.iterations == |r.history| && r.history != [])
    decreases Cap(maxIters) - iters
  {
    var i := iters + 1;
    if i <= maxIters {
      var turn := Generate(msgs, client(i, msgs), dispatch);
      if turn.outcome.Returned? && !Truthy(turn.outcome.final) {
        var h := history + [Completed(i, turn.messages, turn.outcome.responseText)];
        Exits(maxIters, client, dispatch, i, h, turn.messages);
      }
    }
  }

  /** Snapshot order of the message list: every record holds the list as it
      was after its call, each snapshot extends the one before, and the final
      list extends them all. */
  lemma {:induction false} MessagesOnlyGrow(maxIters: int, client: Client, dispatch: Dispatcher,
                                            iters: nat, history: seq<IterationRecord>, msgs: seq<Content>)
    requires iters <= Cap(maxIters)
    requires forall j, k :: 0 <= j < k < |history| ==> history[j].messages <= history[k].messages
    requires forall k :: 0 <= k < |history| ==> history[k].messages <= msgs
    ensures var r := RunFrom(maxIters, client, dispatch, iters, history, msgs);
      && msgs <= r.messages
      && (forall j, k :: 0 <= j < k < |r.history| ==> r.history[j].messages <= r.history[k].messages)
      && (forall k :: 0 <= k < |r.history| ==> r.history[k].messages <= r.messages)
    decreases Cap(maxIters) - iters
  {
    var i := iters + 1;
    if i <= maxIters {
      var turn := Generate(msgs, client(i, msgs), dispatch);
      match turn.outcome
      case Raised(e) =>
        var h := history + [Failed(i, e, turn.messages)];
        assert forall k :: 0 <= k < |history| ==> h[k] == history[k];
      case Returned(final, text) =>
        var h := history + [Completed(i, turn.messages, text)];
        assert forall k :: 0 <= k < |history| ==> h[k] == history[k];
        if !Truthy(final) {
          MessagesOnlyGrow(maxIters, client, dispatch, i, h, turn.messages);
        }
    }
  }

  /** A whole run: at most `MAX_ITERS` calls and records, numbered from 1, the
      three exits, and a message list that starts with the prompt and only
      grows. */
  lemma RunShape(prompt: string, maxIters: int, client: Client, dispatch: Dispatcher)
    ensures var r := RunAll(prompt, maxIters, client, dispatch);
      && |r.history| <= Cap(maxIters)
      && (forall k :: 0 <= k < |r.history| ==> r.history[k].iteration == k + 1)
      && (forall k :: 0 <= k < |r.history| - 1 ==> r.history[k].Completed?)
      && (EndedAtCeiling(r) ==> r.iterations == Cap(maxIters) + 1)
      && (!EndedAtCeiling(r) ==> r.iterations == |r.history|)
      && Initial(prompt) <= r.messages
      && (forall k :: 0 <= k < |r.history| ==> Initial(prompt) <= r.history[k].messages <= r.messages)
  {
    var init := Initial(prompt);
    CallBound(maxIters, client, dispatch, 0, [], init);
    Exits(maxIters, client, dispatch, 0, [], init);
    MessagesOnlyGrow(maxIters, client, dispatch, 0, [], init);
    var r := RunAll(prompt, maxIters, client, dispatch);
    forall k | 0 <= k < |r.history|
      ensures Initial(prompt) <= r.history[k].messages
    {
      if k > 0 {
        assert r.history[0].messages <= r.history[k].messages;
      }
      FirstSnapshot(maxIters, client, dispatch, 0, [], init);
    }
  }

  /** Every snapshot taken from a list that starts with `msgs` starts with it. */
  lemma {:induction false} FirstSnapshot(maxIters: int, client: Client, dispatch: Dispatcher,
                                         iters: nat, history: seq<IterationRecord>, msgs: seq<Content>)
    requires iters <= Cap(maxIters)
    ensures var r := RunFrom(maxIters, client, dispatch, iters, history, msgs);
      && history <= r.history
      && forall k :: |history| <= k < |r.history| ==> msgs <= r.history[k].messages
    decreases Cap(maxIters) - iters
  {
    var i := iters + 1;
    if i <= maxIters {
      var turn := Generate(msgs, client(i, msgs), dispatch);
      if turn.outcome.Returned? && !Truthy(turn.outcome.final) {
        var h := history + [Completed(i, turn.messages, turn.outcome.responseText)];
        FirstSnapshot(maxIters, client, dispatch, i, h, turn.messages);
      }
    }
  }

  // ---------------------------------------------------------------------
  // The imperative loop

  /** The message list `generate_content` appends to in place. */
  class MessageList {
    var items: seq<Content>

    constructor(initial: seq<Content>)
      ensures items == initial
    {
      items := initial;
    }

    method Append(c: Content)
      modifies this
      ensures items == old(items) + [c]
    {
      items := items + [c];
    }
  }

  /** The first loop of `generate_content`: append each candidate's content,
      in candidate order, skipping candidates without one. */
  method AppendCandidates(messages: MessageList, candidates: seq<Option<Content>>)
    modifies messages
    ensures messages.items == old(messages.items) + Somes(candidates)
  {
    var i := 0;
    while i < |candidates|
      invariant 0 <= i <= |candidates|
      invariant messages.items == old(messages.items) + Somes(candidates[..i])
    {
      assert candidates[..i + 1][..i] == candidates[..i];
      if candidates[i].Some? {
        messages.Append(candidates[i].value);
      }
      i := i + 1;
    }
    assert candidates[..i] == candidates;
  }

  /** The second loop of `generate_content`: dispatch every call in order and
      keep the first part of each result that carries a function response. */
  method DispatchAll(calls: seq<FunctionCall>, dispatch: Dispatcher) returns (functionResponses: seq<Part>)
    ensures functionResponses == Kept(calls, dispatch)
  {
    functionResponses := [];
    var j := 0;
    while j < |calls|
      invariant 0 <= j <= |calls|
      invariant functionResponses == Kept(calls[..j], dispatch)
    {
      var result := dispatch(calls[j]);
      KeptStep(calls, j, dispatch);
      if result.parts != [] && result.parts[0].functionResponse.Some? {
        functionResponses := functionResponses + [result.parts[0]];
      }
      j := j + 1;
    }
    assert calls[..j] == calls;
  }

  /** `generate_content`: call the client with the current list, append the
      candidates' contents, then either return the reply's text or dispatch
      every call and append one tool message with the kept parts. */
  method GenerateContent(messages: MessageList, call: nat, client: Client, dispatch: Dispatcher)
    returns (outcome: GenerateOutcome)
    modifies messages
    ensures Turn(outcome, messages.items) == Generate(old(messages.items), client(call, old(messages.items)), dispatch)
  {
    var response := client(call, messages.items);
    if response.ApiError? {
      return Raised(response.message);
    }
    var reply := response.reply;
    AppendCandidates(messages, reply.candidates);
    if reply.functionCalls == [] {
      return Returned(reply.text, reply.text);
    }
    var functionResponses := DispatchAll(reply.functionCalls, dispatch);
    if functionResponses == [] {
      return Raised(NoResponsesError);
    }
    messages.Append(Content(ToolRole, functionResponses));
    return Returned(None, reply.text);
  }

  /** The loop of `main`: count the iteration, stop past the ceiling, make one
      call, record it, and stop on a truthy final response or an error. */
  method RunAgent(prompt: string, maxIters: int, client: Client, dispatch: Dispatcher)
    returns (iters: nat, history: seq<IterationRecord>, messages: seq<Content>, answer: Option<string>)
    ensures Run(iters, history, messages, answer) == RunAll(prompt, maxIters, client, dispatch)
  {
    var list := new MessageList(Initial(prompt));
    history := [];
    iters := 0;
    answer := None;
    while true
      invariant iters <= Cap(maxIters)
      invariant RunFrom(maxIters, client, dispatch, iters, history, list.items)
             == RunAll(prompt, maxIters, client, dispatch)
      decreases Cap(maxIters) - iters
    {
      iters := iters + 1;
      if iters > maxIters {
        break;
      }
      var outcome := GenerateContent(list, iters, client, dispatch);
      if outcome.Raised? {
        history := history + [Failed(iters, outcome.error, list.items)];
        messages := list.items;
        return;
      }
      history := history + [Completed(iters, list.items, outcome.responseText)];
      if Truthy(outcome.final) {
        answer := outcome.final;
        messages := list.items;
        return;
      }
    }
    messages := list.items;
  }
}
