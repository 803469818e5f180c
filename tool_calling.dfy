/** The tool-calling loop shared by both chat back ends.  Each round shows the
    chat model the message list (with the one bound tool's description); a reply
    without tool calls is the final answer; a reply with tool calls is appended,
    then every call is executed in order and answered by one tool message
    carrying its id; after `TOOL_CALLING_MAX_ROUNDS` rounds a fixed apology is
    returned.  A model exception ends the turn with an error answer; an
    exception raised by a tool (argument validation, retrieval) propagates.

    The chat model is an oracle: a function from the tool description and the
    messages to a reply or an exception. */
module ToolCalling {
  import opened Records
  import opened RagService
  import opened SearchKnowledge
  import opened Lists

  /** The arguments of a requested call, as validated by the tool's schema. */
  datatype ToolArgs = SearchArgs(tag: string, question: string) | BadArgs(error: string)

  datatype ToolCall = ToolCall(name: string, args: ToolArgs, id: string)

  /** LangChain messages. */
  datatype LcMessage =
    | SystemMsg(content: string)
    | HumanMsg(content: string)
    | AiMsg(content: string, toolCalls: seq<ToolCall>)
    | ToolMsg(content: string, toolCallId: string)

  /** One invocation of the chat model: an exception, or an assistant message. */
  datatype LlmReply = LlmFails(error: string) | Reply(content: string, toolCalls: seq<ToolCall>)

  type ChatModel = (string, seq<LcMessage>) -> LlmReply

  datatype TurnResult = TurnResult(answer: string, sources: seq<Source>, llmAvailable: bool, toolUsed: bool)

  /** What the tool reads: the registered tag names, the notes and the retrieval back end. */
  datatype World = World(tagNames: seq<string>, notes: seq<Note>, backend: Backend)

  /** The loop state: the index, the message list, the collected sources and
      whether a tool call was dispatched. */
  datatype Loop = Loop(index: IndexState, msgs: seq<LcMessage>, sources: seq<Source>, toolUsed: bool)

  /** The end of a dispatch: the loop state, and the exception a tool raised. */
  datatype Progress = Progress(loop: Loop, raised: Option<string>)

  /** The end of a turn, with the message lists the model was invoked on. */
  datatype Run = Run(index: IndexState, outcome: Outcome<TurnResult>, prompts: seq<seq<LcMessage>>)

  const ApologyText := "Desculpe, não consegui processar completamente sua pergunta. Tente reformulá-la."

  function ModelErrorText(e: string): string
  {
    "Erro ao comunicar com o modelo de IA: " + e
  }

  function UnknownToolText(name: string): string
  {
    "Erro: Ferramenta desconhecida \"" + name + "\"."
  }

  predicate RequestsTools(r: LlmReply)
  {
    r.Reply? && r.toolCalls != []
  }

  /** `r` is a reply that ends the turn with `t`. */
  predicate Ends(r: LlmReply, t: TurnResult)
  {
    match r
    case LlmFails(e) => t.answer == ModelErrorText(e) && !t.llmAvailable
    case Reply(content, calls) => calls == [] && t.answer == content && t.llmAvailable
  }

  // ---------------------------------------------------------------------------
  // History conversion
  // ---------------------------------------------------------------------------

  predicate Kept(m: ChatMessage)
  {
    m.role == "user" || m.role == "assistant"
  }

  /** A user message as a human message, any other as an AI message. */
  function LcOf(m: ChatMessage): LcMessage
  {
    if m.role == "user" then HumanMsg(m.content) else AiMsg(m.content, [])
  }

  /** A stored message as a LangChain message: user and assistant messages only. */
  function AsLc(m: ChatMessage): seq<LcMessage>
  {
    if Kept(m) then [LcOf(m)] else []
  }

  function Convert(msgs: seq<ChatMessage>): seq<LcMessage>
  {
    if msgs == [] then [] else Convert(msgs[..|msgs| - 1]) + AsLc(msgs[|msgs| - 1])
  }

  /** The model's view of the history: the system prompt first. */
  function LcHistory(systemPrompt: string, msgs: seq<ChatMessage>): seq<LcMessage>
  {
    [SystemMsg(systemPrompt)] + Convert(msgs)
  }

  /** `_to_langchain_messages`. */
  method ToLangchainMessages(systemPrompt: string, msgs: seq<ChatMessage>) returns (lc: seq<LcMessage>)
    ensures lc == LcHistory(systemPrompt, msgs)
  {
    lc := [SystemMsg(systemPrompt)];
    var i := 0;
    while i < |msgs|
      invariant 0 <= i <= |msgs|
      invariant lc == [SystemMsg(systemPrompt)] + Convert(msgs[..i])
    {
      var m := msgs[i];
      assert msgs[..i + 1][..i] == msgs[..i];
      if m.role == "user" {
        lc := lc + [HumanMsg(m.content)];
      } else if m.role == "assistant" {
        lc := lc + [AiMsg(m.content, [])];
      }
      i := i + 1;
    }
    assert msgs[..|msgs|] == msgs;
  }

  /** Converting a concatenation converts each part. */
  lemma {:induction false} ConvertConcat(a: seq<ChatMessage>, b: seq<ChatMessage>)
    ensures Convert(a + b) == Convert(a) + Convert(b)
    decreases |b|
  {
    if b == [] {
      assert a + b == a;
    } else {
      var b' := b[..|b| - 1];
      assert (a + b)[..|a + b| - 1] == a + b';
      assert (a + b)[|a + b| - 1] == b[|b| - 1];
      ConvertConcat(a, b');
    }
  }

  /** The conversion keeps exactly the user and assistant messages, in order,
      user as human and assistant as AI: it is the image of the messages at
      increasing positions `idx`, which are all the kept positions. */
  lemma {:induction false} ConvertPositions(msgs: seq<ChatMessage>) returns (idx: seq<nat>)
    ensures ImageAt(msgs, Convert(msgs), idx, Kept, LcOf)
  {
    if msgs == [] {
      idx := [];
    } else {
      var init := msgs[..|msgs| - 1];
      var prev := ConvertPositions(init);
      assert Convert(msgs) == Convert(init) + AsLc(msgs[|msgs| - 1]);
      ImageAtExtend(msgs, Convert(msgs), Convert(init), prev, Kept, LcOf);
      idx := Extended(msgs, prev, Kept);
    }
  }

  // ---------------------------------------------------------------------------
  // The turn as a function of the oracles
  // ---------------------------------------------------------------------------

  /** Executing one requested call: an unknown tool name is answered with an
      error text; invalid arguments raise. */
  function CallTool(c: ToolCall, w: World, st: IndexState): Step<Outcome<ToolOutput>>
  {
    if c.name != ToolName then Step(st, Done(ToolOutput(UnknownToolText(c.name), [])))
    else match c.args
      case BadArgs(e) => Step(st, Raised(e))
      case SearchArgs(tag, q) => InvokeSpec(st, w.tagNames, w.notes, w.backend, tag, q)
  }

  /** What executing a call does, from the index state. */
  type ToolFn = (ToolCall, IndexState) -> Step<Outcome<ToolOutput>>

  /** `tools_by_name` over the one bound tool. */
  function ToolOf(w: World): ToolFn
  {
    (c, st) => CallTool(c, w, st)
  }

  /** `tool` answers a call to an unknown tool with the error text. */
  ghost predicate AnswersUnknown(tool: ToolFn)
  {
    forall c: ToolCall, st: IndexState :: c.name != ToolName ==> tool(c, st).result == Done(ToolOutput(UnknownToolText(c.name), []))
  }

  lemma ToolOfAnswersUnknown(w: World)
    ensures AnswersUnknown(ToolOf(w))
  {
  }

  /** Executing the calls of one reply, in order. */
  function Dispatch(calls: seq<ToolCall>, tool: ToolFn, s: Loop): Progress
    decreases |calls|
  {
    if calls == [] then Progress(s, None)
    else
      var t := tool(calls[0], s.index);
      if t.result.Raised? then Progress(s.(index := t.state), Some(t.result.error))
      else Dispatch(calls[1..], tool, Loop(t.state, s.msgs + [ToolMsg(t.result.value.text, calls[0].id)],
                                           s.sources + t.result.value.found, true))
  }

  /** What one round leads to: the end of the turn, or the state for the next round. */
  datatype Next = Finish(index: IndexState, outcome: Outcome<TurnResult>) | Continue(loop: Loop)

  /** One round: invoke the model (shown the tool description `desc`), then
      end the turn or dispatch the calls. */
  function RoundStep(desc: string, tool: ToolFn, llm: ChatModel, s: Loop): Next
  {
    match llm(desc, s.msgs)
    case LlmFails(e) => Finish(s.index, Done(TurnResult(ModelErrorText(e), s.sources, false, s.toolUsed)))
    case Reply(content, calls) =>
      if calls == [] then Finish(s.index, Done(TurnResult(content, s.sources, true, s.toolUsed)))
      else
        var d := Dispatch(calls, tool, s.(msgs := s.msgs + [AiMsg(content, calls)]));
        if d.raised.Some? then Finish(d.loop.index, Raised(d.raised.value)) else Continue(d.loop)
  }

  /** At most `k` more rounds from loop state `s`. */
  function Rounds(k: nat, desc: string, tool: ToolFn, llm: ChatModel, s: Loop): Run
  {
    if k == 0 then Run(s.index, Done(TurnResult(ApologyText, s.sources, true, s.toolUsed)), [])
    else match RoundStep(desc, tool, llm, s)
      case Finish(index, outcome) => Run(index, outcome, [s.msgs])
      case Continue(next) =>
        var rest := Rounds(k - 1, desc, tool, llm, next);
        Run(rest.index, rest.outcome, [s.msgs] + rest.prompts)
  }

  /** A whole turn from the converted history. */
  function Turn(w: World, llm: ChatModel, lc: seq<LcMessage>, st: IndexState): Run
  {
    Rounds(ToolCallingMaxRounds, Description(w.tagNames), ToolOf(w), llm, Loop(st, lc, [], false))
  }

  // ---------------------------------------------------------------------------
  // Properties of a dispatch
  // ---------------------------------------------------------------------------

  /** `m` is the tool message answering call `c`: it carries the call's id, and
      an unknown tool's message is the error text. */
  predicate Answers(m: LcMessage, c: ToolCall)
  {
    m.ToolMsg? && m.toolCallId == c.id && (c.name != ToolName ==> m.content == UnknownToolText(c.name))
  }

  /** `after` is `before` followed by one tool message per call, in call order. */
  predicate AnswersCalls(before: seq<LcMessage>, calls: seq<ToolCall>, after: seq<LcMessage>)
  {
    && |after| == |before| + |calls|
    && after[..|before|] == before
    && forall j :: 0 <= j < |calls| ==> Answers(after[|before| + j], calls[j])
  }

  lemma AnswersCallsStep(before: seq<LcMessage>, c: ToolCall, text: string, calls: seq<ToolCall>, after: seq<LcMessage>)
    requires calls != [] && calls[0] == c
    requires c.name != ToolName ==> text == UnknownToolText(c.name)
    requires AnswersCalls(before + [ToolMsg(text, c.id)], calls[1..], after)
    ensures AnswersCalls(before, calls, after)
  {
    var mid := before + [ToolMsg(text, c.id)];
    assert after[..|mid|] == mid;
    assert after[..|mid|][..|before|] == after[..|before|];
    assert mid[..|before|] == before;
    forall j | 0 <= j < |calls| ensures Answers(after[|before| + j], calls[j]) {
      if j == 0 {
        assert after[|before|] == after[..|mid|][|before|] == mid[|before|];
      } else {
        assert calls[j] == calls[1..][j - 1];
        assert after[|before| + j] == after[|mid| + (j - 1)];
      }
    }
  }

  /** A dispatch marks the tool as used once a call went through, and only
      appends to the sources. */
  lemma {:induction false} DispatchFlags(calls: seq<ToolCall>, tool: ToolFn, s: Loop)
    ensures var d := Dispatch(calls, tool, s);
      && (d.raised.None? ==> d.loop.toolUsed == (s.toolUsed || calls != []))
      && s.sources <= d.loop.sources
    decreases |calls|
  {
    if calls != [] {
      var t := tool(calls[0], s.index);
      if t.result.Done? {
        DispatchFlags(calls[1..], tool, Loop(t.state, s.msgs + [ToolMsg(t.result.value.text, calls[0].id)],
                                             s.sources + t.result.value.found, true));
      }
    }
  }

  /** A dispatch that raises nothing answers every call, marks the tool as used
      when there was a call, and only appends to the sources. */
  lemma {:induction false} DispatchShape(calls: seq<ToolCall>, tool: ToolFn, s: Loop)
    requires AnswersUnknown(tool)
    ensures var d := Dispatch(calls, tool, s);
      && (d.raised.None? ==> AnswersCalls(s.msgs, calls, d.loop.msgs))
      && (d.raised.None? ==> d.loop.toolUsed == (s.toolUsed || calls != []))
      && s.sources <= d.loop.sources
    decreases |calls|
  {
    DispatchFlags(calls, tool, s);
    if calls != [] {
      var t := tool(calls[0], s.index);
      if t.result.Done? {
        var s' := Loop(t.state, s.msgs + [ToolMsg(t.result.value.text, calls[0].id)],
                       s.sources + t.result.value.found, true);
        DispatchShape(calls[1..], tool, s');
        var d := Dispatch(calls[1..], tool, s');
        if d.raised.None? {
          AnswersCallsStep(s.msgs, calls[0], t.result.value.text, calls, d.loop.msgs);
        }
      }
    }
  }

  /** What the calls of one reply leave behind: the index state, and the
      sources each call found, concatenated in call order, up to a call that
      raises. */
  datatype Gathered = Gathered(index: IndexState, found: seq<Source>)

  function Gather(calls: seq<ToolCall>, tool: ToolFn, st: IndexState): Gathered
    decreases |calls|
  {
    if calls == [] then Gathered(st, [])
    else
      var t := tool(calls[0], st);
      if t.result.Raised? then Gathered(t.state, [])
      else
        var g := Gather(calls[1..], tool, t.state);
        Gathered(g.index, t.result.value.found + g.found)
  }

  /** A dispatch extends the shared sources by exactly what its calls found,
      in call order, and leaves the index state the calls leave. */
  lemma {:induction false} DispatchSources(calls: seq<ToolCall>, tool: ToolFn, s: Loop)
    ensures var d := Dispatch(calls, tool, s);
      var g := Gather(calls, tool, s.index);
      d.loop.index == g.index && d.loop.sources == s.sources + g.found
    decreases |calls|
  {
    if calls != [] {
      var t := tool(calls[0], s.index);
      if t.result.Done? {
        var s' := Loop(t.state, s.msgs + [ToolMsg(t.result.value.text, calls[0].id)],
                       s.sources + t.result.value.found, true);
        DispatchSources(calls[1..], tool, s');
        var g := Gather(calls[1..], tool, t.state);
        assert (s.sources + t.result.value.found) + g.found == s.sources + (t.result.value.found + g.found);
      }
    }
  }

  // ---------------------------------------------------------------------------
  // Properties of a turn
  // ---------------------------------------------------------------------------

  /** A round that goes on followed a reply requesting tools; it marks the tool
      used and keeps the sources as a prefix. */
  lemma RoundStepGoesOn(desc: string, tool: ToolFn, llm: ChatModel, s: Loop)
    requires RoundStep(desc, tool, llm, s).Continue?
    ensures var next := RoundStep(desc, tool, llm, s).loop;
      && RequestsTools(llm(desc, s.msgs))
      && next.toolUsed
      && s.sources <= next.sources
  {
    var r := llm(desc, s.msgs);
    DispatchFlags(r.toolCalls, tool, s.(msgs := s.msgs + [AiMsg(r.content, r.toolCalls)]));
  }

  /** A round that goes on followed a reply requesting tools, whose calls were
      all answered; it marks the tool used and keeps the sources as a prefix. */
  lemma RoundStepContinues(desc: string, tool: ToolFn, llm: ChatModel, s: Loop)
    requires AnswersUnknown(tool)
    requires RoundStep(desc, tool, llm, s).Continue?
    ensures var r := llm(desc, s.msgs);
      var next := RoundStep(desc, tool, llm, s).loop;
      && RequestsTools(r)
      && AnswersCalls(s.msgs + [AiMsg(r.content, r.toolCalls)], r.toolCalls, next.msgs)
      && next.toolUsed
      && s.sources <= next.sources
  {
    var r := llm(desc, s.msgs);
    DispatchShape(r.toolCalls, tool, s.(msgs := s.msgs + [AiMsg(r.content, r.toolCalls)]));
  }

  /** A round that ends the turn normally ends on the reply, keeping the state's
      sources and tool flag; one that ends by an exception raised in a tool
      followed a reply requesting tools. */
  lemma RoundStepFinishes(desc: string, tool: ToolFn, llm: ChatModel, s: Loop)
    requires RoundStep(desc, tool, llm, s).Finish?
    ensures var r := llm(desc, s.msgs);
      var f := RoundStep(desc, tool, llm, s);
      && (f.outcome.Done? ==>
            && !RequestsTools(r) && Ends(r, f.outcome.value)
            && f.outcome.value.sources == s.sources && f.outcome.value.toolUsed == s.toolUsed)
      && (f.outcome.Raised? ==> RequestsTools(r))
  {
  }

  /** The model is invoked at most `k` times, first on the current messages. */
  lemma {:induction false} RoundsInvocations(k: nat, desc: string, tool: ToolFn, llm: ChatModel, s: Loop)
    ensures var p := Rounds(k, desc, tool, llm, s).prompts;
      |p| <= k && (k > 0 ==> p != [] && p[0] == s.msgs)
  {
    if k > 0 && RoundStep(desc, tool, llm, s).Continue? {
      RoundsInvocations(k - 1, desc, tool, llm, RoundStep(desc, tool, llm, s).loop);
    }
  }

  /** Every invocation in `p` but the last got a reply requesting tools. */
  predicate AllButLastRequest(llm: ChatModel, desc: string, p: seq<seq<LcMessage>>)
  {
    forall i :: 0 <= i < |p| - 1 ==> RequestsTools(llm(desc, p[i]))
  }

  /** Every invocation but the last requested tools. */
  lemma {:induction false} RoundsRequests(k: nat, desc: string, tool: ToolFn, llm: ChatModel, s: Loop)
    ensures AllButLastRequest(llm, desc, Rounds(k, desc, tool, llm, s).prompts)
  {
    if k > 0 && RoundStep(desc, tool, llm, s).Continue? {
      var next := RoundStep(desc, tool, llm, s).loop;
      var rest := Rounds(k - 1, desc, tool, llm, next);
      RoundsRequests(k - 1, desc, tool, llm, next);
      RoundStepGoesOn(desc, tool, llm, s);
      var p := [s.msgs] + rest.prompts;
      assert Rounds(k, desc, tool, llm, s).prompts == p;
      forall i | 0 <= i < |p| - 1 ensures RequestsTools(llm(desc, p[i])) {
        if i > 0 {
          assert p[i] == rest.prompts[i - 1];
        }
      }
    }
  }

  /** A finished turn ended on its last reply (an exception or a reply without
      tool calls), or else used up all `k` rounds, each requesting tools, and
      returns the apology with the model counted as available. */
  lemma {:induction false} RoundsEnd(k: nat, desc: string, tool: ToolFn, llm: ChatModel, s: Loop)
    ensures var run := Rounds(k, desc, tool, llm, s);
      var p := run.prompts;
      run.outcome.Done? ==>
        || (p != [] && Ends(llm(desc, p[|p| - 1]), run.outcome.value))
        || (&& |p| == k && (forall i :: 0 <= i < |p| ==> RequestsTools(llm(desc, p[i])))
            && run.outcome.value.answer == ApologyText && run.outcome.value.llmAvailable)
  {
    if k > 0 {
      var step := RoundStep(desc, tool, llm, s);
      if step.Finish? {
        RoundStepFinishes(desc, tool, llm, s);
      } else {
        var rest := Rounds(k - 1, desc, tool, llm, step.loop);
        RoundsEnd(k - 1, desc, tool, llm, step.loop);
        RoundStepGoesOn(desc, tool, llm, s);
        var p := [s.msgs] + rest.prompts;
        if rest.outcome.Done? {
          if rest.prompts != [] {
            assert p[|p| - 1] == rest.prompts[|rest.prompts| - 1];
          }
          if |rest.prompts| == k - 1 && (forall i :: 0 <= i < |rest.prompts| ==> RequestsTools(llm(desc, rest.prompts[i]))) {
            forall i | 0 <= i < |p| ensures RequestsTools(llm(desc, p[i])) {
              if i > 0 { assert p[i] == rest.prompts[i - 1]; }
            }
          }
        }
      }
    }
  }

  /** In a finished turn the tool counts as used iff it was used before or some
      reply requested tools, and the sources collected before stay a prefix. */
  lemma {:induction false} RoundsToolUse(k: nat, desc: string, tool: ToolFn, llm: ChatModel, s: Loop)
    ensures var run := Rounds(k, desc, tool, llm, s);
      var p := run.prompts;
      run.outcome.Done? ==>
        && (run.outcome.value.toolUsed <==>
              s.toolUsed || exists i :: 0 <= i < |p| && RequestsTools(llm(desc, p[i])))
        && s.sources <= run.outcome.value.sources
  {
    if k > 0 {
      var step := RoundStep(desc, tool, llm, s);
      if step.Finish? {
        RoundStepFinishes(desc, tool, llm, s);
      } else {
        var rest := Rounds(k - 1, desc, tool, llm, step.loop);
        RoundsToolUse(k - 1, desc, tool, llm, step.loop);
        RoundStepGoesOn(desc, tool, llm, s);
        var p := [s.msgs] + rest.prompts;
        assert p[0] == s.msgs;
        if rest.outcome.Done? {
          if exists i :: 0 <= i < |rest.prompts| && RequestsTools(llm(desc, rest.prompts[i])) {
            var i :| 0 <= i < |rest.prompts| && RequestsTools(llm(desc, rest.prompts[i]));
            assert p[i + 1] == rest.prompts[i];
          }
        }
      }
    }
  }

  /** A finished turn in which no tool was used kept the sources as they were. */
  lemma {:induction false} RoundsNoToolNoSources(k: nat, desc: string, tool: ToolFn, llm: ChatModel, s: Loop)
    ensures var run := Rounds(k, desc, tool, llm, s);
      run.outcome.Done? && !run.outcome.value.toolUsed ==> run.outcome.value.sources == s.sources
  {
    if k > 0 {
      var step := RoundStep(desc, tool, llm, s);
      if step.Finish? {
        RoundStepFinishes(desc, tool, llm, s);
      } else {
        RoundStepGoesOn(desc, tool, llm, s);
        RoundsToolUse(k - 1, desc, tool, llm, step.loop);
      }
    }
  }

  /** What the round shown `msgs` from index state `st` gathers: the calls of a
      reply requesting tools, nothing otherwise. */
  function RoundGather(desc: string, tool: ToolFn, llm: ChatModel, msgs: seq<LcMessage>, st: IndexState): Gathered
  {
    var r := llm(desc, msgs);
    if RequestsTools(r) then Gather(r.toolCalls, tool, st) else Gathered(st, [])
  }

  /** The sources gathered over the invocations `p`, made from index states `states`. */
  function GatheredOver(desc: string, tool: ToolFn, llm: ChatModel, p: seq<seq<LcMessage>>,
                        states: seq<IndexState>): seq<Source>
    requires |p| == |states|
  {
    if p == [] then []
    else RoundGather(desc, tool, llm, p[0], states[0]).found + GatheredOver(desc, tool, llm, p[1..], states[1..])
  }

  /** A finished turn returns the sources it started with followed by what
      every call of every round found, in round and call order; `states` are
      the index states the rounds start from, each the one the previous
      round's calls left. */
  lemma {:induction false} RoundsSources(k: nat, desc: string, tool: ToolFn, llm: ChatModel, s: Loop)
    returns (states: seq<IndexState>)
    ensures var run := Rounds(k, desc, tool, llm, s);
      var p := run.prompts;
      && |states| == |p|
      && (p != [] ==> states[0] == s.index)
      && (forall i :: 0 <= i < |p| - 1 ==> states[i + 1] == RoundGather(desc, tool, llm, p[i], states[i]).index)
      && (run.outcome.Done? ==> run.outcome.value.sources == s.sources + GatheredOver(desc, tool, llm, p, states))
  {
    if k == 0 {
      states := [];
    } else {
      var step := RoundStep(desc, tool, llm, s);
      if step.Finish? {
        RoundStepFinishes(desc, tool, llm, s);
        states := [s.index];
        if step.outcome.Done? {
          assert [s.msgs][1..] == [] && states[1..] == [];
          assert GatheredOver(desc, tool, llm, [s.msgs], states) == [];
        }
      } else {
        var r := llm(desc, s.msgs);
        RoundStepGoesOn(desc, tool, llm, s);
        DispatchSources(r.toolCalls, tool, s.(msgs := s.msgs + [AiMsg(r.content, r.toolCalls)]));
        var g := RoundGather(desc, tool, llm, s.msgs, s.index);
        var next := step.loop;
        assert next.index == g.index && next.sources == s.sources + g.found;
        var rest := Rounds(k - 1, desc, tool, llm, next);
        var states' := RoundsSources(k - 1, desc, tool, llm, next);
        states := [s.index] + states';
        var p := [s.msgs] + rest.prompts;
        assert p[1..] == rest.prompts && states[1..] == states';
        forall i | 0 <= i < |p| - 1 ensures states[i + 1] == RoundGather(desc, tool, llm, p[i], states[i]).index {
          if i > 0 {
            assert p[i] == rest.prompts[i - 1] && states[i] == states'[i - 1];
          }
        }
        if rest.outcome.Done? {
          assert GatheredOver(desc, tool, llm, p, states) == g.found + GatheredOver(desc, tool, llm, rest.prompts, states');
          assert (s.sources + g.found) + GatheredOver(desc, tool, llm, rest.prompts, states')
              == s.sources + (g.found + GatheredOver(desc, tool, llm, rest.prompts, states'));
        }
      }
    }
  }

  /** The model, shown `before`, requested tools, and `after` is `before` with
      that reply appended and then one tool message per call, in order. */
  predicate ToolRound(llm: ChatModel, desc: string, before: seq<LcMessage>, after: seq<LcMessage>)
  {
    var r := llm(desc, before);
    r.Reply? && AnswersCalls(before + [AiMsg(r.content, r.toolCalls)], r.toolCalls, after)
  }

  /** Each invocation's messages follow from the previous one's by a tool round. */
  predicate Chained(llm: ChatModel, desc: string, p: seq<seq<LcMessage>>)
  {
    forall i :: 0 <= i < |p| - 1 ==> ToolRound(llm, desc, p[i], p[i + 1])
  }

  /** Between two consecutive invocations the message list grows by the
      assistant message of the first reply, then one tool message per call it
      requested, in order, each with the call's id. */
  lemma {:induction false} RoundsMessages(k: nat, desc: string, tool: ToolFn, llm: ChatModel, s: Loop)
    requires AnswersUnknown(tool)
    ensures Chained(llm, desc, Rounds(k, desc, tool, llm, s).prompts)
  {
    var p := Rounds(k, desc, tool, llm, s).prompts;
    if k > 0 && RoundStep(desc, tool, llm, s).Continue? {
      var next := RoundStep(desc, tool, llm, s).loop;
      var rest := Rounds(k - 1, desc, tool, llm, next);
      RoundStepContinues(desc, tool, llm, s);
      RoundsMessages(k - 1, desc, tool, llm, next);
      RoundsInvocations(k - 1, desc, tool, llm, next);
      assert p == [s.msgs] + rest.prompts;
      forall i | 0 <= i < |p| - 1 ensures ToolRound(llm, desc, p[i], p[i + 1]) {
        if i == 0 {
          assert p[0] == s.msgs && p[1] == rest.prompts[0] == next.msgs;
        } else {
          assert p[i] == rest.prompts[i - 1] && p[i + 1] == rest.prompts[i];
        }
      }
    }
  }

  // ---------------------------------------------------------------------------
  // The loop
  // ---------------------------------------------------------------------------

  /** One `tools_by_name.get(tool_name)` and `invoke`. */
  method ExecuteCall(c: ToolCall, w: World, tool: SearchKnowledgeTool, index: VectorIndex)
    returns (r: Outcome<string>)
    requires tool.name == ToolName
    modifies tool.collector, index
    ensures var t := CallTool(c, w, old(index.State()));
      && index.State() == t.state
      && r == (if t.result.Raised? then Raised(t.result.error) else Done(t.result.value.text))
      && tool.collector.sources == old(tool.collector.sources) + (if t.result.Done? then t.result.value.found else [])
  {
    if c.name != tool.name {
      return Done(UnknownToolText(c.name));
    }
    match c.args {
      case BadArgs(e) =>
        r := Raised(e);
      case SearchArgs(tag, q) =>
        r := tool.Invoke(index, w.tagNames, w.notes, w.backend, tag, q);
    }
  }

  /** The inner `for tool_call in response.tool_calls` loop. */
  method DispatchCalls(calls: seq<ToolCall>, w: World, tool: SearchKnowledgeTool, index: VectorIndex,
                       msgs: seq<LcMessage>, used: bool)
    returns (msgs': seq<LcMessage>, used': bool, raised: Option<string>)
    requires tool.name == ToolName
    modifies tool.collector, index
    ensures Dispatch(calls, ToolOf(w), Loop(old(index.State()), msgs, old(tool.collector.sources), used))
         == Progress(Loop(index.State(), msgs', tool.collector.sources, used'), raised)
  {
    ghost var goal := Dispatch(calls, ToolOf(w), Loop(index.State(), msgs, tool.collector.sources, used));
    msgs', used' := msgs, used;
    var j := 0;
    while j < |calls|
      invariant 0 <= j <= |calls|
      invariant Dispatch(calls[j..], ToolOf(w), Loop(index.State(), msgs', tool.collector.sources, used')) == goal
    {
      var c := calls[j];
      assert calls[j..][0] == c && calls[j..][1..] == calls[j + 1..];
      var res := ExecuteCall(c, w, tool, index);
      if res.Raised? {
        return msgs', used', Some(res.error);
      }
      used' := true;
      msgs' := msgs' + [ToolMsg(res.value, c.id)];
      j := j + 1;
    }
    raised := None;
  }

  /** The body of one round of the outer loop. */
  method OneRound(w: World, llm: ChatModel, tool: SearchKnowledgeTool, index: VectorIndex,
                  msgs: seq<LcMessage>, used: bool)
    returns (finished: Option<Outcome<TurnResult>>, msgs': seq<LcMessage>, used': bool)
    requires tool.name == ToolName
    modifies tool.collector, index
    ensures RoundStep(Description(w.tagNames), ToolOf(w), llm, Loop(old(index.State()), msgs, old(tool.collector.sources), used))
         == if finished.Some? then Finish(index.State(), finished.value)
            else Continue(Loop(index.State(), msgs', tool.collector.sources, used'))
  {
    msgs', used' := msgs, used;
    var reply := llm(Description(w.tagNames), msgs);
    if reply.LlmFails? {
      return Some(Done(TurnResult(ModelErrorText(reply.error), tool.collector.sources, false, used))), msgs', used';
    }
    if reply.toolCalls == [] {
      return Some(Done(TurnResult(reply.content, tool.collector.sources, true, used))), msgs', used';
    }
    var raised;
    msgs', used', raised := DispatchCalls(reply.toolCalls, w, tool, index, msgs + [AiMsg(reply.content, reply.toolCalls)], used);
    if raised.Some? {
      return Some(Raised(raised.value)), msgs', used';
    }
    finished := None;
  }

  function Prepend(p: seq<seq<LcMessage>>, r: Run): Run
  {
    r.(prompts := p + r.prompts)
  }

  /** The outer `for round_num in range(TOOL_CALLING_MAX_ROUNDS)` loop. */
  method RunRounds(w: World, llm: ChatModel, tool: SearchKnowledgeTool, index: VectorIndex, lc: seq<LcMessage>)
    returns (r: Outcome<TurnResult>, ghost prompts: seq<seq<LcMessage>>)
    requires tool.name == ToolName
    modifies tool.collector, index
    ensures var run := Rounds(ToolCallingMaxRounds, Description(w.tagNames), ToolOf(w), llm, Loop(old(index.State()), lc, old(tool.collector.sources), false));
      r == run.outcome && index.State() == run.index && prompts == run.prompts
  {
    ghost var goal := Rounds(ToolCallingMaxRounds, Description(w.tagNames), ToolOf(w), llm, Loop(index.State(), lc, tool.collector.sources, false));
    var msgs := lc;
    var used := false;
    prompts := [];
    var round := 0;
    while round < ToolCallingMaxRounds
      invariant 0 <= round <= ToolCallingMaxRounds
      invariant Prepend(prompts, Rounds(ToolCallingMaxRounds - round, Description(w.tagNames), ToolOf(w), llm,
                                        Loop(index.State(), msgs, tool.collector.sources, used))) == goal
    {
      ghost var before := Loop(index.State(), msgs, tool.collector.sources, used);
      ghost var p0 := prompts;
      var finished;
      finished, msgs, used := OneRound(w, llm, tool, index, msgs, used);
      prompts := prompts + [before.msgs];
      if finished.Some? {
        return finished.value, prompts;
      }
      ghost var rest := Rounds(ToolCallingMaxRounds - round - 1, Description(w.tagNames), ToolOf(w), llm,
                               Loop(index.State(), msgs, tool.collector.sources, used));
      assert Rounds(ToolCallingMaxRounds - round, Description(w.tagNames), ToolOf(w), llm, before) == Prepend([before.msgs], rest);
      assert (p0 + [before.msgs]) + rest.prompts == p0 + ([before.msgs] + rest.prompts);
      round := round + 1;
    }
    r := Done(TurnResult(ApologyText, tool.collector.sources, true, used));
  }
}
