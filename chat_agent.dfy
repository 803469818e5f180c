/** The OpenAI-backed chat agent: it converts the history and runs the
    tool-calling loop at once, with no availability check, over a fresh source
    collector shared with a newly made `search_knowledge` tool. */
module ChatAgent {
  import opened Records
  import opened RagService
  import opened SearchKnowledge
  import opened ToolCalling

  /** A turn of the agent from the stored history. */
  function AgentTurn(w: World, llm: ChatModel, systemPrompt: string, messages: seq<ChatMessage>,
                     st: IndexState): Run
  {
    Turn(w, llm, LcHistory(systemPrompt, messages), st)
  }

  /** `chat_with_tools`. */
  method ChatWithTools(messages: seq<ChatMessage>, systemPrompt: string, w: World, llm: ChatModel,
                       index: VectorIndex)
    returns (r: Outcome<TurnResult>, ghost prompts: seq<seq<LcMessage>>)
    modifies index
    ensures var run := AgentTurn(w, llm, systemPrompt, messages, old(index.State()));
      r == run.outcome && index.State() == run.index && prompts == run.prompts
  {
    var collector := new SourceCollector();
    var tool := new SearchKnowledgeTool(collector, w.tagNames);
    var lc := ToLangchainMessages(systemPrompt, messages);
    r, prompts := RunRounds(w, llm, tool, index, lc);
  }

  /** The model is invoked at least once and at most `TOOL_CALLING_MAX_ROUNDS`
      times, first on the system prompt and the converted history. */
  lemma AgentInvocations(w: World, llm: ChatModel, systemPrompt: string, messages: seq<ChatMessage>,
                         st: IndexState)
    ensures var p := AgentTurn(w, llm, systemPrompt, messages, st).prompts;
      1 <= |p| <= ToolCallingMaxRounds && p[0] == LcHistory(systemPrompt, messages)
  {
    RoundsInvocations(ToolCallingMaxRounds, Description(w.tagNames), ToolOf(w), llm, Loop(st, LcHistory(systemPrompt, messages), [], false));
  }

  /** A finished turn ends on an exception of the model (answer with the error,
      model unavailable), on a reply without tool calls (its content, model
      available), or after all rounds requested tools with the apology; the
      tool counts as used iff some reply requested tools, and with no tool used
      there are no sources, the collector starting empty. */
  lemma AgentOutcome(w: World, llm: ChatModel, systemPrompt: string, messages: seq<ChatMessage>,
                     st: IndexState)
    ensures var run := AgentTurn(w, llm, systemPrompt, messages, st);
      var p := run.prompts;
      var desc := Description(w.tagNames);
      run.outcome.Done? ==>
        && (|| Ends(llm(desc, p[|p| - 1]), run.outcome.value)
            || (&& |p| == ToolCallingMaxRounds
                && (forall i :: 0 <= i < |p| ==> RequestsTools(llm(desc, p[i])))
                && run.outcome.value.answer == ApologyText && run.outcome.value.llmAvailable))
        && (run.outcome.value.toolUsed <==> exists i :: 0 <= i < |p| && RequestsTools(llm(desc, p[i])))
        && (!run.outcome.value.toolUsed ==> run.outcome.value.sources == [])
  {
    var s := Loop(st, LcHistory(systemPrompt, messages), [], false);
    RoundsInvocations(ToolCallingMaxRounds, Description(w.tagNames), ToolOf(w), llm, s);
    RoundsEnd(ToolCallingMaxRounds, Description(w.tagNames), ToolOf(w), llm, s);
    RoundsToolUse(ToolCallingMaxRounds, Description(w.tagNames), ToolOf(w), llm, s);
    RoundsNoToolNoSources(ToolCallingMaxRounds, Description(w.tagNames), ToolOf(w), llm, s);
  }

  /** The collector starts empty and is shared by every call, so a finished
      turn returns exactly what the successful tool calls found, concatenated
      in round and call order; `states` are the index states the rounds start
      from, the first being the one the turn started with. */
  lemma AgentSources(w: World, llm: ChatModel, systemPrompt: string, messages: seq<ChatMessage>,
                     st: IndexState) returns (states: seq<IndexState>)
    ensures var run := AgentTurn(w, llm, systemPrompt, messages, st);
      var p := run.prompts;
      var desc := Description(w.tagNames);
      && |states| == |p| && states[0] == st
      && (forall i :: 0 <= i < |p| - 1 ==> states[i + 1] == RoundGather(desc, ToolOf(w), llm, p[i], states[i]).index)
      && (run.outcome.Done? ==> run.outcome.value.sources == GatheredOver(desc, ToolOf(w), llm, p, states))
  {
    var s := Loop(st, LcHistory(systemPrompt, messages), [], false);
    RoundsInvocations(ToolCallingMaxRounds, Description(w.tagNames), ToolOf(w), llm, s);
    states := RoundsSources(ToolCallingMaxRounds, Description(w.tagNames), ToolOf(w), llm, s);
    var run := AgentTurn(w, llm, systemPrompt, messages, st);
    if run.outcome.Done? {
      assert [] + GatheredOver(Description(w.tagNames), ToolOf(w), llm, run.prompts, states)
          == GatheredOver(Description(w.tagNames), ToolOf(w), llm, run.prompts, states);
    }
  }
}
