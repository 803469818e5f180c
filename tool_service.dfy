/** The Ollama-backed tool service: the same tool-calling loop, run only when
    the model server answers the availability check.  Its inline
    `search_knowledge` function behaves as the tool of `SearchKnowledge`. */
module ToolService {
  import opened Records
  import opened RagService
  import opened SearchKnowledge
  import opened ToolCalling

  const UnavailableText := "O modelo de IA (Ollama) não está disponível no momento."

  /** A turn of the service; `available` is the answer of the availability check. */
  function ServiceTurn(available: bool, w: World, llm: ChatModel, systemPrompt: string,
                       messages: seq<ChatMessage>, st: IndexState): Run
  {
    if !available then Run(st, Done(TurnResult(UnavailableText, [], false, false)), [])
    else Turn(w, llm, LcHistory(systemPrompt, messages), st)
  }

  /** `chat_with_tools`. */
  method ChatWithTools(available: bool, messages: seq<ChatMessage>, systemPrompt: string, w: World,
                       llm: ChatModel, index: VectorIndex)
    returns (r: Outcome<TurnResult>, ghost prompts: seq<seq<LcMessage>>)
    modifies index
    ensures var run := ServiceTurn(available, w, llm, systemPrompt, messages, old(index.State()));
      r == run.outcome && index.State() == run.index && prompts == run.prompts
  {
    if !available {
      return Done(TurnResult(UnavailableText, [], false, false)), [];
    }
    var collector := new SourceCollector();
    var tool := new SearchKnowledgeTool(collector, w.tagNames);
    var lc := ToLangchainMessages(systemPrompt, messages);
    r, prompts := RunRounds(w, llm, tool, index, lc);
  }

  /** The model is never invoked when the check fails, and otherwise at least
      once and at most `TOOL_CALLING_MAX_ROUNDS` times; a failed check answers
      with the fixed text, no sources, model unavailable, tool unused, and
      leaves the index as it was. */
  lemma ServiceInvocations(available: bool, w: World, llm: ChatModel, systemPrompt: string,
                           messages: seq<ChatMessage>, st: IndexState)
    ensures var run := ServiceTurn(available, w, llm, systemPrompt, messages, st);
      && |run.prompts| <= ToolCallingMaxRounds
      && (run.prompts == [] <==> !available)
      && (!available ==> run.index == st && run.outcome == Done(TurnResult(UnavailableText, [], false, false)))
  {
    if available {
      RoundsInvocations(ToolCallingMaxRounds, Description(w.tagNames), ToolOf(w), llm, Loop(st, LcHistory(systemPrompt, messages), [], false));
    }
  }

  /** An exhausted turn returns the apology with the model available, and a
      model exception returns its error text with the model unavailable, in
      both cases keeping the tool flag of the turn. */
  lemma ServiceEnds(available: bool, w: World, llm: ChatModel, systemPrompt: string,
                    messages: seq<ChatMessage>, st: IndexState)
    requires available
    ensures var run := ServiceTurn(available, w, llm, systemPrompt, messages, st);
      var p := run.prompts;
      var desc := Description(w.tagNames);
      run.outcome.Done? ==>
        && (llm(desc, p[|p| - 1]).LlmFails? ==>
              run.outcome.value.answer == ModelErrorText(llm(desc, p[|p| - 1]).error)
              && !run.outcome.value.llmAvailable)
        && ((forall i :: 0 <= i < |p| ==> RequestsTools(llm(desc, p[i]))) ==>
              |p| == ToolCallingMaxRounds && run.outcome.value.answer == ApologyText
              && run.outcome.value.llmAvailable && run.outcome.value.toolUsed)
  {
    var s := Loop(st, LcHistory(systemPrompt, messages), [], false);
    RoundsInvocations(ToolCallingMaxRounds, Description(w.tagNames), ToolOf(w), llm, s);
    RoundsEnd(ToolCallingMaxRounds, Description(w.tagNames), ToolOf(w), llm, s);
    RoundsToolUse(ToolCallingMaxRounds, Description(w.tagNames), ToolOf(w), llm, s);
  }
}
