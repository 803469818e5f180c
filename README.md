# knowledge-os in Dafny

This is a model of the core of knowledge-os, a personal knowledge base. Notes carry tags and a source (type, name, author). The user asks a chat assistant about them. The assistant is a chat model bound to one tool, `search_knowledge`. That tool retrieves notes by a single tag from a vector index kept in step with the note table.

The model covers:

- the tool-calling loop, in its Ollama copy (with an availability check) and its OpenAI copy;
- the tool and its caller-owned source collector;
- the retriever, with its tag encoding, over-fetching, filtering and numbered context;
- the index lifecycle: absent or built, the lazy `_initialized` flag, rebuild versus single add;
- the note, tag and chat tables;
- the chat page's session state;
- the guardrail verdict parser;
- the placeholder recommendations;
- the note list page and the note form with their tag pickers;
- both copies of the reports page;
- the planet slugs and pagination.

State that the source changes in place is modelled as classes:

- `RagService.VectorIndex` is the module state of `rag_service`;
- `Storage.Store` holds the three tables;
- `ChatSession.ChatPage` holds the chat page's two variables;
- `SearchKnowledge.SourceCollector` is the shared source list;
- `TagPicker.TagSelection` is a page's selected tag names;
- `NoteForm.NoteFormPage` is the form's fields.

Loops in the source are methods with loop invariants. Each method is proved equal to a specification function of its inputs and old state, and the properties are lemmas about those functions.

The oracles are parameters:

- The chat model is a function from the tool description and the message list to a reply (content and tool calls) or an exception.
- The vector search is a score function, a stable descending sort and a cut to `k`, plus a predicate telling when the search raises.
- Whether the embedding model loads, and its error text, are fields of a `Backend` value.
- Ids (`uuid4`) and timestamps (`now`) are arguments.
- The indices that `random.sample` picks are arguments, required to be distinct and in range.

Modules, one per source file or concern:

- `Text`: Python string helpers (strip, lower, split, join, `in`);
- `Sorting`: a stable sort by key;
- `Records`: the JSON record shapes and the configuration constants;
- `RagService`, `SearchKnowledge`, `ToolCalling`, `ChatAgent`, `ToolService`;
- `Storage`, `ChatSession`, `Guardrail`, `Recommendations`, `TagPicker`;
- `NotesDb`, `NoteForm`, `Reports`, `PlanetService`.

## Model

| member | source | states |
|---|---|---|
| ToolCalling.ToLangchainMessages | tool/tool_service.py:51-61 | the converted list is the system prompt followed by `Convert` of the history |
| ToolCalling.ConvertConcat | tool/tool_service.py:54-60 | converting a concatenation converts each part and concatenates the results |
| ToolCalling.ConvertPositions | agents/chat_agent.py:34-44 | the conversion is the image, at increasing positions, of exactly the user and assistant messages: user as human, assistant as AI |
| ToolCalling.AnswersCallsStep | tool/tool_service.py:170-188 | answering the first call and then the rest answers all the calls in order |
| ToolCalling.DispatchShape | tool/tool_service.py:170-188 | a dispatch that raises nothing appends one tool message per call, in call order, each with the call's id and, for an unknown tool, the error text; the tool flag becomes true iff there was a call; the sources only grow |
| ToolCalling.DispatchFlags | tool/tool_service.py:170-188 | for any tool, a dispatch that raises nothing sets the tool flag iff there was a call, and the sources only grow |
| ToolCalling.ToolOfAnswersUnknown | tool/tool_service.py:178-182 | a call naming a tool other than `search_knowledge` is answered with the unknown-tool error text and no sources |
| ToolCalling.RoundStepContinues | tool/tool_service.py:158-188 | a round that goes on followed a reply with tool calls; it appended that reply and then answered every call; it marks the tool used and keeps the earlier sources as a prefix |
| ToolCalling.RoundStepGoesOn | tool/tool_service.py:158-188 | for any tool, a round that goes on followed a reply requesting tools, marks the tool used and keeps the earlier sources as a prefix |
| ToolCalling.RoundStepFinishes | tool/tool_service.py:146-164 | a round that ends normally ends on a model exception (error answer, model unavailable) or on a reply without calls (its content, model available), keeping the sources and the tool flag; a tool exception follows a reply with calls |
| ToolCalling.RoundsInvocations | tool/tool_service.py:145-147 | the model is invoked at most `k` times, first on the current messages |
| ToolCalling.RoundsRequests | tool/tool_service.py:145-167 | every invocation but the last got a reply requesting tools |
| ToolCalling.RoundsEnd | tool/tool_service.py:145-203 | a finished turn ends on its last reply, or else used all rounds, each requesting tools, and returns the apology with the model available |
| ToolCalling.RoundsToolUse | tool/tool_service.py:138-203 | in a finished turn the tool counts as used iff it was used before or some reply requested tools; the earlier sources stay a prefix |
| ToolCalling.DispatchSources | tool/tool_service.py:170-188 | a dispatch extends the shared sources by exactly what its calls found, concatenated in call order up to a call that raises, and leaves the index state those calls leave |
| ToolCalling.RoundsSources | tool/tool_service.py:138-203 | a finished turn returns its starting sources followed by what every call of every round found, in round and call order; each round starts from the index state the previous round's calls left |
| ToolCalling.RoundsNoToolNoSources | tool/tool_service.py:91-107 | a finished turn in which no tool was used adds no sources |
| ToolCalling.RoundsMessages | tool/tool_service.py:167-188 | between two consecutive invocations the message list grows by the reply and then one tool message per call, in order, each carrying the call's id |
| ToolCalling.ExecuteCall | tool/tool_service.py:178-182 | one call: an unknown name gives the error text and changes nothing; a bad argument raises; otherwise the tool is invoked |
| ToolCalling.DispatchCalls | tool/tool_service.py:170-188 | the inner loop computes the dispatch function: messages, tool flag, sources, index state, and the exception if one is raised |
| ToolCalling.OneRound | tool/tool_service.py:146-188 | one pass of the outer loop computes the round function |
| ToolCalling.RunRounds | tool/tool_service.py:145-203 | the outer loop computes `Rounds(TOOL_CALLING_MAX_ROUNDS, …)`: the result, the index state and the message lists shown to the model |
| ChatAgent.ChatWithTools | agents/chat_agent.py:50-146 | the OpenAI turn is the loop run at once over a fresh, empty collector and the converted history |
| ChatAgent.AgentInvocations | agents/chat_agent.py:88-90 | the model is invoked at least once and at most `TOOL_CALLING_MAX_ROUNDS` times, first on the system prompt and the converted history |
| ChatAgent.AgentSources | agents/chat_agent.py:65-131 | the collector starts empty and is shared by every call, so a finished turn returns exactly the concatenation, in round and call order, of what each successful tool call found |
| ChatAgent.AgentOutcome | agents/chat_agent.py:65-146 | a finished turn ends on a model exception, on a reply without calls, or after all rounds with the apology; the tool is used iff some reply requested tools; with no tool used there are no sources |
| ToolService.ChatWithTools | tool/tool_service.py:67-203 | the Ollama turn: the fixed answer when the check fails, otherwise the same loop over a fresh collector |
| ToolService.ServiceInvocations | tool/tool_service.py:82-145 | a failed check invokes no model, keeps the index and answers "não está disponível" with no sources and both flags false; otherwise the model is invoked 1 to `TOOL_CALLING_MAX_ROUNDS` times |
| ToolService.ServiceEnds | tool/tool_service.py:146-203 | a model exception gives its error text with the model unavailable; a turn whose every reply requested tools used all rounds and returns the apology with the model available and the tool used |
| SearchKnowledge.TagNames | tools/search_knowledge.py:21-24 | one name per registered tag |
| SearchKnowledge.TagNamesExact | tools/search_knowledge.py:21-42 | a name is available iff some registered tag has it |
| SearchKnowledge.DescriptionLists | tools/search_knowledge.py:56-70 | the description names every registered tag, or says there are none |
| SearchKnowledge.InvokeUnknownTag | tools/search_knowledge.py:41-46 | an unregistered tag changes no state, adds no source and answers with the error naming every registered tag |
| SearchKnowledge.InvokeFound | tools/search_knowledge.py:47-54 | for a registered tag: the retrieval's state and exception, the found sources are exactly the retrieval's, and when there are some the text is exactly its context; the no-notes text comes back iff the tag is registered and nothing was found; at most `RAG_TOP_K` sources |
| SearchKnowledge.IndexedDocuments | app/services/rag_service.py:190-192 | after the retrieval's reconciliation, the index holds the notes' documents |
| SearchKnowledge.KeptDocumentHasTag | tools/search_knowledge.py:47 | a note document that passes the one-tag filter belongs to a note carrying that tag |
| SearchKnowledge.OneTagRetrieval | tools/search_knowledge.py:47 | one-tag retrieval over the notes reports only notes carrying the tag |
| SearchKnowledge.FoundCarryTag | tools/search_knowledge.py:41-54 | every source the tool reports is a note carrying the requested tag, when the index is in step with the notes and no tag holds the separator bar |
| SearchKnowledge.SourceCollector.constructor | tools/search_knowledge.py:27 | the collector starts empty |
| SearchKnowledge.SearchKnowledgeTool.constructor | tools/search_knowledge.py:56-70 | the tool is named `search_knowledge`, described by the tag names known when it is made, and shares the given collector |
| SearchKnowledge.SearchKnowledgeTool.Invoke | tools/search_knowledge.py:39-54 | the index state is that of the call; the collector gains exactly the found sources, after its old contents; the model gets the text; a retrieval exception propagates |
| RagService.EncodeTags | app/services/rag_service.py:88 | the encoding is empty iff there are no tags, and otherwise starts and ends with the separator bar |
| RagService.DecodeTags | app/services/rag_service.py:236-237 | decoded tags are non-empty and hold no separator bar |
| RagService.NonEmpty | app/services/rag_service.py:237 | keeps only non-empty parts, taken from the input |
| RagService.TagsRoundTrip | app/services/rag_service.py:236-237 | decoding the encoding gives back the tags when none is empty or holds the separator bar |
| RagService.TagTestExact | app/services/rag_service.py:215 | for a tag without the separator bar, the test that the barred tag occurs in the encoding holds iff the tag is one of the note's tags |
| RagService.SeparatorInTag | app/services/rag_service.py:215 | with a bar inside a tag both fail: the tag `a` bar `b` matches a note tagged `a` and `b`, and a list holding that one tag does not round-trip |
| RagService.TagFilterExact | app/services/rag_service.py:213-216 | the tag test passes iff some requested tag is one of the note's tags |
| RagService.SourceOfNote | app/services/rag_service.py:238-245 | the source read back from a note's document is the note's id, title, source fields and tags |
| RagService.BuildDocuments | app/services/rag_service.py:108 | one document per note, in note order; the source read back from each document whose note has well-formed tags is that note's id, title, source type, name, author and tags |
| RagService.SearchRanks | app/services/rag_service.py:202 | the search oracle returns `min(k, n)` indexed documents, best score first |
| RagService.FilterDocsPositions | app/services/rag_service.py:207-217 | the filter keeps exactly the documents that pass it, at increasing positions |
| RagService.CandidatesPositions | app/services/rag_service.py:198-220 | the candidates are documents of the ranking at increasing positions, each indexed and passing the filters |
| RagService.FilterRanked | app/services/rag_service.py:207-217 | the filtering loop computes the filter function |
| RagService.FormatKept | app/services/rag_service.py:225-245 | the formatting loop gives block `i+1` and the source of each kept document, in order |
| RagService.RankAndFormat | app/services/rag_service.py:198-247 | the search, filter and format steps compute the retrieval function |
| RagService.RetrievalBound | app/services/rag_service.py:198-223 | at most `top_k` sources; the context is empty iff there are no sources |
| RagService.RetrievalEmpty | app/services/rag_service.py:201-223 | there are no sources iff the search raises or no candidate survives the filter and the cut |
| RagService.RetrievalSources | app/services/rag_service.py:198-220 | the sources are the documents at increasing positions of the ranking fetched with `top_k*3` (filtered) or `top_k`, each passing the filters |
| RagService.RetrievalContext | app/services/rag_service.py:225-247 | the context is the join by `\n---\n` of exactly one block per source; block `k` opens with `[Nota k+1] Titulo:` and source `k`'s title, source name, type and author, and the context contains each such header |
| RagService.RetrievalContextOpens | app/services/rag_service.py:225-247 | a context that reports sources is non-empty and opens with `[` |
| RagService.CandidatesFromDocs | app/services/rag_service.py:207-220 | every candidate is an indexed document that passes the filter |
| RagService.RetrievalFromIndex | app/services/rag_service.py:225-245 | every source is that of an indexed document |
| RagService.RetrievalFromNotes | app/services/rag_service.py:225-245 | on an index built from the notes every source is that of a note |
| RagService.EnsureIndexSyncs | app/services/rag_service.py:94-130 | a successful reconciliation leaves the index in step with the notes (absent when there are none), initialized, and returns the note count; a failed one changes nothing |
| RagService.AddNoteKeepsSync | app/services/rag_service.py:133-146 | adding a note to an index in step with the notes keeps it in step with the notes plus that note, creating the index when it was absent |
| RagService.ReindexForgets | app/services/rag_service.py:149-168 | after a deletion, a rebuild with no notes leaves no store; one whose embedding model loads leaves no document with the deleted id; one whose model fails is swallowed and keeps the old store, stale document included |
| RagService.RetrieveAfterInit | app/services/rag_service.py:190-192 | once initialized, retrieval never rebuilds |
| RagService.FirstRetrieve | app/services/rag_service.py:190-196 | the first retrieval reconciles the index with the notes, raises only when the embedding model fails, and reports only notes' sources |
| RagService.VectorIndex.constructor | app/services/rag_service.py:25-27 | no store, not initialized |
| RagService.VectorIndex.RebuildIndex | app/services/rag_service.py:94-111 | `_rebuild_index` as a state change: cleared for no notes, otherwise rebuilt or raising |
| RagService.VectorIndex.EnsureIndexed | app/services/rag_service.py:117-130 | `ensure_index` as a state change |
| RagService.VectorIndex.AddNoteDocument | app/services/rag_service.py:133-146 | `add_note` as a state change, its failure swallowed |
| RagService.VectorIndex.ReindexNotes | app/services/rag_service.py:149-168 | `update_note` and `delete_note` as a state change, their failure swallowed |
| RagService.VectorIndex.RetrieveNotes | app/services/rag_service.py:174-248 | `retrieve` as a state change and a result |
| Storage.WithoutExact | app/storage.py:53 | removing by id keeps, in order, exactly the records with another id; something was removed iff some record had the id |
| Storage.WithoutSubsequence | app/storage.py:53 | the kept records are the others, at increasing positions |
| Storage.FirstIndex | app/storage.py:70-71 | the found position holds the id with none before it; none is found iff no record has it |
| Storage.NormalizeTagsExact | app/storage.py:35 | normalised tags are exactly the stripped, lower-cased non-blank input tags |
| Storage.NormalizePositions | app/storage.py:35 | the normalised tags are the stripped, lower-cased forms of the non-blank input tags, in order, at increasing positions that cover every such tag |
| Storage.NormalizedTagsNormal | app/storage.py:35 | every normalised tag is non-empty, stripped and lower case |
| Storage.WrittenNoteNormal | app/storage.py:28-37 | a saved or rewritten note has stripped text and normal tags; a rewrite keeps id and `created_at` |
| Storage.SaveNoteFreshId | app/storage.py:29-38 | appending a note with a new id keeps the ids distinct |
| Storage.UpdatedNotesExact | app/storage.py:66-86 | only the first note with the id changes, and it is rewritten from the input; ids and `created_at` are kept; no match changes nothing |
| Storage.SaveTagKeepsValid | app/storage.py:106-122 | a blank or present normalised name is refused and changes nothing; otherwise it is appended; names stay unique and lower case |
| Storage.DeleteTagKeepsValid | app/storage.py:125-134 | deleting a tag keeps the names unique and normal |
| Storage.LoadChatsOrder | app/storage.py:146-152 | the listing holds the same chats, most recently updated first; equal timestamps keep stored order |
| Storage.SaveChatBounded | app/storage.py:166-185 | at the cap of 10, nothing is saved and nothing changes; otherwise one chat is appended, its title exactly the first 50 characters of the given one (all of it when shorter), its timestamps both `now` |
| Storage.UpdatedChatsExact | app/storage.py:188-205 | only the first chat with the id changes: its messages are replaced, its title only when given (cut to 50), `updated_at` refreshed |
| Storage.Store.constructor | app/storage.py:8-12 | the three tables start empty |
| Storage.Store.SaveNote | app/storage.py:23-46 | the table gains exactly the new, normalised note; the index gets `add_note` |
| Storage.Store.DeleteNote | app/storage.py:49-63 | every note with the id is removed; the result is true iff one was; the index is rebuilt only then |
| Storage.Store.UpdateNote | app/storage.py:66-86 | the first note with the id is rewritten; the result is true iff there was one; the index is rebuilt only then |
| Storage.Store.SaveTag | app/storage.py:106-122 | `save_tag` on the tag table |
| Storage.Store.DeleteTag | app/storage.py:125-134 | every tag with the id is removed; the result is true iff one was |
| Storage.Store.GetChat | app/storage.py:155-163 | the first chat with the id, or none iff no chat has it |
| Storage.Store.SaveChat | app/storage.py:166-185 | `save_chat` on the chat table |
| Storage.Store.UpdateChat | app/storage.py:188-205 | `update_chat` on the chat table; the result is true iff the chat exists |
| Storage.Store.DeleteChat | app/storage.py:208-220 | every chat with the id is removed; the result is true iff one was |
| Storage.Store.CountChats | app/storage.py:223-225 | the length of the listing is the number of chats |
| ChatSession.SendIgnored | app/ui/pages/knowledge_chat.py:79-92 | a blank message, or a new conversation at the chat cap, changes neither the page nor the table |
| ChatSession.SendAppendsExchange | app/ui/pages/knowledge_chat.py:94-137 | a completed send appends the stripped user text, then the answer to that history with its sources; an exception becomes the error answer with no sources |
| ChatSession.SendFirstSave | app/ui/pages/knowledge_chat.py:166-178 | the first send of an unsaved conversation saves it, titled by its first message cut to 50, and binds the page to it; at the cap the page stays unbound |
| ChatSession.SendUpdatesOpenChat | app/ui/pages/knowledge_chat.py:179-182 | with a chat open, the send updates that chat with the whole history and creates none |
| ChatSession.SendKeepsSynced | app/ui/pages/knowledge_chat.py:77-183 | a send keeps the open chat's stored messages equal to the page's history |
| ChatSession.NewChatThenSend | app/ui/pages/knowledge_chat.py:273-285 | at the cap a new chat changes nothing; below it the page is emptied, so the next send saves a conversation of its own |
| ChatSession.LoadSyncs | app/ui/pages/knowledge_chat.py:287-297 | a missing chat changes nothing; a stored one binds the page to it, showing its messages |
| ChatSession.DeleteKeepsSynced | app/ui/pages/knowledge_chat.py:308-316 | deleting any chat keeps the page in step with the table: the open one resets the page, another leaves it |
| ChatSession.ChatPage.constructor | app/ui/pages/knowledge_chat.py:33-34 | no chat open, empty history |
| ChatSession.ChatPage.Send | app/ui/pages/knowledge_chat.py:77-183 | `send` on the page and the chat table, computed by `SendSpec`; notes and tags unchanged |
| ChatSession.ChatPage.HandleNewChat | app/ui/pages/knowledge_chat.py:273-285 | `handle_new_chat` on the page |
| ChatSession.ChatPage.LoadConversation | app/ui/pages/knowledge_chat.py:287-297 | `load_conversation` on the page |
| ChatSession.ChatPage.DoDelete | app/ui/pages/knowledge_chat.py:308-316 | the chat is removed from the table; the page resets only when it was the open chat |
| Guardrail.CheckCoherence | agents/guardrail_agent.py:25-75 | an exception gives true (fail open); a reply opening with a yes token passes and one opening with a no token fails; a refusal always rests on a no token found in the cleaned reply or on a negative marker word |
| Guardrail.TokenDecides | agents/guardrail_agent.py:86-98 | a first token `sim`/`yes` gives true, `não`/`nao`/`no` gives false; any other first token gives false iff a marker occurs |
| Guardrail.TokenInCleaned | agents/guardrail_agent.py:86-88 | the deciding token occurs in the cleaned text |
| Guardrail.NegativeHasReason | agents/guardrail_agent.py:92-98 | a false verdict has a negative first token or a marker in the text |
| Guardrail.VerdictOfCleaned | agents/guardrail_agent.py:86 | cleaning is idempotent and does not change the verdict |
| Guardrail.EmptyIsCoherent | agents/guardrail_agent.py:87-104 | the empty reply gives true |
| Guardrail.YesBeforeNegativeWord | agents/guardrail_agent.py:90-98 | "Sim, não" contains a marker yet gives true: the first token wins |
| Recommendations.MatchedExact | pages/knowledge_chat.py:226-230 | a category is matched iff one of its keywords occurs in the lower-cased text |
| Recommendations.OverlapShares | pages/knowledge_chat.py:235 | the overlap is positive iff the entry shares a matched category |
| Recommendations.ScoredPoolFaithful | pages/knowledge_chat.py:233-237 | each scored pair is a pool entry with its overlap, which is positive |
| Recommendations.ScoredPoolEmpty | pages/knowledge_chat.py:233-237 | nothing is scored iff no pool entry overlaps the matched categories |
| Recommendations.KeywordResultsRanked | pages/knowledge_chat.py:232-241 | at most 5 keyword results, each a pool entry sharing a matched category, by non-increasing overlap |
| Recommendations.KeywordTiesInPoolOrder | pages/knowledge_chat.py:238 | the stable sort keeps ties in pool order |
| Recommendations.KeywordResultsEmpty | pages/knowledge_chat.py:232-242 | the keyword path is empty iff no entry overlaps, in particular when nothing matched |
| Recommendations.RecommendPaths | pages/knowledge_chat.py:232-243 | some overlap gives the keyword results; none gives the `min(4, n)` sampled entries |
| Recommendations.PoolHasNoMediaCategory | pages/knowledge_chat.py:36-177 | no pool entry lists `livro`, `podcast`, `video` or `curso` |
| Recommendations.MediaOnlyFallsBack | pages/knowledge_chat.py:182-243 | a message matching only those categories gets the random sample |
| Recommendations.GenerateRecommendations | pages/knowledge_chat.py:224-243 | the loops compute the recommendation function |
| Recommendations.RecommendFrom | pages/knowledge_chat.py:224-243 | for any keyword table and pool, the two loops compute the recommendation function |
| TagPicker.SelectAddsOnce | app/ui/pages/notes_db.py:84-89 | selecting adds exactly the tag, at the end when absent, and never a duplicate |
| TagPicker.DeselectRemovesOne | pages/note_form.py:58-67 | deselecting removes one occurrence and keeps the rest |
| TagPicker.DeselectKeepsDistinct | pages/note_form.py:58-67 | in a selection without duplicates the tag is gone afterwards |
| TagPicker.OfferedExact | app/ui/pages/notes_db.py:76-82 | the offered chips are exactly the registered tags not selected, each as often as registered, sorted by name |
| TagPicker.OfferedSelectable | pages/note_form.py:76-89 | an offered chip always selects by appending |
| TagPicker.TagSelection.constructor | app/ui/pages/notes_db.py:26 | the selection starts as given |
| TagPicker.TagSelection.Select | pages/note_form.py:84-89 | `make_select` on the selection |
| TagPicker.TagSelection.Deselect | pages/note_form.py:58-67 | `selected_tags.remove(t)` on the selection |
| TagPicker.TagSelection.Clear | pages/note_form.py:128 | the selection is emptied |
| NotesDb.ListingPositions | app/ui/pages/notes_db.py:134-142 | the listing is exactly the shown notes at decreasing stored positions (newest first) |
| NotesDb.ListingUnfiltered | app/ui/pages/notes_db.py:135 | a blank query with `Todos` lists the notes reversed |
| NotesDb.ListingConjunctive | app/ui/pages/notes_db.py:136-141 | narrowing by the query, then by source type, equals both at once |
| NotesDb.RenderNotes | app/ui/pages/notes_db.py:128-142 | the loop over `reversed(notes)` computes the listing of the lower-cased, stripped query |
| NotesDb.AcceptedEditHasText | app/ui/pages/notes_db.py:104-118 | an accepted edit stores a note with a non-empty title and content |
| NotesDb.HandleSave | app/ui/pages/notes_db.py:103-121 | a blank title or content issues no update and leaves notes and index; otherwise the note is updated with the selected tags and, when it exists, the index is rebuilt from the new notes |
| NoteForm.SubmitOutcome | pages/note_form.py:104-130 | a refused save sends nothing and keeps the form; an accepted one sends the fields and tags and resets to the initial form |
| NoteForm.SavedNoteHasText | pages/note_form.py:104-119 | the stored note has a non-empty title and content; a reset form is refused |
| NoteForm.NoteFormPage.constructor | pages/note_form.py:26-44 | empty fields, source type `artigo`, no tags |
| NoteForm.NoteFormPage.HandleSave | pages/note_form.py:104-130 | refused: form, selection and notes unchanged; accepted: exactly the new note appended, the index given `add_note` of that note, the fields cleared, the source type `artigo`, the tags emptied |
| Reports.CountNotesExact | app/ui/pages/reports.py:87-93 | the counter's count of a tag is its number of occurrences over all notes' tag lists; its keys are exactly the tags that occur, once each |
| Reports.CountNotesPerTag | pages/reports.py:87-93 | the nested loop computes the counter |
| Reports.AllTagsExact | app/ui/pages/reports.py:114 | the listed tags are exactly those occurring, strictly sorted |
| Reports.StatusList | app/ui/pages/reports.py:114-165 | one row per occurring tag, each once in strictly increasing name order; each row's count is the tag's occurrences over all notes, available iff at least 10, and missing is 10 minus the count |
| Reports.StatusUnlock | app/ui/pages/reports.py:165-189 | the count is the occurrences; unlocked iff at least 10; a locked tag misses `10 - count`, between 1 and 10 |
| Reports.KnownTagReport | app/ui/pages/reports.py:98-99 | a canned tag gets its canned report unchanged |
| Reports.OtherTagReport | app/ui/pages/reports.py:100-105 | any other tag gets the prefix plus the capitalised tag (one character longer for a leading `ß`), a summary and a suggestion naming the tag, and the default insights |
| Reports.CatalogueReports | app/ui/pages/reports.py:96-105 | the three canned tags get their reports; others the generated title |
| Reports.AppReports | app/ui/pages/reports.py:13-105 | with the accented texts, `leadership` gets its report, titled "Relatório: Lideranca"; others "Relatório: " plus the capitalised tag |
| Reports.LegacyReports | pages/reports.py:13-105 | with the unaccented texts, `programacao` gets its report, titled "Relatorio: Programacao"; others "Relatorio: " plus the capitalised tag |
| PlanetService.SlugWellFormed | app/services/planet_service.py:14-18 | for any name the slug holds only `a-z`, `0-9` and `-`, with no leading, trailing or doubled `-` |
| PlanetService.SlugifyIdempotent | app/services/planet_service.py:14-18 | slugifying a slug gives it back |
| PlanetService.FilteredConcat | app/services/planet_service.py:64 | filtering distributes over concatenation, so order is kept |
| PlanetService.MatchingExact | app/services/planet_service.py:62-64 | an empty query keeps all; otherwise a planet is kept iff its lower-cased name contains the lower-cased query |
| PlanetService.SearchPage | app/services/planet_service.py:65-67 | the total is the match count; for page ≥ 1 the page is the slice from `(page-1)*per_page`, at most `per_page` long |
| PlanetService.SearchPageNegative | app/services/planet_service.py:65-67 | for page ≥ 1 and a negative `per_page`, the total is the match count; the first page is the matches without their last `-per_page`, and every later page is empty |
| PlanetService.PagesAdjacent | app/services/planet_service.py:66-67 | two consecutive pages join into the slice spanning both |
| PlanetService.PlanetById | app/services/planet_service.py:48-49 | a found planet has the id; none is found iff no planet has it |
| PlanetService.PlanetByIdFirst | app/services/planet_service.py:48-49 | the first planet with the id is the one returned |
| PlanetService.LookupBySlug | app/services/planet_service.py:48-49 | in a loaded catalogue, looking up a planet's slug finds a planet with that slug |

## Left out

- The vector store's internals (FAISS, HuggingFace embeddings, cosine scores) are an oracle: a score function, a stable sort, a cut to `k`. Loading and saving the index on disk are left out too.
- JSON file I/O, the `_ensure_*file` helpers and the deletion of index files. The tables are in-memory sequences; `uuid4` and `now` are arguments.
- `load_planets` and its `_CACHE` are left out because they are I/O. The planets' physical quantities (floats) are not part of the record.
- The reports' `progress` ratio is a float and is left out.
- `random.sample` is replaced by a list of distinct in-range positions given as an argument.
- The chat models (`ChatOllama`, `ChatOpenAI`, `bind_tools`) and the guardrail chain are functions from their input to a reply or an exception. The Ollama availability check is a boolean argument.
- `run.io_bound` and `async` are left out; the orchestrator is a synchronous call that may raise.
- Logging and the logging callback are left out: they do not affect control flow.
- NiceGUI rendering, dialogs, notifications and routing are left out. Only the pages' state logic is modelled.
- Prompts and configuration are constants: `TOOL_CALLING_MAX_ROUNDS = 5`, `RAG_TOP_K = 5`, `MAX_CHATS = 10`, a 50-character title cut.
- The legacy pages import a top-level `storage` module, which is not part of this model. `pages/note_form.py` is modelled against `Storage.Store.SaveNote`.
- `pages/reports.py` shares the counting and unlock members with the app copy; only its texts differ (`Reports.LegacyCatalogue`).
- The inline search function of `tool/tool_service.py` (lines 93-108) behaves like `tools/search_knowledge.py`; both are modelled once, by `SearchKnowledge.SearchKnowledgeTool.Invoke`.
- Lower-casing and whitespace cover ASCII and Latin-1 characters only. Capitalisation covers the title case of ASCII and Latin-1 first letters, `ß`, `µ` and `ÿ` included. Characters beyond Latin-1 are left as they are: there is no Unicode case folding.
- ChatSession: a user message in the history carries an empty source list; the source stores no `sources` key for it.
- RagService.AddNote: adding a document whose id is already in the store, which the vector store rejects, is not modelled. `save_note` always passes a fresh id.
- RagService.TagTestExact: the retrieval tag test is kept as written, a substring test on the encoded tags. Its exactness is proved only for tags without `|`; `RagService.SeparatorInTag` shows what goes wrong with one.
- TagPicker.TagSelection.Deselect: requires the tag to be selected. A chip exists only for a selected tag, and `list.remove` raises otherwise.
- PlanetService.SearchPage: characterised for `page >= 1` and `per_page >= 0` only. A negative `per_page` with `page >= 1` is characterised separately by `PlanetService.SearchPageNegative`. Pages below 1 follow Python's negative slice bounds, modelled by `PySlice`, and are not characterised.
- PlanetService.PagesAdjacent: stated for `page >= 1` and `per_page >= 0` only, for the same reason as `SearchPage`.
- PlanetService.SearchPlanets: the defaults `query=""`, `page=1`, `per_page=24` are not modelled; callers pass all three arguments.
- ToolCalling: a bad tool argument is an exception that propagates out of the turn, as schema validation does. The model is not given an error message for it.
