/** The `search_knowledge` tool the chat model may call: it checks the requested
    tag against the registered tag names (read again on every call), retrieves
    with the question and the one-tag filter `[tag]`, and appends the sources it
    found to a list owned by the caller, returning the context text. */
module SearchKnowledge {
  import opened Records
  import opened Text
  import opened RagService

  const ToolName := "search_knowledge"

  /** `_get_available_tag_names`: the registered tag names, in store order. */
  function TagNames(tags: seq<Tag>): (r: seq<string>)
    ensures |r| == |tags|
  {
    seq(|tags|, i requires 0 <= i < |tags| => tags[i].name)
  }

  /** A name is available exactly when some registered tag has it. */
  lemma TagNamesExact(tags: seq<Tag>, name: string)
    ensures name in TagNames(tags) <==> exists i :: 0 <= i < |tags| && tags[i].name == name
  {
    var r := TagNames(tags);
    if name in r {
      var i :| 0 <= i < |r| && r[i] == name;
      assert tags[i].name == name;
    }
    if exists i :: 0 <= i < |tags| && tags[i].name == name {
      var i :| 0 <= i < |tags| && tags[i].name == name;
      assert r[i] == name;
    }
  }

  const DescriptionPrefix := "Busca notas na base de conhecimento do usuario filtradas por uma tag específica. Tags disponiveis: "

  const NoTagsText := "(nenhuma tag cadastrada)"

  /** The tool description, built from the tag names known when the tool is made. */
  function Description(tagNames: seq<string>): string
  {
    DescriptionPrefix + (if tagNames == [] then NoTagsText else Join(", ", tagNames))
  }

  /** The description names every registered tag, and says there are none
      when there are none. */
  lemma DescriptionLists(tagNames: seq<string>)
    ensures tagNames == [] ==> Description(tagNames) == DescriptionPrefix + NoTagsText
    ensures forall i :: 0 <= i < |tagNames| ==> Contains(Description(tagNames), tagNames[i])
  {
    forall i | 0 <= i < |tagNames| ensures Contains(Description(tagNames), tagNames[i]) {
      JoinContains(", ", tagNames, i);
      ContainsInConcat(DescriptionPrefix, Join(", ", tagNames), [], tagNames[i]);
      assert DescriptionPrefix + Join(", ", tagNames) + [] == Description(tagNames);
    }
  }

  function UnknownTagText(tag: string, tagNames: seq<string>): string
  {
    "Erro: A tag \"" + tag + "\" não existe no sistema. Tags disponíveis: " + Join(", ", tagNames)
  }

  function NoNotesText(tag: string): string
  {
    "Nenhuma nota encontrada com a tag \"" + tag + "\" relevante para a pergunta."
  }

  /** What one call returns to the model, and the sources it adds to the collector. */
  datatype ToolOutput = ToolOutput(text: string, found: seq<Source>)

  /** One call of the tool against the index state: an exception raised by
      retrieval propagates. */
  function InvokeSpec(st: IndexState, tagNames: seq<string>, notes: seq<Note>, backend: Backend,
                      tag: string, question: string): Step<Outcome<ToolOutput>>
  {
    if tag !in tagNames then Step(st, Done(ToolOutput(UnknownTagText(tag, tagNames), [])))
    else
      var res := Retrieve(st, notes, backend, question, "", [tag], RagTopK);
      match res.result
      case Raised(e) => Step(res.state, Raised(e))
      case Done(rr) =>
        if rr.sources == [] then Step(res.state, Done(ToolOutput(NoNotesText(tag), [])))
        else Step(res.state, Done(ToolOutput(rr.context, rr.sources)))
  }

  /** An unregistered tag changes nothing, adds no source and answers with the
      error text naming every registered tag. */
  lemma InvokeUnknownTag(st: IndexState, tagNames: seq<string>, notes: seq<Note>, backend: Backend,
                         tag: string, question: string)
    requires tag !in tagNames
    ensures var s := InvokeSpec(st, tagNames, notes, backend, tag, question);
      && s.state == st && s.result.Done? && s.result.value.found == []
      && (forall i :: 0 <= i < |tagNames| ==> Contains(s.result.value.text, tagNames[i]))
  {
    forall i | 0 <= i < |tagNames| ensures Contains(UnknownTagText(tag, tagNames), tagNames[i]) {
      var pre := "Erro: A tag \"" + tag + "\" não existe no sistema. Tags disponíveis: ";
      JoinContains(", ", tagNames, i);
      ContainsInConcat(pre, Join(", ", tagNames), [], tagNames[i]);
      assert pre + Join(", ", tagNames) + [] == UnknownTagText(tag, tagNames);
    }
  }

  /** For a registered tag the call is the one-tag retrieval: same state, same
      exception, and the sources it found are exactly the retrieval's; when
      there are some, the model gets exactly the retrieval's context.  The
      "no notes" text is returned exactly when the tag is registered and
      nothing was found, and at most `RAG_TOP_K` sources are found. */
  lemma InvokeFound(st: IndexState, tagNames: seq<string>, notes: seq<Note>, backend: Backend,
                    tag: string, question: string)
    ensures var s := InvokeSpec(st, tagNames, notes, backend, tag, question);
      var res := Retrieve(st, notes, backend, question, "", [tag], RagTopK);
      && (tag in tagNames ==>
            && s.state == res.state
            && (s.result.Raised? <==> res.result.Raised?)
            && (res.result.Raised? ==> s.result.error == res.result.error)
            && (res.result.Done? ==>
                  && s.result.value.found == res.result.value.sources
                  && (s.result.value.found != [] ==> s.result.value.text == res.result.value.context)))
      && (s.result.Done? ==>
            && |s.result.value.found| <= RagTopK
            && (s.result.value.text == NoNotesText(tag) <==> tag in tagNames && s.result.value.found == [])
            && (s.result.value.found == [] ==>
                  s.result.value.text in {UnknownTagText(tag, tagNames), NoNotesText(tag)}))
  {
    var s := InvokeSpec(st, tagNames, notes, backend, tag, question);
    assert UnknownTagText(tag, tagNames)[0] == 'E' && NoNotesText(tag)[0] == 'N';
    if tag in tagNames {
      var res := Retrieve(st, notes, backend, question, "", [tag], RagTopK);
      var e := if st.initialized then Step(st, Done(0)) else EnsureIndex(st, notes, backend);
      if res.result.Done? && e.state.vectorstore.Some? {
        RetrievalBound(e.state.vectorstore.value, question, "", [tag], RagTopK, backend);
        RetrievalContextOpens(e.state.vectorstore.value, question, "", [tag], RagTopK, backend);
      }
    }
  }

  /** The index documents are those of the notes, once retrieval reconciled it. */
  lemma IndexedDocuments(st: IndexState, notes: seq<Note>, backend: Backend, question: string,
                         tags: seq<string>)
    requires st.initialized ==> InSync(st, notes)
    ensures var e := if st.initialized then Step(st, Done(0)) else EnsureIndex(st, notes, backend);
      e.result.Done? && e.state.vectorstore.Some? ==> e.state.vectorstore.value == BuildDocuments(notes)
  {
  }

  /** A document of the notes that passed the one-tag filter is the document of
      a note carrying that tag. */
  lemma KeptDocumentHasTag(d: Document, notes: seq<Note>, tag: string)
    requires d in BuildDocuments(notes)
    requires forall i :: 0 <= i < |notes| ==> WellFormedTags(notes[i].tags)
    requires '|' !in tag
    requires Keep(d, "", [tag])
    ensures exists i :: 0 <= i < |notes| && SourceOf(d) == NoteSource(notes[i])
                     && tag in notes[i].tags && tag in SourceOf(d).tags
  {
    var docs := BuildDocuments(notes);
    var i :| 0 <= i < |docs| && docs[i] == d;
    assert d == BuildDocument(notes[i]);
    assert Contains(d.tags, "|" + [tag][0] + "|");
    TagTestExact(notes[i].tags, tag);
    SourceOfNote(notes[i]);
  }

  /** Retrieval with the one-tag filter over the notes' documents reports only
      notes carrying the tag. */
  lemma OneTagRetrieval(notes: seq<Note>, backend: Backend, tag: string, question: string)
    requires forall i :: 0 <= i < |notes| ==> WellFormedTags(notes[i].tags)
    requires '|' !in tag
    ensures var found := Retrieval(BuildDocuments(notes), question, "", [tag], RagTopK, backend).sources;
      forall src :: src in found ==>
        exists i :: 0 <= i < |notes| && src == NoteSource(notes[i]) && tag in notes[i].tags && tag in src.tags
  {
    var docs := BuildDocuments(notes);
    var c := Candidates(docs, question, "", [tag], RagTopK, backend);
    CandidatesFromDocs(docs, question, "", [tag], RagTopK, backend);
    if !backend.searchFails(question) && c != [] {
      assert Retrieval(docs, question, "", [tag], RagTopK, backend).sources == SourcesOf(c);
      KeptSourcesHaveTag(c, notes, tag);
    }
  }

  /** The sources of documents of the notes that passed the one-tag filter
      are sources of notes carrying the tag. */
  lemma KeptSourcesHaveTag(c: seq<Document>, notes: seq<Note>, tag: string)
    requires forall k :: 0 <= k < |c| ==> c[k] in BuildDocuments(notes) && Keep(c[k], "", [tag])
    requires forall i :: 0 <= i < |notes| ==> WellFormedTags(notes[i].tags)
    requires '|' !in tag
    ensures forall src :: src in SourcesOf(c) ==>
              exists i :: 0 <= i < |notes| && src == NoteSource(notes[i]) && tag in notes[i].tags && tag in src.tags
  {
    var found := SourcesOf(c);
    forall src | src in found
      ensures exists i :: 0 <= i < |notes| && src == NoteSource(notes[i]) && tag in notes[i].tags && tag in src.tags
    {
      var k :| 0 <= k < |found| && found[k] == src;
      KeptDocumentHasTag(c[k], notes, tag);
    }
  }

  /** Every source the tool reports is one of the notes, and that note carries
      the requested tag, when the index is in step with the notes (or not yet
      reconciled), no note tag is empty or holds `|`, and the tag holds no `|`. */
  lemma FoundCarryTag(st: IndexState, tagNames: seq<string>, notes: seq<Note>, backend: Backend,
                      tag: string, question: string)
    requires st.initialized ==> InSync(st, notes)
    requires forall i :: 0 <= i < |notes| ==> WellFormedTags(notes[i].tags)
    requires '|' !in tag
    ensures var s := InvokeSpec(st, tagNames, notes, backend, tag, question);
      s.result.Done? ==> forall src :: src in s.result.value.found ==>
        exists i :: 0 <= i < |notes| && src == NoteSource(notes[i]) && tag in notes[i].tags && tag in src.tags
  {
    var s := InvokeSpec(st, tagNames, notes, backend, tag, question);
    if tag in tagNames && s.result.Done? && s.result.value.found != [] {
      IndexedDocuments(st, notes, backend, question, [tag]);
      OneTagRetrieval(notes, backend, tag, question);
    }
  }

  /** The caller-owned list the tool appends found sources to. */
  class SourceCollector {
    var sources: seq<Source>

    constructor ()
      ensures sources == []
    {
      sources := [];
    }
  }

  /** The tool as handed to the chat model. */
  class SearchKnowledgeTool {
    const name: string
    const description: string
    const collector: SourceCollector

    constructor (collector: SourceCollector, tagNames: seq<string>)
      ensures this.collector == collector
      ensures name == ToolName && description == Description(tagNames)
    {
      this.collector := collector;
      name := ToolName;
      description := Description(tagNames);
    }

    /** `_search_knowledge_fn`: the new index state is that of the call, the
        collector gains exactly the found sources, and the model gets the text. */
    method Invoke(index: VectorIndex, tagNames: seq<string>, notes: seq<Note>, backend: Backend,
                  tag: string, question: string) returns (r: Outcome<string>)
      modifies collector, index
      ensures var s := InvokeSpec(old(index.State()), tagNames, notes, backend, tag, question);
        && index.State() == s.state
        && r == (if s.result.Raised? then Raised(s.result.error) else Done(s.result.value.text))
        && collector.sources == old(collector.sources) + (if s.result.Done? then s.result.value.found else [])
    {
      if tag !in tagNames {
        return Done(UnknownTagText(tag, tagNames));
      }
      var res := index.RetrieveNotes(notes, backend, question, "", [tag], RagTopK);
      if res.Raised? {
        return Raised(res.error);
      }
      if res.value.sources == [] {
        return Done(NoNotesText(tag));
      }
      collector.sources := collector.sources + res.value.sources;
      r := Done(res.value.context);
    }
  }
}
