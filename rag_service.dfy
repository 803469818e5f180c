/** The retriever behind the chat assistant: notes become documents whose tag
    list is encoded as `|a|b|`, a similarity search ranks them, optional filters
    on source type and tags keep an order-preserving part of the ranking, and the
    survivors are formatted as numbered context blocks plus a list of sources.
    The index itself is module state: absent or built, with a lazy
    "initialized" flag; it is rebuilt from all notes or grown by one note.

    The embedding model and the vector search are oracles (`Backend`): whether
    the embedding model loads, a similarity score per (question, document), and
    whether a search raises.  The search ranks by descending score, ties in index
    order, and returns the first `k`. */
module RagService {
  import opened Records
  import opened Text
  import opened Sorting
  import opened Lists

  /** A LangChain document with the metadata a note contributes. */
  datatype Document = Document(
    pageContent: string,
    noteId: string,
    title: string,
    sourceType: string,
    sourceName: string,
    sourceAuthor: string,
    tags: string,
    createdAt: string)

  datatype Backend = Backend(
    embeddingsLoad: bool,
    embeddingsError: string,
    score: (string, Document) -> int,
    searchFails: string -> bool)

  datatype RetrieveResult = RetrieveResult(context: string, sources: seq<Source>)

  const NoResult := RetrieveResult("", [])

  const BlockSeparator := "\n---\n"

  // ---------------------------------------------------------------------------
  // Tag encoding
  // ---------------------------------------------------------------------------

  /** `'|' + '|'.join(tags) + '|'` for a non-empty list, `''` otherwise. */
  function EncodeTags(tags: seq<string>): (r: string)
    ensures tags == [] <==> r == []
    ensures r != [] ==> r[0] == '|' && r[|r| - 1] == '|'
  {
    if tags == [] then [] else "|" + Join("|", tags) + "|"
  }

  /** `[t for t in parts if t]`. */
  function NonEmpty(parts: seq<string>): (r: seq<string>)
    ensures forall i :: 0 <= i < |r| ==> r[i] != [] && r[i] in parts
    ensures |r| <= |parts|
  {
    if parts == [] then [] else (if parts[0] == [] then [] else [parts[0]]) + NonEmpty(parts[1..])
  }

  /** The tag list of a source: the non-empty fields of the encoding split at `|`. */
  function DecodeTags(raw: string): (r: seq<string>)
    ensures forall i :: 0 <= i < |r| ==> r[i] != [] && '|' !in r[i]
  {
    NonEmpty(Split(raw, '|'))
  }

  /** A tag the encoding can carry: not empty and free of the separator. */
  predicate WellFormedTag(t: string) { t != [] && '|' !in t }

  predicate WellFormedTags(tags: seq<string>) { forall i :: 0 <= i < |tags| ==> WellFormedTag(tags[i]) }

  lemma {:induction false} NonEmptyConcat(a: seq<string>, b: seq<string>)
    ensures NonEmpty(a + b) == NonEmpty(a) + NonEmpty(b)
  {
    if a == [] {
      assert a + b == b;
    } else {
      assert (a + b)[0] == a[0];
      assert (a + b)[1..] == a[1..] + b;
      NonEmptyConcat(a[1..], b);
    }
  }

  lemma {:induction false} NonEmptyKeeps(parts: seq<string>)
    requires forall i :: 0 <= i < |parts| ==> parts[i] != []
    ensures NonEmpty(parts) == parts
  {
    if parts != [] {
      NonEmptyKeeps(parts[1..]);
      assert [parts[0]] + parts[1..] == parts;
    }
  }

  /** Decoding inverts encoding for tags that are non-empty and free of `|`. */
  lemma TagsRoundTrip(tags: seq<string>)
    requires WellFormedTags(tags)
    ensures DecodeTags(EncodeTags(tags)) == tags
  {
    if tags != [] {
      var joined := Join("|", tags);
      forall i | 0 <= i < |tags| ensures '|' !in tags[i] { assert WellFormedTag(tags[i]); }
      SplitJoin(tags, '|');
      Bracketed('|', joined);
      SplitAtSeparator([], '|', joined + ['|'] + []);
      SplitAtSeparator(joined, '|', []);
      assert Split(EncodeTags(tags), '|') == [[]] + (tags + [[]]);
      NonEmptyConcat([[]], tags + [[]]);
      NonEmptyConcat(tags, [[]]);
      NonEmptyKeeps(tags);
      EmptyEnds(tags);
    }
  }

  lemma Bracketed<T>(x: T, j: seq<T>)
    ensures [x] + j + [x] == [] + [x] + (j + [x] + [])
  {
  }

  lemma EmptyEnds<T>(s: seq<T>)
    ensures [] + (s + []) == s
  {
  }

  /** The encoding written as one bar before each tag and one after the last. */
  function Bars(tags: seq<string>): (r: string)
    ensures r != [] && r[0] == '|'
  {
    if tags == [] then "|" else "|" + tags[0] + Bars(tags[1..])
  }

  lemma {:induction false} EncodeIsBars(tags: seq<string>)
    requires tags != []
    ensures EncodeTags(tags) == Bars(tags)
  {
    if |tags| > 1 {
      var rest := tags[1..];
      EncodeIsBars(rest);
      var j := Join("|", rest);
      assert Join("|", tags) == tags[0] + "|" + j;
      calc {
        EncodeTags(tags);
        "|" + (tags[0] + "|" + j) + "|";
        { SeqAssoc("|", tags[0], j); }
        "|" + tags[0] + ("|" + j + "|");
        "|" + tags[0] + EncodeTags(rest);
      }
    }
  }

  lemma SeqAssoc(a: string, b: string, j: string)
    ensures a + (b + a + j) + a == a + b + (a + j + a)
  {
  }

  /** An occurrence of `|t|` at the start of `|t1` followed by a bar-led rest
      is the first tag itself. */
  lemma BarsHead(t1: string, r: string, t: string)
    requires '|' !in t1 && '|' !in t
    requires r != [] && r[0] == '|'
    requires OccursAt("|" + t + "|", "|" + t1 + r, 0)
    ensures t == t1
  {
    var s := "|" + t1 + r;
    var sub := "|" + t + "|";
    assert forall k :: 1 <= k <= |t1| ==> s[k] == t1[k - 1];
    assert s[1 + |t1|] == '|';
    assert forall k :: 0 <= k < |sub| ==> s[k] == sub[k];
    assert forall k :: 1 <= k <= |t| ==> s[k] == t[k - 1];
    assert s[1 + |t|] == '|';
    assert |t| == |t1|;
    assert t == s[1..1 + |t1|] == t1;
  }

  /** An occurrence of a bar-led pattern past the start of `|t1` followed by
      `r` lies inside `r`. */
  lemma BarsTail(t1: string, r: string, sub: string, p: int)
    requires '|' !in t1
    requires sub != [] && sub[0] == '|'
    requires p > 0 && OccursAt(sub, "|" + t1 + r, p)
    ensures OccursAt(sub, r, p - 1 - |t1|)
  {
    var s := "|" + t1 + r;
    assert forall k :: 1 <= k <= |t1| ==> s[k] == t1[k - 1];
    assert s[p] == sub[0];
    assert p > |t1|;
    var q := p - 1 - |t1|;
    assert s[1 + |t1|..] == r;
    assert r[q..q + |sub|] == s[p..p + |sub|];
  }

  lemma {:induction false} BarsContains(tags: seq<string>, t: string)
    requires WellFormedTags(tags)
    requires '|' !in t
    ensures Contains(Bars(tags), "|" + t + "|") <==> t in tags
  {
    var sub := "|" + t + "|";
    if tags != [] {
      var t1 := tags[0];
      var rest := tags[1..];
      var r := Bars(rest);
      var s := Bars(tags);
      assert s == "|" + t1 + r;
      assert WellFormedTag(t1);
      assert WellFormedTags(rest) by {
        forall i | 0 <= i < |rest| ensures WellFormedTag(rest[i]) { assert rest[i] == tags[i + 1]; }
      }
      BarsContains(rest, t);
      if Contains(s, sub) {
        var p :| 0 <= p <= |s| - |sub| && OccursAt(sub, s, p);
        if p == 0 {
          BarsHead(t1, r, t);
        } else {
          BarsTail(t1, r, sub, p);
          ContainsAt(r, sub, p - 1 - |t1|);
        }
      }
      if t in tags {
        if t == t1 {
          assert s[0..|sub|] == sub;
          ContainsAt(s, sub, 0);
        } else {
          assert t in rest;
          assert s == ("|" + t1) + r + "";
          ContainsInConcat("|" + t1, r, "", sub);
        }
      }
    }
  }

  /** For a tag free of `|`, the filter test `'|t|' in encoded` holds exactly
      when `t` is one of the note's tags. */
  lemma TagTestExact(noteTags: seq<string>, t: string)
    requires WellFormedTags(noteTags)
    requires '|' !in t
    ensures Contains(EncodeTags(noteTags), "|" + t + "|") <==> t in noteTags
  {
    if noteTags == [] {
      assert !Contains(EncodeTags(noteTags), "|" + t + "|");
    } else {
      EncodeIsBars(noteTags);
      BarsContains(noteTags, t);
    }
  }

  /** A tag containing `|` breaks both properties: the tag "a|b" matches a
      note tagged "a" and "b", and a note tagged "a|b" decodes to two tags. */
  lemma SeparatorInTag()
    ensures Contains(EncodeTags(["a", "b"]), "|a|b|") && "a|b" !in ["a", "b"]
    ensures DecodeTags(EncodeTags(["a|b"])) != ["a|b"]
  {
    assert EncodeTags(["a", "b"]) == "|a|b|";
    assert OccursAt("|a|b|", "|a|b|", 0);
    assert EncodeTags(["a|b"]) == "|a|b|";
    assert "a|b" in DecodeTags("|a|b|") ==> '|' !in "a|b";
    assert '|' in "a|b";
  }

  // ---------------------------------------------------------------------------
  // Documents
  // ---------------------------------------------------------------------------

  function BuildDocument(n: Note): (d: Document)
  {
    Document(n.title + "\n\n" + n.content, n.id, n.title, n.sourceType, n.sourceName,
             n.sourceAuthor, EncodeTags(n.tags), n.createdAt)
  }

  function SourceOf(d: Document): Source
  {
    Source(d.noteId, d.title, d.sourceType, d.sourceName, d.sourceAuthor, DecodeTags(d.tags))
  }

  /** The source reported for a note: that of its document. */
  function NoteSource(n: Note): Source
  {
    SourceOf(BuildDocument(n))
  }

  /** The source reported for a note's document gives back the note's own
      fields, tags included when they are well formed. */
  lemma SourceOfNote(n: Note)
    requires WellFormedTags(n.tags)
    ensures NoteSource(n) == Source(n.id, n.title, n.sourceType, n.sourceName, n.sourceAuthor, n.tags)
  {
    TagsRoundTrip(n.tags);
  }

  /** Every note with well-formed tags reads back as its own source. */
  lemma NoteSources(notes: seq<Note>)
    ensures forall i :: 0 <= i < |notes| && WellFormedTags(notes[i].tags) ==>
              NoteSource(notes[i]) == Source(notes[i].id, notes[i].title, notes[i].sourceType,
                                             notes[i].sourceName, notes[i].sourceAuthor, notes[i].tags)
  {
    forall i | 0 <= i < |notes| && WellFormedTags(notes[i].tags)
      ensures NoteSource(notes[i]) == Source(notes[i].id, notes[i].title, notes[i].sourceType,
                                             notes[i].sourceName, notes[i].sourceAuthor, notes[i].tags)
    {
      SourceOfNote(notes[i]);
    }
  }

  /** The documents indexed for the notes: one per note, in note order, each
      reporting back its note's id, title, source fields and (well-formed)
      tags. */
  function BuildDocuments(notes: seq<Note>): (docs: seq<Document>)
    ensures |docs| == |notes|
    ensures forall i :: 0 <= i < |notes| ==> docs[i] == BuildDocument(notes[i])
    ensures forall i :: 0 <= i < |notes| && WellFormedTags(notes[i].tags) ==>
              SourceOf(docs[i]) == Source(notes[i].id, notes[i].title, notes[i].sourceType,
                                          notes[i].sourceName, notes[i].sourceAuthor, notes[i].tags)
  {
    NoteSources(notes);
    seq(|notes|, i requires 0 <= i < |notes| => BuildDocument(notes[i]))
  }

  // ---------------------------------------------------------------------------
  // Ranking and filtering
  // ---------------------------------------------------------------------------

  /** The vector search oracle: documents by descending score for the question,
      ties in index order, the first `k` of them. */
  function Search(docs: seq<Document>, question: string, k: nat, score: (string, Document) -> int): (r: seq<Document>)
  {
    Take(SortBy(docs, d => score(question, d), Greater), k)
  }

  /** What the search oracle returns: at most `k` documents, all from the index,
      best score first. */
  lemma SearchRanks(docs: seq<Document>, question: string, k: nat, score: (string, Document) -> int)
    ensures var r := Search(docs, question, k, score);
      && |r| == (if k < |docs| then k else |docs|)
      && (forall i :: 0 <= i < |r| ==> r[i] in docs)
      && (forall i, j :: 0 <= i < j < |r| ==> score(question, r[i]) >= score(question, r[j]))
  {
    var key := d => score(question, d);
    var sorted := SortBy(docs, key, Greater);
    var r := Search(docs, question, k, score);
    SortByMultiset(docs, key, Greater);
    GreaterIsStrictTotalOrder();
    SortBySorted(docs, key, Greater);
    PrefixSorted(sorted, |r|, key, Greater);
    forall i | 0 <= i < |r| ensures r[i] in docs {
      assert r[i] == sorted[i];
      assert sorted[i] in multiset(sorted);
    }
  }

  predicate TagMatch(docTags: string, tags: seq<string>)
  {
    exists i :: 0 <= i < |tags| && Contains(docTags, "|" + tags[i] + "|")
  }

  /** The filter of one ranked document: the source type when one is given, and
      at least one requested tag when tags are given. */
  predicate Keep(d: Document, sourceType: string, tags: seq<string>)
  {
    (sourceType == [] || d.sourceType == sourceType) && (tags == [] || TagMatch(d.tags, tags))
  }

  /** The documents that pass the filter, in their order. */
  function FilterDocs(s: seq<Document>, sourceType: string, tags: seq<string>): (r: seq<Document>)
    ensures |r| <= |s|
  {
    if s == [] then []
    else FilterDocs(s[..|s| - 1], sourceType, tags) + (if Keep(s[|s| - 1], sourceType, tags) then [s[|s| - 1]] else [])
  }

  /** The filter's test, as a function of the document. */
  function Passes(sourceType: string, tags: seq<string>): Document -> bool
  {
    d => Keep(d, sourceType, tags)
  }

  function Same(d: Document): Document { d }

  /** The filter is the comprehension of the documents that pass. */
  lemma {:induction false} FilterImage(s: seq<Document>, sourceType: string, tags: seq<string>) returns (idx: seq<nat>)
    ensures ImageAt(s, FilterDocs(s, sourceType, tags), idx, Passes(sourceType, tags), Same)
  {
    if s == [] {
      idx := [];
    } else {
      var init := s[..|s| - 1];
      var prev := FilterImage(init, sourceType, tags);
      var keep := Passes(sourceType, tags);
      assert FilterDocs(s, sourceType, tags) == FilterDocs(init, sourceType, tags) + (if keep(s[|s| - 1]) then [Same(s[|s| - 1])] else []);
      ImageAtExtend(s, FilterDocs(s, sourceType, tags), FilterDocs(init, sourceType, tags), prev, keep, Same);
      idx := Extended(s, prev, keep);
    }
  }

  /** The filter's output is an order-preserving subsequence of its input: the
      elements at increasing positions `idx`, which are exactly the positions of
      the elements that pass. */
  lemma FilterDocsPositions(s: seq<Document>, sourceType: string, tags: seq<string>) returns (idx: seq<nat>)
    ensures var r := FilterDocs(s, sourceType, tags);
      && |idx| == |r| && Increasing(idx)
      && (forall k :: 0 <= k < |idx| ==> idx[k] < |s| && r[k] == s[idx[k]] && Keep(s[idx[k]], sourceType, tags))
      && (forall j :: 0 <= j < |s| && Keep(s[j], sourceType, tags) ==> j in idx)
  {
    idx := FilterImage(s, sourceType, tags);
    var keep := Passes(sourceType, tags);
    assert forall j :: 0 <= j < |s| ==> keep(s[j]) == Keep(s[j], sourceType, tags);
  }

  /** What retrieval keeps of the ranking, before formatting.  With a filter the
      search is asked for `top_k * 3` candidates. */
  function Candidates(docs: seq<Document>, question: string, sourceType: string, tags: seq<string>,
                      topK: nat, backend: Backend): (c: seq<Document>)
  {
    var hasFilter := sourceType != [] || tags != [];
    var fetchK := if hasFilter then topK * 3 else topK;
    var results := Search(docs, question, fetchK, backend.score);
    if hasFilter then Take(FilterDocs(results, sourceType, tags), topK) else Take(results, topK)
  }

  /** One numbered context block. */
  function Block(n: nat, d: Document): string
  {
    "[Nota " + NatToString(n) + "] Titulo: " + d.title + "\n"
    + "Fonte: " + d.sourceName + " (" + d.sourceType + ")\n"
    + "Autor: " + d.sourceAuthor + "\n"
    + "Tags: " + StripChars(ReplaceChar(d.tags, '|', ", "), {',', ' '}) + "\n"
    + "Conteudo:\n" + d.pageContent + "\n"
  }

  function Blocks(c: seq<Document>): (r: seq<string>)
    ensures |r| == |c|
    ensures forall i :: 0 <= i < |c| ==> r[i] == Block(i + 1, c[i])
  {
    seq(|c|, i requires 0 <= i < |c| => Block(i + 1, c[i]))
  }

  function SourcesOf(c: seq<Document>): (r: seq<Source>)
    ensures |r| == |c|
    ensures forall i :: 0 <= i < |c| ==> r[i] == SourceOf(c[i])
  {
    seq(|c|, i requires 0 <= i < |c| => SourceOf(c[i]))
  }

  /** Retrieval over a built index holding `docs`. */
  function Retrieval(docs: seq<Document>, question: string, sourceType: string, tags: seq<string>,
                     topK: nat, backend: Backend): RetrieveResult
  {
    if backend.searchFails(question) then NoResult
    else
      var c := Candidates(docs, question, sourceType, tags, topK, backend);
      if c == [] then NoResult else RetrieveResult(Join(BlockSeparator, Blocks(c)), SourcesOf(c))
  }

  /** The filtering loop of `retrieve`. */
  method FilterRanked(results: seq<Document>, sourceType: string, tags: seq<string>) returns (filtered: seq<Document>)
    ensures filtered == FilterDocs(results, sourceType, tags)
  {
    filtered := [];
    var i := 0;
    while i < |results|
      invariant 0 <= i <= |results|
      invariant filtered == FilterDocs(results[..i], sourceType, tags)
    {
      var d := results[i];
      assert results[..i + 1][..i] == results[..i];
      if sourceType != [] && d.sourceType != sourceType {
      } else if tags != [] && !TagMatch(d.tags, tags) {
      } else {
        filtered := filtered + [d];
      }
      i := i + 1;
    }
    assert results[..|results|] == results;
  }

  /** The formatting loop of `retrieve`: one numbered block and one source per
      document, in order. */
  method FormatKept(kept: seq<Document>) returns (parts: seq<string>, sources: seq<Source>)
    ensures parts == Blocks(kept) && sources == SourcesOf(kept)
  {
    parts := [];
    sources := [];
    ghost var blocks := Blocks(kept);
    ghost var found := SourcesOf(kept);
    var j := 0;
    while j < |kept|
      invariant 0 <= j <= |kept|
      invariant parts == blocks[..j] && sources == found[..j]
    {
      var b := Block(j + 1, kept[j]);
      var src := SourceOf(kept[j]);
      PrefixStep(blocks, j);
      PrefixStep(found, j);
      parts := parts + [b];
      sources := sources + [src];
      j := j + 1;
    }
    assert blocks[..|kept|] == blocks && found[..|kept|] == found;
  }

  /** The ranking, filtering and formatting part of `retrieve`. */
  method RankAndFormat(docs: seq<Document>, question: string, sourceType: string, tags: seq<string>,
                       topK: nat, backend: Backend) returns (r: RetrieveResult)
    ensures r == Retrieval(docs, question, sourceType, tags, topK, backend)
  {
    var hasFilter := sourceType != [] || tags != [];
    var fetchK := if hasFilter then topK * 3 else topK;
    if backend.searchFails(question) {
      return NoResult;
    }
    var results := Search(docs, question, fetchK, backend.score);
    var kept: seq<Document>;
    if hasFilter {
      var filtered := FilterRanked(results, sourceType, tags);
      kept := Take(filtered, topK);
    } else {
      kept := Take(results, topK);
    }
    assert kept == Candidates(docs, question, sourceType, tags, topK, backend);
    if kept == [] {
      return NoResult;
    }
    var parts, sources := FormatKept(kept);
    r := RetrieveResult(Join(BlockSeparator, parts), sources);
  }

  /** Retrieval returns at most `top_k` sources, one context block each. */
  lemma RetrievalBound(docs: seq<Document>, question: string, sourceType: string, tags: seq<string>,
                       topK: nat, backend: Backend)
    ensures var r := Retrieval(docs, question, sourceType, tags, topK, backend);
      |r.sources| <= topK && (r.sources == [] <==> r.context == [])
  {
    var c := Candidates(docs, question, sourceType, tags, topK, backend);
    if !backend.searchFails(question) && c != [] {
      var blocks := Blocks(c);
      assert blocks[0] == Block(1, c[0]);
      BlockNonEmpty(1, c[0]);
      JoinNonEmpty(BlockSeparator, blocks);
    }
  }

  lemma BlockNonEmpty(n: nat, d: Document)
    ensures Block(n, d) != []
  {
    assert |Block(n, d)| >= |"[Nota "|;
  }

  lemma {:induction false} JoinNonEmpty(sep: string, parts: seq<string>)
    requires parts != [] && parts[0] != []
    ensures Join(sep, parts) != []
  {
    if |parts| > 1 {
      assert Join(sep, parts) == parts[0] + sep + Join(sep, parts[1..]);
    }
  }

  /** The result is empty exactly when the search raises or nothing survives. */
  lemma RetrievalEmpty(docs: seq<Document>, question: string, sourceType: string, tags: seq<string>,
                       topK: nat, backend: Backend)
    ensures Retrieval(docs, question, sourceType, tags, topK, backend).sources == []
        <==> backend.searchFails(question) || Candidates(docs, question, sourceType, tags, topK, backend) == []
  {
  }

  /** The candidates are the documents at increasing positions of the search
      result, each one indexed and passing the filters. */
  lemma CandidatesPositions(docs: seq<Document>, question: string, sourceType: string, tags: seq<string>,
                            topK: nat, backend: Backend) returns (idx: seq<nat>)
    ensures var c := Candidates(docs, question, sourceType, tags, topK, backend);
      var hasFilter := sourceType != [] || tags != [];
      var ranking := Search(docs, question, if hasFilter then topK * 3 else topK, backend.score);
      && |idx| == |c| && Increasing(idx)
      && (forall k :: 0 <= k < |idx| ==>
            idx[k] < |ranking| && c[k] == ranking[idx[k]]
            && ranking[idx[k]] in docs && Keep(ranking[idx[k]], sourceType, tags))
  {
    var hasFilter := sourceType != [] || tags != [];
    var fetchK := if hasFilter then topK * 3 else topK;
    var ranking := Search(docs, question, fetchK, backend.score);
    SearchRanks(docs, question, fetchK, backend.score);
    var c := Candidates(docs, question, sourceType, tags, topK, backend);
    if hasFilter {
      var all := FilterDocsPositions(ranking, sourceType, tags);
      var f := FilterDocs(ranking, sourceType, tags);
      assert c == Take(f, topK);
      idx := all[..|c|];
      forall k | 0 <= k < |idx|
        ensures idx[k] < |ranking| && c[k] == ranking[idx[k]]
             && ranking[idx[k]] in docs && Keep(ranking[idx[k]], sourceType, tags)
      {
        assert c[k] == f[k];
      }
    } else {
      assert c == Take(ranking, topK);
      idx := seq(|c|, k requires 0 <= k < |c| => k as nat);
      forall k | 0 <= k < |idx|
        ensures idx[k] < |ranking| && c[k] == ranking[idx[k]]
             && ranking[idx[k]] in docs && Keep(ranking[idx[k]], sourceType, tags)
      {
        assert c[k] == ranking[k];
      }
    }
  }

  /** Every source comes from an indexed document that passed the filters, and
      the sources keep the ranking's order: they are the documents at increasing
      positions of the search result. */
  lemma RetrievalSources(docs: seq<Document>, question: string, sourceType: string, tags: seq<string>,
                         topK: nat, backend: Backend)
    ensures var r := Retrieval(docs, question, sourceType, tags, topK, backend);
      var hasFilter := sourceType != [] || tags != [];
      var ranking := Search(docs, question, if hasFilter then topK * 3 else topK, backend.score);
      exists idx: seq<nat> ::
        && |idx| == |r.sources| && Increasing(idx)
        && (forall k :: 0 <= k < |idx| ==>
              idx[k] < |ranking| && r.sources[k] == SourceOf(ranking[idx[k]])
              && ranking[idx[k]] in docs && Keep(ranking[idx[k]], sourceType, tags))
  {
    var r := Retrieval(docs, question, sourceType, tags, topK, backend);
    var c := Candidates(docs, question, sourceType, tags, topK, backend);
    var idx := CandidatesPositions(docs, question, sourceType, tags, topK, backend);
    if backend.searchFails(question) || c == [] {
      assert r.sources == [];
      var none: seq<nat> := [];
      assert |none| == |r.sources| && Increasing(none);
    } else {
      assert r.sources == SourcesOf(c);
    }
  }

  /** Kept documents of well-formed notes carry at least one requested tag, and
      a note carrying a requested tag passes the tag test (tags free of `|`). */
  lemma TagFilterExact(noteTags: seq<string>, tags: seq<string>)
    requires WellFormedTags(noteTags)
    requires forall i :: 0 <= i < |tags| ==> '|' !in tags[i]
    ensures TagMatch(EncodeTags(noteTags), tags) <==> exists i :: 0 <= i < |tags| && tags[i] in noteTags
  {
    forall i | 0 <= i < |tags|
      ensures Contains(EncodeTags(noteTags), "|" + tags[i] + "|") <==> tags[i] in noteTags
    {
      TagTestExact(noteTags, tags[i]);
    }
  }

  /** The opening lines of a numbered context block: its number, then the
      title, source name, source type and author of the source it reports. */
  function Header(n: nat, src: Source): string
  {
    "[Nota " + NatToString(n) + "] Titulo: " + src.title + "\n"
    + "Fonte: " + src.sourceName + " (" + src.sourceType + ")\n"
    + "Autor: " + src.sourceAuthor + "\n"
  }

  /** A document's block opens with the header of the source reported for it. */
  lemma BlockOpens(n: nat, d: Document)
    ensures StartsWith(Block(n, d), Header(n, SourceOf(d)))
  {
    var h := Header(n, SourceOf(d));
    var rest := "Tags: " + StripChars(ReplaceChar(d.tags, '|', ", "), {',', ' '}) + "\n"
      + "Conteudo:\n" + d.pageContent + "\n";
    assert Block(n, d) == h + rest;
    assert (h + rest)[..|h|] == h;
  }

  /** Formatting `c`: block `k` opens with the header numbered `k + 1` naming
      the source of `c[k]`, and the joined context contains that header. */
  lemma FormattedHeaders(c: seq<Document>)
    ensures var blocks := Blocks(c);
      var context := Join(BlockSeparator, blocks);
      forall k :: 0 <= k < |c| ==>
        StartsWith(blocks[k], Header(k + 1, SourceOf(c[k]))) && Contains(context, Header(k + 1, SourceOf(c[k])))
  {
    var blocks := Blocks(c);
    forall k | 0 <= k < |c|
      ensures StartsWith(blocks[k], Header(k + 1, SourceOf(c[k])))
      ensures Contains(Join(BlockSeparator, blocks), Header(k + 1, SourceOf(c[k])))
    {
      BlockOpens(k + 1, c[k]);
      JoinContains(BlockSeparator, blocks, k);
      ContainsStart(Join(BlockSeparator, blocks), blocks[k], Header(k + 1, SourceOf(c[k])));
    }
  }

  /** The context is one block per source, joined by the separator: block `k`
      opens with the header numbered `k + 1` naming source `k`, so the numbers
      run from 1 in source order and each header occurs in the context. */
  lemma RetrievalContext(docs: seq<Document>, question: string, sourceType: string, tags: seq<string>,
                         topK: nat, backend: Backend) returns (blocks: seq<string>)
    ensures var r := Retrieval(docs, question, sourceType, tags, topK, backend);
      && |blocks| == |r.sources|
      && r.context == Join(BlockSeparator, blocks)
      && (forall k :: 0 <= k < |blocks| ==> StartsWith(blocks[k], Header(k + 1, r.sources[k])))
      && (forall k :: 0 <= k < |r.sources| ==> Contains(r.context, Header(k + 1, r.sources[k])))
  {
    var c := Candidates(docs, question, sourceType, tags, topK, backend);
    if backend.searchFails(question) || c == [] {
      blocks := [];
    } else {
      blocks := Blocks(c);
      FormattedHeaders(c);
      assert Retrieval(docs, question, sourceType, tags, topK, backend).sources == SourcesOf(c);
    }
  }

  /** A context that reports sources opens with the first block's `[`. */
  lemma RetrievalContextOpens(docs: seq<Document>, question: string, sourceType: string, tags: seq<string>,
                              topK: nat, backend: Backend)
    ensures var r := Retrieval(docs, question, sourceType, tags, topK, backend);
      r.sources != [] ==> r.context != [] && r.context[0] == '['
  {
    var r := Retrieval(docs, question, sourceType, tags, topK, backend);
    var blocks := RetrievalContext(docs, question, sourceType, tags, topK, backend);
    if r.sources != [] {
      var h := Header(1, r.sources[0]);
      assert h[0] == '[';
      assert blocks[0][0] == h[0];
      if |blocks| > 1 {
        assert r.context == blocks[0] + BlockSeparator + Join(BlockSeparator, blocks[1..]);
      }
    }
  }

  // ---------------------------------------------------------------------------
  // Index lifecycle
  // ---------------------------------------------------------------------------

  /** The module state: the vector store, absent or holding its documents, and
      whether the index was reconciled with the notes. */
  datatype IndexState = IndexState(vectorstore: Option<seq<Document>>, initialized: bool)

  datatype Step<T> = Step(state: IndexState, result: T)

  function EmbeddingsErrorText(e: string): string
  {
    "não foi possivel carregar o modelo \"all-MiniLM-L6-v2\". "
    + "Verifique se sentence-transformers esta instalado. Erro: " + e
  }

  /** The index agrees with the notes: absent when there are none, otherwise one
      document per note in note order. */
  predicate InSync(st: IndexState, notes: seq<Note>)
  {
    st.vectorstore == if notes == [] then None else Some(BuildDocuments(notes))
  }

  /** `_rebuild_index`: the error is the exception it raises. */
  function Rebuild(st: IndexState, notes: seq<Note>, backend: Backend): Step<Option<string>>
  {
    if notes == [] then Step(st.(vectorstore := None), None)
    else if !backend.embeddingsLoad then Step(st, Some(EmbeddingsErrorText(backend.embeddingsError)))
    else Step(st.(vectorstore := Some(BuildDocuments(notes))), None)
  }

  /** `ensure_index`: rebuilds, marks the index initialized and reports the note count. */
  function EnsureIndex(st: IndexState, notes: seq<Note>, backend: Backend): Step<Outcome<nat>>
  {
    var b := Rebuild(st, notes, backend);
    if b.result.Some? then Step(b.state, Raised(b.result.value))
    else Step(b.state.(initialized := true), Done(|notes|))
  }

  /** `add_note`: creates the index from the one note when absent, otherwise
      adds one document; a failure is swallowed. */
  function AddNote(st: IndexState, n: Note, backend: Backend): IndexState
  {
    if !backend.embeddingsLoad then st
    else match st.vectorstore
      case None => st.(vectorstore := Some([BuildDocument(n)]))
      case Some(docs) => st.(vectorstore := Some(docs + [BuildDocument(n)]))
  }

  /** `update_note` and `delete_note`: a full rebuild whose failure is swallowed. */
  function Reindex(st: IndexState, notes: seq<Note>, backend: Backend): IndexState
  {
    Rebuild(st, notes, backend).state
  }

  /** `_get_vectorstore` on an absent store loads the embedding model first. */
  function Retrieve(st: IndexState, notes: seq<Note>, backend: Backend, question: string,
                    sourceType: string, tags: seq<string>, topK: nat): Step<Outcome<RetrieveResult>>
  {
    var e := if st.initialized then Step(st, Done(0)) else EnsureIndex(st, notes, backend);
    if e.result.Raised? then Step(e.state, Raised(e.result.error))
    else match e.state.vectorstore
      case None =>
        if backend.embeddingsLoad then Step(e.state, Done(NoResult))
        else Step(e.state, Raised(EmbeddingsErrorText(backend.embeddingsError)))
      case Some(docs) => Step(e.state, Done(Retrieval(docs, question, sourceType, tags, topK, backend)))
  }

  /** A successful reconciliation leaves the index in step with the notes,
      initialized, and reports their number; a failed one changes nothing. */
  lemma EnsureIndexSyncs(st: IndexState, notes: seq<Note>, backend: Backend)
    ensures var e := EnsureIndex(st, notes, backend);
      && (e.result.Done? ==> InSync(e.state, notes) && e.state.initialized && e.result.value == |notes|)
      && (e.result.Raised? ==> e.state == st && notes != [] && !backend.embeddingsLoad)
  {
  }

  /** Adding the new note to an index in step with the notes keeps it in step
      with the notes plus that note. */
  lemma AddNoteKeepsSync(st: IndexState, notes: seq<Note>, n: Note, backend: Backend)
    requires InSync(st, notes) && backend.embeddingsLoad
    ensures InSync(AddNote(st, n, backend), notes + [n])
    ensures AddNote(st, n, backend).initialized == st.initialized
  {
    if notes == [] {
      assert notes + [n] == [n];
      assert BuildDocuments([n]) == [BuildDocument(n)];
    } else {
      assert BuildDocuments(notes + [n]) == BuildDocuments(notes) + [BuildDocument(n)];
    }
  }

  /** Rebuilding after a note is removed leaves no document with its id when
      the embedding model loads; when it does not, the failure is swallowed and
      the old store, stale documents included, stays as it was. */
  lemma ReindexForgets(st: IndexState, notes: seq<Note>, backend: Backend, id: string)
    requires forall i :: 0 <= i < |notes| ==> notes[i].id != id
    ensures var s := Reindex(st, notes, backend);
      && (notes == [] ==> s.vectorstore.None?)
      && (backend.embeddingsLoad && s.vectorstore.Some? ==>
            forall j :: 0 <= j < |s.vectorstore.value| ==> s.vectorstore.value[j].noteId != id)
      && (notes != [] && !backend.embeddingsLoad ==> s == st)
  {
  }

  /** Once initialized, retrieval never rebuilds: the state stays as it is. */
  lemma RetrieveAfterInit(st: IndexState, notes: seq<Note>, backend: Backend, question: string,
                          sourceType: string, tags: seq<string>, topK: nat)
    requires st.initialized
    ensures Retrieve(st, notes, backend, question, sourceType, tags, topK).state == st
  {
  }

  /** Every candidate is one of the indexed documents, and passes the filter. */
  lemma CandidatesFromDocs(docs: seq<Document>, question: string, sourceType: string, tags: seq<string>,
                           topK: nat, backend: Backend)
    ensures var c := Candidates(docs, question, sourceType, tags, topK, backend);
      forall k :: 0 <= k < |c| ==> c[k] in docs && Keep(c[k], sourceType, tags)
  {
    var hasFilter := sourceType != [] || tags != [];
    var fetchK := if hasFilter then topK * 3 else topK;
    var ranking := Search(docs, question, fetchK, backend.score);
    SearchRanks(docs, question, fetchK, backend.score);
    var c := Candidates(docs, question, sourceType, tags, topK, backend);
    if hasFilter {
      var idx := FilterDocsPositions(ranking, sourceType, tags);
      forall k | 0 <= k < |c| ensures c[k] in docs && Keep(c[k], sourceType, tags) {
        assert c[k] == FilterDocs(ranking, sourceType, tags)[k];
      }
    } else {
      forall k | 0 <= k < |c| ensures c[k] in docs && Keep(c[k], sourceType, tags) {
        assert c[k] == ranking[k];
      }
    }
  }

  /** Every source retrieval reports is the source of one of the indexed documents. */
  lemma RetrievalFromIndex(docs: seq<Document>, question: string, sourceType: string, tags: seq<string>,
                           topK: nat, backend: Backend)
    ensures var r := Retrieval(docs, question, sourceType, tags, topK, backend);
      forall src :: src in r.sources ==> exists i :: 0 <= i < |docs| && src == SourceOf(docs[i])
  {
    var c := Candidates(docs, question, sourceType, tags, topK, backend);
    CandidatesFromDocs(docs, question, sourceType, tags, topK, backend);
    if !backend.searchFails(question) && c != [] {
      assert Retrieval(docs, question, sourceType, tags, topK, backend).sources == SourcesOf(c);
      SourcesOfSubset(c, docs);
    }
  }

  /** The sources of documents drawn from `docs` are sources of `docs`. */
  lemma SourcesOfSubset(c: seq<Document>, docs: seq<Document>)
    requires forall k :: 0 <= k < |c| ==> c[k] in docs
    ensures forall src :: src in SourcesOf(c) ==> exists i :: 0 <= i < |docs| && src == SourceOf(docs[i])
  {
    var sources := SourcesOf(c);
    forall src | src in sources ensures exists i :: 0 <= i < |docs| && src == SourceOf(docs[i]) {
      var k :| 0 <= k < |sources| && sources[k] == src;
      var i :| 0 <= i < |docs| && docs[i] == c[k];
      assert src == SourceOf(docs[i]);
    }
  }

  /** The first retrieval reconciles the index with the notes; if that raises,
      the retrieval raises.  Every source it reports is that of one of the notes. */
  lemma FirstRetrieve(st: IndexState, notes: seq<Note>, backend: Backend, question: string,
                      sourceType: string, tags: seq<string>, topK: nat)
    requires !st.initialized
    ensures var r := Retrieve(st, notes, backend, question, sourceType, tags, topK);
      && (r.result.Done? ==> r.state.initialized && InSync(r.state, notes))
      && (r.result.Raised? ==> !backend.embeddingsLoad)
      && (r.result.Done? ==> forall src :: src in r.result.value.sources ==>
            exists i :: 0 <= i < |notes| && src == NoteSource(notes[i]))
  {
    var r := Retrieve(st, notes, backend, question, sourceType, tags, topK);
    var e := EnsureIndex(st, notes, backend);
    EnsureIndexSyncs(st, notes, backend);
    if e.result.Done? && notes != [] {
      var docs := BuildDocuments(notes);
      assert e.state.vectorstore == Some(docs);
      assert r.result == Done(Retrieval(docs, question, sourceType, tags, topK, backend));
      RetrievalFromNotes(notes, question, sourceType, tags, topK, backend);
    }
  }

  /** Every source a retrieval over the notes' documents reports is that of
      one of the notes. */
  lemma RetrievalFromNotes(notes: seq<Note>, question: string, sourceType: string, tags: seq<string>,
                           topK: nat, backend: Backend)
    ensures var res := Retrieval(BuildDocuments(notes), question, sourceType, tags, topK, backend);
      forall src :: src in res.sources ==> exists i :: 0 <= i < |notes| && src == NoteSource(notes[i])
  {
    var docs := BuildDocuments(notes);
    RetrievalFromIndex(docs, question, sourceType, tags, topK, backend);
    DocumentSourcesAreNoteSources(Retrieval(docs, question, sourceType, tags, topK, backend).sources, notes);
  }

  /** A source of one of the notes' documents is the source of one of the notes. */
  lemma DocumentSourcesAreNoteSources(sources: seq<Source>, notes: seq<Note>)
    requires forall src :: src in sources ==>
               exists i :: 0 <= i < |BuildDocuments(notes)| && src == SourceOf(BuildDocuments(notes)[i])
    ensures forall src :: src in sources ==> exists i :: 0 <= i < |notes| && src == NoteSource(notes[i])
  {
    var docs := BuildDocuments(notes);
    forall src | src in sources ensures exists i :: 0 <= i < |notes| && src == NoteSource(notes[i]) {
      var i :| 0 <= i < |docs| && src == SourceOf(docs[i]);
      assert docs[i] == BuildDocument(notes[i]);
    }
  }

  /** The vector index as module state. */
  class VectorIndex {
    var vectorstore: Option<seq<Document>>
    var initialized: bool

    function State(): IndexState
      reads this
    {
      IndexState(vectorstore, initialized)
    }

    constructor ()
      ensures State() == IndexState(None, false)
    {
      vectorstore := None;
      initialized := false;
    }

    /** `_rebuild_index`. */
    method RebuildIndex(notes: seq<Note>, backend: Backend) returns (err: Option<string>)
      modifies this
      ensures Step(State(), err) == Rebuild(old(State()), notes, backend)
    {
      if notes == [] {
        vectorstore := None;
        return None;
      }
      if !backend.embeddingsLoad {
        return Some(EmbeddingsErrorText(backend.embeddingsError));
      }
      var docs: seq<Document> := [];
      var i := 0;
      while i < |notes|
        invariant 0 <= i <= |notes|
        invariant docs == BuildDocuments(notes[..i])
      {
        docs := docs + [BuildDocument(notes[i])];
        i := i + 1;
      }
      assert notes[..|notes|] == notes;
      vectorstore := Some(docs);
      err := None;
    }

    /** `ensure_index`. */
    method EnsureIndexed(notes: seq<Note>, backend: Backend) returns (r: Outcome<nat>)
      modifies this
      ensures Step(State(), r) == EnsureIndex(old(State()), notes, backend)
    {
      var err := RebuildIndex(notes, backend);
      if err.Some? {
        return Raised(err.value);
      }
      initialized := true;
      r := Done(|notes|);
    }

    /** `add_note`. */
    method AddNoteDocument(n: Note, backend: Backend)
      modifies this
      ensures State() == AddNote(old(State()), n, backend)
    {
      if !backend.embeddingsLoad {
        return;
      }
      var doc := BuildDocument(n);
      if vectorstore.None? {
        vectorstore := Some([doc]);
      } else {
        vectorstore := Some(vectorstore.value + [doc]);
      }
    }

    /** `update_note` and `delete_note` of the index. */
    method ReindexNotes(notes: seq<Note>, backend: Backend)
      modifies this
      ensures State() == Reindex(old(State()), notes, backend)
    {
      var _ := RebuildIndex(notes, backend);
    }

    /** `retrieve`. */
    method RetrieveNotes(notes: seq<Note>, backend: Backend, question: string, sourceType: string,
                         tags: seq<string>, topK: nat) returns (r: Outcome<RetrieveResult>)
      modifies this
      ensures Step(State(), r) == Retrieve(old(State()), notes, backend, question, sourceType, tags, topK)
    {
      if !initialized {
        var e := EnsureIndexed(notes, backend);
        if e.Raised? {
          return Raised(e.error);
        }
      }
      if vectorstore.None? {
        if backend.embeddingsLoad {
          return Done(NoResult);
        }
        return Raised(EmbeddingsErrorText(backend.embeddingsError));
      }
      var res := RankAndFormat(vectorstore.value, question, sourceType, tags, topK, backend);
      r := Done(res);
    }
  }
}
