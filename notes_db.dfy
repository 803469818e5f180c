/** The notes list page: the listing (newest first, narrowed by a text query
    and a source-type filter), the editor's tag selection and the editor's
    save, which is refused without a title and content. */
module NotesDb {
  import opened Records
  import opened Text
  import opened Storage
  import opened RagService
  import opened TagPicker

  /** The filter value that shows every source type. */
  const AllSources := "Todos"

  /** The query as the page reads it: lower-cased, then stripped. */
  function Query(raw: string): string
  {
    Strip(Lower(raw))
  }

  /** The text a query is looked for in. */
  function Searchable(n: Note): string
  {
    Lower(n.title + " " + n.content + " " + Join(" ", n.tags))
  }

  /** Whether a note passes both filters, for an already cleaned query. */
  predicate Shown(n: Note, query: string, sourceFilter: string)
  {
    QueryMatches(n, query) && SourceMatches(n, sourceFilter)
  }

  /** A blank query keeps every note; another keeps those whose text contains it. */
  predicate QueryMatches(n: Note, query: string)
  {
    query == [] || Contains(Searchable(n), query)
  }

  /** `Todos` keeps every note; another filter keeps its source type only. */
  predicate SourceMatches(n: Note, sourceFilter: string)
  {
    sourceFilter == AllSources || n.sourceType == sourceFilter
  }

  /** `render_notes`' list: the stored notes newest first, those shown. */
  function Listing(notes: seq<Note>, query: string, sourceFilter: string): (r: seq<Note>)
    ensures |r| <= |notes|
  {
    if notes == [] then []
    else
      var last := notes[|notes| - 1];
      (if Shown(last, query, sourceFilter) then [last] else []) + Listing(notes[..|notes| - 1], query, sourceFilter)
  }

  function Reverse<T>(s: seq<T>): (r: seq<T>)
    ensures |r| == |s|
    ensures forall i :: 0 <= i < |s| ==> r[i] == s[|s| - 1 - i]
  {
    if s == [] then [] else [s[|s| - 1]] + Reverse(s[..|s| - 1])
  }

  /** The notes of a listing are shown notes, each taken from a stored
      position, the positions decreasing, and every shown note taken. */
  ghost predicate NewestFirst(notes: seq<Note>, r: seq<Note>, idx: seq<nat>, query: string, sourceFilter: string)
  {
    && |idx| == |r|
    && (forall k :: 0 <= k < |r| ==> idx[k] < |notes| && r[k] == notes[idx[k]] && Shown(r[k], query, sourceFilter))
    && (forall k, l :: 0 <= k < l < |r| ==> idx[k] > idx[l])
    && (forall i :: 0 <= i < |notes| && Shown(notes[i], query, sourceFilter) ==> i in idx)
  }

  lemma NewestFirstTaken(init: seq<Note>, last: Note, ri: seq<Note>, prev: seq<nat>, query: string, sourceFilter: string)
    returns (idx: seq<nat>)
    requires NewestFirst(init, ri, prev, query, sourceFilter) && Shown(last, query, sourceFilter)
    ensures NewestFirst(init + [last], [last] + ri, idx, query, sourceFilter)
  {
    var notes := init + [last];
    idx := [|init|] + prev;
    var r := [last] + ri;
    forall k | 0 <= k < |r| ensures idx[k] < |notes| && r[k] == notes[idx[k]] && Shown(r[k], query, sourceFilter) {
      if k > 0 { assert r[k] == ri[k - 1] && idx[k] == prev[k - 1]; }
    }
    forall i | 0 <= i < |notes| && Shown(notes[i], query, sourceFilter) ensures i in idx {
      if i < |init| { assert init[i] == notes[i]; }
    }
  }

  lemma NewestFirstSkipped(init: seq<Note>, last: Note, ri: seq<Note>, prev: seq<nat>, query: string, sourceFilter: string)
    requires NewestFirst(init, ri, prev, query, sourceFilter) && !Shown(last, query, sourceFilter)
    ensures NewestFirst(init + [last], ri, prev, query, sourceFilter)
  {
    var notes := init + [last];
    forall i | 0 <= i < |notes| && Shown(notes[i], query, sourceFilter) ensures i in prev {
      assert i < |init| && init[i] == notes[i];
    }
  }

  /** The listing holds exactly the shown notes, at decreasing stored
      positions (newest first). */
  lemma {:induction false} ListingPositions(notes: seq<Note>, query: string, sourceFilter: string)
    returns (idx: seq<nat>)
    ensures NewestFirst(notes, Listing(notes, query, sourceFilter), idx, query, sourceFilter)
  {
    if notes == [] {
      idx := [];
    } else {
      var init := notes[..|notes| - 1];
      var last := notes[|notes| - 1];
      var prev := ListingPositions(init, query, sourceFilter);
      assert notes == init + [last];
      var ri := Listing(init, query, sourceFilter);
      if Shown(last, query, sourceFilter) {
        idx := NewestFirstTaken(init, last, ri, prev, query, sourceFilter);
      } else {
        NewestFirstSkipped(init, last, ri, prev, query, sourceFilter);
        assert Listing(notes, query, sourceFilter) == [] + ri == ri;
        idx := prev;
      }
    }
  }

  /** With a blank query and every source type, the listing is the stored
      notes reversed. */
  lemma {:induction false} ListingUnfiltered(notes: seq<Note>)
    ensures Listing(notes, [], AllSources) == Reverse(notes)
  {
    if notes != [] {
      ListingUnfiltered(notes[..|notes| - 1]);
    }
  }

  /** The two filters are conjunctive: narrowing by the query and then by the
      source type gives the same list as both at once. */
  lemma {:induction false} ListingConjunctive(notes: seq<Note>, query: string, sourceFilter: string)
    ensures Listing(Reverse(Listing(notes, query, AllSources)), [], sourceFilter) == Listing(notes, query, sourceFilter)
  {
    if notes != [] {
      var init := notes[..|notes| - 1];
      var last := notes[|notes| - 1];
      ListingConjunctive(init, query, sourceFilter);
      var q := Listing(init, query, AllSources);
      if Shown(last, query, AllSources) {
        var full := [last] + q;
        var rev := Reverse(full);
        assert rev == Reverse(q) + [last];
        assert rev[..|rev| - 1] == Reverse(q) && rev[|rev| - 1] == last;
        assert Listing(rev, [], sourceFilter)
            == (if Shown(last, [], sourceFilter) then [last] else []) + Listing(Reverse(q), [], sourceFilter);
      } else {
        assert !Shown(last, query, sourceFilter);
        assert Listing(notes, query, AllSources) == [] + q == q;
        assert Listing(notes, query, sourceFilter) == [] + Listing(init, query, sourceFilter);
      }
    }
  }

  /** One step of the listing: the prefix's last note comes first, if shown. */
  lemma ListingStep(notes: seq<Note>, i: nat, query: string, sourceFilter: string)
    requires 0 < i <= |notes|
    ensures Listing(notes[..i], query, sourceFilter) ==
            (if Shown(notes[i - 1], query, sourceFilter) then [notes[i - 1]] else []) + Listing(notes[..i - 1], query, sourceFilter)
  {
    assert notes[..i][..i - 1] == notes[..i - 1];
  }

  /** The loop of `render_notes`, over the stored notes from the newest. */
  method RenderNotes(notes: seq<Note>, rawQuery: string, sourceFilter: string) returns (filtered: seq<Note>)
    ensures filtered == Listing(notes, Query(rawQuery), sourceFilter)
  {
    var query := Query(rawQuery);
    filtered := [];
    var i := |notes|;
    assert notes[..|notes|] == notes;
    while i > 0
      invariant 0 <= i <= |notes|
      invariant filtered + Listing(notes[..i], query, sourceFilter) == Listing(notes, query, sourceFilter)
    {
      var note := notes[i - 1];
      ghost var rest := Listing(notes[..i - 1], query, sourceFilter);
      ListingStep(notes, i, query, sourceFilter);
      if !QueryMatches(note, query) {
        assert Listing(notes[..i], query, sourceFilter) == rest;
      } else if !SourceMatches(note, sourceFilter) {
        assert Listing(notes[..i], query, sourceFilter) == rest;
      } else {
        assert Listing(notes[..i], query, sourceFilter) == [note] + rest;
        assert (filtered + [note]) + rest == filtered + ([note] + rest);
        filtered := filtered + [note];
      }
      i := i - 1;
    }
  }

  /** The editor accepts a save only with a title and content that are not
      blank. */
  predicate EditAccepted(f: NoteInput)
  {
    Strip(f.title) != [] && Strip(f.content) != []
  }

  /** An accepted edit stores a note whose title and content are not empty. */
  lemma AcceptedEditHasText(notes: seq<Note>, id: string, f: NoteInput)
    requires EditAccepted(f)
    ensures forall j :: 0 <= j < |notes| && UpdatedNotes(notes, id, f)[j] != notes[j] ==>
              UpdatedNotes(notes, id, f)[j].title != [] && UpdatedNotes(notes, id, f)[j].content != []
  {
    UpdatedNotesExact(notes, id, f);
  }

  /** `handle_save` of the editor: refused edits issue no update; an accepted
      one rewrites the note and, when the note exists, rebuilds the index. */
  method HandleSave(store: Store, index: VectorIndex, backend: Backend, noteId: string, f: NoteInput,
                    selection: TagSelection) returns (saved: bool)
    modifies store, index
    ensures saved == EditAccepted(f.(tags := selection.tags))
    ensures !saved ==> store.notes == old(store.notes) && index.State() == old(index.State())
    ensures saved ==> store.notes == UpdatedNotes(old(store.notes), noteId, f.(tags := selection.tags))
    ensures saved ==> index.State() == if FirstIndex(old(store.notes), NoteId, noteId).Some?
                                       then Reindex(old(index.State()), store.notes, backend)
                                       else old(index.State())
    ensures store.tags == old(store.tags) && store.chats == old(store.chats)
  {
    var request := f.(tags := selection.tags);
    if Strip(request.title) == [] || Strip(request.content) == [] {
      return false;
    }
    var _ := store.UpdateNote(index, backend, noteId, request);
    saved := true;
  }
}
