/** The three JSON tables of the knowledge base (notes, tags, chats) as
    in-memory sequences.  Writes normalise their input, tag names stay unique,
    the chat table is capped at `MAX_CHATS`, updates rewrite the first record
    with the id and deletes drop every record with it.  After a note write the
    vector index is told (one document added, or a full rebuild); a failure
    there is swallowed and does not change what the write returns.

    Identifiers (`uuid4`) and timestamps (`datetime.now`) are parameters. */
module Storage {
  import opened Records
  import opened Text
  import opened Sorting
  import opened RagService
  import opened Lists

  // ---------------------------------------------------------------------------
  // Record helpers shared by the three tables
  // ---------------------------------------------------------------------------

  /** `[r for r in rs if key(r) != id]`. */
  function Without<T>(rs: seq<T>, key: T -> string, id: string): (r: seq<T>)
    ensures |r| <= |rs|
  {
    if rs == [] then []
    else Without(rs[..|rs| - 1], key, id) + (if key(rs[|rs| - 1]) != id then [rs[|rs| - 1]] else [])
  }

  /** What the filter keeps: no record with the id is left, every record with
      another id is, in order, and something was removed iff some record had
      the id. */
  lemma {:induction false} WithoutExact<T>(rs: seq<T>, key: T -> string, id: string)
    ensures var r := Without(rs, key, id);
      && (forall i :: 0 <= i < |r| ==> key(r[i]) != id && r[i] in rs)
      && (forall i :: 0 <= i < |rs| && key(rs[i]) != id ==> rs[i] in r)
      && (|r| < |rs| <==> exists i :: 0 <= i < |rs| && key(rs[i]) == id)
      && (|r| == |rs| ==> r == rs)
  {
    if rs != [] {
      var init := rs[..|rs| - 1];
      var last := rs[|rs| - 1];
      WithoutExact(init, key, id);
      var r := Without(rs, key, id);
      var ri := Without(init, key, id);
      assert rs == init + [last];
      forall i | 0 <= i < |r| ensures key(r[i]) != id && r[i] in rs {
        if i < |ri| { assert r[i] == ri[i]; }
      }
      forall i | 0 <= i < |rs| && key(rs[i]) != id ensures rs[i] in r {
        if i < |rs| - 1 { assert rs[i] == init[i]; }
      }
      if exists i :: 0 <= i < |init| && key(init[i]) == id {
        var i :| 0 <= i < |init| && key(init[i]) == id;
        assert rs[i] == init[i];
      }
      if exists i :: 0 <= i < |rs| && key(rs[i]) == id {
        var i :| 0 <= i < |rs| && key(rs[i]) == id;
        if i < |rs| - 1 { assert init[i] == rs[i]; }
      }
    }
  }

  /** The position of the first record with the id. */
  function FirstIndex<T>(rs: seq<T>, key: T -> string, id: string): (r: Option<nat>)
    ensures r.Some? ==> r.value < |rs| && key(rs[r.value]) == id
                        && forall j :: 0 <= j < r.value ==> key(rs[j]) != id
    ensures r.None? ==> forall j :: 0 <= j < |rs| ==> key(rs[j]) != id
  {
    if rs == [] then None
    else if key(rs[0]) == id then Some(0)
    else match FirstIndex(rs[1..], key, id)
      case None => None
      case Some(i) => Some(i + 1)
  }

  function NoteId(n: Note): string { n.id }
  function TagId(t: Tag): string { t.id }
  function ChatId(c: Chat): string { c.id }

  predicate DistinctIds<T(!new)>(rs: seq<T>, key: T -> string)
  {
    forall i, j :: 0 <= i < j < |rs| ==> key(rs[i]) != key(rs[j])
  }

  // ---------------------------------------------------------------------------
  // Notes
  // ---------------------------------------------------------------------------

  /** Whether an input tag survives normalisation: it is not blank. */
  predicate KeptTag(t: string)
  {
    Strip(t) != []
  }

  /** An input tag stripped and lower-cased. */
  function TagForm(t: string): string
  {
    Lower(Strip(t))
  }

  /** `[t.strip().lower() for t in tags if t.strip()]`. */
  function NormalizeTags(tags: seq<string>): (r: seq<string>)
    ensures |r| <= |tags|
  {
    if tags == [] then []
    else
      var t := tags[|tags| - 1];
      NormalizeTags(tags[..|tags| - 1]) + (if KeptTag(t) then [TagForm(t)] else [])
  }

  /** A tag name as the store keeps it: not blank, no surrounding white space,
      lower case. */
  predicate NormalTag(t: string)
  {
    t != [] && Strip(t) == t && Lower(t) == t
  }

  lemma NormalizeOne(t: string)
    requires KeptTag(t)
    ensures NormalTag(TagForm(t))
  {
    LowerIdempotent(Strip(t));
    StripLowerStripped(t);
  }

  /** The normalised tags are the images under `TagForm` of the non-blank
      input tags, at increasing positions that cover all of them. */
  lemma {:induction false} NormalizePositions(tags: seq<string>) returns (idx: seq<nat>)
    ensures ImageAt(tags, NormalizeTags(tags), idx, KeptTag, TagForm)
  {
    if tags == [] {
      idx := [];
    } else {
      var init := tags[..|tags| - 1];
      var prev := NormalizePositions(init);
      assert NormalizeTags(tags) == NormalizeTags(init) + (if KeptTag(tags[|tags| - 1]) then [TagForm(tags[|tags| - 1])] else []);
      ImageAtExtend(tags, NormalizeTags(tags), NormalizeTags(init), prev, KeptTag, TagForm);
      idx := Extended(tags, prev, KeptTag);
    }
  }

  /** The normalised tags are the stripped, lower-cased non-blank input tags:
      each comes from a non-blank input tag, and each non-blank input tag is
      there. */
  lemma {:induction false} NormalizeTagsExact(tags: seq<string>)
    ensures forall t :: t in NormalizeTags(tags) ==>
              exists j :: 0 <= j < |tags| && KeptTag(tags[j]) && t == TagForm(tags[j])
    ensures forall j :: 0 <= j < |tags| && KeptTag(tags[j]) ==> TagForm(tags[j]) in NormalizeTags(tags)
  {
    var r := NormalizeTags(tags);
    var idx := NormalizePositions(tags);
    forall t | t in r
      ensures exists j :: 0 <= j < |tags| && KeptTag(tags[j]) && t == TagForm(tags[j])
    {
      var i :| 0 <= i < |r| && r[i] == t;
      var k := idx[i];
      assert 0 <= k < |tags| && KeptTag(tags[k]) && t == TagForm(tags[k]);
    }
    ImageAtCovers(tags, r, idx, KeptTag, TagForm);
  }

  /** Every tag a note write stores is normal. */
  lemma NormalizedTagsNormal(tags: seq<string>)
    ensures forall i :: 0 <= i < |NormalizeTags(tags)| ==> NormalTag(NormalizeTags(tags)[i])
  {
    var r := NormalizeTags(tags);
    var idx := NormalizePositions(tags);
    forall i | 0 <= i < |r| ensures NormalTag(r[i]) {
      NormalizeOne(tags[idx[i]]);
    }
  }

  /** The fields a note write supplies. */
  datatype NoteInput = NoteInput(
    title: string,
    content: string,
    sourceType: string,
    sourceName: string,
    sourceAuthor: string,
    tags: seq<string>)

  /** The note `save_note` creates. */
  function NewNote(id: string, now: string, f: NoteInput): Note
  {
    Note(id, Strip(f.title), Strip(f.content), f.sourceType, Strip(f.sourceName), Strip(f.sourceAuthor),
         NormalizeTags(f.tags), now)
  }

  /** The note `update_note` leaves: new normalised fields, same id and creation time. */
  function Rewritten(n: Note, f: NoteInput): Note
  {
    n.(title := Strip(f.title), content := Strip(f.content), sourceType := f.sourceType,
       sourceName := Strip(f.sourceName), sourceAuthor := Strip(f.sourceAuthor), tags := NormalizeTags(f.tags))
  }

  /** A written note has normalised text fields and tags, whatever the input. */
  lemma WrittenNoteNormal(id: string, now: string, n: Note, f: NoteInput)
    ensures var m := NewNote(id, now, f);
      && m.id == id && m.createdAt == now
      && Strip(m.title) == m.title && Strip(m.content) == m.content
      && (forall i :: 0 <= i < |m.tags| ==> NormalTag(m.tags[i]))
    ensures var m := Rewritten(n, f);
      && m.id == n.id && m.createdAt == n.createdAt
      && Strip(m.title) == m.title && Strip(m.content) == m.content
      && (forall i :: 0 <= i < |m.tags| ==> NormalTag(m.tags[i]))
  {
    StripIdempotent(f.title);
    StripIdempotent(f.content);
    NormalizedTagsNormal(f.tags);
  }

  /** A note saved under an id no note has keeps the note ids distinct. */
  lemma SaveNoteFreshId(notes: seq<Note>, id: string, now: string, f: NoteInput)
    requires DistinctIds(notes, NoteId)
    requires forall i :: 0 <= i < |notes| ==> notes[i].id != id
    ensures DistinctIds(notes + [NewNote(id, now, f)], NoteId)
  {
    var r := notes + [NewNote(id, now, f)];
    forall i, j | 0 <= i < j < |r| ensures NoteId(r[i]) != NoteId(r[j]) {
      assert r[i] == notes[i];
      if j < |notes| { assert r[j] == notes[j]; }
    }
  }

  /** `update_note` on the table: the first note with the id rewritten. */
  function UpdatedNotes(notes: seq<Note>, id: string, f: NoteInput): seq<Note>
  {
    match FirstIndex(notes, NoteId, id)
    case None => notes
    case Some(i) => notes[i := Rewritten(notes[i], f)]
  }

  /** Only the first note with the id changes, keeping its id and creation
      time; with no such note nothing changes. */
  lemma UpdatedNotesExact(notes: seq<Note>, id: string, f: NoteInput)
    ensures var r := UpdatedNotes(notes, id, f);
      && |r| == |notes|
      && (forall j :: 0 <= j < |notes| ==> r[j].id == notes[j].id && r[j].createdAt == notes[j].createdAt)
      && ((forall j :: 0 <= j < |notes| ==> notes[j].id != id) ==> r == notes)
      && (forall j :: 0 <= j < |notes| && r[j] != notes[j] ==>
            notes[j].id == id && r[j] == Rewritten(notes[j], f) && forall k :: 0 <= k < j ==> notes[k].id != id)
  {
  }

  // ---------------------------------------------------------------------------
  // Tags
  // ---------------------------------------------------------------------------

  predicate HasTagName(tags: seq<Tag>, name: string)
  {
    exists i :: 0 <= i < |tags| && tags[i].name == name
  }

  /** The tag table's invariant: names are normal and unique. */
  predicate TagsValid(tags: seq<Tag>)
  {
    && (forall i :: 0 <= i < |tags| ==> NormalTag(tags[i].name))
    && (forall i, j :: 0 <= i < j < |tags| ==> tags[i].name != tags[j].name)
  }

  /** `save_tag`: the new table and the tag returned. */
  function SaveTagSpec(tags: seq<Tag>, id: string, name: string): (seq<Tag>, Option<Tag>)
  {
    var norm := TagForm(name);
    if norm == [] || HasTagName(tags, norm) then (tags, None)
    else (tags + [Tag(id, norm)], Some(Tag(id, norm)))
  }

  /** A tag is refused exactly when its normalised name is blank or taken; an
      accepted one is appended; and the table stays valid. */
  lemma SaveTagKeepsValid(tags: seq<Tag>, id: string, name: string)
    requires TagsValid(tags)
    ensures var (r, t) := SaveTagSpec(tags, id, name);
      && TagsValid(r)
      && (t.None? <==> !KeptTag(name) || HasTagName(tags, TagForm(name)))
      && (t.None? ==> r == tags)
      && (t.Some? ==> r == tags + [t.value] && t.value.name == TagForm(name))
  {
    var norm := TagForm(name);
    assert norm == [] <==> !KeptTag(name) by {
      assert |norm| == |Strip(name)|;
    }
    if norm != [] && !HasTagName(tags, norm) {
      NormalizeOne(name);
      AppendTagValid(tags, Tag(id, norm));
    }
  }

  /** A normal tag whose name is not taken can be appended. */
  lemma AppendTagValid(tags: seq<Tag>, t: Tag)
    requires TagsValid(tags) && NormalTag(t.name) && !HasTagName(tags, t.name)
    ensures TagsValid(tags + [t])
  {
    var r := tags + [t];
    forall i | 0 <= i < |r| ensures NormalTag(r[i].name) {
      if i < |tags| { assert r[i] == tags[i]; }
    }
    forall i, j | 0 <= i < j < |r| ensures r[i].name != r[j].name {
      assert r[i] == tags[i];
      if j < |tags| { assert r[j] == tags[j]; }
    }
  }

  /** Removing tags keeps the table valid. */
  lemma DeleteTagKeepsValid(tags: seq<Tag>, id: string)
    requires TagsValid(tags)
    ensures TagsValid(Without(tags, TagId, id))
  {
    var idx := WithoutSubsequence(tags, TagId, id);
  }

  /** `idx` lists, in increasing order, the positions of `rs` that `r` keeps,
      and it lists every position whose record has another id. */
  ghost predicate KeptPositions<T>(rs: seq<T>, r: seq<T>, idx: seq<nat>, key: T -> string, id: string)
  {
    && |idx| == |r|
    && (forall k :: 0 <= k < |idx| ==> idx[k] < |rs| && r[k] == rs[idx[k]])
    && (forall k, l :: 0 <= k < l < |idx| ==> idx[k] < idx[l])
    && (forall i :: 0 <= i < |rs| && key(rs[i]) != id ==> exists k :: 0 <= k < |idx| && idx[k] == i)
  }

  /** The filter's output is a subsequence of its input that keeps every
      position whose record has another id. */
  lemma {:induction false} WithoutSubsequence<T>(rs: seq<T>, key: T -> string, id: string) returns (idx: seq<nat>)
    ensures KeptPositions(rs, Without(rs, key, id), idx, key, id)
  {
    if rs == [] {
      idx := [];
    } else {
      var init := rs[..|rs| - 1];
      var last := rs[|rs| - 1];
      var prev := WithoutSubsequence(init, key, id);
      var ri := Without(init, key, id);
      var r := Without(rs, key, id);
      assert rs == init + [last];
      if key(last) != id {
        assert r == ri + [last];
        idx := prev + [|rs| - 1];
        KeptPositionsExtend(init, ri, prev, key, id, last);
      } else {
        assert r == ri;
        idx := prev;
        forall i | 0 <= i < |rs| && key(rs[i]) != id ensures exists k :: 0 <= k < |idx| && idx[k] == i {
          assert i < |init| && init[i] == rs[i];
        }
        forall k | 0 <= k < |idx| ensures idx[k] < |rs| && r[k] == rs[idx[k]] {
          assert init[prev[k]] == rs[prev[k]];
        }
      }
    }
  }

  lemma KeptPositionsExtend<T>(init: seq<T>, ri: seq<T>, prev: seq<nat>, key: T -> string, id: string, last: T)
    requires KeptPositions(init, ri, prev, key, id)
    ensures KeptPositions(init + [last], ri + [last], prev + [|init|], key, id)
  {
    var rs := init + [last];
    var r := ri + [last];
    var idx := prev + [|init|];
    forall k | 0 <= k < |idx| ensures idx[k] < |rs| && r[k] == rs[idx[k]] {
      if k < |prev| {
        assert idx[k] == prev[k] && r[k] == ri[k] && init[prev[k]] == rs[prev[k]];
      }
    }
    forall i | 0 <= i < |rs| && key(rs[i]) != id ensures exists k :: 0 <= k < |idx| && idx[k] == i {
      if i < |init| {
        assert key(init[i]) != id;
        var k :| 0 <= k < |prev| && prev[k] == i;
        assert idx[k] == i;
      } else {
        assert idx[|idx| - 1] == i;
      }
    }
  }

  // ---------------------------------------------------------------------------
  // Chats
  // ---------------------------------------------------------------------------

  function UpdatedAt(c: Chat): string { c.updatedAt }

  /** `reverse=True` on strings: a later timestamp first. */
  predicate Later(a: string, b: string) { StrLt(b, a) }

  lemma LaterIsStrictTotalOrder()
    ensures StrictTotalOrder(Later)
  {
    forall a ensures !Later(a, a) { StrLtIrreflexive(a); }
    forall a, b, c | Later(a, b) && Later(b, c) ensures Later(a, c) { StrLtTransitive(c, b, a); }
    forall a, b | a != b ensures Later(a, b) || Later(b, a) { StrLtConnected(a, b); }
  }

  /** `load_chats`: a stable sort by `updated_at`, most recent first. */
  function LoadChats(chats: seq<Chat>): seq<Chat>
  {
    SortBy(chats, UpdatedAt, Later)
  }

  /** The listing holds the same chats, most recent first, and chats with the
      same timestamp keep their stored order. */
  lemma LoadChatsOrder(chats: seq<Chat>, stamp: string)
    ensures var r := LoadChats(chats);
      && multiset(r) == multiset(chats)
      && (forall i, j :: 0 <= i < j < |r| ==> !StrLt(r[i].updatedAt, r[j].updatedAt))
      && KeyClass(r, UpdatedAt, stamp) == KeyClass(chats, UpdatedAt, stamp)
  {
    LaterIsStrictTotalOrder();
    SortByMultiset(chats, UpdatedAt, Later);
    SortBySorted(chats, UpdatedAt, Later);
    SortByStable(chats, UpdatedAt, Later, stamp);
  }

  /** `save_chat`: refused at the cap; otherwise the title is cut to 50
      characters and both timestamps are `now`. */
  function SaveChatSpec(chats: seq<Chat>, id: string, now: string, title: string,
                        messages: seq<ChatMessage>): (seq<Chat>, Option<Chat>)
  {
    if |chats| >= MaxChats then (chats, None)
    else
      var c := Chat(id, Take(title, TitleLength), messages, now, now);
      (chats + [c], Some(c))
  }

  /** The cap holds after a save, a refused save changes nothing, and a saved
      chat's title is the given one cut to its first 50 characters. */
  lemma SaveChatBounded(chats: seq<Chat>, id: string, now: string, title: string, messages: seq<ChatMessage>)
    requires |chats| <= MaxChats
    ensures var (r, c) := SaveChatSpec(chats, id, now, title, messages);
      && |r| <= MaxChats
      && (c.None? <==> |chats| == MaxChats)
      && (c.None? ==> r == chats)
      && (c.Some? ==>
            && r == chats + [c.value] && c.value.id == id && c.value.messages == messages
            && |c.value.title| == (if |title| < TitleLength then |title| else TitleLength)
            && c.value.title == title[..|c.value.title|]
            && c.value.createdAt == c.value.updatedAt == now)
  {
  }

  /** `update_chat` on the table. */
  function UpdatedChats(chats: seq<Chat>, id: string, messages: seq<ChatMessage>, title: Option<string>,
                        now: string): seq<Chat>
  {
    match FirstIndex(chats, ChatId, id)
    case None => chats
    case Some(i) =>
      var c := chats[i];
      chats[i := c.(messages := messages,
                    title := if title.Some? then Take(title.value, TitleLength) else c.title,
                    updatedAt := now)]
  }

  /** Only the first chat with the id changes: its messages are replaced, its
      title only when one is given (cut to 50), its `updated_at` refreshed. */
  lemma UpdatedChatsExact(chats: seq<Chat>, id: string, messages: seq<ChatMessage>, title: Option<string>,
                          now: string)
    ensures var r := UpdatedChats(chats, id, messages, title, now);
      && |r| == |chats|
      && ((forall j :: 0 <= j < |chats| ==> chats[j].id != id) ==> r == chats)
      && (forall j :: 0 <= j < |chats| ==>
            && r[j].id == chats[j].id && r[j].createdAt == chats[j].createdAt
            && (r[j] != chats[j] ==>
                  && chats[j].id == id && (forall k :: 0 <= k < j ==> chats[k].id != id)
                  && r[j].messages == messages && r[j].updatedAt == now
                  && r[j].title == (if title.Some? then Take(title.value, TitleLength) else chats[j].title)))
  {
  }

  // ---------------------------------------------------------------------------
  // The store
  // ---------------------------------------------------------------------------

  class Store {
    var notes: seq<Note>
    var tags: seq<Tag>
    var chats: seq<Chat>

    constructor ()
      ensures notes == [] && tags == [] && chats == []
    {
      notes, tags, chats := [], [], [];
    }

    /** `save_note`: one note appended, and the index given its document. */
    method SaveNote(index: VectorIndex, backend: Backend, id: string, now: string, f: NoteInput)
      returns (n: Note)
      modifies this, index
      ensures n == NewNote(id, now, f)
      ensures notes == old(notes) + [n] && tags == old(tags) && chats == old(chats)
      ensures index.State() == AddNote(old(index.State()), n, backend)
    {
      n := NewNote(id, now, f);
      notes := notes + [n];
      index.AddNoteDocument(n, backend);
    }

    /** `delete_note`: every note with the id removed, and the index rebuilt
        when one was. */
    method DeleteNote(index: VectorIndex, backend: Backend, id: string) returns (found: bool)
      modifies this, index
      ensures found <==> exists i :: 0 <= i < |old(notes)| && old(notes)[i].id == id
      ensures notes == Without(old(notes), NoteId, id) && tags == old(tags) && chats == old(chats)
      ensures index.State() == if found then Reindex(old(index.State()), notes, backend) else old(index.State())
    {
      var kept := Without(notes, NoteId, id);
      WithoutExact(notes, NoteId, id);
      if |kept| < |notes| {
        notes := kept;
        index.ReindexNotes(notes, backend);
        return true;
      }
      found := false;
    }

    /** `update_note`: the first note with the id rewritten in place, and the
        index rebuilt from all notes when there was one. */
    method UpdateNote(index: VectorIndex, backend: Backend, id: string, f: NoteInput) returns (found: bool)
      modifies this, index
      ensures found == FirstIndex(old(notes), NoteId, id).Some?
      ensures notes == UpdatedNotes(old(notes), id, f) && tags == old(tags) && chats == old(chats)
      ensures index.State() == if found then Reindex(old(index.State()), notes, backend) else old(index.State())
    {
      var i := 0;
      while i < |notes|
        invariant 0 <= i <= |notes|
        invariant forall j :: 0 <= j < i ==> notes[j].id != id
      {
        if notes[i].id == id {
          assert FirstIndex(notes, NoteId, id) == Some(i) by {
            FirstIndexAt(notes, NoteId, id, i);
          }
          notes := notes[i := Rewritten(notes[i], f)];
          index.ReindexNotes(notes, backend);
          return true;
        }
        i := i + 1;
      }
      found := false;
    }

    /** `save_tag`. */
    method SaveTag(id: string, name: string) returns (t: Option<Tag>)
      modifies this
      ensures (tags, t) == SaveTagSpec(old(tags), id, name)
      ensures notes == old(notes) && chats == old(chats)
    {
      var norm := TagForm(name);
      if norm == [] || HasTagName(tags, norm) {
        return None;
      }
      t := Some(Tag(id, norm));
      tags := tags + [t.value];
    }

    /** `delete_tag`. */
    method DeleteTag(id: string) returns (found: bool)
      modifies this
      ensures found <==> exists i :: 0 <= i < |old(tags)| && old(tags)[i].id == id
      ensures tags == Without(old(tags), TagId, id) && notes == old(notes) && chats == old(chats)
    {
      var kept := Without(tags, TagId, id);
      WithoutExact(tags, TagId, id);
      found := |kept| < |tags|;
      if found {
        tags := kept;
      }
    }

    /** `get_chat`: the first stored chat with the id. */
    method GetChat(id: string) returns (c: Option<Chat>)
      ensures c.Some? ==> c.value in chats && c.value.id == id
      ensures c.None? <==> forall j :: 0 <= j < |chats| ==> chats[j].id != id
      ensures c == match FirstIndex(chats, ChatId, id) case None => None case Some(i) => Some(chats[i])
    {
      var i := 0;
      while i < |chats|
        invariant 0 <= i <= |chats|
        invariant forall j :: 0 <= j < i ==> chats[j].id != id
      {
        if chats[i].id == id {
          FirstIndexAt(chats, ChatId, id, i);
          return Some(chats[i]);
        }
        i := i + 1;
      }
      c := None;
    }

    /** `save_chat`. */
    method SaveChat(id: string, now: string, title: string, messages: seq<ChatMessage>) returns (c: Option<Chat>)
      modifies this
      ensures (chats, c) == SaveChatSpec(old(chats), id, now, title, messages)
      ensures notes == old(notes) && tags == old(tags)
    {
      if |chats| >= MaxChats {
        return None;
      }
      c := Some(Chat(id, Take(title, TitleLength), messages, now, now));
      chats := chats + [c.value];
    }

    /** `update_chat`: the first chat with the id updated in place. */
    method UpdateChat(id: string, messages: seq<ChatMessage>, title: Option<string>, now: string)
      returns (found: bool)
      modifies this
      ensures found == FirstIndex(old(chats), ChatId, id).Some?
      ensures chats == UpdatedChats(old(chats), id, messages, title, now)
      ensures notes == old(notes) && tags == old(tags)
    {
      var i := 0;
      while i < |chats|
        invariant 0 <= i <= |chats|
        invariant forall j :: 0 <= j < i ==> chats[j].id != id
      {
        if chats[i].id == id {
          FirstIndexAt(chats, ChatId, id, i);
          var c := chats[i];
          var newTitle := if title.Some? then Take(title.value, TitleLength) else c.title;
          chats := chats[i := c.(messages := messages, title := newTitle, updatedAt := now)];
          return true;
        }
        i := i + 1;
      }
      found := false;
    }

    /** `delete_chat`. */
    method DeleteChat(id: string) returns (found: bool)
      modifies this
      ensures found <==> exists i :: 0 <= i < |old(chats)| && old(chats)[i].id == id
      ensures chats == Without(old(chats), ChatId, id) && notes == old(notes) && tags == old(tags)
    {
      var kept := Without(chats, ChatId, id);
      WithoutExact(chats, ChatId, id);
      found := |kept| < |chats|;
      if found {
        chats := kept;
      }
    }

    /** `count_chats`: the length of the listing, that is the number of chats. */
    function CountChats(): (n: nat)
      reads this
      ensures n == |chats|
    {
      |LoadChats(chats)|
    }
  }

  /** The first record with the id is at `i` when no earlier one has it. */
  lemma {:induction false} FirstIndexAt<T>(rs: seq<T>, key: T -> string, id: string, i: nat)
    requires i < |rs| && key(rs[i]) == id
    requires forall j :: 0 <= j < i ==> key(rs[j]) != id
    ensures FirstIndex(rs, key, id) == Some(i)
  {
    if i > 0 {
      assert key(rs[0]) != id;
      forall j | 0 <= j < i - 1 ensures key(rs[1..][j]) != id {
        assert rs[1..][j] == rs[j + 1];
      }
      FirstIndexAt(rs[1..], key, id, i - 1);
    }
  }
}
