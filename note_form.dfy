/** The note form: five text fields and a tag selection; a save is refused
    while the title or the content is blank, and a save that goes through
    clears the form back to its initial values. */
module NoteForm {
  import opened Records
  import opened Text
  import opened Storage
  import opened RagService
  import opened TagPicker

  /** The form's text fields. */
  datatype Form = Form(title: string, content: string, sourceType: string, sourceName: string, sourceAuthor: string)

  const DefaultSourceType := "artigo"

  /** The form as first shown and as left after a save. */
  const EmptyForm := Form("", "", DefaultSourceType, "", "")

  /** The save request the form sends. */
  function Request(f: Form, selected: seq<string>): NoteInput
  {
    NoteInput(f.title, f.content, f.sourceType, f.sourceName, f.sourceAuthor, selected)
  }

  predicate Accepted(f: Form)
  {
    Strip(f.title) != [] && Strip(f.content) != []
  }

  /** `handle_save`: the request sent, if any, and the form and selection
      left afterwards. */
  function SubmitSpec(f: Form, selected: seq<string>): (Option<NoteInput>, Form, seq<string>)
  {
    if !Accepted(f) then (None, f, selected)
    else (Some(Request(f, selected)), EmptyForm, [])
  }

  /** A refused save sends nothing and keeps what was typed; an accepted one
      sends the fields and the selected tags unchanged and resets the form. */
  lemma SubmitOutcome(f: Form, selected: seq<string>)
    ensures var (req, f', selected') := SubmitSpec(f, selected);
      && (req.Some? <==> Strip(f.title) != [] && Strip(f.content) != [])
      && (req.None? ==> f' == f && selected' == selected)
      && (req.Some? ==>
            && req.value.title == f.title && req.value.content == f.content
            && req.value.sourceType == f.sourceType && req.value.sourceName == f.sourceName
            && req.value.sourceAuthor == f.sourceAuthor && req.value.tags == selected
            && f' == EmptyForm && selected' == [])
  {
  }

  /** The note stored for an accepted save has a title and content that are
      not empty, and a reset form is refused until something is typed. */
  lemma SavedNoteHasText(f: Form, selected: seq<string>, id: string, now: string)
    requires Accepted(f)
    ensures NewNote(id, now, Request(f, selected)).title != []
    ensures NewNote(id, now, Request(f, selected)).content != []
    ensures SubmitSpec(EmptyForm, []) == (None, EmptyForm, [])
  {
    assert Strip("") == [];
  }

  /** The form page's state. */
  class NoteFormPage {
    var title: string
    var content: string
    var sourceType: string
    var sourceName: string
    var sourceAuthor: string
    const selection: TagSelection

    constructor ()
      ensures State() == EmptyForm && selection.tags == [] && fresh(selection)
    {
      title, content, sourceType, sourceName, sourceAuthor := "", "", DefaultSourceType, "", "";
      selection := new TagSelection([]);
    }

    function State(): Form
      reads this
    {
      Form(title, content, sourceType, sourceName, sourceAuthor)
    }

    /** `handle_save`, the note stored through the note table. */
    method HandleSave(store: Store, index: VectorIndex, backend: Backend, id: string, now: string)
      returns (saved: bool)
      modifies this, selection, store, index
      ensures var (req, f', selected') := SubmitSpec(old(State()), old(selection.tags));
        && saved == req.Some?
        && State() == f' && selection.tags == selected'
        && (req.None? ==> store.notes == old(store.notes) && index.State() == old(index.State()))
        && (req.Some? ==> store.notes == old(store.notes) + [NewNote(id, now, req.value)])
        && (req.Some? ==> index.State() == AddNote(old(index.State()), NewNote(id, now, req.value), backend))
      ensures store.tags == old(store.tags) && store.chats == old(store.chats)
    {
      if Strip(title) == [] || Strip(content) == [] {
        return false;
      }
      var request := Request(State(), selection.tags);
      var _ := store.SaveNote(index, backend, id, now, request);
      title, content, sourceType, sourceName, sourceAuthor := "", "", DefaultSourceType, "", "";
      selection.Clear();
      saved := true;
    }
  }
}
