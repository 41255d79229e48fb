/** The notes page (client/src/pages/notes.tsx): the search over title,
    content and tags, and the editor that either creates a note or updates
    the one being edited. Deleting a note calls the store directly. */
module Notes {
  import opened Collections
  import opened Text
  import opened Records
  import opened Tags
  import opened Store

  /** The search: title, content or some tag contains the term, ignoring case. */
  predicate NoteMatches(n: Note, term: string)
  {
    IncludesFolded(n.title, term) || IncludesFolded(n.content, term) || AnyTagIncludes(n.tags, term)
  }

  function NoteShown(term: string): Note -> bool
  {
    n => NoteMatches(n, term)
  }

  /** `notes.filter(...)`: exactly the matching notes, in store order. */
  function FilterNotes(ns: seq<Note>, term: string): (r: seq<Note>)
    ensures forall n :: n in r <==> n in ns && NoteMatches(n, term)
    ensures forall n :: multiset(r)[n] == if NoteMatches(n, term) then multiset(ns)[n] else 0
    ensures IsSubsequence(r, ns)
  {
    KeepCounts(ns, NoteShown(term));
    KeepOrder(ns, NoteShown(term));
    Keep(ns, NoteShown(term))
  }

  /** With an empty search every note is listed, and the search ignores the case of the term. */
  lemma FilterNotesLaws(ns: seq<Note>, term: string)
    ensures FilterNotes(ns, "") == ns
    ensures FilterNotes(ns, ToLower(term)) == FilterNotes(ns, term)
  {
    forall n | n in ns ensures NoteShown("")(n) {
      IncludesFoldedEmpty(n.title);
    }
    KeepAll(ns, NoteShown(""));
    ToLowerIdempotent(term);
    forall n | n in ns ensures NoteShown(ToLower(term))(n) == NoteShown(term)(n) {
      AnyTagIncludesLaws(n.tags, term);
    }
    KeepCongruent(ns, NoteShown(ToLower(term)), NoteShown(term));
  }

  /** `editTitle || "Untitled Note"`. */
  function CreatedTitle(title: string): (r: string)
    ensures r != ""
    ensures title != "" ==> r == title
    ensures title == "" ==> r == "Untitled Note"
  {
    if title == "" then "Untitled Note" else title
  }

  /** The object `saveNote` passes to `addNote`; the store stamps id and times. */
  function DraftNote(title: string, content: string, tagsField: string): (n: Note)
    ensures n.title == CreatedTitle(title) && n.content == content
    ensures n.tags == ParseTagList(tagsField) && n.deviceId == None
  {
    Note("", CreatedTitle(title), content, None, "", "", ParseTagList(tagsField))
  }

  /** `{ title, content, tags }`, the patch `saveNote` passes to `updateNote`. */
  function EditPatch(title: string, content: string, tagsField: string): NotePatch
  {
    NotePatch(None, Some(title), Some(content), None, None, None, Some(ParseTagList(tagsField)))
  }

  /** Saving a note opened in the editor without changing anything only moves
      its `updatedAt`, as long as its tags were clean. */
  lemma UnchangedEditKeepsNote(n: Note, now: string)
    requires forall t :: t in n.tags ==> IsCleanTag(t)
    ensures MergeNoteAt(n, EditPatch(n.title, n.content, Join(n.tags, ", ")), now) == n.(updatedAt := now)
  {
    EditedTagsRoundTrip(n.tags);
  }

  /** The editor's state. `editingId` is `None` for `null`. */
  class NotesEditor {
    var searchTerm: string
    var editingId: Option<string>
    var isCreating: bool
    var editTitle: string
    var editContent: string
    var editTags: string

    /** While creating, the editor's id is the placeholder `"new"`. */
    predicate Valid()
      reads this
    {
      isCreating ==> editingId == Some("new")
    }

    constructor ()
      ensures Valid()
      ensures searchTerm == "" && editingId == None && !isCreating
      ensures editTitle == "" && editContent == "" && editTags == ""
    {
      searchTerm := "";
      editingId := None;
      isCreating := false;
      editTitle := "";
      editContent := "";
      editTags := "";
    }

    /** The notes listed for the current search. */
    function Shown(store: AppStore): seq<Note>
      reads this, store
    {
      FilterNotes(store.notes, searchTerm)
    }

    /** `startEdit`: load the note into the fields, tags joined with `", "`. */
    method StartEdit(note: Note)
      modifies this
      ensures Valid()
      ensures editingId == Some(note.id) && !isCreating
      ensures editTitle == note.title && editContent == note.content && editTags == Join(note.tags, ", ")
      ensures searchTerm == old(searchTerm)
    {
      editingId := Some(note.id);
      editTitle := note.title;
      editContent := note.content;
      editTags := Join(note.tags, ", ");
      isCreating := false;
    }

    /** `startCreate`: empty fields under the placeholder id. */
    method StartCreate()
      modifies this
      ensures Valid()
      ensures editingId == Some("new") && isCreating
      ensures editTitle == "" && editContent == "" && editTags == ""
      ensures searchTerm == old(searchTerm)
    {
      editingId := Some("new");
      editTitle := "";
      editContent := "";
      editTags := "";
      isCreating := true;
    }

    /** `saveNote`: in create mode add a note; otherwise, when the editing id is
        a non-empty string, update that note's title, content and tags; then
        close the editor. `createdNow` and `now` are the clock reads of
        `addNote` in create mode; `updateNote` reads the clock once, `now`. */
    method SaveNote(store: AppStore, newId: string, createdNow: string, now: string)
      requires Valid()
      modifies this, store
      ensures Valid()
      ensures old(isCreating) ==>
        store.notes == old(store.notes) + [StampedNote(DraftNote(old(editTitle), old(editContent), old(editTags)), newId, createdNow, now)]
      ensures !old(isCreating) && old(editingId).Some? && old(editingId).value != "" ==>
        store.notes == UpdatedNotes(old(store.notes), old(editingId).value,
                                    EditPatch(old(editTitle), old(editContent), old(editTags)), now)
      ensures !old(isCreating) && (old(editingId) == None || old(editingId) == Some("")) ==>
        store.notes == old(store.notes)
      ensures store.user == old(store.user) && store.devices == old(store.devices)
      ensures store.checklists == old(store.checklists) && store.scripts == old(store.scripts)
      ensures editingId == None && !isCreating
      ensures searchTerm == old(searchTerm) && editTitle == old(editTitle)
      ensures editContent == old(editContent) && editTags == old(editTags)
    {
      if isCreating {
        store.AddNote(DraftNote(editTitle, editContent, editTags), newId, createdNow, now);
      } else if editingId.Some? && editingId.value != "" {
        store.UpdateNote(editingId.value, EditPatch(editTitle, editContent, editTags), now);
      }
      editingId := None;
      isCreating := false;
    }

    /** `cancelEdit`: close the editor without saving. */
    method CancelEdit()
      modifies this
      ensures Valid()
      ensures editingId == None && !isCreating
      ensures searchTerm == old(searchTerm) && editTitle == old(editTitle)
      ensures editContent == old(editContent) && editTags == old(editTags)
    {
      editingId := None;
      isCreating := false;
    }
  }

  /** Opening a stored note and saving it untouched changes nothing but its
      `updatedAt` (for a note with a non-empty id and clean tags). Any other
      note sharing its id receives its title, content and tags, since
      `updateNote` rewrites every note with that id; the rest of the store is
      unchanged. */
  method ReopenAndSave(store: AppStore, editor: NotesEditor, i: nat, newId: string, now: string)
    requires i < |store.notes|
    requires store.notes[i].id != ""
    requires forall t :: t in store.notes[i].tags ==> IsCleanTag(t)
    modifies store, editor
    ensures |store.notes| == |old(store.notes)|
    ensures store.notes[i] == old(store.notes)[i].(updatedAt := now)
    ensures forall j :: 0 <= j < |store.notes| && old(store.notes)[j].id == old(store.notes)[i].id ==>
              store.notes[j] == old(store.notes)[j].(title := old(store.notes)[i].title,
                                                     content := old(store.notes)[i].content,
                                                     tags := old(store.notes)[i].tags,
                                                     updatedAt := now)
    ensures forall j :: 0 <= j < |store.notes| && old(store.notes)[j].id != old(store.notes)[i].id ==>
              store.notes[j] == old(store.notes)[j]
    ensures store.user == old(store.user) && store.devices == old(store.devices)
    ensures store.checklists == old(store.checklists) && store.scripts == old(store.scripts)
    ensures editor.editingId == None && !editor.isCreating
  {
    var n := store.notes[i];
    editor.StartEdit(n);
    editor.SaveNote(store, newId, now, now);
    UnchangedEditKeepsNote(n, now);
    EditedTagsRoundTrip(n.tags);
  }
}
