/** The scripts page (client/src/pages/scripts.tsx): the search over name,
    description and tags, the editor that creates or updates a script, and
    the colour given to each language. Deleting a script calls the store
    directly; copying to the clipboard is not modelled. */
module Scripts {
  import opened Collections
  import opened Text
  import opened Records
  import opened Tags
  import opened Store

  /** The search: name, description or some tag contains the term, ignoring case. */
  predicate ScriptMatches(s: Script, term: string)
  {
    IncludesFolded(s.name, term) || IncludesFolded(s.description, term) || AnyTagIncludes(s.tags, term)
  }

  function ScriptShown(term: string): Script -> bool
  {
    s => ScriptMatches(s, term)
  }

  /** `scripts.filter(...)`: exactly the matching scripts, in store order. */
  function FilterScripts(ss: seq<Script>, term: string): (r: seq<Script>)
    ensures forall s :: s in r <==> s in ss && ScriptMatches(s, term)
    ensures forall s :: multiset(r)[s] == if ScriptMatches(s, term) then multiset(ss)[s] else 0
    ensures IsSubsequence(r, ss)
  {
    KeepCounts(ss, ScriptShown(term));
    KeepOrder(ss, ScriptShown(term));
    Keep(ss, ScriptShown(term))
  }

  /** With an empty search every script is listed, and the search ignores the case of the term. */
  lemma FilterScriptsLaws(ss: seq<Script>, term: string)
    ensures FilterScripts(ss, "") == ss
    ensures FilterScripts(ss, ToLower(term)) == FilterScripts(ss, term)
  {
    forall s | s in ss ensures ScriptShown("")(s) {
      IncludesFoldedEmpty(s.name);
    }
    KeepAll(ss, ScriptShown(""));
    ToLowerIdempotent(term);
    forall s | s in ss ensures ScriptShown(ToLower(term))(s) == ScriptShown(term)(s) {
      AnyTagIncludesLaws(s.tags, term);
    }
    KeepCongruent(ss, ScriptShown(ToLower(term)), ScriptShown(term));
  }

  const DefaultColor := "text-muted-foreground"

  /** `getLangColor`: the colour class of a language literal. */
  function LangColor(lang: string): (r: string)
    ensures lang == "bash" ==> r == "text-green-500"
    ensures lang == "python" ==> r == "text-yellow-500"
    ensures lang == "powershell" ==> r == "text-blue-500"
    ensures lang == "javascript" ==> r == "text-yellow-300"
    ensures lang != "bash" && lang != "python" && lang != "powershell" && lang != "javascript" ==>
              r == DefaultColor
  {
    if lang == "bash" then "text-green-500"
    else if lang == "python" then "text-yellow-500"
    else if lang == "powershell" then "text-blue-500"
    else if lang == "javascript" then "text-yellow-300"
    else DefaultColor
  }

  /** Each of the four named languages has a colour of its own, distinct from
      the others; only `other` falls back to the muted default. */
  lemma LangColorDistinct(a: Language, b: Language)
    ensures LangColor(LanguageName(a)) == DefaultColor <==> a == OtherLanguage
    ensures a != OtherLanguage && a != b ==> LangColor(LanguageName(a)) != LangColor(LanguageName(b))
  {
  }

  /** `editName || "Untitled Script"`. */
  function CreatedName(name: string): (r: string)
    ensures r != ""
    ensures name != "" ==> r == name
    ensures name == "" ==> r == "Untitled Script"
  {
    if name == "" then "Untitled Script" else name
  }

  /** The script body a new script starts from. */
  const Template := "#!/bin/bash\n\n# Your script here"

  /** The object `saveScript` passes to `addScript`; the store stamps id and times. */
  function DraftScript(name: string, desc: string, lang: Language, content: string, tagsField: string): (s: Script)
    ensures s.name == CreatedName(name) && s.description == desc && s.language == lang
    ensures s.content == content && s.tags == ParseTagList(tagsField)
    ensures s.linkedDeviceIds == None && s.linkedChecklistIds == None
  {
    Script("", CreatedName(name), lang, desc, content, ParseTagList(tagsField), "", "", None, None)
  }

  /** `{ name, description, language, content, tags }`, the patch passed to `updateScript`. */
  function ScriptEditPatch(name: string, desc: string, lang: Language, content: string, tagsField: string): ScriptPatch
  {
    ScriptPatch(None, Some(name), Some(lang), Some(desc), Some(content), Some(ParseTagList(tagsField)),
                None, None, None, None)
  }

  /** Saving a script opened in the editor without changing anything only moves
      its `updatedAt`, as long as its tags were clean. */
  lemma UnchangedEditKeepsScript(s: Script, now: string)
    requires forall t :: t in s.tags ==> IsCleanTag(t)
    ensures MergeScriptAt(s, ScriptEditPatch(s.name, s.description, s.language, s.content, Join(s.tags, ", ")), now)
         == s.(updatedAt := now)
  {
    EditedTagsRoundTrip(s.tags);
  }

  /** The editor's state. `editingId` is `None` for `null`. */
  class ScriptsEditor {
    var searchTerm: string
    var editingId: Option<string>
    var isCreating: bool
    var editName: string
    var editDesc: string
    var editContent: string
    var editLang: Language
    var editTags: string

    /** While creating, the editor's id is the placeholder `"new"`. */
    predicate Valid()
      reads this
    {
      isCreating ==> editingId == Some("new")
    }

    constructor ()
      ensures Valid()
      ensures searchTerm == "" && editingId == None && !isCreating
      ensures editName == "" && editDesc == "" && editContent == "" && editLang == Bash && editTags == ""
    {
      searchTerm := "";
      editingId := None;
      isCreating := false;
      editName := "";
      editDesc := "";
      editContent := "";
      editLang := Bash;
      editTags := "";
    }

    /** The scripts listed for the current search. */
    function Shown(store: AppStore): seq<Script>
      reads this, store
    {
      FilterScripts(store.scripts, searchTerm)
    }

    /** `startEdit`: load the script into the fields, tags joined with `", "`. */
    method StartEdit(script: Script)
      modifies this
      ensures Valid()
      ensures editingId == Some(script.id) && !isCreating
      ensures editName == script.name && editDesc == script.description && editContent == script.content
      ensures editLang == script.language && editTags == Join(script.tags, ", ")
      ensures searchTerm == old(searchTerm)
    {
      editingId := Some(script.id);
      editName := script.name;
      editDesc := script.description;
      editContent := script.content;
      editLang := script.language;
      editTags := Join(script.tags, ", ");
      isCreating := false;
    }

    /** `startCreate`: a bash template under the placeholder id. */
    method StartCreate()
      modifies this
      ensures Valid()
      ensures editingId == Some("new") && isCreating
      ensures editName == "" && editDesc == "" && editContent == Template && editLang == Bash && editTags == ""
      ensures searchTerm == old(searchTerm)
    {
      editingId := Some("new");
      editName := "";
      editDesc := "";
      editContent := Template;
      editLang := Bash;
      editTags := "";
      isCreating := true;
    }

    /** `saveScript`: in create mode add a script; otherwise, when the editing id
        is a non-empty string, update that script's name, description, language,
        content and tags; then close the editor. `createdNow` and `now` are the
        clock reads of `addScript` in create mode; `updateScript` reads `now`. */
    method SaveScript(store: AppStore, newId: string, createdNow: string, now: string)
      requires Valid()
      modifies this, store
      ensures Valid()
      ensures old(isCreating) ==>
        store.scripts == old(store.scripts) +
          [StampedScript(DraftScript(old(editName), old(editDesc), old(editLang), old(editContent), old(editTags)), newId, createdNow, now)]
      ensures !old(isCreating) && old(editingId).Some? && old(editingId).value != "" ==>
        store.scripts == UpdatedScripts(old(store.scripts), old(editingId).value,
          ScriptEditPatch(old(editName), old(editDesc), old(editLang), old(editContent), old(editTags)), now)
      ensures !old(isCreating) && (old(editingId) == None || old(editingId) == Some("")) ==>
        store.scripts == old(store.scripts)
      ensures store.Persisted() == old(store.Persisted()) && store.user == old(store.user)
      ensures editingId == None && !isCreating
      ensures searchTerm == old(searchTerm) && editName == old(editName) && editDesc == old(editDesc)
      ensures editContent == old(editContent) && editLang == old(editLang) && editTags == old(editTags)
    {
      if isCreating {
        store.AddScript(DraftScript(editName, editDesc, editLang, editContent, editTags), newId, createdNow, now);
      } else if editingId.Some? && editingId.value != "" {
        store.UpdateScript(editingId.value, ScriptEditPatch(editName, editDesc, editLang, editContent, editTags), now);
      }
      editingId := None;
      isCreating := false;
    }

    /** `cancelEdit`: close the editor without saving. */
    method CancelEdit()
      modifies this
      ensures Valid()
      ensures editingId == None && !isCreating
      ensures searchTerm == old(searchTerm) && editName == old(editName) && editDesc == old(editDesc)
      ensures editContent == old(editContent) && editLang == old(editLang) && editTags == old(editTags)
    {
      editingId := None;
      isCreating := false;
    }
  }

  /** Opening a stored script and saving it untouched changes nothing but its
      `updatedAt` (for a script with a non-empty id and clean tags). Any other
      script sharing its id receives its name, language, description, content
      and tags, since `updateScript` rewrites every script with that id; the
      rest of the store is unchanged. */
  method ReopenAndSave(store: AppStore, editor: ScriptsEditor, i: nat, newId: string, now: string)
    requires i < |store.scripts|
    requires store.scripts[i].id != ""
    requires forall t :: t in store.scripts[i].tags ==> IsCleanTag(t)
    modifies store, editor
    ensures |store.scripts| == |old(store.scripts)|
    ensures store.scripts[i] == old(store.scripts)[i].(updatedAt := now)
    ensures forall j :: 0 <= j < |store.scripts| && old(store.scripts)[j].id == old(store.scripts)[i].id ==>
              store.scripts[j] == old(store.scripts)[j].(name := old(store.scripts)[i].name,
                                                         language := old(store.scripts)[i].language,
                                                         description := old(store.scripts)[i].description,
                                                         content := old(store.scripts)[i].content,
                                                         tags := old(store.scripts)[i].tags,
                                                         updatedAt := now)
    ensures forall j :: 0 <= j < |store.scripts| && old(store.scripts)[j].id != old(store.scripts)[i].id ==>
              store.scripts[j] == old(store.scripts)[j]
    ensures store.Persisted() == old(store.Persisted()) && store.user == old(store.user)
    ensures editor.editingId == None && !editor.isCreating
  {
    var s := store.scripts[i];
    editor.StartEdit(s);
    editor.SaveScript(store, newId, now, now);
    UnchangedEditKeepsScript(s, now);
    EditedTagsRoundTrip(s.tags);
  }
}
