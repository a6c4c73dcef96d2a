/** The quick "Save Resource" dialog (src/components/features/SaveModal.tsx):
    url, title, type, the tag field and notes; submitting a form with both a
    url and a title saves it into the browser library and closes the dialog. */
module QuickSave {
  import opened Common
  import opened TagInput
  import opened LocalLibrary

  /** What the dialog hands to `saveResource`: no thumbnail or content, an
      empty summary, and the notes text as typed (possibly empty). */
  function QuickDraft(title: string, url: string, kind: ResourceType, tags: seq<string>, notes: string): Draft
  {
    Draft(title, url, kind, None, Some(""), None, tags, Some(notes))
  }

  class QuickSaveDialog {
    var url: string
    var title: string
    var kind: ResourceType
    var notes: string
    /** The tag field with its list of added tags. */
    const editor: TagEditor
    /** The browser library `saveResource` writes to. */
    const store: Storage
    /** Whether `onClose` was called. */
    var closed: bool

    predicate Valid()
      reads editor
    {
      editor.Valid()
    }

    constructor(store: Storage)
      ensures url == "" && title == "" && kind == Article && notes == "" && !closed
      ensures editor.tags == [] && editor.tagInput == "" && fresh(editor)
      ensures this.store == store
      ensures Valid()
    {
      url, title, kind, notes := "", "", Article, "";
      editor := new TagEditor();
      this.store := store;
      closed := false;
    }

    /** `handleSubmit`: without a url or a title nothing happens; otherwise
        the draft is saved (stamped with `id` and `now`), so that the stored
        list gains exactly that resource at its end, and the dialog closes. */
    method Submit(id: string, now: int)
      requires Valid()
      modifies this, store
      ensures url == old(url) && title == old(title) && kind == old(kind) && notes == old(notes)
      ensures url == "" || title == "" ==> store.items == old(store.items) && closed == old(closed)
      ensures url != "" && title != "" && store.hasWindow ==>
        store.Resources() == old(store.Resources()) + [Stamp(QuickDraft(title, url, kind, editor.tags, notes), id, now)]
      ensures url != "" && title != "" ==> closed
      ensures Valid()
    {
      if url == "" || title == "" {
        return;
      }
      var r := store.SaveResource(QuickDraft(title, url, kind, editor.tags, notes), id, now);
      closed := true;
    }
  }
}
