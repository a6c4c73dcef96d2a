/** The save dialog of the resource form (src/components/save/SaveModal.tsx):
    the title, url, type and comma-separated tags fields, the per-field
    error messages, validation, submission through the library's
    `saveResource`, and error clearing on edit. Whether a url parses is the
    `validUrl` parameter; whether the save throws is an input. */
module SaveForm {
  import opened Common

  /** The trimmed pieces of the text between commas. */
  function TrimAll(pieces: seq<string>): (r: seq<string>)
    ensures |r| == |pieces| && forall i :: 0 <= i < |pieces| ==> r[i] == Trim(pieces[i])
  {
    seq(|pieces|, i requires 0 <= i < |pieces| => Trim(pieces[i]))
  }

  function NonEmpty(t: string): bool
  {
    |t| > 0
  }

  /** Every trimmed piece has no comma, and the trimmed pieces are exactly
      the trims of the pieces. */
  lemma TrimAllFacts(pieces: seq<string>)
    requires forall i :: 0 <= i < |pieces| ==> ',' !in pieces[i]
    ensures forall t :: t in TrimAll(pieces) ==> ',' !in t
    ensures forall t :: t in TrimAll(pieces) <==> exists p :: p in pieces && Trim(p) == t
  {
    var trimmed := TrimAll(pieces);
    forall i | 0 <= i < |pieces| ensures ',' !in trimmed[i] {
      TrimKeepsChars(pieces[i]);
    }
    forall t | t in trimmed ensures exists p :: p in pieces && Trim(p) == t {
      var i :| 0 <= i < |trimmed| && trimmed[i] == t;
      assert pieces[i] in pieces;
    }
    forall t | exists p :: p in pieces && Trim(p) == t ensures t in trimmed {
      var p :| p in pieces && Trim(p) == t;
      var i :| 0 <= i < |pieces| && pieces[i] == p;
      assert trimmed[i] == t;
    }
  }

  /** `tags.split(',').map(tag => tag.trim()).filter(tag => tag.length > 0)`:
      the non-blank comma-separated pieces, trimmed, in order. */
  function ParseTags(text: string): seq<string>
  {
    Filter(TrimAll(Split(text, ',')), NonEmpty)
  }

  /** Each parsed tag is non-empty, has no whitespace at either end and no
      comma, and the tags are exactly the non-empty trims of the pieces. */
  lemma ParseTagsMembers(text: string)
    ensures forall t :: t in ParseTags(text) ==> t != "" && !IsSpace(t[0]) && !IsSpace(t[|t| - 1]) && ',' !in t
    ensures forall t :: t in ParseTags(text) <==> t != "" && exists p :: p in Split(text, ',') && Trim(p) == t
  {
    var pieces := Split(text, ',');
    var trimmed := TrimAll(pieces);
    var r := ParseTags(text);
    TrimAllFacts(pieces);
    forall t | t in r
      ensures t != "" && !IsSpace(t[0]) && !IsSpace(t[|t| - 1]) && ',' !in t
    {
      assert t in trimmed && NonEmpty(t);
      var p :| p in pieces && Trim(p) == t;
    }
    forall t | t != "" && exists p :: p in pieces && Trim(p) == t
      ensures t in r
    {
      assert t in trimmed && NonEmpty(t);
    }
  }

  /** Text without a comma is one tag, or none when it is blank. */
  lemma ParseTagsSingle(text: string)
    requires ',' !in text
    ensures Trim(text) != "" ==> ParseTags(text) == [Trim(text)]
    ensures Trim(text) == "" ==> ParseTags(text) == []
  {
    SplitWithout(text, ',');
    var trimmed := TrimAll(Split(text, ','));
    assert trimmed == [Trim(text)];
  }

  /** The validation messages `validateForm` records, keyed by field. */
  function FormErrors(title: string, url: string, kind: string, validUrl: string -> bool): map<string, string>
  {
    var e0: map<string, string> := map[];
    var e1 := if Trim(title) == "" then e0["title" := "Title is required"] else e0;
    var e2 := if Trim(url) == "" then e1["url" := "URL is required"]
              else if !validUrl(url) then e1["url" := "Invalid URL format"]
              else e1;
    if kind == "" then e2["type" := "Type is required"] else e2
  }

  /** A title and url that are not blank, a url that parses, and a type. */
  predicate FormValid(title: string, url: string, kind: string, validUrl: string -> bool)
  {
    Trim(title) != "" && Trim(url) != "" && validUrl(url) && kind != ""
  }

  /** Which messages validation records: a blank title, a blank or
      unparsable url, an empty type; nothing else. The form is valid exactly
      when none of these holds. */
  lemma FormErrorsMessages(title: string, url: string, kind: string, validUrl: string -> bool)
    ensures var e := FormErrors(title, url, kind, validUrl);
      && ("title" in e <==> Trim(title) == "")
      && ("title" in e ==> e["title"] == "Title is required")
      && ("url" in e <==> Trim(url) == "" || !validUrl(url))
      && (Trim(url) == "" ==> e["url"] == "URL is required")
      && (Trim(url) != "" && !validUrl(url) ==> e["url"] == "Invalid URL format")
      && ("type" in e <==> kind == "")
      && ("type" in e ==> e["type"] == "Type is required")
      && e.Keys <= {"title", "url", "type"}
    ensures |FormErrors(title, url, kind, validUrl)| == 0 <==> FormValid(title, url, kind, validUrl)
  {
    var e := FormErrors(title, url, kind, validUrl);
    if Trim(title) == "" {
      assert "title" in e;
    } else if Trim(url) == "" || !validUrl(url) {
      assert "url" in e;
    } else if kind == "" {
      assert "type" in e;
    } else {
      assert e == map[];
    }
  }

  /** What `saveResource` receives: title and url as typed, the parsed tags. */
  datatype Submission = Submission(title: string, url: string, kind: string, tags: seq<string>)

  /** The form fields that `handleChange` can address by input name. */
  datatype Field = TitleField | UrlField | TypeField | TagsField

  function Key(f: Field): string
  {
    match f
    case TitleField => "title"
    case UrlField => "url"
    case TypeField => "type"
    case TagsField => "tags"
  }

  class SaveModal {
    var title: string
    var url: string
    var kind: string
    var tagsText: string
    var errors: map<string, string>
    var isSaving: bool
    /** Whether `onClose` was called. */
    var closed: bool
    /** The calls made to `saveResource`, oldest first. */
    var saved: seq<Submission>

    constructor()
      ensures title == "" && url == "" && kind == "article" && tagsText == ""
      ensures errors == map[] && !isSaving && !closed && saved == []
    {
      title, url, kind, tagsText := "", "", "article", "";
      errors := map[];
      isSaving, closed := false, false;
      saved := [];
    }

    /** `validateForm`: records the messages and reports whether there are
        none, that is (by `FormErrorsMessages`) whether the form is valid. */
    method Validate(validUrl: string -> bool) returns (ok: bool)
      modifies this
      ensures errors == FormErrors(title, url, kind, validUrl)
      ensures ok <==> |errors| == 0
      ensures title == old(title) && url == old(url) && kind == old(kind) && tagsText == old(tagsText)
      ensures isSaving == old(isSaving) && closed == old(closed) && saved == old(saved)
    {
      var newErrors: map<string, string> := map[];
      ghost var e0 := newErrors;
      if Trim(title) == "" {
        newErrors := newErrors["title" := "Title is required"];
      }
      ghost var e1 := newErrors;
      assert e1 == if Trim(title) == "" then e0["title" := "Title is required"] else e0;
      if Trim(url) == "" {
        newErrors := newErrors["url" := "URL is required"];
      } else if !validUrl(url) {
        newErrors := newErrors["url" := "Invalid URL format"];
      }
      ghost var e2 := newErrors;
      assert e2 == if Trim(url) == "" then e1["url" := "URL is required"]
                   else if !validUrl(url) then e1["url" := "Invalid URL format"] else e1;
      if kind == "" {
        newErrors := newErrors["type" := "Type is required"];
      }
      assert newErrors == if kind == "" then e2["type" := "Type is required"] else e2;
      errors := newErrors;
      ok := |newErrors| == 0;
    }

    /** The save step of `handleSubmit`, once the form is valid: the
        submission is recorded, then either the dialog closes or every
        message is replaced by the single 'submit' message. */
    method Save(submission: Submission, saveFails: bool)
      modifies this
      ensures saved == old(saved) + [submission] && !isSaving
      ensures saveFails ==> errors == map["submit" := "Failed to save resource"] && closed == old(closed)
      ensures !saveFails ==> errors == old(errors) && closed
      ensures title == old(title) && url == old(url) && kind == old(kind) && tagsText == old(tagsText)
    {
      isSaving := true;
      saved := saved + [submission];
      if saveFails {
        errors := map["submit" := "Failed to save resource"];
      } else {
        closed := true;
      }
      isSaving := false;
    }

    /** `handleSubmit`: an invalid form saves nothing; a valid one is saved
        with its parsed tags, then the dialog closes, or on a failed save all
        errors are replaced by the single 'submit' message. */
    method Submit(validUrl: string -> bool, saveFails: bool)
      modifies this
      ensures title == old(title) && url == old(url) && kind == old(kind) && tagsText == old(tagsText)
      ensures !FormValid(title, url, kind, validUrl) ==>
        && errors == FormErrors(title, url, kind, validUrl)
        && saved == old(saved) && closed == old(closed) && isSaving == old(isSaving)
      ensures FormValid(title, url, kind, validUrl) ==>
        && saved == old(saved) + [Submission(title, url, kind, ParseTags(tagsText))]
        && !isSaving
        && (saveFails ==> errors == map["submit" := "Failed to save resource"] && closed == old(closed))
        && (!saveFails ==> |errors| == 0 && closed)
    {
      var ok := Validate(validUrl);
      FormErrorsMessages(title, url, kind, validUrl);
      if ok {
        Save(Submission(title, url, kind, ParseTags(tagsText)), saveFails);
      }
    }

    /** `handleChange`: stores the value and blanks that field's message if
        it had a non-empty one; every other field and message is kept. */
    method Change(f: Field, value: string)
      modifies this
      ensures title == (if f == TitleField then value else old(title))
      ensures url == (if f == UrlField then value else old(url))
      ensures kind == (if f == TypeField then value else old(kind))
      ensures tagsText == (if f == TagsField then value else old(tagsText))
      ensures Key(f) in old(errors) && old(errors)[Key(f)] != "" ==> errors == old(errors)[Key(f) := ""]
      ensures !(Key(f) in old(errors) && old(errors)[Key(f)] != "") ==> errors == old(errors)
      ensures isSaving == old(isSaving) && closed == old(closed) && saved == old(saved)
    {
      match f {
        case TitleField => title := value;
        case UrlField => url := value;
        case TypeField => kind := value;
        case TagsField => tagsText := value;
      }
      var name := Key(f);
      if name in errors && errors[name] != "" {
        errors := errors[name := ""];
      }
    }
  }

  /** Editing a field leaves every other field's message as it was. */
  lemma ChangeKeepsOtherErrors(errors: map<string, string>, name: string, k: string)
    requires k != name
    ensures var e := if name in errors && errors[name] != "" then errors[name := ""] else errors;
      (k in e <==> k in errors) && (k in e ==> e[k] == errors[k])
  {
  }
}
