/** The tag field shared by the quick-save and edit dialogs
    (src/components/features/SaveModal.tsx and
    src/components/features/EditResourceModal.tsx): the typed text and the
    list of tags added so far. */
module TagInput {
  import opened Common

  /** A tag as the field produces it: non-empty, no whitespace at either end. */
  predicate IsTag(t: string)
  {
    t != "" && !IsSpace(t[0]) && !IsSpace(t[|t| - 1])
  }

  /** `handleAddTag` on values: the trimmed input is appended and the input
      cleared when it is non-blank and not yet a tag; otherwise nothing changes. */
  function Added(tags: seq<string>, input: string): (r: (seq<string>, string))
    ensures r == (tags, input) || (r == (tags + [Trim(input)], "") && Trim(input) !in tags)
    ensures r.0 != tags <==> Trim(input) != "" && Trim(input) !in tags
    ensures r.0 != tags ==> IsTag(Trim(input))
  {
    var t := Trim(input);
    if t != "" && t !in tags then (tags + [t], "") else (tags, input)
  }

  /** Adding and then removing the added tag gives back the old list. */
  lemma AddThenRemove(tags: seq<string>, input: string)
    requires Added(tags, input).0 != tags
    ensures RemoveAll(Added(tags, input).0, Trim(input)) == tags
  {
    RemoveAllAppend(tags, Trim(input), Trim(input));
  }

  class TagEditor {
    var tags: seq<string>
    var tagInput: string

    /** The tags are distinct and each is a trimmed non-empty string. */
    predicate Valid()
      reads this
    {
      NoDuplicates(tags) && forall t :: t in tags ==> IsTag(t)
    }

    constructor()
      ensures tags == [] && tagInput == "" && Valid()
    {
      tags := [];
      tagInput := "";
    }

    method SetInput(s: string)
      modifies this
      ensures tagInput == s && tags == old(tags)
    {
      tagInput := s;
    }

    method AddTag()
      requires Valid()
      modifies this
      ensures (tags, tagInput) == Added(old(tags), old(tagInput))
      ensures Valid()
    {
      var t := Trim(tagInput);
      if t != "" && t !in tags {
        AppendFreshKeepsNoDuplicates(tags, t);
        assert IsTag(t);
        tags := tags + [t];
        tagInput := "";
      }
    }

    /** `handleKeyDown`: Enter adds the typed tag, other keys do nothing. */
    method KeyDown(key: string)
      requires Valid()
      modifies this
      ensures key == "Enter" ==> (tags, tagInput) == Added(old(tags), old(tagInput))
      ensures key != "Enter" ==> tags == old(tags) && tagInput == old(tagInput)
      ensures Valid()
    {
      if key == "Enter" {
        AddTag();
      }
    }

    /** The ✕ button: `prev.filter(t => t !== tag)`. */
    method RemoveTag(tag: string)
      requires Valid()
      modifies this
      ensures tags == RemoveAll(old(tags), tag) && tagInput == old(tagInput)
      ensures IsSubsequence(tags, old(tags)) && multiset(tags) == multiset(old(tags))[tag := 0]
      ensures Valid()
    {
      RemoveAllKeepsNoDuplicates(tags, tag);
      RemoveAllKeepsOrder(tags, tag);
      RemoveAllCounts(tags, tag);
      tags := RemoveAll(tags, tag);
    }
  }
}
