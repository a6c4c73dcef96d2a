/** The search page (src/components/search/SearchPage.tsx): a text query and
    a list of selected tags choose the results from the browser library, and
    the tag chips offered are the distinct tags of the current results. */
module SearchPage {
  import opened Common
  import opened LocalLibrary

  /** The effect that fills `allTags`: every tag of every result is added to
      an insertion-ordered set. The outcome is the distinct tags in order of
      first appearance: each tag of some result, exactly once. */
  method AllTags(resources: seq<Resource>) returns (tags: seq<string>)
    ensures tags == Distinct(TagsOf(resources))
    ensures NoDuplicates(tags)
    ensures forall t :: t in tags <==> exists i :: 0 <= i < |resources| && t in resources[i].tags
  {
    tags := [];
    for i := 0 to |resources|
      invariant tags == Distinct(TagsOf(resources[..i]))
    {
      var rtags := resources[i].tags;
      ghost var prefix := TagsOf(resources[..i]);
      assert prefix + rtags[..0] == prefix;
      for j := 0 to |rtags|
        invariant tags == Distinct(prefix + rtags[..j])
      {
        DistinctProperties(prefix + rtags[..j]);
        DistinctAppend(prefix + rtags[..j], rtags[j]);
        assert prefix + rtags[..j + 1] == (prefix + rtags[..j]) + [rtags[j]];
        if rtags[j] !in tags {
          tags := tags + [rtags[j]];
        }
      }
      assert resources[..i + 1][..i] == resources[..i];
      assert rtags[..|rtags|] == rtags;
    }
    assert resources[..|resources|] == resources;
    DistinctProperties(TagsOf(resources));
    forall t ensures t in tags <==> exists i :: 0 <= i < |resources| && t in resources[i].tags {
      InTagsOf(resources, t);
    }
  }

  /** The result effect: the resources carrying any selected tag when a tag
      is selected, otherwise the text search (nothing for an empty query). */
  function Results(stored: seq<Resource>, selectedTags: seq<string>, query: string): (res: seq<Resource>)
    ensures IsSubsequence(res, stored)
    ensures selectedTags != [] ==> forall r :: r in res <==> r in stored && HasAnyTag(r, selectedTags)
    ensures selectedTags == [] && query == [] ==> res == []
    ensures selectedTags == [] && query != [] ==> forall r :: r in res <==> r in stored && Matches(r, ToLower(query))
  {
    ResourcesByTagsProperties(stored, selectedTags);
    SearchResourcesProperties(stored, query);
    if |selectedTags| > 0 then ResourcesByTags(stored, selectedTags) else SearchResources(stored, query)
  }

  /** The page state once its effects have run. */
  class SearchView {
    var searchQuery: string
    var selectedTags: seq<string>
    var resources: seq<Resource>
    var allTags: seq<string>
    const store: Storage

    /** The shown results and tags follow the query, the selection and the
        library, and the selection has no repeats. */
    predicate Valid()
      reads this, store
    {
      && NoDuplicates(selectedTags)
      && resources == Results(store.Resources(), selectedTags, searchQuery)
      && allTags == Distinct(TagsOf(resources))
    }

    /** Reruns the two effects: results first, then their tags. */
    method Refresh()
      modifies this
      ensures resources == Results(store.Resources(), selectedTags, searchQuery)
      ensures allTags == Distinct(TagsOf(resources))
      ensures searchQuery == old(searchQuery) && selectedTags == old(selectedTags)
    {
      resources := Results(store.Resources(), selectedTags, searchQuery);
      allTags := AllTags(resources);
    }

    constructor(store: Storage)
      ensures this.store == store && searchQuery == "" && selectedTags == []
      ensures resources == [] && allTags == []
      ensures Valid()
    {
      this.store := store;
      searchQuery, selectedTags := "", [];
      resources := Results(store.Resources(), [], "");
      allTags := [];
    }

    /** Typing in the search box. */
    method SetQuery(q: string)
      requires Valid()
      modifies this
      ensures searchQuery == q && selectedTags == old(selectedTags)
      ensures Valid()
    {
      searchQuery := q;
      Refresh();
    }

    /** `handleTagClick`: a selected tag is removed, another one appended. */
    method TagClick(tag: string)
      requires Valid()
      modifies this
      ensures selectedTags == Toggle(old(selectedTags), tag) && searchQuery == old(searchQuery)
      ensures tag in selectedTags <==> tag !in old(selectedTags)
      ensures Valid()
    {
      ToggleProperties(selectedTags, tag);
      selectedTags := Toggle(selectedTags, tag);
      Refresh();
    }
  }

  /** Selecting 'react' and then 'hooks' gives both, in that order;
      clicking 'react' again leaves 'hooks'. */
  lemma SelectTwoTags()
    ensures Toggle(Toggle([], "react"), "hooks") == ["react", "hooks"]
    ensures Toggle(["react", "hooks"], "react") == ["hooks"]
  {
    assert "hooks" != "react";
    assert Toggle(["react", "hooks"], "react") == RemoveAll(["react", "hooks"], "react");
    RemoveAllAppend(["react"], "hooks", "react");
    assert ["react", "hooks"] == ["react"] + ["hooks"];
    assert RemoveAll(["react"], "react") == [];
  }
}
