/** The dashboard's search panel (src/components/features/SearchResultsPanel.tsx):
    on mount it keeps the 15 newest resources and their distinct tags; tag
    buttons toggle a selection; the cards shown are the resources carrying a
    selected tag, or the recent ones when nothing is selected, at most five
    of each kind on screen. */
module SearchPanel {
  import opened Common
  import opened LocalLibrary

  const RecentLimit: nat := 15
  const ShownLimit: nat := 5

  /** The panel's state: the recent list and its tags (set once, on mount)
      and the selected tags. */
  datatype Panel = Panel(resources: seq<Resource>, selectedTags: seq<string>, availableTags: seq<string>)

  /** The mount effect on the stored list: the recent resources and their
      distinct tags, with nothing selected. */
  function Mount(stored: seq<Resource>): (p: Panel)
  {
    var recent := RecentResources(stored, RecentLimit);
    Panel(recent, [], Distinct(TagsOf(recent)))
  }

  /** After mounting, the panel holds at most 15 stored resources, newest
      first, and its tags are those of these resources, each once. */
  lemma MountProperties(stored: seq<Resource>)
    ensures var p := Mount(stored);
      && |p.resources| <= RecentLimit
      && |p.resources| == (if |stored| < RecentLimit then |stored| else RecentLimit)
      && NonIncreasingBy(p.resources, DateKey)
      && (forall r :: r in p.resources ==> r in stored)
      && p.selectedTags == []
      && NoDuplicates(p.availableTags)
      && (forall t :: t in p.availableTags <==> exists i :: 0 <= i < |p.resources| && t in p.resources[i].tags)
  {
    var p := Mount(stored);
    RecentResourcesProperties(stored, RecentLimit);
    DistinctProperties(TagsOf(p.resources));
    forall t ensures t in p.availableTags <==> exists i :: 0 <= i < |p.resources| && t in p.resources[i].tags {
      InTagsOf(p.resources, t);
    }
  }

  /** `handleTagClick`: the selection is toggled; nothing else changes. */
  function Click(p: Panel, tag: string): (q: Panel)
  {
    p.(selectedTags := Toggle(p.selectedTags, tag))
  }

  /** A click flips the clicked tag's membership, keeps the others, keeps
      the selection free of repeats and leaves the recent list and the tags
      alone; clicking an unselected tag twice restores the panel. */
  lemma ClickProperties(p: Panel, tag: string)
    ensures var q := Click(p, tag);
      && q.resources == p.resources && q.availableTags == p.availableTags
      && (tag in q.selectedTags <==> tag !in p.selectedTags)
      && (forall t :: t != tag ==> (t in q.selectedTags <==> t in p.selectedTags))
      && (NoDuplicates(p.selectedTags) ==> NoDuplicates(q.selectedTags))
      && (tag !in p.selectedTags ==> Click(q, tag) == p)
  {
    ToggleProperties(p.selectedTags, tag);
  }

  /** `filteredResources` on the list stored at render time: the resources
      carrying a selected tag when any is selected, else the recent list. */
  function Filtered(p: Panel, stored: seq<Resource>): seq<Resource>
  {
    if |p.selectedTags| > 0 then ResourcesByTags(stored, p.selectedTags) else p.resources
  }

  /** What is on screen: the first five tag buttons and the first five cards. */
  datatype View = View(tagButtons: seq<string>, cards: seq<Resource>)

  function Render(p: Panel, stored: seq<Resource>): (v: View)
  {
    View(Take(p.availableTags, ShownLimit), Take(Filtered(p, stored), ShownLimit))
  }

  /** At most five buttons, the leading available tags in order; at most
      five cards, each carrying a selected tag when there is a selection and
      otherwise among the recent resources; and the cards are the five
      leading matches whenever there are that many. */
  lemma RenderProperties(p: Panel, stored: seq<Resource>)
    ensures var v := Render(p, stored);
      && |v.tagButtons| <= ShownLimit && |v.cards| <= ShownLimit
      && v.tagButtons == p.availableTags[..|v.tagButtons|]
      && (p.selectedTags != [] ==> forall r :: r in v.cards ==> r in stored && HasAnyTag(r, p.selectedTags))
      && (p.selectedTags == [] ==> v.cards == p.resources[..|v.cards|])
      && (|Filtered(p, stored)| >= ShownLimit ==> |v.cards| == ShownLimit)
      && (|Filtered(p, stored)| < ShownLimit ==> v.cards == Filtered(p, stored))
  {
    var v := Render(p, stored);
    if p.selectedTags != [] {
      ResourcesByTagsProperties(stored, p.selectedTags);
      var f := Filtered(p, stored);
      forall r | r in v.cards ensures r in stored && HasAnyTag(r, p.selectedTags) {
        assert r in f;
      }
    }
  }

  /** The buttons shown right after mounting are the first five distinct
      tags of the recent list, and the cards the five newest resources. */
  lemma MountedRender(stored: seq<Resource>)
    ensures var v := Render(Mount(stored), stored);
      && v.cards == Take(RecentResources(stored, RecentLimit), ShownLimit)
      && forall t :: t in v.tagButtons ==> exists r :: r in stored && t in r.tags
  {
    var p := Mount(stored);
    MountProperties(stored);
    var v := Render(p, stored);
    forall t | t in v.tagButtons ensures exists r :: r in stored && t in r.tags {
      assert t in p.availableTags;
      var i :| 0 <= i < |p.resources| && t in p.resources[i].tags;
      assert p.resources[i] in stored;
    }
  }
}
