/** The browser-side library of saved resources (src/lib/utils.ts): a typed
    view of `localStorage` under the `techvault_` prefix, saving, the recent /
    by-tag / text queries over the saved list, the first-visit sample data and
    the tag colour hash. */
module LocalLibrary {
  import opened Common

  datatype ResourceType = Tweet | Instagram | Code | Article | Other

  /** A saved resource; `dateAdded` is the ISO timestamp, kept as the
      milliseconds it denotes. */
  datatype Resource = Resource(
    id: string,
    title: string,
    url: string,
    kind: ResourceType,
    thumbnail: Option<string>,
    summary: Option<string>,
    content: Option<string>,
    tags: seq<string>,
    dateAdded: int,
    notes: Option<string>)

  /** A resource before saving: everything except `id` and `dateAdded`. */
  datatype Draft = Draft(
    title: string,
    url: string,
    kind: ResourceType,
    thumbnail: Option<string>,
    summary: Option<string>,
    content: Option<string>,
    tags: seq<string>,
    notes: Option<string>)

  datatype Collection = Collection(
    id: string,
    name: string,
    description: Option<string>,
    icon: Option<string>,
    resources: seq<string>,
    dateCreated: int,
    dateModified: int)

  datatype UserProfile = UserProfile(
    name: string,
    avatar: Option<string>,
    streak: int,
    flashcardsMastered: int,
    activeSessions: int)

  /** The JSON documents the library stores. */
  datatype Value =
    | ResourceList(resources: seq<Resource>)
    | CollectionList(collections: seq<Collection>)
    | Profile(profile: UserProfile)

  /** What `localStorage.getItem` finds under a key: the empty string, text
      that `JSON.parse` rejects, or a document. */
  datatype Item = EmptyText | Malformed | Json(value: Value)

  const StoragePrefix: string := "techvault_"

  function StorageKey(key: string): (r: string)
    ensures |r| == |StoragePrefix| + |key| && r[|StoragePrefix|..] == key
  {
    StoragePrefix + key
  }

  /** Distinct keys are stored under distinct storage keys. */
  lemma StorageKeyInjective(k1: string, k2: string)
    requires k1 != k2
    ensures StorageKey(k1) != StorageKey(k2)
  {
  }

  /** `saveResource`'s new object: the draft with a fresh id and the current time. */
  function Stamp(d: Draft, id: string, now: int): (r: Resource)
    ensures r.id == id && r.dateAdded == now
  {
    Resource(id, d.title, d.url, d.kind, d.thumbnail, d.summary, d.content, d.tags, now, d.notes)
  }

  /** The draft a saved resource came from. */
  function DraftOf(r: Resource): Draft
  {
    Draft(r.title, r.url, r.kind, r.thumbnail, r.summary, r.content, r.tags, r.notes)
  }

  /** Saving keeps every field of the draft. */
  lemma StampKeepsDraft(d: Draft, id: string, now: int)
    ensures DraftOf(Stamp(d, id, now)) == d
  {
  }

  /** `localStorage` as seen by the library. Without a `window` (server
      rendering) nothing is read or written. */
  class Storage {
    const hasWindow: bool
    var items: map<string, Item>

    constructor (hasWindow: bool, items: map<string, Item>)
      ensures this.hasWindow == hasWindow && this.items == items
    {
      this.hasWindow := hasWindow;
      this.items := items;
    }

    /** `getFromStorage`: the parsed document under the prefixed key, or the
        default when there is no window, no item, an empty item or text that
        does not parse. */
    function GetFromStorage(key: string, default: Value): (r: Value)
      reads this
      ensures !hasWindow ==> r == default
      ensures r == default || (StorageKey(key) in items && items[StorageKey(key)] == Json(r))
      ensures hasWindow && StorageKey(key) in items && items[StorageKey(key)].Json? ==>
        r == items[StorageKey(key)].value
    {
      if !hasWindow then default
      else if StorageKey(key) !in items then default
      else match items[StorageKey(key)]
        case Json(v) => v
        case _ => default
    }

    /** `setToStorage`: stores the document under the prefixed key, so that
        reading the key gives it back; every other key reads as before. */
    method SetToStorage(key: string, value: Value)
      modifies this
      ensures hasWindow ==> items == old(items)[StorageKey(key) := Json(value)]
      ensures !hasWindow ==> items == old(items)
      ensures hasWindow ==> forall d :: GetFromStorage(key, d) == value
      ensures forall k, d :: k != key ==> GetFromStorage(k, d) == old(GetFromStorage(k, d))
    {
      if hasWindow {
        items := items[StorageKey(key) := Json(value)];
        forall k, d | k != key ensures GetFromStorage(k, d) == old(GetFromStorage(k, d)) {
          StorageKeyInjective(k, key);
        }
      }
    }

    /** `getResources`: the stored list, or the empty list. */
    function Resources(): seq<Resource>
      reads this
    {
      match GetFromStorage("resources", ResourceList([]))
      case ResourceList(rs) => rs
      case _ => []
    }

    /** `saveResource`: stamps the draft and appends it to the stored list. */
    method SaveResource(d: Draft, id: string, now: int) returns (r: Resource)
      modifies this
      ensures r == Stamp(d, id, now)
      ensures hasWindow ==>
        items == old(items)[StorageKey("resources") := Json(ResourceList(old(Resources()) + [r]))]
      ensures hasWindow ==> Resources() == old(Resources()) + [r]
      ensures !hasWindow ==> items == old(items)
    {
      r := Stamp(d, id, now);
      var rs := Resources();
      SetToStorage("resources", ResourceList(rs + [r]));
    }

    /** `generateMockData`: on an empty library, saves the five sample
        resources in order (ids `idOf(0)` to `idOf(4)`), then the two sample
        collections (ids `idOf(5)`, `idOf(6)`) and the sample profile. */
    method GenerateMockData(idOf: nat -> string, now: int)
      modifies this
      ensures |old(Resources())| > 0 || !hasWindow ==> items == old(items)
      ensures |old(Resources())| == 0 && hasWindow ==>
        && Resources() == MockResources(idOf, now)
        && StorageKey("collections") in items
        && items[StorageKey("collections")] == Json(CollectionList(MockCollections(idOf, now)))
        && StorageKey("profile") in items && items[StorageKey("profile")] == Json(Profile(MockProfile))
        && forall k, d :: k !in {"resources", "collections", "profile"} ==>
             GetFromStorage(k, d) == old(GetFromStorage(k, d))
    {
      var existing := Resources();
      if |existing| > 0 {
        return;
      }
      ghost var start := items;
      var drafts := MockDrafts;
      for i := 0 to |drafts|
        invariant hasWindow ==> Resources() == MockResources(idOf, now)[..i]
        invariant hasWindow ==> forall k, d :: k != "resources" ==>
          GetFromStorage(k, d) == old(GetFromStorage(k, d))
        invariant !hasWindow ==> items == start
      {
        var saved := SaveResource(drafts[i], idOf(i), now);
        assert MockResources(idOf, now)[..i + 1] == MockResources(idOf, now)[..i] + [saved];
      }
      assert MockResources(idOf, now)[..5] == MockResources(idOf, now);
      SetToStorage("collections", CollectionList(MockCollections(idOf, now)));
      SetToStorage("profile", Profile(MockProfile));
    }
  }

  // ---------------------------------------------------------------------------
  // Sample data

  /** The five sample resources, before saving. */
  const MockDrafts: seq<Draft> :=
    [ Draft("Understanding React Hooks", "https://twitter.com/user/status/1234567890", Tweet,
            Some("https://images.unsplash.com/photo-1633356122544-f134324a6cee?w=800&auto=format&fit=crop"),
            Some("Thread explaining how useEffect, useState and useContext work together"),
            None, ["react", "hooks", "javascript"],
            Some("Great explanation of dependency arrays in useEffect")),
      Draft("CSS Grid Layout Techniques", "https://instagram.com/p/abcdef123", Instagram,
            Some("https://images.unsplash.com/photo-1517134191118-9d595e4c8c2b?w=800&auto=format&fit=crop"),
            Some("Visual guide to advanced CSS grid techniques"),
            None, ["css", "grid", "layout"], None),
      Draft("Tailwind CSS Animation Examples", "https://codepen.io/username/pen/123456", Code,
            None,
            Some("Collection of reusable animation classes"),
            Some("const fadeIn = 'animate-fadeIn';\nconst slideIn = 'animate-slideIn';"),
            ["tailwind", "animation", "css"],
            Some("Useful for enhancing UI interactions")),
      Draft("Building a TypeScript Design System", "https://medium.com/article-123456", Article,
            Some("https://images.unsplash.com/photo-1555066931-4365d14bab8c?w=800&auto=format&fit=crop"),
            Some("Comprehensive guide to creating a robust design system with TypeScript"),
            None, ["typescript", "design-system", "frontend"], None),
      Draft("NextJS Server Components Explained", "https://twitter.com/user/status/9876543210", Tweet,
            Some("https://images.unsplash.com/photo-1618761714954-0b8cd0026356?w=800&auto=format&fit=crop"),
            Some("Deep dive thread into how NextJS server components work"),
            None, ["nextjs", "react", "server-components"], None) ]

  function MockResources(idOf: nat -> string, now: int): (r: seq<Resource>)
    ensures |r| == 5
  {
    seq(5, i requires 0 <= i < 5 => Stamp(MockDrafts[i], idOf(i), now))
  }

  /** Name, description and icon of the two sample collections. */
  const MockCollectionTexts: seq<(string, string, string)> :=
    [ ("React Patterns", "Best practices and patterns for React development", "code"),
      ("CSS Techniques", "Advanced CSS layouts and animations", "paintbrush") ]

  /** The two sample collections, empty, with ids `idOf(5)` and `idOf(6)`. */
  function MockCollections(idOf: nat -> string, now: int): (cs: seq<Collection>)
    ensures |cs| == 2
    ensures forall i :: 0 <= i < 2 ==> cs[i].id == idOf(5 + i) && cs[i].resources == [] && cs[i].dateCreated == now
  {
    seq(2, i requires 0 <= i < 2 =>
      var (name, description, icon) := MockCollectionTexts[i];
      Collection(idOf(5 + i), name, Some(description), Some(icon), [], now, now))
  }

  const MockProfile: UserProfile :=
    UserProfile("Dev User",
      Some("https://images.unsplash.com/photo-1535713875002-d1d0cf377fde?w=200&auto=format&fit=crop"),
      5, 42, 2)

  /** The sample resources carry distinct ids when the generator gives
      distinct ids, and each is its sample draft stamped with the time. */
  lemma {:induction false} MockResourcesShape(idOf: nat -> string, now: int)
    requires forall i, j :: 0 <= i < j < 5 ==> idOf(i) != idOf(j)
    ensures forall a, b :: 0 <= a < b < 5 ==> MockResources(idOf, now)[a].id != MockResources(idOf, now)[b].id
    ensures forall a :: 0 <= a < 5 ==>
      DraftOf(MockResources(idOf, now)[a]) == MockDrafts[a] && MockResources(idOf, now)[a].dateAdded == now
  {
    var rs := MockResources(idOf, now);
    forall a | 0 <= a < 5 ensures rs[a].id == idOf(a) && DraftOf(rs[a]) == MockDrafts[a] && rs[a].dateAdded == now {
      StampKeepsDraft(MockDrafts[a], idOf(a), now);
    }
  }

  // ---------------------------------------------------------------------------
  // Queries over the stored list

  function DateKey(r: Resource): int
  {
    r.dateAdded
  }

  /** The end index `Array.prototype.slice(0, limit)` uses on a list of
      length n: a negative limit counts from the end. */
  function SliceEnd(n: nat, limit: int): (e: nat)
    ensures e <= n
  {
    if limit >= 0 then (if limit < n then limit else n)
    else if n + limit > 0 then n + limit else 0
  }

  /** `getRecentResources(limit)` on the stored list rs: newest first, cut by `slice(0, limit)`. */
  function RecentResources(rs: seq<Resource>, limit: int): seq<Resource>
  {
    var sorted := SortDesc(rs, DateKey);
    sorted[..SliceEnd(|sorted|, limit)]
  }

  /** The recent list is newest first, holds only stored resources, has
      min(limit, |rs|) entries for a non-negative limit, and every stored
      resource it leaves out is no newer than the last one it keeps. */
  lemma RecentResourcesProperties(rs: seq<Resource>, limit: int)
    ensures var r := RecentResources(rs, limit);
      && NonIncreasingBy(r, DateKey)
      && (forall x :: x in r ==> x in rs)
      && |r| == SliceEnd(|rs|, limit)
      && (forall x :: x in rs && x !in r ==> r == [] || x.dateAdded <= r[|r| - 1].dateAdded)
  {
    var s := SortDesc(rs, DateKey);
    SortDescSorted(rs, DateKey);
    var r := RecentResources(rs, limit);
    assert r == s[..|r|];
    assert NonIncreasingBy(r, DateKey);
    assert forall x :: x in s <==> x in rs by {
      assert forall x :: x in s <==> x in multiset(s);
      assert forall x :: x in rs <==> x in multiset(rs);
    }
    forall x | x in rs && x !in r ensures r == [] || x.dateAdded <= r[|r| - 1].dateAdded {
      if r != [] {
        SortedPrefixBound(s, |r|, x);
      }
    }
  }

  /** In a newest-first list, an element outside the first n is no newer
      than the n-th. */
  lemma SortedPrefixBound(s: seq<Resource>, n: nat, x: Resource)
    requires NonIncreasingBy(s, DateKey) && 0 < n <= |s| && x in s && x !in s[..n]
    ensures x.dateAdded <= s[n - 1].dateAdded
  {
    var i :| 0 <= i < |s| && s[i] == x;
    assert forall j :: 0 <= j < n ==> s[..n][j] == s[j];
    assert i >= n;
    assert DateKey(s[n - 1]) >= DateKey(s[i]);
  }

  /** The tags of the resources in list order, with repeats
      (`resources.flatMap(r => r.tags)`). */
  function TagsOf(rs: seq<Resource>): seq<string>
  {
    if rs == [] then [] else TagsOf(rs[..|rs| - 1]) + rs[|rs| - 1].tags
  }

  lemma {:induction false} InTagsOf(rs: seq<Resource>, t: string)
    ensures t in TagsOf(rs) <==> exists i :: 0 <= i < |rs| && t in rs[i].tags
  {
    if rs != [] {
      var init := rs[..|rs| - 1];
      InTagsOf(init, t);
      if t in TagsOf(rs) && t !in rs[|rs| - 1].tags {
        var i :| 0 <= i < |init| && t in init[i].tags;
        assert rs[i] == init[i];
      }
      if exists i :: 0 <= i < |rs| && t in rs[i].tags {
        var i :| 0 <= i < |rs| && t in rs[i].tags;
        if i < |rs| - 1 {
          assert init[i] == rs[i];
        }
      }
    }
  }

  predicate HasAnyTag(r: Resource, tags: seq<string>)
  {
    exists t :: t in tags && t in r.tags
  }

  /** `getResourcesByTags(tags)` on the stored list rs. */
  function ResourcesByTags(rs: seq<Resource>, tags: seq<string>): seq<Resource>
  {
    if tags == [] then [] else Filter(rs, r => HasAnyTag(r, tags))
  }

  /** Exactly the stored resources carrying one of the tags, in stored order. */
  lemma ResourcesByTagsProperties(rs: seq<Resource>, tags: seq<string>)
    ensures forall r :: r in ResourcesByTags(rs, tags) <==> r in rs && HasAnyTag(r, tags)
    ensures IsSubsequence(ResourcesByTags(rs, tags), rs)
  {
    if tags == [] {
      assert forall r :: !HasAnyTag(r, tags);
    }
  }

  /** The text fields searched, lower-cased, against an already lower-cased query. */
  predicate Matches(r: Resource, lowerQuery: string)
  {
    || Includes(ToLower(r.title), lowerQuery)
    || (exists t :: t in r.tags && Includes(ToLower(t), lowerQuery))
    || (r.summary.Some? && Includes(ToLower(r.summary.value), lowerQuery))
    || (r.notes.Some? && Includes(ToLower(r.notes.value), lowerQuery))
  }

  /** `searchResources(query)` on the stored list rs. */
  function SearchResources(rs: seq<Resource>, query: string): seq<Resource>
  {
    if query == [] then []
    else
      var lowerQuery := ToLower(query);
      Filter(rs, r => Matches(r, lowerQuery))
  }

  /** An empty query finds nothing; any other finds exactly the stored
      resources whose title, a tag, the summary or the notes contain it,
      ignoring case, in stored order. */
  lemma SearchResourcesProperties(rs: seq<Resource>, query: string)
    ensures query == [] ==> SearchResources(rs, query) == []
    ensures query != [] ==> forall r :: r in SearchResources(rs, query) <==> r in rs && Matches(r, ToLower(query))
    ensures IsSubsequence(SearchResources(rs, query), rs)
  {
  }

  /** The search ignores the case of the query. */
  lemma {:induction false} SearchIgnoresQueryCase(rs: seq<Resource>, query: string)
    ensures SearchResources(rs, ToLower(query)) == SearchResources(rs, query)
  {
    if query != [] {
      ToLowerIdempotent(query);
      var lq := ToLower(query);
      FilterSameVerdicts(rs, r => Matches(r, ToLower(lq)), r => Matches(r, lq));
    }
  }

  // ---------------------------------------------------------------------------
  // Tag colours

  const TwoTo32: int := 0x1_0000_0000

  /** ECMAScript ToInt32 on an integer: the value modulo 2^32, read as signed. */
  function ToInt32(x: int): (r: int)
    ensures -0x8000_0000 <= r < 0x8000_0000
    ensures (x - r) % TwoTo32 == 0
  {
    var m := x % TwoTo32;
    if m >= 0x8000_0000 then m - TwoTo32 else m
  }

  /** One step of the hash: `charCode + ((hash << 5) - hash)`; only the shift
      wraps to 32 bits, the subtraction and addition are exact. */
  function HashStep(hash: int, c: char): int
  {
    c as int + (ToInt32(hash * 32) - hash)
  }

  /** The hash after visiting every character of s from left to right. */
  function Hash(s: string): int
  {
    if s == [] then 0 else HashStep(Hash(s[..|s| - 1]), s[|s| - 1])
  }

  /** `hash % 360` with JavaScript's remainder, which keeps the sign of the
      hash: a value within 360 of zero, with the sign of the hash, that
      differs from the hash by a multiple of 360. */
  function Hue(hash: int): (hue: int)
    ensures -360 < hue < 360
    ensures (hash - hue) % 360 == 0
    ensures hash >= 0 ==> hue >= 0
    ensures hash <= 0 ==> hue <= 0
  {
    if hash >= 0 then hash % 360
    else
      var m := (-hash) % 360;
      assert (hash + m) % 360 == 0 by {
        assert -hash == ((-hash) / 360) * 360 + m;
      }
      -m
  }

  /** `stringToColor`: the hash loop, then an HSL colour with that hue. */
  method StringToColor(s: string) returns (color: string)
    ensures color == "hsl(" + IntToString(Hue(Hash(s))) + ", 70%, 60%)"
  {
    var hash := 0;
    for i := 0 to |s|
      invariant hash == Hash(s[..i])
    {
      assert s[..i + 1][..i] == s[..i];
      hash := s[i] as int + (ToInt32(hash * 32) - hash);
    }
    assert s[..|s|] == s;
    var hue := if hash >= 0 then hash % 360 else -((-hash) % 360);
    color := "hsl(" + IntToString(hue) + ", 70%, 60%)";
  }

  /** Two worked values: "a" hashes to 97 and "ab" to 98 + 31 * 97 = 3105,
      whose hue is 225. */
  lemma HueExamples()
    ensures Hash("") == 0 && Hue(Hash("")) == 0
    ensures Hash("a") == 97 && Hue(Hash("a")) == 97
    ensures Hash("ab") == 3105 && Hue(Hash("ab")) == 225
  {
    assert "a"[..0] == [];
    assert "ab"[..1] == "a";
  }
}
