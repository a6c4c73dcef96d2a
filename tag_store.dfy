/** The client store of tags (src/lib/stores/tagStore.ts): the tag list,
    kept in name order, and the links between tags and resources. Each
    action marks the store loading with no error and ends the loading
    whatever the database answered; the answers are inputs of the actions.

    Names are compared by `localeCompare`, modelled as a rank: `rank(a) <
    rank(b)` when a sorts before b, equal ranks for names it treats as equal. */
module TagStore {
  import opened Common

  /** A `tags` row. */
  datatype Tag = Tag(id: string, name: string, userId: string)

  /** A `tags` insert, passed through unchanged. */
  datatype TagFields = TagFields(name: string, userId: Option<string>)

  /** The database calls the store makes. */
  datatype Call =
    | FetchAll
    | Insert(fields: TagFields)
    | Link(resourceId: string, tagId: string)
    | Unlink(resourceId: string, tagId: string)

  /** The comparator `a.name.localeCompare(b.name)` as a key for `SortDesc`:
      a larger key sorts first, so the name's rank is negated. */
  function ByName(rank: string -> int): Tag -> int
  {
    (t: Tag) => -rank(t.name)
  }

  /** `[...tags].sort(...)`: the stable sort of the tags by name. */
  function SortByName(tags: seq<Tag>, rank: string -> int): seq<Tag>
  {
    SortDesc(tags, ByName(rank))
  }

  /** Tags in non-decreasing name order. */
  predicate InNameOrder(tags: seq<Tag>, rank: string -> int)
  {
    forall a, b :: 0 <= a < b < |tags| ==> rank(tags[a].name) <= rank(tags[b].name)
  }

  /** Sorting by name yields the same tags, each as often as before, in
      name order. */
  lemma SortByNameProperties(tags: seq<Tag>, rank: string -> int)
    ensures var r := SortByName(tags, rank);
      && multiset(r) == multiset(tags) && |r| == |tags| && InNameOrder(r, rank)
  {
    SortDescSorted(tags, ByName(rank));
    var r := SortByName(tags, rank);
    forall a, b | 0 <= a < b < |r| ensures rank(r[a].name) <= rank(r[b].name) {
      assert ByName(rank)(r[a]) >= ByName(rank)(r[b]);
    }
  }

  /** A created tag joins the list: one more tag, the new one among them,
      the old ones all kept, and the whole list in name order. */
  lemma CreatedTagProperties(tags: seq<Tag>, created: Tag, rank: string -> int)
    ensures var r := SortByName(tags + [created], rank);
      && |r| == |tags| + 1
      && multiset(r) == multiset(tags) + multiset{created}
      && created in r
      && (forall t :: t in tags ==> t in r)
      && InNameOrder(r, rank)
  {
    SortByNameProperties(tags + [created], rank);
    var r := SortByName(tags + [created], rank);
    assert created in multiset(r);
    forall t | t in tags ensures t in r {
      assert t in multiset(tags + [created]);
    }
  }

  class Store {
    var tags: seq<Tag>
    var loading: bool
    var error: Option<string>
    /** The database calls made so far, in order. */
    var calls: seq<Call>

    constructor()
      ensures tags == [] && !loading && error.None? && calls == []
    {
      tags, loading, error, calls := [], false, None, [];
    }

    /** `fetchTags`: the returned rows, which the query orders by name (none
        for a null answer), replace the list. */
    method FetchTags(answer: Result<Option<seq<Tag>>>)
      modifies this
      ensures calls == old(calls) + [FetchAll] && !loading
      ensures answer.Ok? ==> error.None? && tags == (if answer.value.Some? then answer.value.value else [])
      ensures answer.Err? ==> error == Some(answer.message) && tags == old(tags)
    {
      loading, error := true, None;
      calls := calls + [FetchAll];
      match answer {
        case Ok(data) =>
          tags, loading := if data.Some? then data.value else [], false;
        case Err(message) =>
          error, loading := Some(message), false;
      }
    }

    /** `createTag`: the returned row is appended and the list sorted again
        by name (see `CreatedTagProperties`). */
    method CreateTag(fields: TagFields, answer: Result<Tag>, rank: string -> int)
      modifies this
      ensures calls == old(calls) + [Insert(fields)] && !loading
      ensures answer.Ok? ==> error.None? && tags == SortByName(old(tags) + [answer.value], rank)
      ensures answer.Err? ==> error == Some(answer.message) && tags == old(tags)
    {
      loading, error := true, None;
      calls := calls + [Insert(fields)];
      match answer {
        case Ok(row) =>
          tags, loading := SortByName(tags + [row], rank), false;
        case Err(message) =>
          error, loading := Some(message), false;
      }
    }

    /** `addTagToResource`: a link row is inserted; the tag list stays as it is. */
    method AddTagToResource(resourceId: string, tagId: string, failure: Option<string>)
      modifies this
      ensures calls == old(calls) + [Link(resourceId, tagId)] && !loading && tags == old(tags)
      ensures error == failure
    {
      loading, error := true, None;
      calls := calls + [Link(resourceId, tagId)];
      if failure.Some? {
        error := failure;
      }
      loading := false;
    }

    /** `removeTagFromResource`: the link row is deleted; the tag list stays as it is. */
    method RemoveTagFromResource(resourceId: string, tagId: string, failure: Option<string>)
      modifies this
      ensures calls == old(calls) + [Unlink(resourceId, tagId)] && !loading && tags == old(tags)
      ensures error == failure
    {
      loading, error := true, None;
      calls := calls + [Unlink(resourceId, tagId)];
      if failure.Some? {
        error := failure;
      }
      loading := false;
    }

    /** `clearError`: only the error is cleared. */
    method ClearError()
      modifies this
      ensures error.None? && tags == old(tags) && loading == old(loading) && calls == old(calls)
    {
      error := None;
    }
  }
}
