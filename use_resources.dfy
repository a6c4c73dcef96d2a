/** The older resource store (src/store/useResources.ts). Unlike the store
    in `ResourceStore`, an action only raises `isLoading` when it starts and
    never clears the error: an error stays until a later failure replaces
    it. The database's answers are inputs of the actions. */
module UseResources {
  import opened Common
  import opened StoreRows
  import ResourceStore

  type DbResource = ResourceStore.DbResource
  type NewResource = ResourceStore.NewResource

  /** The database calls the store makes. */
  datatype Call =
    | FetchAll
    | Insert(row: NewResource)
    | UpdateCall(id: string, fields: map<string, string>)
    | DeleteCall(id: string)
    | SearchCall(query: string)
    | ByTags(tagIds: seq<string>)

  class Store {
    var resources: seq<DbResource>
    var isLoading: bool
    /** The message of the last error caught, if any. */
    var error: Option<string>
    /** The database calls made so far, in order. */
    var calls: seq<Call>

    constructor()
      ensures resources == [] && !isLoading && error.None? && calls == []
    {
      resources, isLoading, error, calls := [], false, None, [];
    }

    /** `fetchResources`: the returned rows replace the list. */
    method FetchResources(answer: Result<seq<DbResource>>)
      modifies this
      ensures calls == old(calls) + [FetchAll] && !isLoading
      ensures answer.Ok? ==> resources == answer.value && error == old(error)
      ensures answer.Err? ==> resources == old(resources) && error == Some(answer.message)
    {
      isLoading := true;
      calls := calls + [FetchAll];
      match answer {
        case Ok(data) =>
          resources, isLoading := data, false;
        case Err(message) =>
          error, isLoading := Some(message), false;
      }
    }

    /** `addResource`: the returned row goes to the front of the list. */
    method AddResource(r: NewResource, answer: Result<DbResource>)
      modifies this
      ensures calls == old(calls) + [Insert(r)] && !isLoading
      ensures answer.Ok? ==> resources == [answer.value] + old(resources) && error == old(error)
      ensures answer.Err? ==> resources == old(resources) && error == Some(answer.message)
    {
      isLoading := true;
      calls := calls + [Insert(r)];
      match answer {
        case Ok(row) =>
          resources, isLoading := [row] + resources, false;
        case Err(message) =>
          error, isLoading := Some(message), false;
      }
    }

    /** `updateResource`: every row with the id is replaced by the returned row. */
    method UpdateResource(id: string, fields: map<string, string>, answer: Result<DbResource>)
      modifies this
      ensures calls == old(calls) + [UpdateCall(id, fields)] && !isLoading
      ensures answer.Ok? ==>
        resources == ReplaceById(old(resources), ResourceStore.IdOf, id, answer.value) && error == old(error)
      ensures answer.Err? ==> resources == old(resources) && error == Some(answer.message)
    {
      isLoading := true;
      calls := calls + [UpdateCall(id, fields)];
      match answer {
        case Ok(row) =>
          resources, isLoading := ReplaceById(resources, ResourceStore.IdOf, id, row), false;
        case Err(message) =>
          error, isLoading := Some(message), false;
      }
    }

    /** `deleteResource`: the rows with the id leave the list. */
    method DeleteResource(id: string, failure: Option<string>)
      modifies this
      ensures calls == old(calls) + [DeleteCall(id)] && !isLoading
      ensures failure.None? ==> resources == RemoveById(old(resources), ResourceStore.IdOf, id) && error == old(error)
      ensures failure.Some? ==> resources == old(resources) && error == failure
    {
      isLoading := true;
      calls := calls + [DeleteCall(id)];
      if failure.Some? {
        error, isLoading := failure, false;
      } else {
        resources, isLoading := RemoveById(resources, ResourceStore.IdOf, id), false;
      }
    }

    /** `searchResources`: the matching rows are returned, or none after a
        failure, which is recorded; the list itself is left alone. */
    method SearchResources(query: string, answer: Result<seq<DbResource>>) returns (found: seq<DbResource>)
      modifies this
      ensures calls == old(calls) + [SearchCall(query)] && !isLoading && resources == old(resources)
      ensures answer.Ok? ==> found == answer.value && error == old(error)
      ensures answer.Err? ==> found == [] && error == Some(answer.message)
    {
      isLoading := true;
      calls := calls + [SearchCall(query)];
      match answer {
        case Ok(data) =>
          found, isLoading := data, false;
        case Err(message) =>
          found, error, isLoading := [], Some(message), false;
      }
    }

    /** `getResourcesByTags`: the rows linked to any of the tags are
        returned, or none after a failure, which is recorded; the list itself
        is left alone. */
    method GetResourcesByTags(tagIds: seq<string>, answer: Result<seq<DbResource>>) returns (found: seq<DbResource>)
      modifies this
      ensures calls == old(calls) + [ByTags(tagIds)] && !isLoading && resources == old(resources)
      ensures answer.Ok? ==> found == answer.value && error == old(error)
      ensures answer.Err? ==> found == [] && error == Some(answer.message)
    {
      isLoading := true;
      calls := calls + [ByTags(tagIds)];
      match answer {
        case Ok(data) =>
          found, isLoading := data, false;
        case Err(message) =>
          found, error, isLoading := [], Some(message), false;
      }
    }
  }

  /** An error outlives later successes: after a failed fetch, a successful
      add still reports the fetch's message, while the new row is in place. */
  method StaleErrorExample(s: Store, row: DbResource, r: NewResource)
    modifies s
    ensures s.error == Some("network down")
    ensures s.resources == [row] + old(s.resources)
  {
    s.FetchResources(Err("network down"));
    s.AddResource(r, Ok(row));
  }
}
