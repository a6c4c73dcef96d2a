/** The client store of the user's collections
    (src/lib/stores/collectionStore.ts). As in the resource store, each
    backend action marks the store loading with no error, calls the
    database, and then applies the returned rows or records the error
    message, ending the loading either way. The database's answers are
    inputs of the actions. */
module CollectionStore {
  import opened Common
  import opened StoreRows

  /** A `collections` row; `resources` holds the linked resource ids when
      the row was read together with its `resource_collections` links. */
  datatype Collection = Collection(
    id: string,
    name: string,
    description: Option<string>,
    userId: string,
    resources: Option<seq<string>>)

  function IdOf(c: Collection): string
  {
    c.id
  }

  /** A `collections` insert or update, passed through unchanged. */
  datatype CollectionFields = CollectionFields(name: Option<string>, description: Option<string>, userId: Option<string>)

  /** The database calls the store makes. */
  datatype Call =
    | FetchAll
    | FetchOne(id: string)
    | Insert(fields: CollectionFields)
    | UpdateCall(id: string, fields: CollectionFields)
    | DeleteCall(id: string)
    | Link(collectionId: string, resourceId: string)
    | Unlink(collectionId: string, resourceId: string)

  class Store {
    var collections: seq<Collection>
    var loading: bool
    var error: Option<string>
    var selectedCollection: Option<Collection>
    /** The database calls made so far, in order. */
    var calls: seq<Call>

    constructor()
      ensures collections == [] && !loading && error.None? && selectedCollection.None? && calls == []
    {
      collections, loading, error, selectedCollection, calls := [], false, None, None, [];
    }

    /** `fetchCollections`: the returned rows, newest first as the query
        orders them (none for a null answer), replace the list. */
    method FetchCollections(answer: Result<Option<seq<Collection>>>)
      modifies this
      ensures calls == old(calls) + [FetchAll] && !loading
      ensures answer.Ok? ==> error.None? && collections == (if answer.value.Some? then answer.value.value else [])
      ensures answer.Err? ==> error == Some(answer.message) && collections == old(collections)
      ensures selectedCollection == old(selectedCollection)
    {
      loading, error := true, None;
      calls := calls + [FetchAll];
      match answer {
        case Ok(data) =>
          collections, loading := if data.Some? then data.value else [], false;
        case Err(message) =>
          error, loading := Some(message), false;
      }
    }

    /** `fetchCollectionById`: the single row, with its resources, becomes
        the selected collection. */
    method FetchCollectionById(id: string, answer: Result<Collection>)
      modifies this
      ensures calls == old(calls) + [FetchOne(id)] && !loading
      ensures answer.Ok? ==> error.None? && selectedCollection == Some(answer.value)
      ensures answer.Err? ==> error == Some(answer.message) && selectedCollection == old(selectedCollection)
      ensures collections == old(collections)
    {
      loading, error := true, None;
      calls := calls + [FetchOne(id)];
      match answer {
        case Ok(row) =>
          selectedCollection, loading := Some(row), false;
        case Err(message) =>
          error, loading := Some(message), false;
      }
    }

    /** `createCollection`: the returned row goes to the front of the list. */
    method CreateCollection(fields: CollectionFields, answer: Result<Collection>)
      modifies this
      ensures calls == old(calls) + [Insert(fields)] && !loading
      ensures answer.Ok? ==> error.None? && collections == [answer.value] + old(collections)
      ensures answer.Err? ==> error == Some(answer.message) && collections == old(collections)
      ensures selectedCollection == old(selectedCollection)
    {
      loading, error := true, None;
      calls := calls + [Insert(fields)];
      match answer {
        case Ok(row) =>
          collections, loading := [row] + collections, false;
        case Err(message) =>
          error, loading := Some(message), false;
      }
    }

    /** `updateCollection`: every row with the id is replaced by the returned
        row, which also becomes the selected collection. */
    method UpdateCollection(id: string, fields: CollectionFields, answer: Result<Collection>)
      modifies this
      ensures calls == old(calls) + [UpdateCall(id, fields)] && !loading
      ensures answer.Ok? ==> && error.None?
                             && collections == ReplaceById(old(collections), IdOf, id, answer.value)
                             && selectedCollection == Some(answer.value)
      ensures answer.Err? ==> && error == Some(answer.message)
                              && collections == old(collections) && selectedCollection == old(selectedCollection)
    {
      loading, error := true, None;
      calls := calls + [UpdateCall(id, fields)];
      match answer {
        case Ok(row) =>
          collections, selectedCollection, loading := ReplaceById(collections, IdOf, id, row), Some(row), false;
        case Err(message) =>
          error, loading := Some(message), false;
      }
    }

    /** `deleteCollection`: the rows with the id leave the list and nothing
        is selected any more. `failure` is the error the delete reported. */
    method DeleteCollection(id: string, failure: Option<string>)
      modifies this
      ensures calls == old(calls) + [DeleteCall(id)] && !loading
      ensures failure.None? ==> && error.None?
                                && collections == RemoveById(old(collections), IdOf, id)
                                && selectedCollection.None?
      ensures failure.Some? ==> && error == failure
                                && collections == old(collections) && selectedCollection == old(selectedCollection)
    {
      loading, error := true, None;
      calls := calls + [DeleteCall(id)];
      if failure.Some? {
        error, loading := failure, false;
      } else {
        collections, selectedCollection, loading := RemoveById(collections, IdOf, id), None, false;
      }
    }

    /** `addResourceToCollection`: a link row is inserted and, if that
        succeeds, the collection is fetched again into the selection (its
        own failure is recorded by the fetch); the list is never touched. */
    method AddResourceToCollection(collectionId: string, resourceId: string,
                                   failure: Option<string>, refetched: Result<Collection>)
      modifies this
      ensures failure.Some? ==> && calls == old(calls) + [Link(collectionId, resourceId)]
                                && error == failure && selectedCollection == old(selectedCollection)
      ensures failure.None? ==> calls == old(calls) + [Link(collectionId, resourceId), FetchOne(collectionId)]
      ensures failure.None? && refetched.Ok? ==> error.None? && selectedCollection == Some(refetched.value)
      ensures failure.None? && refetched.Err? ==>
        error == Some(refetched.message) && selectedCollection == old(selectedCollection)
      ensures !loading && collections == old(collections)
    {
      loading, error := true, None;
      calls := calls + [Link(collectionId, resourceId)];
      if failure.Some? {
        error, loading := failure, false;
        return;
      }
      FetchCollectionById(collectionId, refetched);
      loading := false;
    }

    /** `removeResourceFromCollection`: the same as adding, with the link
        row deleted instead. */
    method RemoveResourceFromCollection(collectionId: string, resourceId: string,
                                        failure: Option<string>, refetched: Result<Collection>)
      modifies this
      ensures failure.Some? ==> && calls == old(calls) + [Unlink(collectionId, resourceId)]
                                && error == failure && selectedCollection == old(selectedCollection)
      ensures failure.None? ==> calls == old(calls) + [Unlink(collectionId, resourceId), FetchOne(collectionId)]
      ensures failure.None? && refetched.Ok? ==> error.None? && selectedCollection == Some(refetched.value)
      ensures failure.None? && refetched.Err? ==>
        error == Some(refetched.message) && selectedCollection == old(selectedCollection)
      ensures !loading && collections == old(collections)
    {
      loading, error := true, None;
      calls := calls + [Unlink(collectionId, resourceId)];
      if failure.Some? {
        error, loading := failure, false;
        return;
      }
      FetchCollectionById(collectionId, refetched);
      loading := false;
    }

    /** `clearError`: only the error is cleared. */
    method ClearError()
      modifies this
      ensures error.None?
      ensures collections == old(collections) && loading == old(loading)
      ensures selectedCollection == old(selectedCollection) && calls == old(calls)
    {
      error := None;
    }
  }
}
