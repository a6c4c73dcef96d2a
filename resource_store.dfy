/** The client store of the signed-in user's resources
    (src/lib/stores/resourceStore.ts). Each backend action marks the store
    loading with no error, calls the database, and then either applies the
    returned rows or records the error message; loading ends either way.
    The database's answer is an input of each action. */
module ResourceStore {
  import opened Common
  import opened StoreRows
  import Summarization

  type Status = Summarization.Status

  /** A `resources` row, reduced to the fields the store or its callers look at. */
  datatype DbResource = DbResource(
    id: string,
    title: string,
    url: Option<string>,
    kind: string,
    description: Option<string>,
    summary: Option<string>,
    summaryStatus: Status)

  function IdOf(r: DbResource): string
  {
    r.id
  }

  /** A `resources` insert: the status may be left to the database. */
  datatype NewResource = NewResource(
    title: string,
    url: Option<string>,
    kind: string,
    description: Option<string>,
    userId: string,
    summaryStatus: Option<Status>)

  /** A row of the `search_resources` function's answer. */
  datatype SearchHit = SearchHit(id: string, title: string, description: Option<string>, similarity: real)

  /** The database calls the store makes; an update's fields are passed
      through unchanged, as a field-name to text map. */
  datatype Call =
    | SearchCall(query: string)
    | FetchAll
    | FetchOne(id: string)
    | Insert(row: NewResource)
    | UpdateCall(id: string, fields: map<string, string>)
    | DeleteCall(id: string)
    | MarkPending(id: string)

  /** The insert `createResource` sends: the caller's row with the status forced to pending. */
  function PendingInsert(r: NewResource): (sent: NewResource)
    ensures sent.summaryStatus == Some(Summarization.Pending)
    ensures sent.(summaryStatus := r.summaryStatus) == r
  {
    r.(summaryStatus := Some(Summarization.Pending))
  }

  class Store {
    var resources: seq<DbResource>
    var loading: bool
    var error: Option<string>
    var searchQuery: string
    var searchResults: seq<SearchHit>
    var selectedResource: Option<DbResource>
    /** The database calls made so far, in order. */
    var calls: seq<Call>

    constructor()
      ensures resources == [] && !loading && error.None? && searchQuery == ""
      ensures searchResults == [] && selectedResource.None? && calls == []
    {
      resources, loading, error, searchQuery := [], false, None, "";
      searchResults, selectedResource, calls := [], None, [];
    }

    method SetSearchQuery(query: string)
      modifies this
      ensures searchQuery == query
      ensures resources == old(resources) && loading == old(loading) && error == old(error)
      ensures searchResults == old(searchResults) && selectedResource == old(selectedResource) && calls == old(calls)
    {
      searchQuery := query;
    }

    /** `searchResources`: a query that trims to nothing, that is an
        all-whitespace one, empties the results without a call
        and without touching loading or error; otherwise the rows the search
        returns (none for a null answer) become the results, or the error is
        recorded. */
    method SearchResources(answer: Result<Option<seq<SearchHit>>>)
      modifies this
      ensures if IsBlank(old(searchQuery)) then
          searchResults == [] && calls == old(calls) && loading == old(loading) && error == old(error)
        else
          && calls == old(calls) + [SearchCall(old(searchQuery))] && !loading
          && (answer.Ok? ==> error.None? && searchResults == (if answer.value.Some? then answer.value.value else []))
          && (answer.Err? ==> error == Some(answer.message) && searchResults == old(searchResults))
      ensures resources == old(resources) && selectedResource == old(selectedResource) && searchQuery == old(searchQuery)
    {
      var query := searchQuery;
      var blank := TrimsToEmpty(query);
      if blank {
        searchResults := [];
      } else {
        loading, error := true, None;
        calls := calls + [SearchCall(query)];
        match answer {
          case Ok(data) =>
            searchResults, loading := if data.Some? then data.value else [], false;
          case Err(message) =>
            error, loading := Some(message), false;
        }
      }
    }

    /** `fetchResources`: the returned rows (none for a null answer) replace the list. */
    method FetchResources(answer: Result<Option<seq<DbResource>>>)
      modifies this
      ensures calls == old(calls) + [FetchAll] && !loading
      ensures answer.Ok? ==> error.None? && resources == (if answer.value.Some? then answer.value.value else [])
      ensures answer.Err? ==> error == Some(answer.message) && resources == old(resources)
      ensures searchQuery == old(searchQuery) && searchResults == old(searchResults)
      ensures selectedResource == old(selectedResource)
    {
      loading, error := true, None;
      calls := calls + [FetchAll];
      match answer {
        case Ok(data) =>
          resources, loading := if data.Some? then data.value else [], false;
        case Err(message) =>
          error, loading := Some(message), false;
      }
    }

    /** `fetchResourceById`: the single row becomes the selected resource. */
    method FetchResourceById(id: string, answer: Result<DbResource>)
      modifies this
      ensures calls == old(calls) + [FetchOne(id)] && !loading
      ensures answer.Ok? ==> error.None? && selectedResource == Some(answer.value)
      ensures answer.Err? ==> error == Some(answer.message) && selectedResource == old(selectedResource)
      ensures resources == old(resources) && searchQuery == old(searchQuery) && searchResults == old(searchResults)
    {
      loading, error := true, None;
      calls := calls + [FetchOne(id)];
      match answer {
        case Ok(row) =>
          selectedResource, loading := Some(row), false;
        case Err(message) =>
          error, loading := Some(message), false;
      }
    }

    /** `createResource`: the row is inserted as pending and the returned
        row goes to the front of the list. */
    method CreateResource(r: NewResource, answer: Result<DbResource>)
      modifies this
      ensures calls == old(calls) + [Insert(PendingInsert(r))] && !loading
      ensures answer.Ok? ==> error.None? && resources == [answer.value] + old(resources)
      ensures answer.Err? ==> error == Some(answer.message) && resources == old(resources)
      ensures selectedResource == old(selectedResource)
      ensures searchQuery == old(searchQuery) && searchResults == old(searchResults)
    {
      loading, error := true, None;
      calls := calls + [Insert(PendingInsert(r))];
      match answer {
        case Ok(row) =>
          resources, loading := [row] + resources, false;
        case Err(message) =>
          error, loading := Some(message), false;
      }
    }

    /** `updateResource`: every row with the id is replaced by the returned
        row, which also becomes the selected resource. */
    method UpdateResource(id: string, fields: map<string, string>, answer: Result<DbResource>)
      modifies this
      ensures calls == old(calls) + [UpdateCall(id, fields)] && !loading
      ensures answer.Ok? ==> && error.None?
                             && resources == ReplaceById(old(resources), IdOf, id, answer.value)
                             && selectedResource == Some(answer.value)
      ensures answer.Err? ==> && error == Some(answer.message)
                              && resources == old(resources) && selectedResource == old(selectedResource)
      ensures searchQuery == old(searchQuery) && searchResults == old(searchResults)
    {
      loading, error := true, None;
      calls := calls + [UpdateCall(id, fields)];
      match answer {
        case Ok(row) =>
          resources, selectedResource, loading := ReplaceById(resources, IdOf, id, row), Some(row), false;
        case Err(message) =>
          error, loading := Some(message), false;
      }
    }

    /** `deleteResource`: the rows with the id leave the list and nothing is
        selected any more. `failure` is the error the delete reported, if any. */
    method DeleteResource(id: string, failure: Option<string>)
      modifies this
      ensures calls == old(calls) + [DeleteCall(id)] && !loading
      ensures failure.None? ==> && error.None?
                                && resources == RemoveById(old(resources), IdOf, id)
                                && selectedResource.None?
      ensures failure.Some? ==> && error == failure
                                && resources == old(resources) && selectedResource == old(selectedResource)
      ensures searchQuery == old(searchQuery) && searchResults == old(searchResults)
    {
      loading, error := true, None;
      calls := calls + [DeleteCall(id)];
      if failure.Some? {
        error, loading := failure, false;
      } else {
        resources, selectedResource, loading := RemoveById(resources, IdOf, id), None, false;
      }
    }

    /** `retrySummary`: the status is set back to pending and the resource is
        fetched again into the selection; the list itself is not refreshed. */
    method RetrySummary(id: string, failure: Option<string>, refetched: Result<DbResource>)
      modifies this
      ensures failure.Some? ==> && calls == old(calls) + [MarkPending(id)]
                                && error == failure && selectedResource == old(selectedResource)
      ensures failure.None? ==> calls == old(calls) + [MarkPending(id), FetchOne(id)]
      ensures failure.None? && refetched.Ok? ==> error.None? && selectedResource == Some(refetched.value)
      ensures failure.None? && refetched.Err? ==>
        error == Some(refetched.message) && selectedResource == old(selectedResource)
      ensures !loading && resources == old(resources)
      ensures searchQuery == old(searchQuery) && searchResults == old(searchResults)
    {
      loading, error := true, None;
      calls := calls + [MarkPending(id)];
      if failure.Some? {
        error, loading := failure, false;
        return;
      }
      FetchResourceById(id, refetched);
      loading := false;
    }

    /** `clearError`: only the error is cleared. */
    method ClearError()
      modifies this
      ensures error.None?
      ensures resources == old(resources) && loading == old(loading) && searchQuery == old(searchQuery)
      ensures searchResults == old(searchResults) && selectedResource == old(selectedResource) && calls == old(calls)
    {
      error := None;
    }
  }
}
