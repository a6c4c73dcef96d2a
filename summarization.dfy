/** The summarization worker (src/lib/workers/summarizationWorker.ts): for a
    resource with a url it marks the row 'processing', turns the page into
    plain text, asks the completion service for a summary and stores it with
    status 'completed', or 'failed' when the summary is empty or a database
    call throws. A batch of at most five pending rows is processed at start,
    and each newly inserted row without a summary afterwards.
    The fetched pages, the completion service, database exceptions and the
    clock are inputs (`Env`). */
module Summarization {
  import opened Common

  // ---------------------------------------------------------------------------
  // Page text

  /** No `<` is followed, anywhere later, by a `>`: no complete tag is left. */
  predicate NoTag(s: string)
  {
    forall i, j :: 0 <= i < j < |s| && s[i] == '<' ==> s[j] != '>'
  }

  /** `replace(/<[^>]*>/g, ' ')`: every `<` up to the first `>` after it
      becomes one space; a `<` with no `>` after it stays, as does the rest. */
  function StripTags(s: string): (r: string)
    ensures |r| <= |s|
    ensures '>' in r ==> '>' in s
    ensures '<' !in s ==> r == s
    ensures NoTag(r)
    decreases |s|
  {
    if s == [] then []
    else if s[0] == '<' && IndexOf(s, ">").Some? then
      var k := IndexOf(s, ">").value;
      assert s[k..k + 1] == ">" && s[k] == '>';
      var rest := StripTags(s[k + 1..]);
      assert '>' in rest ==> '>' in s by {
        if '>' in rest {
          var j :| 0 <= j < |s[k + 1..]| && s[k + 1..][j] == '>';
          assert s[k + 1 + j] == '>';
        }
      }
      assert forall j :: 0 < j < |[' '] + rest| ==> ([' '] + rest)[j] == rest[j - 1];
      [' '] + rest
    else
      var rest := StripTags(s[1..]);
      assert '>' in rest ==> '>' in s by {
        if '>' in rest {
          var j :| 0 <= j < |s[1..]| && s[1..][j] == '>';
          assert s[1 + j] == '>';
        }
      }
      if s[0] == '<' then
        assert '>' !in s by {
          if '>' in s {
            var j :| 0 <= j < |s| && s[j] == '>';
            assert StartsWith(s[j..], ">");
          }
        }
        assert '>' !in rest;
        [s[0]] + rest
      else
        assert forall j :: 0 < j < |[s[0]] + rest| ==> ([s[0]] + rest)[j] == rest[j - 1];
        [s[0]] + rest
  }

  /** `fetchPageContent`: the page with its tags replaced, whitespace runs
      collapsed and both ends trimmed; '' when the fetch fails (`page` None). */
  function PageText(page: Option<string>): (t: string)
    ensures NoDoubleSpace(t)
    ensures t == [] || (!IsSpace(t[0]) && !IsSpace(t[|t| - 1]))
    ensures page.None? ==> t == ""
    ensures page.Some? ==> (t == "" <==> IsBlank(StripTags(page.value)))
  {
    match page
    case None => ""
    case Some(html) =>
      var collapsed := CollapseSpaces(StripTags(html));
      CollapseSpacesProperties(StripTags(html));
      NoDoubleSpaceTrim(collapsed);
      CollapseBlankIff(StripTags(html));
      TrimEmptyIffBlank(collapsed);
      Trim(collapsed)
  }

  // ---------------------------------------------------------------------------
  // Summary

  const MaxPromptContent: nat := 4000

  /** The user message: only the first 4000 characters of the content are sent. */
  function Prompt(content: string): (p: string)
    ensures |p| <= 31 + MaxPromptContent
    ensures StartsWith(p, "Please summarize this content: ")
  {
    "Please summarize this content: " + Take(content, MaxPromptContent)
  }

  /** Content that agrees on its first 4000 characters gives the same prompt. */
  lemma PromptSeesOnlyPrefix(a: string, b: string)
    requires |a| >= MaxPromptContent && |b| >= MaxPromptContent
    requires a[..MaxPromptContent] == b[..MaxPromptContent]
    ensures Prompt(a) == Prompt(b)
  {
  }

  /** `generateSummary`: the completion's text, or '' when the call throws
      (Err) or returns no text. `complete` is the completion service. */
  function Summary(content: string, complete: string -> Result<Option<string>>): (s: string)
    ensures s != "" ==> complete(Prompt(content)) == Ok(Some(s))
    ensures s == "" <==> !(complete(Prompt(content)).Ok? && Truthy(complete(Prompt(content)).value))
  {
    match complete(Prompt(content))
    case Err(_) => ""
    case Ok(text) => OrElse([text], "")
  }

  // ---------------------------------------------------------------------------
  // Status writes

  /** `summary_status`. */
  datatype Status = Pending | Processing | Completed | Failed

  /** The row fields the worker reads and writes. */
  datatype Row = Row(id: string, url: Option<string>, summary: Option<string>, status: Status, summaryUpdatedAt: Option<int>)

  /** One `update(...)`: the status alone, or summary, status and time together. */
  datatype Patch = StatusOnly(status: Status) | Full(summary: string, status: Status, at: int)

  function Apply(r: Row, p: Patch): (r': Row)
    ensures r'.id == r.id && r'.url == r.url && r'.status == p.status
    ensures p.StatusOnly? ==> r'.summary == r.summary && r'.summaryUpdatedAt == r.summaryUpdatedAt
    ensures p.Full? ==> r'.summary == Some(p.summary) && r'.summaryUpdatedAt == Some(p.at)
  {
    match p
    case StatusOnly(s) => r.(status := s)
    case Full(sum, s, at) => r.(summary := Some(sum), status := s, summaryUpdatedAt := Some(at))
  }

  /** `update(p).eq('id', id)`: every row with that id is patched, the others are kept. */
  function Update(rows: seq<Row>, id: string, p: Patch): (rows': seq<Row>)
    ensures |rows'| == |rows|
    ensures forall i :: 0 <= i < |rows| ==> rows'[i] == (if rows[i].id == id then Apply(rows[i], p) else rows[i])
  {
    seq(|rows|, i requires 0 <= i < |rows| => if rows[i].id == id then Apply(rows[i], p) else rows[i])
  }

  /** A later write of a row overrides an earlier status-only write. */
  lemma UpdateOverrides(rows: seq<Row>, id: string, s: Status, p: Patch)
    ensures Update(Update(rows, id, StatusOnly(s)), id, p) == Update(rows, id, p)
  {
    var once := Update(rows, id, StatusOnly(s));
    forall i | 0 <= i < |rows|
      ensures Update(once, id, p)[i] == Update(rows, id, p)[i]
    {
      if rows[i].id == id {
        assert once[i] == rows[i].(status := s);
      }
    }
  }

  /** The outside world one pass of the worker sees: the page each url
      fetches to (None when the fetch throws), the completion service,
      whether a database call throws while processing a resource id, and the
      clock. */
  datatype Env = Env(
    page: string -> Option<string>,
    complete: string -> Result<Option<string>>,
    throws: string -> bool,
    now: int)

  /** The last write for a resource with a url. */
  function FinalPatch(res: Row, env: Env): (p: Patch)
    requires Truthy(res.url)
    ensures p.status == Completed || p.status == Failed
    ensures env.throws(res.id) ==> p == StatusOnly(Failed)
    ensures !env.throws(res.id) ==> p.Full? && p.at == env.now
    ensures !env.throws(res.id) ==> p.summary == Summary(PageText(env.page(res.url.value)), env.complete)
    ensures p.status == Completed <==> !env.throws(res.id) && p.summary != ""
  {
    if env.throws(res.id) then StatusOnly(Failed)
    else
      var summary := Summary(PageText(env.page(res.url.value)), env.complete);
      Full(summary, if summary != "" then Completed else Failed, env.now)
  }

  /** `processResource` on the table, as one function of the old rows. */
  function ProcessOne(rows: seq<Row>, res: Row, env: Env): seq<Row>
  {
    if !Truthy(res.url) then rows else Update(rows, res.id, FinalPatch(res, env))
  }

  /** The status writes `processResource` issues, in order. */
  function StatusWrites(res: Row, env: Env): seq<(string, Status)>
  {
    if !Truthy(res.url) then [] else [(res.id, Processing), (res.id, FinalPatch(res, env).status)]
  }

  /** The status machine: a resource without a url is left alone; with a
      url, its rows end 'completed' with a non-empty summary, or 'failed',
      never 'processing' or 'pending'; other rows are untouched. */
  lemma ProcessOneOutcome(rows: seq<Row>, res: Row, env: Env)
    ensures |ProcessOne(rows, res, env)| == |rows|
    ensures !Truthy(res.url) ==> ProcessOne(rows, res, env) == rows
    ensures forall i :: 0 <= i < |rows| && rows[i].id != res.id ==> ProcessOne(rows, res, env)[i] == rows[i]
    ensures Truthy(res.url) ==> forall i :: 0 <= i < |rows| && rows[i].id == res.id ==>
      var r := ProcessOne(rows, res, env)[i];
      && (r.status == Completed || r.status == Failed)
      && (r.status == Completed ==> r.summary.Some? && r.summary.value != "")
      && (!env.throws(res.id) ==> r.summaryUpdatedAt == Some(env.now))
    ensures StatusWrites(res, env) != [] ==> StatusWrites(res, env)[0] == (res.id, Processing)
  {
  }

  // ---------------------------------------------------------------------------
  // The worker

  const BatchLimit: nat := 5

  predicate IsPending(r: Row)
  {
    r.summary.None? && r.status == Pending
  }

  /** `.is('summary', null).eq('summary_status', 'pending').limit(5)`, taking
      rows in table order. */
  function PendingBatch(rows: seq<Row>): seq<Row>
  {
    Take(Filter(rows, IsPending), BatchLimit)
  }

  /** The batch holds at most five rows, each a pending row of the table,
      in table order; with at most five pending rows it holds them all. */
  lemma PendingBatchProperties(rows: seq<Row>)
    ensures |PendingBatch(rows)| <= BatchLimit
    ensures forall r :: r in PendingBatch(rows) ==> r in rows && IsPending(r)
    ensures IsSubsequence(PendingBatch(rows), Filter(rows, IsPending))
    ensures |Filter(rows, IsPending)| <= BatchLimit ==>
      forall r :: r in rows && IsPending(r) ==> r in PendingBatch(rows)
  {
    var pending := Filter(rows, IsPending);
    var batch := PendingBatch(rows);
    assert forall r :: r in batch ==> r in pending;
    TakeIsSubsequence(pending, BatchLimit);
  }

  lemma {:induction false} TakeIsSubsequence<T>(xs: seq<T>, n: nat)
    ensures IsSubsequence(Take(xs, n), xs)
  {
    if n < |xs| {
      PrefixIsSubsequence(xs, n);
    } else {
      PrefixIsSubsequence(xs, |xs|);
      assert xs[..|xs|] == xs;
    }
  }

  lemma {:induction false} PrefixIsSubsequence<T>(xs: seq<T>, n: nat)
    requires n <= |xs|
    ensures IsSubsequence(xs[..n], xs)
    decreases n
  {
    if n > 0 {
      PrefixIsSubsequence(xs[1..], n - 1);
      assert xs[..n][1..] == xs[1..][..n - 1];
    }
  }

  /** The batch processed one resource after another. */
  function ProcessAll(rows: seq<Row>, batch: seq<Row>, env: Env): seq<Row>
  {
    if batch == [] then rows
    else ProcessOne(ProcessAll(rows, batch[..|batch| - 1], env), batch[|batch| - 1], env)
  }

  function AllStatusWrites(batch: seq<Row>, env: Env): seq<(string, Status)>
  {
    if batch == [] then []
    else AllStatusWrites(batch[..|batch| - 1], env) + StatusWrites(batch[|batch| - 1], env)
  }

  /** One more resource of the batch is one more `processResource`. */
  lemma ProcessAllSnoc(rows: seq<Row>, batch: seq<Row>, i: nat, env: Env)
    requires i < |batch|
    ensures ProcessAll(rows, batch[..i + 1], env) == ProcessOne(ProcessAll(rows, batch[..i], env), batch[i], env)
    ensures AllStatusWrites(batch[..i + 1], env) == AllStatusWrites(batch[..i], env) + StatusWrites(batch[i], env)
  {
    var done := batch[..i + 1];
    assert done[..i] == batch[..i] && done[i] == batch[i];
  }

  /** Processing a batch leaves every row whose id is not in the batch as it was. */
  lemma {:induction false} ProcessAllKeepsOthers(rows: seq<Row>, batch: seq<Row>, env: Env, i: nat)
    requires i < |rows| && forall r :: r in batch ==> r.id != rows[i].id
    ensures |ProcessAll(rows, batch, env)| == |rows|
    ensures ProcessAll(rows, batch, env)[i] == rows[i]
  {
    if batch != [] {
      var init := batch[..|batch| - 1];
      assert forall r :: r in init ==> r in batch;
      ProcessAllKeepsOthers(rows, init, env, i);
      ProcessOneOutcome(ProcessAll(rows, init, env), batch[|batch| - 1], env);
    }
  }

  /** The resources table as the worker sees it, with the log of status writes. */
  class ResourceTable {
    var rows: seq<Row>
    var statusLog: seq<(string, Status)>

    constructor(rows: seq<Row>)
      ensures this.rows == rows && statusLog == []
    {
      this.rows := rows;
      statusLog := [];
    }

    /** `processResource`: mark 'processing', summarise, then write the
        summary, or mark 'failed' when a database call throws. */
    method ProcessResource(res: Row, env: Env)
      modifies this
      ensures rows == ProcessOne(old(rows), res, env)
      ensures statusLog == old(statusLog) + StatusWrites(res, env)
    {
      if !Truthy(res.url) {
        return;
      }
      rows := Update(rows, res.id, StatusOnly(Processing));
      statusLog := statusLog + [(res.id, Processing)];
      if env.throws(res.id) {
        UpdateOverrides(old(rows), res.id, Processing, StatusOnly(Failed));
        rows := Update(rows, res.id, StatusOnly(Failed));
        statusLog := statusLog + [(res.id, Failed)];
        return;
      }
      var content := PageText(env.page(res.url.value));
      var summary := Summary(content, env.complete);
      var patch := Full(summary, if summary != "" then Completed else Failed, env.now);
      UpdateOverrides(old(rows), res.id, Processing, patch);
      rows := Update(rows, res.id, patch);
      statusLog := statusLog + [(res.id, patch.status)];
    }

    /** `processPendingResources`: nothing when the query fails, otherwise
        each resource of the pending batch in turn. */
    method ProcessPending(queryFails: bool, env: Env)
      modifies this
      ensures queryFails ==> rows == old(rows) && statusLog == old(statusLog)
      ensures !queryFails ==> rows == ProcessAll(old(rows), PendingBatch(old(rows)), env)
      ensures !queryFails ==> statusLog == old(statusLog) + AllStatusWrites(PendingBatch(old(rows)), env)
    {
      if queryFails {
        return;
      }
      ProcessBatch(PendingBatch(rows), env);
    }

    /** Each resource of the batch in turn. */
    method ProcessBatch(batch: seq<Row>, env: Env)
      modifies this
      ensures rows == ProcessAll(old(rows), batch, env)
      ensures statusLog == old(statusLog) + AllStatusWrites(batch, env)
    {
      ghost var rows0, log0 := rows, statusLog;
      for i := 0 to |batch|
        invariant rows == ProcessAll(rows0, batch[..i], env)
        invariant statusLog == log0 + AllStatusWrites(batch[..i], env)
      {
        ProcessAllSnoc(rows0, batch, i, env);
        ProcessResource(batch[i], env);
      }
      assert batch[..|batch|] == batch;
    }

    /** The INSERT subscription: a new row is processed only when it has no summary. */
    method OnInsert(res: Row, env: Env)
      modifies this
      ensures Truthy(res.summary) ==> rows == old(rows) && statusLog == old(statusLog)
      ensures !Truthy(res.summary) ==> rows == ProcessOne(old(rows), res, env)
      ensures !Truthy(res.summary) ==> statusLog == old(statusLog) + StatusWrites(res, env)
    {
      if !Truthy(res.summary) {
        ProcessResource(res, env);
      }
    }
  }
}
