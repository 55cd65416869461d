/**
 * One render pass of the deals toolbar: where the current board and pipeline come from
 * (URL, local storage, the server's last used board) and what the pass writes back.
 */
module Selection {
  import opened Wrappers
  import opened QueryParams
  import Router
  import Seqs

  datatype Pipeline = Pipeline(id: string)

  /** A board as the boardGetLast and boardDetail queries return it; `pipelines` may be missing. */
  datatype Board = Board(id: string, pipelines: Option<seq<Pipeline>>)

  /** The part of a query result the pass reads: the loading flag and the board, if one came back. */
  datatype Query = Query(loading: bool, board: Option<Board>)

  /**
   * The query results a pass sees. `lastQuery` and `detailQuery` are `None` when the query is
   * skipped; the boards list is always queried.
   */
  datatype Queries = Queries(boardsLoading: bool, lastQuery: Option<Query>, detailQuery: Option<Query>)

  /**
   * The browser state the pass reads and writes: the URL query, the two local-storage slots
   * ("" when unset or cleared) and the target of a full-page navigation, if one was requested.
   */
  datatype Browser = Browser(params: Params, storedBoard: string, storedPipeline: string, navigation: Option<string>)

  /** What one pass decides. The two redirects and the reset render nothing for this pass. */
  datatype Decision =
    | Placeholder                                   // the boards list is loading: an empty page header
    | Spinner                                       // the board detail or the last board is loading
    | RedirectTo(boardId: Value, pipelineId: Value) // the URL takes this board and pipeline
    | ResetAndNavigate(path: string)                // storage cleared, full navigation to `path`
    | Nothing                                       // no board to show
    | Resolved(board: Board, pipeline: Option<Pipeline>) // the toolbar is shown for this board and pipeline

  const BoardListPath := "/deal/board"

  predicate HasBoardId(m: Params)
  {
    Truthy(Get(m, "id"))
  }

  predicate HasPipelineId(m: Params)
  {
    Truthy(Get(m, "pipelineId"))
  }

  /**
   * The skip rules of the query wiring: the last-used board is queried exactly when the URL has
   * no board id, the board detail exactly when it has one.
   */
  predicate Wired(m: Params, q: Queries)
    ensures Wired(m, q) ==> (q.lastQuery.Some? <==> q.detailQuery.None?)
  {
    && (q.lastQuery.Some? <==> !HasBoardId(m))
    && (q.detailQuery.Some? <==> HasBoardId(m))
  }

  predicate Loading(q: Option<Query>)
  {
    q.Some? && q.value.loading
  }

  function BoardOf(q: Option<Query>): (r: Option<Board>)
  {
    if q.Some? then q.value.board else None
  }

  /** `board.pipelines || []` */
  function PipelinesOf(b: Board): (r: seq<Pipeline>)
  {
    if b.pipelines.Some? then b.pipelines.value else []
  }

  /** `pipe._id === pipelineId`: only a string parameter can be equal to a pipeline id. */
  predicate Matches(want: Option<Value>, p: Pipeline)
  {
    want == Some(Text(p.id))
  }

  /**
   * The current pipeline: with a `pipelineId` in the URL, the first pipeline with that id (none
   * when no pipeline has it); without one, the first pipeline of the board, if any.
   */
  function CurrentPipeline(b: Board, want: Option<Value>): (r: Option<Pipeline>)
    ensures r.Some? ==> r.value in PipelinesOf(b)
    ensures Truthy(want) && r.Some? ==> Matches(want, r.value)
    ensures Truthy(want) && r.None? ==> forall p :: p in PipelinesOf(b) ==> !Matches(want, p)
    ensures !Truthy(want) ==> (r.None? <==> |PipelinesOf(b)| == 0)
  {
    var ps := PipelinesOf(b);
    if Truthy(want) then
      var i := Seqs.FirstIndex(ps, p => Matches(want, p));
      if i < |ps| then Some(ps[i]) else None
    else if |ps| > 0 then Some(ps[0])
    else None
  }

  /** Whether the pass writes the URL's board and pipeline into local storage. */
  predicate Persists(s: Browser, q: Queries)
  {
    !q.boardsLoading && HasBoardId(s.params) && HasPipelineId(s.params)
  }

  /** The decision of one pass, in the order the checks are made. */
  function Decide(s: Browser, q: Queries): (d: Decision)
    requires Wired(s.params, q)
    ensures !q.boardsLoading && (Loading(q.detailQuery) || Loading(q.lastQuery)) ==> d == Spinner
    ensures d.RedirectTo? || d.Nothing? || d.ResetAndNavigate? || d.Resolved? ==>
      !Loading(q.detailQuery) && !Loading(q.lastQuery)
    ensures d == Placeholder <==> q.boardsLoading
    ensures d == Spinner ==> !q.boardsLoading && (Loading(q.detailQuery) || Loading(q.lastQuery))
    ensures !q.boardsLoading && !Loading(q.detailQuery) && HasBoardId(s.params) && BoardOf(q.detailQuery).Some? ==>
      d == Resolved(BoardOf(q.detailQuery).value,
                    CurrentPipeline(BoardOf(q.detailQuery).value, Get(s.params, "pipelineId")))
    ensures (!q.boardsLoading && !Loading(q.lastQuery) && !HasBoardId(s.params) && s.storedBoard == ""
             && (BoardOf(q.lastQuery).None? || |PipelinesOf(BoardOf(q.lastQuery).value)| == 0)) ==>
      d == Nothing
    ensures d.RedirectTo? ==> !HasBoardId(s.params)
    ensures d.ResetAndNavigate? || d.Resolved? ==> HasBoardId(s.params) && !Loading(q.detailQuery)
    ensures d.Resolved? ==> BoardOf(q.detailQuery) == Some(d.board)
    ensures d.Nothing? ==> !HasBoardId(s.params) && s.storedBoard == ""
  {
    var boardId := Get(s.params, "id");
    var pipelineId := Get(s.params, "pipelineId");
    var lastBoard := BoardOf(q.lastQuery);
    var currentBoard := BoardOf(q.detailQuery);
    if q.boardsLoading then Placeholder
    else if Loading(q.detailQuery) then Spinner
    else if Loading(q.lastQuery) then Spinner
    else if !Truthy(boardId) && s.storedBoard != "" then
      RedirectTo(Text(s.storedBoard), Text(s.storedPipeline))
    else if !Truthy(boardId) && lastBoard.Some? && lastBoard.value.pipelines.Some?
         && |lastBoard.value.pipelines.value| > 0 then
      RedirectTo(Text(lastBoard.value.id), Text(lastBoard.value.pipelines.value[0].id))
    else if currentBoard.None? && Truthy(boardId) then ResetAndNavigate(BoardListPath)
    else if currentBoard.None? then Nothing
    else Resolved(currentBoard.value, CurrentPipeline(currentBoard.value, pipelineId))
  }

  /** The browser state after one pass: the storage write, then the redirect or the reset. */
  function After(s: Browser, q: Queries): (t: Browser)
    requires Wired(s.params, q)
    ensures t.params == s.params || Decide(s, q).RedirectTo?
    ensures t.navigation == s.navigation || Decide(s, q).ResetAndNavigate?
    ensures t.storedBoard == s.storedBoard || Persists(s, q) || Decide(s, q).ResetAndNavigate?
    ensures t.storedPipeline == s.storedPipeline || Persists(s, q) || Decide(s, q).ResetAndNavigate?
  {
    var persisted :=
      if Persists(s, q) then
        s.(storedBoard := Stored(s.params["id"]), storedPipeline := Stored(s.params["pipelineId"]))
      else s;
    match Decide(s, q)
    case RedirectTo(b, p) =>
      persisted.(params := Router.Merge(s.params, map["id" := b, "pipelineId" := p]))
    case ResetAndNavigate(path) =>
      persisted.(storedBoard := "", storedPipeline := "", navigation := Some(path))
    case _ => persisted
  }

  /** While the boards list loads the pass shows the placeholder and writes nothing. */
  lemma BoardsLoadingIsInert(s: Browser, q: Queries)
    requires Wired(s.params, q)
    requires q.boardsLoading
    ensures Decide(s, q) == Placeholder
    ensures After(s, q) == s
  {
  }

  /**
   * A URL with a board id and a pipeline id is written to storage as it is, even while the detail
   * query is still loading; only the invalid-board reset overwrites it in the same pass.
   */
  lemma UrlSelectionIsPersisted(s: Browser, q: Queries)
    requires Wired(s.params, q)
    requires !q.boardsLoading && HasBoardId(s.params) && HasPipelineId(s.params)
    ensures Loading(q.detailQuery) ==> Decide(s, q) == Spinner
    ensures !Decide(s, q).ResetAndNavigate? ==>
      && After(s, q).storedBoard == Stored(s.params["id"])
      && After(s, q).storedPipeline == Stored(s.params["pipelineId"])
  {
  }

  /**
   * With no board id in the URL and a stored board, the pass redirects to the stored pair, whatever
   * the last used board is.
   */
  lemma StorageWinsOverLastBoard(s: Browser, q: Queries, other: Option<Board>)
    requires Wired(s.params, q)
    requires !q.boardsLoading && !HasBoardId(s.params) && !Loading(q.lastQuery)
    requires s.storedBoard != ""
    ensures Decide(s, q) == RedirectTo(Text(s.storedBoard), Text(s.storedPipeline))
    ensures Decide(s, q.(lastQuery := Some(Query(false, other)))) == Decide(s, q)
    ensures After(s, q) == s.(params := Router.Merge(s.params,
      map["id" := Text(s.storedBoard), "pipelineId" := Text(s.storedPipeline)]))
  {
  }

  /**
   * With no board id in the URL and nothing stored, a last used board with pipelines sends the URL
   * to that board and its first pipeline; storage is left alone.
   */
  lemma LastBoardRedirect(s: Browser, q: Queries, b: Board)
    requires Wired(s.params, q)
    requires !q.boardsLoading && !HasBoardId(s.params) && s.storedBoard == ""
    requires q.lastQuery == Some(Query(false, Some(b)))
    requires |PipelinesOf(b)| > 0
    ensures Decide(s, q) == RedirectTo(Text(b.id), Text(PipelinesOf(b)[0].id))
    ensures After(s, q) == s.(params := Router.Merge(s.params,
      map["id" := Text(b.id), "pipelineId" := Text(PipelinesOf(b)[0].id)]))
  {
  }

  /**
   * A board id in the URL that the detail query does not resolve clears both storage slots and
   * navigates to the board list, leaving the URL query alone.
   */
  lemma InvalidBoardResets(s: Browser, q: Queries)
    requires Wired(s.params, q)
    requires !q.boardsLoading && HasBoardId(s.params)
    requires q.detailQuery == Some(Query(false, None))
    ensures Decide(s, q) == ResetAndNavigate(BoardListPath)
    ensures After(s, q) == s.(storedBoard := "", storedPipeline := "", navigation := Some(BoardListPath))
  {
  }

  /**
   * In a resolved pass the board is the detail result, and the pipeline is the first one with the
   * URL's `pipelineId` (absent when none has it), or the board's first pipeline when the URL names
   * none. The pass changes neither the URL nor the navigation.
   */
  lemma ResolvedPipeline(s: Browser, q: Queries, b: Board, p: Option<Pipeline>)
    requires Wired(s.params, q)
    requires Decide(s, q) == Resolved(b, p)
    ensures HasBoardId(s.params) && BoardOf(q.detailQuery) == Some(b)
    ensures HasPipelineId(s.params) && p.Some? ==>
      exists i :: 0 <= i < |PipelinesOf(b)| && PipelinesOf(b)[i] == p.value
        && Text(p.value.id) == s.params["pipelineId"]
        && forall j :: 0 <= j < i ==> Text(PipelinesOf(b)[j].id) != s.params["pipelineId"]
    ensures HasPipelineId(s.params) && p.None? ==>
      forall x :: x in PipelinesOf(b) ==> Text(x.id) != s.params["pipelineId"]
    ensures !HasPipelineId(s.params) ==>
      p == if |PipelinesOf(b)| > 0 then Some(PipelinesOf(b)[0]) else None
    ensures After(s, q).params == s.params && After(s, q).navigation == s.navigation
  {
  }

  /**
   * A redirect settles: once the URL holds the redirect's board id, the next pass (with the queries
   * the new URL wires up) does not redirect again, and when the pipeline id is non-empty too it
   * writes exactly that pair to storage unless the board turns out to be invalid.
   */
  lemma RedirectSettles(s: Browser, q: Queries, q2: Queries)
    requires Wired(s.params, q)
    requires Decide(s, q).RedirectTo? && Truthy(Some(Decide(s, q).boardId))
    requires Wired(After(s, q).params, q2)
    ensures !Decide(After(s, q), q2).RedirectTo?
    ensures (!q2.boardsLoading && Truthy(Some(Decide(s, q).pipelineId))
             && !Decide(After(s, q), q2).ResetAndNavigate?) ==>
        && After(After(s, q), q2).storedBoard == Stored(Decide(s, q).boardId)
        && After(After(s, q), q2).storedPipeline == Stored(Decide(s, q).pipelineId)
  {
  }

  /**
   * Worked passes: a URL naming board b and pipeline p2 resolves to p2 and persists the pair; a
   * pipeline id the board does not have resolves to no pipeline, with no fallback to the first.
   */
  lemma PipelineFromUrl()
    ensures
      var b := Board("b", Some([Pipeline("p1"), Pipeline("p2")]));
      var q := Queries(false, None, Some(Query(false, Some(b))));
      var s := Browser(map["id" := Text("b"), "pipelineId" := Text("p2")], "", "", None);
      var s3 := s.(params := map["id" := Text("b"), "pipelineId" := Text("p3")]);
      && Decide(s, q) == Resolved(b, Some(Pipeline("p2")))
      && After(s, q) == s.(storedBoard := "b", storedPipeline := "p2")
      && Decide(s3, q) == Resolved(b, None)
  {
  }
}
