/**
 * The deals toolbar container. Its fields stand for the browser state it reads and writes: the
 * URL query, the two local-storage slots and a requested full-page navigation. `Render` is one
 * render pass; the other methods are the callbacks handed to the toolbar.
 */
module MainActionBar {
  import opened Wrappers
  import opened QueryParams
  import Router
  import opened Filters
  import opened Selection

  class Main {
    var params: Params
    var storedBoard: string
    var storedPipeline: string
    var navigation: Option<string>

    constructor (params: Params, storedBoard: string, storedPipeline: string)
      ensures State() == Browser(params, storedBoard, storedPipeline, None)
    {
      this.params := params;
      this.storedBoard := storedBoard;
      this.storedPipeline := storedPipeline;
      this.navigation := None;
    }

    function State(): (b: Browser)
      reads this
    {
      Browser(params, storedBoard, storedPipeline, navigation)
    }

    /** One render pass: the storage write, the loading checks, then the redirect, reset or result. */
    method Render(q: Queries) returns (d: Decision)
      requires Wired(params, q)
      modifies this
      ensures d == Decide(old(State()), q)
      ensures State() == After(old(State()), q)
    {
      if q.boardsLoading {
        return Placeholder;
      }
      var boardId := Get(params, "id");
      var pipelineId := Get(params, "pipelineId");
      if Truthy(boardId) && Truthy(pipelineId) {
        storedBoard := Stored(boardId.value);
        storedPipeline := Stored(pipelineId.value);
      }
      if q.detailQuery.Some? && q.detailQuery.value.loading {
        return Spinner;
      }
      if q.lastQuery.Some? && q.lastQuery.value.loading {
        return Spinner;
      }
      var lastBoard := if q.lastQuery.Some? then q.lastQuery.value.board else None;
      var currentBoard := if q.detailQuery.Some? then q.detailQuery.value.board else None;
      if !Truthy(boardId) && storedBoard != "" {
        d := RedirectTo(Text(storedBoard), Text(storedPipeline));
        params := Router.Merge(params, map["id" := d.boardId, "pipelineId" := d.pipelineId]);
        return;
      }
      if !Truthy(boardId) && lastBoard.Some? && lastBoard.value.pipelines.Some?
         && |lastBoard.value.pipelines.value| > 0 {
        var firstPipeline := lastBoard.value.pipelines.value[0];
        d := RedirectTo(Text(lastBoard.value.id), Text(firstPipeline.id));
        params := Router.Merge(params, map["id" := d.boardId, "pipelineId" := d.pipelineId]);
        return;
      }
      if currentBoard.None? && Truthy(boardId) {
        storedBoard := "";
        storedPipeline := "";
        navigation := Some(BoardListPath);
        return ResetAndNavigate(BoardListPath);
      }
      if currentBoard.None? {
        return Nothing;
      }
      var currentPipeline := CurrentPipeline(currentBoard.value, pipelineId);
      return Resolved(currentBoard.value, currentPipeline);
    }

    /**
     * `onDateFilterSelect(name, value)`: scans the keys in `order` for a date filter; the first one
     * found is deleted and the query replaced by the rest merged with `{name: value}`; if there is
     * none, `{name: value}` is merged into the query.
     */
    method OnDateFilterSelect(order: seq<string>, name: string, value: string)
      requires Enumerates(order, params)
      modifies this`params
      ensures params == DateFilterSelected(old(params), order, name, value)
    {
      var query := map[name := Text(value)];
      var current := params;
      var i := 0;
      while i < |order|
        invariant 0 <= i <= |order|
        invariant forall j :: 0 <= j < i ==> !IsDateFilter(order[j])
      {
        if IsDateFilter(order[i]) {
          assert FirstDateIndex(order) == i;
          current := current - {order[i]};
          params := Router.Merge(current, query);
          return;
        }
        i := i + 1;
      }
      params := Router.Merge(params, query);
    }

    /** `onSelect(values, name)`: the filter `name` takes `values`; no other key changes. */
    method OnSelect(values: Value, name: string)
      modifies this`params
      ensures params == Router.Merge(old(params), map[name := values])
      ensures params.Keys == old(params).Keys + {name} && params[name] == values
      ensures forall k :: k in old(params) && k != name ==> params[k] == old(params)[k]
    {
      params := Router.Merge(params, map[name := values]);
    }

    /** `onClear(name)`: the key `name` is removed; no other key changes. */
    method OnClear(name: string)
      modifies this`params
      ensures params == Router.Remove(old(params), {name})
      ensures params.Keys == old(params).Keys - {name}
      ensures forall k :: k in params ==> params[k] == old(params)[k]
    {
      params := Router.Remove(params, {name});
    }

    /** `isFiltered()`: whether any key of the query, visited in `order`, is a filter key. */
    method IsFiltered(order: seq<string>) returns (r: bool)
      requires Enumerates(order, params)
      ensures r == Filtered(params)
    {
      var i := 0;
      while i < |order|
        invariant 0 <= i <= |order|
        invariant forall j :: 0 <= j < i ==> order[j] !in CommonParams
      {
        if order[i] in CommonParams {
          assert order[i] in params;
          return true;
        }
        i := i + 1;
      }
      forall k | k in params ensures k !in CommonParams {
        var j :| 0 <= j < |order| && order[j] == k;
      }
      return false;
    }

    /** `clearFilter()`: every filter key is removed at once; the query is then not filtered. */
    method ClearFilter()
      modifies this`params
      ensures params == Cleared(old(params))
      ensures !Filtered(params)
    {
      params := Router.Remove(params, CommonKeys());
    }
  }
}
