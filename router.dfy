/**
 * The routing helpers the page calls, reduced to what they do to the query map.
 * Their implementations are not part of this model: these are the assumed contracts.
 *   setParams(history, query)         -- URL := Merge(current query, query)
 *   replaceParam(history, all, query) -- URL := Merge(all, query)
 *   removeParams(history, ...keys)    -- URL := Remove(current query, keys)
 */
module Router {
  import opened QueryParams

  /** Every key of `query` takes its new value; every other key of `base` keeps its value. */
  function Merge(base: Params, query: Params): (r: Params)
    ensures r.Keys == base.Keys + query.Keys
    ensures forall k :: k in query ==> r[k] == query[k]
    ensures forall k :: k in base && k !in query ==> r[k] == base[k]
  {
    base + query
  }

  /** The keys in `keys` are gone; every other key keeps its value. */
  function Remove(current: Params, keys: set<string>): (r: Params)
    ensures r.Keys == current.Keys - keys
    ensures forall k :: k in r ==> r[k] == current[k]
  {
    current - keys
  }
}
