/**
 * The filter keys of the deals toolbar and what its filter operations do to the query map:
 * one date filter at a time, entity filters by key, and a "clear all filters" action.
 */
module Filters {
  import opened QueryParams
  import Router
  import Seqs

  /** The date filters; the toolbar treats them as one mutually exclusive slot. */
  const DateFilterParams: seq<string> := ["nextDay", "nextWeek", "nextMonth", "overdue", "noCloseDate"]

  /** Every key that counts as an active filter: the entity filters, then the date filters. */
  const CommonParams: seq<string> :=
    ["companyIds", "customerIds", "assignedUserIds", "productIds"] + DateFilterParams

  predicate IsDateFilter(key: string)
  {
    key in DateFilterParams
  }

  function CommonKeys(): (r: set<string>)
  {
    set k | k in CommonParams
  }

  /**
   * The key lists: the five date filters are all common filters, and the common filters are those
   * five plus the four entity filters, nine distinct keys.
   */
  lemma FilterKeys()
    ensures |DateFilterParams| == 5 && |CommonParams| == 9
    ensures forall k :: IsDateFilter(k) ==> k in CommonParams
    ensures CommonKeys() == {"companyIds", "customerIds", "assignedUserIds", "productIds",
                             "nextDay", "nextWeek", "nextMonth", "overdue", "noCloseDate"}
    ensures |CommonKeys()| == 9
    ensures forall k :: k in CommonParams && !IsDateFilter(k) ==>
      k in ["companyIds", "customerIds", "assignedUserIds", "productIds"]
  {
  }

  /** `order` is the order in which `for (const param in params)` visits the keys of `m`. */
  ghost predicate Enumerates(order: seq<string>, m: Params)
  {
    forall k :: k in order <==> k in m
  }

  /** The date-filter keys present in `m`. */
  function DateKeys(m: Params): (r: set<string>)
  {
    set k | k in m && IsDateFilter(k)
  }

  /** Whether any key of `m` is a filter key: the answer `isFiltered` computes. */
  predicate Filtered(m: Params)
  {
    exists k :: k in m && k in CommonParams
  }

  /** Position in `order` of the date-filter key `onDateFilterSelect` deletes, or `|order|` when there is none. */
  function FirstDateIndex(order: seq<string>): (i: nat)
  {
    Seqs.FirstIndex(order, IsDateFilter)
  }

  /**
   * The query after `onDateFilterSelect(name, value)`: if the scan finds a date filter it deletes it
   * and replaces the query by the rest merged with `{name: value}`; otherwise it merges `{name: value}`
   * into the query.
   */
  function DateFilterSelected(m: Params, order: seq<string>, name: string, value: string): (r: Params)
    ensures name in r && r[name] == Text(value)
    ensures r.Keys <= m.Keys + {name}
    ensures forall k :: k in m && k !in r ==> IsDateFilter(k)
  {
    var query := map[name := Text(value)];
    var i := FirstDateIndex(order);
    if i < |order| then Router.Merge(m - {order[i]}, query) else Router.Merge(m, query)
  }

  /** The query after `clearFilter()`. */
  function Cleared(m: Params): (r: Params)
    ensures !Filtered(r)
    ensures forall k :: k !in CommonParams ==> (k in r <==> k in m) && (k in r ==> r[k] == m[k])
  {
    Router.Remove(m, CommonKeys())
  }

  /** `name` holds `value` afterwards; a key other than `name` that is not a date filter is untouched. */
  lemma DateFilterSelectFrame(m: Params, order: seq<string>, name: string, value: string)
    ensures var r := DateFilterSelected(m, order, name, value);
      && name in r && r[name] == Text(value)
      && forall k :: k != name && !IsDateFilter(k) ==> (k in r <==> k in m) && (k in r ==> r[k] == m[k])
  {
  }

  /**
   * Exactly the first date filter of the scan order disappears, unless it is `name` itself: no other
   * key is lost, and every key other than `name` and that filter keeps its value, including date
   * filters the scan would have reached later.
   */
  lemma DateFilterSelectRemovesFirst(m: Params, order: seq<string>, name: string, value: string)
    requires Enumerates(order, m)
    ensures var r := DateFilterSelected(m, order, name, value);
      var i := FirstDateIndex(order);
      && (forall k :: k in m && k !in r ==> i < |order| && k == order[i])
      && (i < |order| && order[i] != name ==> order[i] !in r)
      && (forall k :: k in m && k != name && (i == |order| || k != order[i]) ==> k in r && r[k] == m[k])
  {
  }

  /**
   * The date slot stays exclusive: if the query held at most one date filter and `name` is a date
   * filter, afterwards `name` is the one and only date filter.
   */
  lemma DateFilterSelectExclusive(m: Params, order: seq<string>, name: string, value: string)
    requires Enumerates(order, m)
    requires |DateKeys(m)| <= 1
    requires IsDateFilter(name)
    ensures DateKeys(DateFilterSelected(m, order, name, value)) == {name}
  {
    var r := DateFilterSelected(m, order, name, value);
    var i := FirstDateIndex(order);
    if i < |order| {
      var old_ := order[i];
      assert old_ in DateKeys(m);
      forall k | k in DateKeys(m) ensures k == old_ {
        if k != old_ {
          assert {k, old_} <= DateKeys(m);
          assert |{k, old_}| == 2;
          SubsetCard({k, old_}, DateKeys(m));
        }
      }
      forall k | k in r && k != name ensures !IsDateFilter(k) {
        assert k in m && k != old_;
        assert k in DateKeys(m) <==> IsDateFilter(k);
      }
      assert name in DateKeys(r);
    } else {
      forall k | k in m ensures !IsDateFilter(k) {
        assert k in order;
        var j :| 0 <= j < |order| && order[j] == k;
      }
      forall k | k in r && k != name ensures !IsDateFilter(k) {
        assert k in m;
      }
      assert name in DateKeys(r);
    }
  }

  lemma SubsetCard(a: set<string>, b: set<string>)
    requires a <= b
    ensures |a| <= |b|
  {
    assert b == a + (b - a);
  }

  /**
   * Without the precondition of `DateFilterSelectExclusive` the slot is not exclusive: a query that
   * already holds two date filters still holds two after a third one is selected, because the scan
   * deletes only the first of them.
   */
  lemma TwoDateFiltersSurvive(m: Params, order: seq<string>, d1: string, d2: string, name: string, value: string)
    requires Enumerates(order, m)
    requires d1 != d2 && DateKeys(m) == {d1, d2}
    requires IsDateFilter(name) && name !in m
    ensures |DateKeys(DateFilterSelected(m, order, name, value))| == 2
  {
    var r := DateFilterSelected(m, order, name, value);
    assert d1 in order;
    var i := FirstDateIndex(order);
    assert i < |order|;
    var gone := order[i];
    assert gone in DateKeys(m);
    var kept := if gone == d1 then d2 else d1;
    assert kept in m && kept != gone && kept != name;
    forall k | k in r && k != name && k != kept ensures !IsDateFilter(k) {
      assert k in m && k != gone;
      assert k in DateKeys(m) <==> IsDateFilter(k);
    }
    assert kept in DateKeys(r) && name in DateKeys(r);
    assert DateKeys(r) == {kept, name};
  }

  /** Selecting a filter value (`onSelect`) on a filter key makes the query filtered; clearing undoes it. */
  lemma SelectThenClear(m: Params, name: string, values: Value)
    requires name in CommonParams
    ensures Filtered(Router.Merge(m, map[name := values]))
    ensures !Filtered(Cleared(Router.Merge(m, map[name := values])))
    ensures Router.Remove(Router.Merge(m, map[name := values]), {name}) == Router.Remove(m, {name})
  {
  }

  /** `isFiltered` and `clearFilter` agree: the query is filtered exactly when clearing changes it. */
  lemma FilteredIffClearChanges(m: Params)
    ensures Filtered(m) <==> Cleared(m) != m
  {
  }
}
