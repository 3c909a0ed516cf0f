/** The transactions list (src/components/admin/Transactions/Transactions.jsx):
    the gateway choices offered in the filter, the filtered list shown, and
    the status icon of a row. */
module TransactionsPage {
  import opened JsValues
  import opened RecordLists
  import opened TextSearch

  // ---------------------------------------------------------------------
  // `[...new Set(values)]`: distinct values in order of first occurrence

  /** Position of the first `x` in `s`; `|s|` when absent. */
  function FirstIndex<T(==)>(s: seq<T>, x: T): (n: nat)
    ensures n <= |s|
    ensures n < |s| <==> x in s
    ensures n < |s| ==> s[n] == x
    ensures forall j :: 0 <= j < n ==> s[j] != x
  {
    if s == [] then 0
    else if s[0] == x then 0
    else 1 + FirstIndex(s[1..], x)
  }

  predicate NoDuplicates<T(==)>(s: seq<T>)
  {
    forall i, j :: 0 <= i < j < |s| ==> s[i] != s[j]
  }

  /** The elements of `r` appear in the order of their first occurrence in `s`. */
  predicate FirstOccurrenceOrder<T(==)>(r: seq<T>, s: seq<T>)
  {
    forall i, j :: 0 <= i < j < |r| ==> FirstIndex(s, r[i]) < FirstIndex(s, r[j])
  }

  /** Appending to `s` does not move the first occurrence of what `s` holds. */
  lemma FirstIndexExtend<T>(s: seq<T>, x: T, y: T)
    requires y in s
    ensures FirstIndex(s + [x], y) == FirstIndex(s, y)
  {
    var n := FirstIndex(s, y);
    assert (s + [x])[n] == y;
    assert forall j :: 0 <= j < n ==> (s + [x])[j] != y;
  }

  /** A JavaScript `Set` built from `s` and spread back into an array: each
      value once, where it first occurs. */
  function Dedup<T(==,!new)>(s: seq<T>): (r: seq<T>)
    ensures forall x :: x in r <==> x in s
    ensures NoDuplicates(r)
    ensures FirstOccurrenceOrder(r, s)
    decreases |s|
  {
    if s == [] then []
    else
      var init, x := s[..|s| - 1], s[|s| - 1];
      assert s == init + [x];
      var d := Dedup(init);
      forall y | y in init ensures FirstIndex(s, y) == FirstIndex(init, y) {
        FirstIndexExtend(init, x, y);
      }
      if x in d then d
      else
        assert FirstIndex(s, x) == |init|;
        d + [x]
  }

  /** Filtering keeps the order of first occurrence. */
  lemma {:induction false} FilterKeepsFirstOccurrenceOrder<T>(r: seq<T>, s: seq<T>, keep: T -> bool)
    requires FirstOccurrenceOrder(r, s)
    ensures FirstOccurrenceOrder(Filter(r, keep), s)
    decreases |r|
  {
    if r != [] {
      var tail := r[1..];
      assert FirstOccurrenceOrder(tail, s) by {
        forall i, j | 0 <= i < j < |tail| ensures FirstIndex(s, tail[i]) < FirstIndex(s, tail[j]) {
          assert tail[i] == r[i + 1] && tail[j] == r[j + 1];
        }
      }
      FilterKeepsFirstOccurrenceOrder(tail, s, keep);
      var f := Filter(tail, keep);
      if keep(r[0]) {
        assert Filter(r, keep) == [r[0]] + f;
        forall y | y in f ensures FirstIndex(s, r[0]) < FirstIndex(s, y) {
          var k :| 0 <= k < |tail| && tail[k] == y;
          assert r[k + 1] == y;
        }
      }
    }
  }

  /** Filtering a list without duplicates leaves none. */
  lemma {:induction false} FilterKeepsNoDuplicates<T>(r: seq<T>, keep: T -> bool)
    requires NoDuplicates(r)
    ensures NoDuplicates(Filter(r, keep))
    decreases |r|
  {
    if r != [] {
      var tail := r[1..];
      FilterKeepsNoDuplicates(tail, keep);
      assert r[0] !in tail by {
        forall k | 0 <= k < |tail| ensures tail[k] != r[0] {
          assert tail[k] == r[k + 1];
        }
      }
    }
  }

  function Gateways(transactions: seq<Record>): (gs: seq<Value>)
    ensures |gs| == |transactions|
    ensures forall i :: 0 <= i < |transactions| ==> gs[i] == Get(transactions[i], "gateway")
  {
    seq(|transactions|, i requires 0 <= i < |transactions| => Get(transactions[i], "gateway"))
  }

  /** `uniqueGateways`: the distinct gateway values of the transactions, in
      order of first use, without the falsy ones (missing, null, ""). */
  function UniqueGateways(transactions: seq<Record>): (r: seq<Value>)
    ensures forall g :: g in r <==> Truthy(g) && exists t :: t in transactions && Get(t, "gateway") == g
    ensures NoDuplicates(r)
    ensures FirstOccurrenceOrder(r, Gateways(transactions))
  {
    var gs := Gateways(transactions);
    var d := Dedup(gs);
    FilterKeepsNoDuplicates(d, v => Truthy(v));
    FilterKeepsFirstOccurrenceOrder(d, gs, v => Truthy(v));
    var r := Filter(d, v => Truthy(v));
    assert forall g :: g in gs <==> exists t :: t in transactions && Get(t, "gateway") == g by {
      forall g | g in gs ensures exists t :: t in transactions && Get(t, "gateway") == g {
        var i :| 0 <= i < |gs| && gs[i] == g;
        assert transactions[i] in transactions;
      }
      forall g | exists t :: t in transactions && Get(t, "gateway") == g ensures g in gs {
        var t :| t in transactions && Get(t, "gateway") == g;
        var i :| 0 <= i < |transactions| && transactions[i] == t;
        assert gs[i] == g;
      }
    }
    r
  }

  // ---------------------------------------------------------------------
  // the filtered list

  /** `matchesSearch`: the term occurs, ignoring case, in the customer id,
      the description or the gateway reference. */
  function MatchesSearch(t: Record, term: string): (m: bool)
    ensures m ==> Get(t, "customerId").Str? || Get(t, "description").Str? || Get(t, "gatewayReference").Str?
    ensures m <==>
      || LowerIncludes(Get(t, "customerId"), ToUpper(term))
      || LowerIncludes(Get(t, "description"), ToUpper(term))
      || LowerIncludes(Get(t, "gatewayReference"), ToUpper(term))
  {
    LowerIncludesIgnoresCase(Get(t, "customerId"), term);
    LowerIncludesIgnoresCase(Get(t, "description"), term);
    LowerIncludesIgnoresCase(Get(t, "gatewayReference"), term);
    || LowerIncludes(Get(t, "customerId"), term)
    || LowerIncludes(Get(t, "description"), term)
    || LowerIncludes(Get(t, "gatewayReference"), term)
  }

  /** All three conditions of the filter callback. */
  predicate Shown(t: Record, term: string, statusFilter: string, gatewayFilter: string)
  {
    && MatchesSearch(t, term)
    && (statusFilter == "all" || Get(t, "status") == Str(statusFilter))
    && (gatewayFilter == "all" || Get(t, "gateway") == Str(gatewayFilter))
  }

  function ShownBy(term: string, statusFilter: string, gatewayFilter: string): Record -> bool
  {
    t => Shown(t, term, statusFilter, gatewayFilter)
  }

  /** `filteredTransactions`: the transactions that pass, in list order. */
  function FilteredTransactions(transactions: seq<Record>, term: string, statusFilter: string, gatewayFilter: string): (r: seq<Record>)
    ensures IsSubsequence(r, transactions)
    ensures forall t :: t in r <==> t in transactions && Shown(t, term, statusFilter, gatewayFilter)
    ensures statusFilter != "all" ==> forall t :: t in r ==> Get(t, "status") == Str(statusFilter)
    ensures gatewayFilter != "all" ==> forall t :: t in r ==> Get(t, "gateway") == Str(gatewayFilter)
  {
    FilterIsSubsequence(transactions, ShownBy(term, statusFilter, gatewayFilter));
    Filter(transactions, ShownBy(term, statusFilter, gatewayFilter))
  }

  /** With an empty search box and both selects on "all", a transaction is
      listed exactly when one of its three searched fields is a string; one
      with none of them is hidden even then. */
  lemma EmptySearchShowsStringFields(transactions: seq<Record>, t: Record)
    requires t in transactions
    ensures t in FilteredTransactions(transactions, "", "all", "all") <==>
      Get(t, "customerId").Str? || Get(t, "description").Str? || Get(t, "gatewayReference").Str?
  {
    EmptyTermMatchesStrings(Get(t, "customerId"));
    EmptyTermMatchesStrings(Get(t, "description"));
    EmptyTermMatchesStrings(Get(t, "gatewayReference"));
  }

  // ---------------------------------------------------------------------
  // the row icon

  datatype StatusIcon = CheckCircle | XCircle | Clock

  /** `getStatusIcon`: completed rows get a check, failed and error rows a
      cross, everything else (pending included) a clock. */
  function IconFor(status: Value): (icon: StatusIcon)
    ensures icon == CheckCircle <==> status == Str("completed")
    ensures icon == XCircle <==> status == Str("failed") || status == Str("error")
  {
    if status == Str("completed") then CheckCircle
    else if status == Str("failed") || status == Str("error") then XCircle
    else Clock
  }
}
