/** The dashboard counters (src/components/admin/Dashboard/DashboardStats.jsx):
    the numbers recomputed from the context's lists whenever one changes,
    and the two figures derived from them on the cards. */
module DashboardStats {
  import opened JsValues
  import opened RecordLists

  /** The cached counters; the floating-point `totalAmount` is not modelled. */
  datatype Stats = Stats(
    totalTransactions: nat,
    successfulTransactions: nat,
    pendingPayouts: nat,
    activeWebhooks: nat,
    activeGateways: nat)

  function HasStatus(status: string): Record -> bool
  {
    r => Get(r, "status") == Str(status)
  }

  function IsActive(): Record -> bool
  {
    r => Truthy(Get(r, "isActive"))
  }

  /** The body of the `useEffect`: filter-and-count over each list. */
  function ComputeStats(transactions: seq<Record>, payouts: seq<Record>, webhooks: seq<Record>, gateways: seq<Record>): (s: Stats)
    ensures s.totalTransactions == |transactions|
    ensures s.successfulTransactions <= s.totalTransactions
    ensures s.successfulTransactions == 0 <==> forall t :: t in transactions ==> Get(t, "status") != Str("completed")
    ensures s.successfulTransactions == s.totalTransactions <==> forall t :: t in transactions ==> Get(t, "status") == Str("completed")
    ensures s.pendingPayouts <= |payouts|
    ensures s.pendingPayouts == 0 <==> forall p :: p in payouts ==> Get(p, "status") != Str("pending")
    ensures s.pendingPayouts == |payouts| <==> forall p :: p in payouts ==> Get(p, "status") == Str("pending")
    ensures s.activeWebhooks <= |webhooks| && s.activeGateways <= |gateways|
    ensures s.activeWebhooks == 0 <==> forall w :: w in webhooks ==> !Truthy(Get(w, "isActive"))
    ensures s.activeWebhooks == |webhooks| <==> forall w :: w in webhooks ==> Truthy(Get(w, "isActive"))
    ensures s.activeGateways == 0 <==> forall g :: g in gateways ==> !Truthy(Get(g, "isActive"))
    ensures s.activeGateways == |gateways| <==> forall g :: g in gateways ==> Truthy(Get(g, "isActive"))
  {
    CountAllIff(transactions, HasStatus("completed"));
    CountAllIff(payouts, HasStatus("pending"));
    CountAllIff(webhooks, IsActive());
    CountAllIff(gateways, IsActive());
    Stats(|transactions|, Count(transactions, HasStatus("completed")), Count(payouts, HasStatus("pending")),
          Count(webhooks, IsActive()), Count(gateways, IsActive()))
  }

  /** A count reaches the length exactly when every element qualifies. */
  lemma {:induction false} CountAllIff<T>(s: seq<T>, keep: T -> bool)
    ensures Count(s, keep) == |s| <==> forall x :: x in s ==> keep(x)
    decreases |s|
  {
    if s != [] {
      CountAllIff(s[1..], keep);
      assert forall x :: x in s[1..] ==> x in s;
      if !keep(s[0]) {
        assert |Filter(s, keep)| == |Filter(s[1..], keep)| <= |s[1..]|;
      }
    }
  }

  /** The "Active Integrations" card: active gateways plus active webhooks. */
  function ActiveIntegrations(s: Stats): (n: nat)
    ensures n >= s.activeGateways && n >= s.activeWebhooks
    ensures n == 0 <==> s.activeGateways == 0 && s.activeWebhooks == 0
  {
    s.activeGateways + s.activeWebhooks
  }

  /** The "Success Rate" card: `Math.round(successful / total * 100)`, or 0
      without transactions.  Computed exactly on rationals: `Math.round`
      rounds halves up, so the result is the integer nearest to
      `100 * successful / total`. */
  function SuccessRate(s: Stats): (rate: nat)
    requires s.successfulTransactions <= s.totalTransactions
    ensures s.totalTransactions == 0 ==> rate == 0
    ensures s.totalTransactions > 0 ==>
      2 * s.totalTransactions * rate <= 200 * s.successfulTransactions + s.totalTransactions
      < 2 * s.totalTransactions * (rate + 1)
    ensures rate <= 100
    ensures s.totalTransactions > 0 && s.successfulTransactions == s.totalTransactions ==> rate == 100
    ensures s.successfulTransactions == 0 ==> rate == 0
  {
    if s.totalTransactions == 0 then 0
    else
      var t, k := s.totalTransactions, s.successfulTransactions;
      var rate := (200 * k + t) / (2 * t);
      RoundBounds(k, t, rate);
      rate
  }

  /** The quotient lies between its bounds, hence within [0, 100]. */
  lemma RoundBounds(k: nat, t: nat, rate: int)
    requires 0 < t && k <= t
    requires rate == (200 * k + t) / (2 * t)
    ensures 0 <= rate
    ensures 2 * t * rate <= 200 * k + t < 2 * t * (rate + 1)
    ensures rate <= 100
    ensures k == t ==> rate == 100
    ensures k == 0 ==> rate == 0
  {
    var n, d := 200 * k + t, 2 * t;
    DivBounds(n, d);
    assert d * rate <= n < d * (rate + 1);
    if rate > 100 {
      MulMono(d, 101, rate);
      assert false;
    }
    if k == t && rate < 100 {
      MulMono(d, rate + 1, 100);
      assert false;
    }
    if k == 0 && rate >= 1 {
      MulMono(d, 1, rate);
    }
  }

  lemma DivBounds(n: nat, d: nat)
    requires 0 < d
    ensures 0 <= n / d
    ensures d * (n / d) <= n < d * (n / d + 1)
  {
    assert n == d * (n / d) + n % d;
  }

  lemma MulMono(a: nat, b: int, c: int)
    requires b <= c
    ensures a * b <= a * c
  {
    assert a * c - a * b == a * (c - b);
  }
}
