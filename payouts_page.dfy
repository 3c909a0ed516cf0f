/** The manual payouts page (src/components/Payouts.jsx): the new-payout
    form, the status buttons of a pending payout, and the filtered list. */
module PayoutsPage {
  import opened JsValues
  import opened RecordLists
  import opened TextSearch
  import PayoutService
  import PaymentContext

  const FormFields: set<string> :=
    {"beneficiaryName", "accountNumber", "ifscCode", "bankName", "amount", "currency", "description"}

  /** The form's initial and reset value: every field empty, currency USD. */
  function EmptyPayoutForm(): (f: Record)
    ensures f.Keys == FormFields
    ensures f["currency"] == Str("USD")
    ensures forall k :: k in f && k != "currency" ==> f[k] == Str("")
    ensures !CreateEnabled(f)
  {
    map["beneficiaryName" := Str(""), "accountNumber" := Str(""), "ifscCode" := Str(""),
        "bankName" := Str(""), "amount" := Str(""), "currency" := Str("USD"), "description" := Str("")]
  }

  /** The dialog's "Create Payout" button is enabled only when the
      beneficiary name, the account number and the amount are all filled. */
  function CreateEnabled(form: Record): (ok: bool)
    ensures ok ==> "beneficiaryName" in form && "accountNumber" in form && "amount" in form
    ensures ok ==> form["beneficiaryName"] != Str("") && form["accountNumber"] != Str("") && form["amount"] != Num(0)
  {
    Truthy(Get(form, "beneficiaryName")) && Truthy(Get(form, "accountNumber")) && Truthy(Get(form, "amount"))
  }

  /** The patch of `handleUpdateStatus`: the new status, and the processing
      time unless the payout is put back to pending. */
  function StatusPatch(status: string, now: string): (p: Record)
    ensures p.Keys == {"status", "processedAt"}
    ensures p["status"] == Str(status)
    ensures status != "pending" <==> p["processedAt"].Str?
    ensures status == "pending" <==> p["processedAt"] == Null
    ensures status != "pending" ==> p["processedAt"] == Str(now)
  {
    map["status" := Str(status), "processedAt" := if status != "pending" then Str(now) else Null]
  }

  /** The status buttons shown on a payout card: "rejected" and "completed",
      only while the payout is pending. */
  function OfferedActions(payout: Record): (actions: seq<string>)
    ensures actions != [] <==> Get(payout, "status") == Str("pending")
    ensures forall a :: a in actions ==> a == "rejected" || a == "completed"
  {
    if Get(payout, "status") == Str("pending") then ["rejected", "completed"] else []
  }

  /** Through the buttons a payout leaves "pending" once: the action taken is
      stored with its processing time and no button is offered afterwards. */
  lemma ActionSettlesPayout(payouts: seq<Record>, i: nat, action: string, now: string)
    requires i < |payouts|
    requires action in OfferedActions(payouts[i])
    ensures var after := MergeById(payouts, IdOf(payouts[i]), StatusPatch(action, now));
      && Get(after[i], "status") == Str(action)
      && Get(after[i], "processedAt") == Str(now)
      && OfferedActions(after[i]) == []
      && forall j :: 0 <= j < |payouts| && IdOf(payouts[j]) != IdOf(payouts[i]) ==> after[j] == payouts[j]
  {
    var after := MergeById(payouts, IdOf(payouts[i]), StatusPatch(action, now));
    assert after[i] == Spread(payouts[i], StatusPatch(action, now));
  }

  /** `matchesSearch` of the payout filter: the beneficiary name and the
      description ignoring case, the account number as typed. */
  function MatchesSearch(p: Record, term: string): (m: bool)
    ensures m ==> Get(p, "beneficiaryName").Str? || Get(p, "accountNumber").Str? || Get(p, "accountNumber").List?
                  || Get(p, "description").Str?
    ensures Get(p, "accountNumber").List? && Str(term) in Get(p, "accountNumber").items ==> m
    ensures term == "" ==>
      (m <==> Get(p, "beneficiaryName").Str? || Get(p, "accountNumber").Str? || Get(p, "description").Str?
              || (Get(p, "accountNumber").List? && Str("") in Get(p, "accountNumber").items))
  {
    EmptyTermMatchesStrings(Get(p, "beneficiaryName"));
    EmptyTermMatchesStrings(Get(p, "accountNumber"));
    EmptyTermMatchesStrings(Get(p, "description"));
    || LowerIncludes(Get(p, "beneficiaryName"), term)
    || PlainIncludes(Get(p, "accountNumber"), term)
    || LowerIncludes(Get(p, "description"), term)
  }

  predicate Shown(p: Record, term: string, statusFilter: string)
  {
    MatchesSearch(p, term) && (statusFilter == "all" || Get(p, "status") == Str(statusFilter))
  }

  function ShownBy(term: string, statusFilter: string): Record -> bool
  {
    p => Shown(p, term, statusFilter)
  }

  /** `filteredPayouts`: the payouts that pass, in list order. */
  function FilteredPayouts(payouts: seq<Record>, term: string, statusFilter: string): (r: seq<Record>)
    ensures IsSubsequence(r, payouts)
    ensures forall p :: p in r <==> p in payouts && Shown(p, term, statusFilter)
    ensures statusFilter != "all" ==> forall p :: p in r ==> Get(p, "status") == Str(statusFilter)
  {
    FilterIsSubsequence(payouts, ShownBy(term, statusFilter));
    Filter(payouts, ShownBy(term, statusFilter))
  }

  /** When neither the name nor the description matches, a payout is found
      exactly when its account number holds the term verbatim; so a term
      with a lowercase letter never finds an account number without one,
      whatever the case of the rest. */
  lemma AccountNumberVerbatim(p: Record, term: string, k: nat)
    requires !LowerIncludes(Get(p, "beneficiaryName"), term) && !LowerIncludes(Get(p, "description"), term)
    requires Get(p, "accountNumber").Str?
    ensures MatchesSearch(p, term) <==> Contains(Get(p, "accountNumber").s, term)
    ensures k < |term| && 'a' <= term[k] <= 'z' && NoLowercase(Get(p, "accountNumber").s) ==> !MatchesSearch(p, term)
  {
    if k < |term| && 'a' <= term[k] <= 'z' && NoLowercase(Get(p, "accountNumber").s) {
      LowercaseNotContained(Get(p, "accountNumber").s, term, k);
    }
  }

  /** A string without lowercase letters contains no needle that has one. */
  lemma LowercaseNotContained(a: string, term: string, k: nat)
    requires k < |term| && 'a' <= term[k] <= 'z' && NoLowercase(a)
    ensures !Contains(a, term)
  {
    forall i | 0 <= i && i + |term| <= |a|
      ensures !OccursAt(a, term, i)
    {
      assert a[i..i + |term|][k] == a[i + k];
    }
    ContainsIffOccurs(a, term);
  }

  predicate NoLowercase(s: string)
  {
    forall i :: 0 <= i < |s| ==> !('a' <= s[i] <= 'z')
  }

  /** The account number is searched case-sensitively: an account number
      "AB12" is found by "AB" but not by "ab", unless the name or the
      description match. */
  lemma AccountNumberCaseSensitive()
    ensures var p := map["accountNumber" := Str("AB12")];
      Shown(p, "AB", "all") && !Shown(p, "ab", "all")
  {
    var p := map["accountNumber" := Str("AB12")];
    assert StartsWith("AB12", "AB");
    assert !StartsWith("AB12", "ab") && !StartsWith("B12", "ab") && !StartsWith("12", "ab")
      && !StartsWith("2", "ab") && !StartsWith("", "ab");
    assert !Contains("AB12"[1..][1..][1..][1..], "ab");
  }

  /** The page's form state. */
  class PayoutsPage {
    var newPayout: Record

    constructor ()
      ensures newPayout == EmptyPayoutForm()
    {
      newPayout := EmptyPayoutForm();
    }

    /** `handleCreatePayout`: create a payout from the form, then reset it. */
    method HandleCreatePayout(store: PaymentContext.PaymentStore, id: string, now: string)
      modifies this, store
      ensures var r := PayoutService.CreateNewPayout(old(store.payouts), id, now, old(newPayout));
        store.Snapshot() == old(store.Snapshot()).(payouts := r.list)
      ensures newPayout == EmptyPayoutForm()
    {
      var _ := store.CreatePayout(id, now, newPayout);
      newPayout := EmptyPayoutForm();
    }

    /** `handleUpdateStatus`: merge the status patch into the payout `id`. */
    method HandleUpdateStatus(store: PaymentContext.PaymentStore, id: Value, status: string, now: string)
      modifies store
      ensures store.Snapshot() == old(store.Snapshot()).(payouts := MergeById(old(store.payouts), id, StatusPatch(status, now)))
    {
      store.UpdatePayout(id, StatusPatch(status, now));
    }

    /** `handleNewPayoutChange`: one form field takes the input's value. */
    method HandleNewPayoutChange(name: string, value: Value)
      modifies this
      ensures newPayout == SetField(old(newPayout), name, value)
    {
      newPayout := SetField(newPayout, name, value);
    }
  }
}
