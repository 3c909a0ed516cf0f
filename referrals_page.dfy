/** The referral administration page (src/pages/admin/ReferralSystemPage.jsx):
    the add/edit dialog and its submission, and the filtered list. */
module ReferralsPage {
  import opened JsValues
  import opened RecordLists
  import opened TextSearch
  import ReferralService
  import PaymentContext

  /** The form's value when the dialog is closed. */
  function BlankForm(): (f: Record)
    ensures f.Keys == {"referrerId", "referredEmail", "status"}
    ensures f["referrerId"] == Str("") && f["referredEmail"] == Str("") && f["status"] == Str("pending")
  {
    map["referrerId" := Str(""), "referredEmail" := Str(""), "status" := Str("pending")]
  }

  /** Closing the dialog leaves the form `openModal` would prepare for a new
      referral with no merchants to preselect. */
  lemma BlankFormIsEmptyNewForm()
    ensures BlankForm() == OpenForm(None, [])
  {
  }

  /** The form `openModal` prepares: the referral's three editable fields
      when editing, otherwise the first merchant preselected as referrer (or
      "" without merchants), no email, status pending. */
  function OpenForm(referral: Option<Record>, merchants: seq<Record>): (f: Record)
    ensures f.Keys == {"referrerId", "referredEmail", "status"}
    ensures referral.Some? ==> forall k :: k in f ==> f[k] == Get(referral.value, k)
    ensures referral.None? ==> f["status"] == Str("pending") && f["referredEmail"] == Str("")
    ensures referral.None? ==> f["referrerId"] == if merchants == [] then Str("") else IdOf(merchants[0])
  {
    match referral
    case Some(r) =>
      map["referrerId" := Get(r, "referrerId"), "referredEmail" := Get(r, "referredEmail"), "status" := Get(r, "status")]
    case None =>
      map["referrerId" := if |merchants| > 0 then IdOf(merchants[0]) else Str(""),
          "referredEmail" := Str(""), "status" := Str("pending")]
  }

  /** `i` is the position of the first merchant whose id is `id`. */
  predicate FirstWithId(merchants: seq<Record>, id: Value, i: int)
  {
    0 <= i < |merchants| && IdOf(merchants[i]) == id &&
    forall j :: 0 <= j < i ==> IdOf(merchants[j]) != id
  }

  /** Past a head with another id, the first match moves down by one. */
  lemma FirstWithIdTail(merchants: seq<Record>, id: Value)
    requires |merchants| > 0 && IdOf(merchants[0]) != id
    ensures forall i :: FirstWithId(merchants, id, i) ==>
      i >= 1 && FirstWithId(merchants[1..], id, i - 1) && merchants[1..][i - 1] == merchants[i]
  {
    forall i | FirstWithId(merchants, id, i)
      ensures i >= 1 && FirstWithId(merchants[1..], id, i - 1) && merchants[1..][i - 1] == merchants[i]
    {
      assert i != 0;
      forall j | 0 <= j < i - 1 ensures IdOf(merchants[1..][j]) != id {
        assert merchants[1..][j] == merchants[j + 1];
      }
    }
  }

  /** `referrer ? referrer.name : 'Unknown Referrer'`, where `referrer` is the
      first merchant whose id equals the form's referrer id. */
  function ReferrerName(merchants: seq<Record>, referrerId: Value): (name: Value)
    ensures (forall m :: m in merchants ==> IdOf(m) != referrerId) ==> name == Str("Unknown Referrer")
    ensures forall i :: FirstWithId(merchants, referrerId, i) ==> name == Get(merchants[i], "name")
  {
    if merchants == [] then Str("Unknown Referrer")
    else if IdOf(merchants[0]) == referrerId then Get(merchants[0], "name")
    else
      var name := ReferrerName(merchants[1..], referrerId);
      FirstWithIdTail(merchants, referrerId);
      assert forall m :: m in merchants[1..] ==> m in merchants;
      name
  }

  /** The record `handleSubmit` hands to the context: the form plus the
      referrer's name. */
  function SubmittedData(form: Record, merchants: seq<Record>): (data: Record)
    ensures data.Keys == form.Keys + {"referrerName"}
    ensures forall k :: k in form && k != "referrerName" ==> data[k] == form[k]
    ensures data["referrerName"] == ReferrerName(merchants, Get(form, "referrerId"))
  {
    SetField(form, "referrerName", ReferrerName(merchants, Get(form, "referrerId")))
  }

  /** The filter condition: the referrer's name or the referred email is
      non-empty and contains the term, ignoring case.  Unlike the `?.` search
      of the other pages, an empty name never matches, even the empty term. */
  function Shown(referral: Record, term: string): (s: bool)
    ensures s ==>
      || (Get(referral, "referrerName").Str? && Get(referral, "referrerName").s != "")
      || (Get(referral, "referredEmail").Str? && Get(referral, "referredEmail").s != "")
    ensures s <==>
      || (Truthy(Get(referral, "referrerName")) && LowerIncludes(Get(referral, "referrerName"), ToUpper(term)))
      || (Truthy(Get(referral, "referredEmail")) && LowerIncludes(Get(referral, "referredEmail"), ToUpper(term)))
  {
    LowerIncludesIgnoresCase(Get(referral, "referrerName"), term);
    LowerIncludesIgnoresCase(Get(referral, "referredEmail"), term);
    || (Truthy(Get(referral, "referrerName")) && LowerIncludes(Get(referral, "referrerName"), term))
    || (Truthy(Get(referral, "referredEmail")) && LowerIncludes(Get(referral, "referredEmail"), term))
  }

  function ShownFor(term: string): Record -> bool
  {
    r => Shown(r, term)
  }

  /** `filteredReferrals`: the referrals that pass, in list order. */
  function FilteredReferrals(referrals: seq<Record>, term: string): (r: seq<Record>)
    ensures IsSubsequence(r, referrals)
    ensures forall x :: x in r <==> x in referrals && Shown(x, term)
  {
    FilterIsSubsequence(referrals, ShownFor(term));
    Filter(referrals, ShownFor(term))
  }

  /** With an empty search box a referral is listed exactly when its name or
      its email is a non-empty string. */
  lemma EmptySearchShowsNamedReferrals(referrals: seq<Record>, x: Record)
    requires x in referrals
    ensures x in FilteredReferrals(referrals, "") <==>
      (Get(x, "referrerName").Str? && Get(x, "referrerName").s != "") ||
      (Get(x, "referredEmail").Str? && Get(x, "referredEmail").s != "")
  {
    EmptyTermMatchesStrings(Get(x, "referrerName"));
    EmptyTermMatchesStrings(Get(x, "referredEmail"));
  }

  datatype Badge = Completed | Rejected | Waiting

  /** `getStatusClass` / `getStatusIcon`: green for completed, red for
      rejected, amber for anything else. */
  function BadgeFor(status: Value): (b: Badge)
    ensures b == Completed <==> status == Str("completed")
    ensures b == Rejected <==> status == Str("rejected")
  {
    if status == Str("completed") then Completed
    else if status == Str("rejected") then Rejected
    else Waiting
  }

  /** The dialog state of the page. */
  class ReferralsPage {
    var isModalOpen: bool
    var currentReferral: Option<Record>
    var formData: Record

    constructor ()
      ensures !isModalOpen && currentReferral.None? && formData == BlankForm()
    {
      isModalOpen := false;
      currentReferral := None;
      formData := BlankForm();
    }

    /** `openModal`: edit the given referral, or prepare a new one. */
    method OpenModal(referral: Option<Record>, merchants: seq<Record>)
      modifies this
      ensures isModalOpen && currentReferral == referral
      ensures formData == OpenForm(referral, merchants)
    {
      currentReferral := referral;
      formData := OpenForm(referral, merchants);
      isModalOpen := true;
    }

    /** `closeModal`: close the dialog and clear the form. */
    method CloseModal()
      modifies this
      ensures !isModalOpen && currentReferral.None? && formData == BlankForm()
    {
      isModalOpen := false;
      currentReferral := None;
      formData := BlankForm();
    }

    /** `handleInputChange`: one form field takes the input's value. */
    method HandleInputChange(name: string, value: Value)
      modifies this
      ensures formData == SetField(old(formData), name, value)
      ensures isModalOpen == old(isModalOpen) && currentReferral == old(currentReferral)
    {
      formData := SetField(formData, name, value);
    }

    /** `handleSubmit`: update the referral being edited, or add a new one
      (always pending), with the referrer's name looked up among the
      merchants; then close the dialog. */
    method HandleSubmit(store: PaymentContext.PaymentStore, id: string, now: string)
      modifies this, store
      ensures var data := SubmittedData(old(formData), old(store.merchants));
        store.Snapshot() == old(store.Snapshot()).(referrals :=
          match old(currentReferral)
          case Some(r) => MergeById(old(store.referrals), IdOf(r), data)
          case None => ReferralService.AddReferral(old(store.referrals), id, now, data).list)
      ensures old(currentReferral).None? ==>
        |store.referrals| == |old(store.referrals)| + 1 && Get(store.referrals[|old(store.referrals)|], "status") == Str("pending")
      ensures !isModalOpen && currentReferral.None? && formData == BlankForm()
    {
      var data := SubmittedData(formData, store.merchants);
      match currentReferral {
        case Some(r) =>
          store.UpdateReferral(IdOf(r), data);
        case None =>
          var _ := store.AddReferral(id, now, data);
      }
      CloseModal();
    }
  }
}
