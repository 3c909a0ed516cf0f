/** The shared state container (src/contexts/PaymentContext.jsx): one list per
    entity, each loaded from storage with a default, each replaced as a whole
    by the operations the context exposes.  A `setX(list)` followed by
    `saveState('x', list)` is one assignment to the field `x`. */
module PaymentContext {
  import opened JsValues
  import opened RecordLists
  import opened TransactionService
  import WebhookService
  import PayoutService
  import UserService
  import ReferralService
  import GatewayStatus

  /** The default PayU gateway: active, in INR, credentials empty, so its
      card asks for the configuration. */
  function DefaultPayU(): (g: Record)
    ensures IdOf(g) == Str("1") && Get(g, "name") == Str("PayU") && Get(g, "currency") == Str("INR")
    ensures Truthy(Get(g, "isActive")) && !GatewayStatus.IsConfigured(g)
    ensures GatewayStatus.Status(g) == GatewayStatus.ConfigurationIncomplete
  {
    var g := map["id" := Str("1"), "name" := Str("PayU"), "isActive" := Bool(true),
                 "apiKey" := Str(""), "merchantId" := Str(""), "salt" := Str(""), "currency" := Str("INR")];
    assert Get(g, "name") == Str("PayU") && Get(g, "apiKey") == Str("") && Get(g, "isActive") == Bool(true);
    g
  }

  /** The default PlatformPayments gateway: inactive, in INR, credentials
      empty, so its card reads as inactive. */
  function DefaultPlatformPayments(): (g: Record)
    ensures IdOf(g) == Str("2") && Get(g, "name") == Str("PlatformPayments") && Get(g, "currency") == Str("INR")
    ensures !Truthy(Get(g, "isActive")) && !GatewayStatus.IsConfigured(g)
    ensures GatewayStatus.Status(g) == GatewayStatus.IntegrationInactive
  {
    var g := map["id" := Str("2"), "name" := Str("PlatformPayments"), "isActive" := Bool(false),
                 "apiKey" := Str(""), "keySecret" := Str(""), "currency" := Str("INR")];
    assert Get(g, "name") == Str("PlatformPayments") && Get(g, "apiKey") == Str("") && Get(g, "isActive") == Bool(false);
    g
  }

  /** The gateways used when storage holds none: one of each, ids '1' and
      '2', both in INR and neither configured. */
  function DefaultGateways(): (gs: seq<Record>)
    ensures |gs| == 2
    ensures Ids(gs) == {Str("1"), Str("2")}
    ensures forall g :: g in gs ==> !GatewayStatus.IsConfigured(g) && Get(g, "currency") == Str("INR")
    ensures GatewayStatus.Status(gs[0]) == GatewayStatus.ConfigurationIncomplete
    ensures GatewayStatus.Status(gs[1]) == GatewayStatus.IntegrationInactive
  {
    var gs := [DefaultPayU(), DefaultPlatformPayments()];
    assert forall g :: g in gs ==> g == DefaultPayU() || g == DefaultPlatformPayments();
    assert IdOf(gs[0]) == Str("1") && IdOf(gs[1]) == Str("2");
    gs
  }

  /** `loadState(key, default)`: the stored list, or the default. */
  function Load(storage: map<string, seq<Record>>, key: string, default: seq<Record>): (list: seq<Record>)
    ensures key !in storage ==> list == default
    ensures list == default || list in storage.Values
  {
    if key in storage then storage[key] else default
  }

  /** What `saveState` wrote under a key is what `loadState` reads back,
      and saving under one key leaves every other key's load as it was. */
  lemma LoadAfterSave(storage: map<string, seq<Record>>, key: string, other: string, list: seq<Record>, default: seq<Record>)
    ensures Load(storage[key := list], key, default) == list
    ensures other != key ==> Load(storage[key := list], other, default) == Load(storage, other, default)
  {
  }

  /** The merchant patch of `updateMerchantKyc`: `{ ...m, kycData, kycStatus: 'submitted' }`. */
  function KycPatch(kycData: Value): (p: Record)
    ensures p.Keys == {"kycData", "kycStatus"}
    ensures p["kycData"] == kycData && p["kycStatus"] == Str("submitted")
  {
    map["kycData" := kycData, "kycStatus" := Str("submitted")]
  }

  /** KYC submission marks exactly the merchants with that id as 'submitted'
      with the given documents; every other merchant and the length stay. */
  lemma KycSubmission(merchants: seq<Record>, id: Value, kycData: Value)
    ensures var r := MergeById(merchants, id, KycPatch(kycData));
      && |r| == |merchants|
      && (forall i :: 0 <= i < |r| && IdOf(merchants[i]) == id ==>
            Get(r[i], "kycStatus") == Str("submitted") && Get(r[i], "kycData") == kycData &&
            forall k :: k != "kycStatus" && k != "kycData" ==> Get(r[i], k) == Get(merchants[i], k))
      && (forall i :: 0 <= i < |r| && IdOf(merchants[i]) != id ==> r[i] == merchants[i])
  {
  }

  /** How the simulated payment run ends: the patch written, the resolved
      value, and the event whose subscribers are notified (if any). */
  datatype Settled = Settled(patch: Record, result: PaymentResult, event: Option<string>)

  /** The branch table of `processPaymentSimulated` after its delay.
      `notifiable` says whether the notification filter can run without a
      `TypeError`; when it cannot, the approved or declined branch ends in the
      `catch` block. */
  function Settle(attempt: Attempt, id: string, notifiable: bool, completedAt: string): (s: Settled)
    ensures s.patch.Keys == {"status", "error", "completedAt"} || s.patch.Keys == {"status", "gatewayReference", "completedAt"}
    ensures "id" !in s.patch && "status" in s.patch
    ensures s.patch["status"] in {Str("completed"), Str("failed"), Str("error")}
    ensures s.result.success <==> attempt.Approve? && notifiable
    ensures s.result.success ==> s.result == PaymentResult(true, Some(id), None) && s.patch["status"] == Str("completed")
    ensures !s.result.success ==> s.result.transactionId.None? && s.result.error.Some? && s.result.error.value != ""
    ensures attempt.Decline? && notifiable ==>
      s.result.error == Some(DeclineMessage) && s.patch == FailedPatch(completedAt) && s.event == Some("payment.failed")
    ensures s.event.Some? <==> !attempt.Fault? && notifiable
    ensures s.event == Some("payment.success") <==> s.result.success
    ensures attempt.Fault? ==> s.patch == ErrorPatch(attempt.message, completedAt)
    ensures attempt.Fault? ==> s.result.error == Some(ErrorText(attempt.message))
    ensures !attempt.Fault? && !notifiable ==> s.result.error == Some(ErrorText(NotifyTypeErrorMessage))
    ensures attempt.Approve? && notifiable ==> s.patch == CompletedPatch(attempt.referenceChars, completedAt)
    ensures !attempt.Fault? && !notifiable ==>
      s.patch == ErrorPatch(NotifyTypeErrorMessage, completedAt) && s.patch["status"] == Str("error")
  {
    match attempt
    case Fault(message) =>
      Settled(ErrorPatch(message, completedAt), PaymentResult(false, None, Some(ErrorText(message))), None)
    case Approve(chars) =>
      if notifiable then
        Settled(CompletedPatch(chars, completedAt), PaymentResult(true, Some(id), None), Some("payment.success"))
      else
        NotificationFault(completedAt)
    case Decline =>
      if notifiable then
        Settled(FailedPatch(completedAt), PaymentResult(false, None, Some(DeclineMessage)), Some("payment.failed"))
      else
        NotificationFault(completedAt)
  }

  /** The notification filter runs without a `TypeError` on these webhooks. */
  predicate Notifiable(webhooks: seq<Record>)
  {
    forall w :: w in webhooks ==> WebhookService.Evaluable(w)
  }

  /** The `catch` branch reached through the notification's `TypeError`. */
  function NotificationFault(completedAt: string): Settled
  {
    Settled(ErrorPatch(NotifyTypeErrorMessage, completedAt),
            PaymentResult(false, None, Some(ErrorText(NotifyTypeErrorMessage))), None)
  }

  /** The log lines `notifyWebhooksSimulated` writes for the selected
      webhooks. */
  function Deliveries(selected: seq<Record>, event: string): (d: seq<WebhookService.Delivery>)
    ensures |d| == |selected|
    ensures forall i :: 0 <= i < |d| ==> d[i].url == Get(selected[i], "url") && d[i].event == event
  {
    seq(|selected|, i requires 0 <= i < |selected| => WebhookService.Delivery(Get(selected[i], "url"), event))
  }

  /** All lists of the context at one moment. */
  datatype Lists = Lists(
    gateways: seq<Record>, webhooks: seq<Record>, transactions: seq<Record>, payouts: seq<Record>,
    users: seq<Record>, managers: seq<Record>, merchants: seq<Record>, referrals: seq<Record>)
  {
    function WithPeople(kind: People, list: seq<Record>): Lists
    {
      match kind
      case Users => this.(users := list)
      case Managers => this.(managers := list)
      case Merchants => this.(merchants := list)
    }
  }

  /** The three lists served by the same user service. */
  datatype People = Users | Managers | Merchants

  class PaymentStore {
    var gateways: seq<Record>
    var webhooks: seq<Record>
    var transactions: seq<Record>
    var payouts: seq<Record>
    var users: seq<Record>
    var managers: seq<Record>
    var merchants: seq<Record>
    var referrals: seq<Record>

    function Snapshot(): Lists
      reads this
    {
      Lists(gateways, webhooks, transactions, payouts, users, managers, merchants, referrals)
    }

    function PeopleOf(kind: People): seq<Record>
      reads this
    {
      match kind
      case Users => users
      case Managers => managers
      case Merchants => merchants
    }

    /** Every list is loaded from storage under its own key; only the
        gateways have a non-empty default. */
    constructor (storage: map<string, seq<Record>>)
      ensures gateways == Load(storage, "paymentGateways", DefaultGateways())
      ensures webhooks == Load(storage, "webhooks", [])
      ensures transactions == Load(storage, "transactions", [])
      ensures payouts == Load(storage, "payouts", [])
      ensures users == Load(storage, "users", [])
      ensures managers == Load(storage, "managers", [])
      ensures merchants == Load(storage, "merchants", [])
      ensures referrals == Load(storage, "referrals", [])
    {
      gateways := Load(storage, "paymentGateways", DefaultGateways());
      webhooks := Load(storage, "webhooks", []);
      transactions := Load(storage, "transactions", []);
      payouts := Load(storage, "payouts", []);
      users := Load(storage, "users", []);
      managers := Load(storage, "managers", []);
      merchants := Load(storage, "merchants", []);
      referrals := Load(storage, "referrals", []);
    }

    // ----- gateways: update only

    method UpdatePaymentGateway(id: Value, data: Record)
      modifies this
      ensures Snapshot() == old(Snapshot()).(gateways := MergeById(old(gateways), id, data))
      ensures |gateways| == |old(gateways)|
    {
      gateways := MergeById(gateways, id, data);
    }

    // ----- webhooks: add, update, delete

    method AddWebhook(id: string, now: string, data: Record) returns (webhook: Record)
      modifies this
      ensures var r := WebhookService.AddNewWebhook(old(webhooks), id, now, data);
        webhook == r.record && Snapshot() == old(Snapshot()).(webhooks := r.list)
      ensures webhooks == old(webhooks) + [webhook]
    {
      var r := WebhookService.AddNewWebhook(webhooks, id, now, data);
      webhooks := r.list;
      webhook := r.record;
    }

    method UpdateWebhook(id: Value, data: Record)
      modifies this
      ensures Snapshot() == old(Snapshot()).(webhooks := MergeById(old(webhooks), id, data))
      ensures |webhooks| == |old(webhooks)|
    {
      webhooks := MergeById(webhooks, id, data);
    }

    method DeleteWebhook(id: Value)
      modifies this
      ensures Snapshot() == old(Snapshot()).(webhooks := RemoveById(old(webhooks), id))
      ensures id !in Ids(webhooks) && IsSubsequence(webhooks, old(webhooks))
    {
      webhooks := RemoveById(webhooks, id);
    }

    // ----- transactions: insert and merge, no delete

    method AddTransaction(id: string, now: string, data: Record) returns (transaction: Record)
      modifies this
      ensures var r := AddNewTransaction(old(transactions), id, now, data);
        transaction == r.record && Snapshot() == old(Snapshot()).(transactions := r.list)
      ensures transactions == [transaction] + old(transactions)
    {
      var r := AddNewTransaction(transactions, id, now, data);
      transactions := r.list;
      transaction := r.record;
    }

    method UpdateTransaction(id: Value, data: Record)
      modifies this
      ensures Snapshot() == old(Snapshot()).(transactions := MergeById(old(transactions), id, data))
      ensures |transactions| == |old(transactions)|
    {
      transactions := MergeById(transactions, id, data);
    }

    /** The steps after the delay: write the branch's patch merged into
        `base`, notify, and on a `TypeError` from the notification write the
        error patch merged into `base` instead. */
    method SettlePayment(base: seq<Record>, id: string, completedAt: string, attempt: Attempt)
      returns (result: PaymentResult, sent: seq<WebhookService.Delivery>)
      modifies this
      ensures var s := Settle(attempt, id, Notifiable(webhooks), completedAt);
        && Snapshot() == old(Snapshot()).(transactions := MergeById(base, Str(id), s.patch))
        && result == s.result
        && sent == if s.event.Some? then Deliveries(Filter(webhooks, WebhookService.SubscribedTo(s.event.value)), s.event.value) else []
    {
      ghost var notifiable := Notifiable(webhooks);
      match attempt {
        case Fault(message) =>
          transactions := MergeById(base, Str(id), ErrorPatch(message, completedAt));
          result := PaymentResult(false, None, Some(ErrorText(message)));
          sent := [];
        case Approve(chars) =>
          transactions := MergeById(base, Str(id), CompletedPatch(chars, completedAt));
          var notified := WebhookService.NotifyWebhooksSimulated(webhooks, "payment.success");
          if notified.None? {
            transactions := MergeById(base, Str(id), ErrorPatch(NotifyTypeErrorMessage, completedAt));
            result := PaymentResult(false, None, Some(ErrorText(NotifyTypeErrorMessage)));
            sent := [];
          } else {
            result := PaymentResult(true, Some(id), None);
            sent := notified.value;
          }
        case Decline =>
          transactions := MergeById(base, Str(id), FailedPatch(completedAt));
          var notified := WebhookService.NotifyWebhooksSimulated(webhooks, "payment.failed");
          if notified.None? {
            transactions := MergeById(base, Str(id), ErrorPatch(NotifyTypeErrorMessage, completedAt));
            result := PaymentResult(false, None, Some(ErrorText(NotifyTypeErrorMessage)));
            sent := [];
          } else {
            result := PaymentResult(false, None, Some(DeclineMessage));
            sent := notified.value;
          }
      }
    }

    /** `processPaymentSimulated` as written: insert a pending transaction
        built from the five payment fields, then settle against the list
        captured before the insert.  The id is fresh, so the list written last
        is the list as it was before the call. */
    method ProcessPaymentSimulated(paymentData: Record, id: string, now: string, completedAt: string, attempt: Attempt)
      returns (result: PaymentResult, sent: seq<WebhookService.Delivery>)
      modifies this
      ensures var s := Settle(attempt, id, Notifiable(webhooks), completedAt);
        && Snapshot() == old(Snapshot()).(transactions := MergeById(old(transactions), Str(id), s.patch))
        && result == s.result
        && sent == if s.event.Some? then Deliveries(Filter(webhooks, WebhookService.SubscribedTo(s.event.value)), s.event.value) else []
      ensures Str(id) !in Ids(old(transactions)) ==> transactions == old(transactions)
    {
      var pre := transactions;
      var pending := AddTransaction(id, now, PaymentFields(paymentData));
      result, sent := SettlePayment(pre, id, completedAt, attempt);
      if Str(id) !in Ids(pre) {
        MergeAbsentId(pre, Str(id), Settle(attempt, id, Notifiable(webhooks), completedAt).patch);
      }
    }

    /** The run as evidently intended: settle against the list that holds the
        insert.  The new transaction then stays, first in the list, with a
        terminal status, and every older entry is kept. */
    method ProcessPaymentIntended(paymentData: Record, id: string, now: string, completedAt: string, attempt: Attempt)
      returns (result: PaymentResult, sent: seq<WebhookService.Delivery>)
      modifies this
      ensures var s := Settle(attempt, id, Notifiable(webhooks), completedAt);
        && result == s.result
        && sent == if s.event.Some? then Deliveries(Filter(webhooks, WebhookService.SubscribedTo(s.event.value)), s.event.value) else []
      ensures Str(id) !in Ids(old(transactions)) ==>
        && |transactions| == |old(transactions)| + 1
        && transactions[1..] == old(transactions)
        && IdOf(transactions[0]) == Str(id)
        && Get(transactions[0], "status") in {Str("completed"), Str("failed"), Str("error")}
      ensures Str(id) !in Ids(old(transactions)) ==>
        transactions[0] == Spread(AddNewTransaction(old(transactions), id, now, PaymentFields(paymentData)).record,
                                  Settle(attempt, id, Notifiable(webhooks), completedAt).patch)
      ensures Snapshot() == old(Snapshot()).(transactions := transactions)
    {
      ghost var pre := transactions;
      ghost var s := Settle(attempt, id, Notifiable(webhooks), completedAt);
      ghost var inserted := AddNewTransaction(pre, id, now, PaymentFields(paymentData));
      var pending := AddTransaction(id, now, PaymentFields(paymentData));
      assert transactions == inserted.list;
      result, sent := SettlePayment(transactions, id, completedAt, attempt);
      assert transactions == MergeById(inserted.list, Str(id), s.patch);
      if Str(id) !in Ids(pre) {
        FreshUpdateKeepsInsert(pre, id, now, paymentData, s.patch);
        assert "id" !in s.patch && "status" in s.patch;
      }
    }

    // ----- payouts: create and merge, no delete

    method CreatePayout(id: string, now: string, data: Record) returns (payout: Record)
      modifies this
      ensures var r := PayoutService.CreateNewPayout(old(payouts), id, now, data);
        payout == r.record && Snapshot() == old(Snapshot()).(payouts := r.list)
      ensures payouts == [payout] + old(payouts)
    {
      var r := PayoutService.CreateNewPayout(payouts, id, now, data);
      payouts := r.list;
      payout := r.record;
    }

    method UpdatePayout(id: Value, data: Record)
      modifies this
      ensures Snapshot() == old(Snapshot()).(payouts := MergeById(old(payouts), id, data))
      ensures |payouts| == |old(payouts)|
    {
      payouts := MergeById(payouts, id, data);
    }

    // ----- users, managers, merchants: one service, three separate lists

    method SetPeople(kind: People, list: seq<Record>)
      modifies this
      ensures Snapshot() == old(Snapshot()).WithPeople(kind, list)
      ensures PeopleOf(kind) == list
    {
      match kind {
        case Users => users := list;
        case Managers => managers := list;
        case Merchants => merchants := list;
      }
    }

    method AddPerson(kind: People, id: string, now: string, data: Record) returns (person: Record)
      modifies this
      ensures var r := UserService.AddUser(old(PeopleOf(kind)), id, now, data);
        person == r.record && Snapshot() == old(Snapshot()).WithPeople(kind, r.list)
      ensures PeopleOf(kind) == old(PeopleOf(kind)) + [person]
    {
      var r := UserService.AddUser(PeopleOf(kind), id, now, data);
      SetPeople(kind, r.list);
      person := r.record;
    }

    method UpdatePerson(kind: People, id: Value, data: Record)
      modifies this
      ensures Snapshot() == old(Snapshot()).WithPeople(kind, MergeById(old(PeopleOf(kind)), id, data))
    {
      SetPeople(kind, MergeById(PeopleOf(kind), id, data));
    }

    method DeletePerson(kind: People, id: Value)
      modifies this
      ensures Snapshot() == old(Snapshot()).WithPeople(kind, RemoveById(old(PeopleOf(kind)), id))
      ensures id !in Ids(PeopleOf(kind))
    {
      SetPeople(kind, RemoveById(PeopleOf(kind), id));
    }

    /** `addMerchant`: the user service fed `{ ...data, kycStatus: 'pending' }`,
        so a new merchant is always 'pending', whatever the caller sent. */
    method AddMerchant(id: string, now: string, data: Record) returns (merchant: Record)
      modifies this
      ensures merchant == UserService.AddUser(old(merchants), id, now, SetField(data, "kycStatus", Str("pending"))).record
      ensures Snapshot() == old(Snapshot()).(merchants := old(merchants) + [merchant])
      ensures merchant["kycStatus"] == Str("pending")
    {
      merchant := AddPerson(Merchants, id, now, SetField(data, "kycStatus", Str("pending")));
    }

    method UpdateMerchantKyc(id: Value, kycData: Value)
      modifies this
      ensures Snapshot() == old(Snapshot()).(merchants := MergeById(old(merchants), id, KycPatch(kycData)))
    {
      merchants := MergeById(merchants, id, KycPatch(kycData));
    }

    // ----- referrals: add and merge, no delete

    method AddReferral(id: string, now: string, data: Record) returns (referral: Record)
      modifies this
      ensures var r := ReferralService.AddReferral(old(referrals), id, now, data);
        referral == r.record && Snapshot() == old(Snapshot()).(referrals := r.list)
      ensures referrals == old(referrals) + [referral] && referral["status"] == Str("pending")
    {
      var r := ReferralService.AddReferral(referrals, id, now, data);
      assert r.list == referrals + [r.record] && r.record["status"] == Str("pending");
      referrals := r.list;
      referral := r.record;
    }

    method UpdateReferral(id: Value, data: Record)
      modifies this
      ensures Snapshot() == old(Snapshot()).(referrals := MergeById(old(referrals), id, data))
      ensures |referrals| == |old(referrals)|
    {
      referrals := MergeById(referrals, id, data);
    }
  }
}
