/** The webhook service (src/services/webhookService.js): add, update and
    remove webhook records, and the simulated notification of the webhooks
    subscribed to a payment event.  Update and remove are the shared
    `RecordLists.MergeById` and `RecordLists.RemoveById`; the state write is
    done by `PaymentContext.PaymentStore`. */
module WebhookService {
  import opened JsValues
  import opened RecordLists

  /** `addNewWebhook`: `{ id, createdAt, ...webhookData }` appended to the
      list.  The generated id and timestamp come first, so a field of the same
      name in `data` overrides them. */
  function AddNewWebhook(webhooks: seq<Record>, id: string, now: string, data: Record): (r: Inserted)
    ensures r.list == webhooks + [r.record]
    ensures |r.list| == |webhooks| + 1 && r.list[..|webhooks|] == webhooks
    ensures r.record.Keys == data.Keys + {"id", "createdAt"}
    ensures forall k :: k in data ==> r.record[k] == data[k]
    ensures "id" !in data ==> r.record["id"] == Str(id)
    ensures "createdAt" !in data ==> r.record["createdAt"] == Str(now)
  {
    var webhook := Spread(map["id" := Str(id), "createdAt" := Str(now)], data);
    Inserted(webhooks + [webhook], webhook)
  }

  /** The filter condition of `notifyWebhooksSimulated`:
      `w.isActive && (w.events.includes('all') || w.events.includes(event))`. */
  function Subscribed(w: Record, event: string): (s: bool)
    ensures s ==> Evaluable(w) && Truthy(Get(w, "isActive"))
    ensures s ==> Get(w, "events").List? || Get(w, "events").Str?
    ensures Truthy(Get(w, "isActive")) && Get(w, "events").List? && Str("all") in Get(w, "events").items ==> s
  {
    && Truthy(Get(w, "isActive"))
    && (Includes(Get(w, "events"), "all") == Some(true) || Includes(Get(w, "events"), event) == Some(true))
  }

  /** The condition can be evaluated without a `TypeError`: either the
      webhook is inactive (short-circuit) or its `events` has `includes`. */
  function Evaluable(w: Record): (e: bool)
    ensures e <==> !Truthy(Get(w, "isActive")) || Includes(Get(w, "events"), "all").Some?
    ensures e ==> forall event :: !Truthy(Get(w, "isActive")) || Includes(Get(w, "events"), event).Some?
  {
    !Truthy(Get(w, "isActive")) || Get(w, "events").List? || Get(w, "events").Str?
  }

  function SubscribedTo(event: string): Record -> bool
  {
    w => Subscribed(w, event)
  }

  /** `webhooks.filter(...)` of `notifyWebhooksSimulated`; `None` when the
      filter throws because an active webhook has no usable `events`. */
  function RelevantWebhooks(webhooks: seq<Record>, event: string): (r: Option<seq<Record>>)
    ensures r.Some? <==> forall w :: w in webhooks ==> Evaluable(w)
    ensures r.Some? ==> r.value == Filter(webhooks, SubscribedTo(event))
  {
    if webhooks == [] then Some([])
    else
      var w := webhooks[0];
      if !Evaluable(w) then None
      else
        match RelevantWebhooks(webhooks[1..], event)
        case None => None
        case Some(rest) => Some((if Subscribed(w, event) then [w] else []) + rest)
  }

  /** The webhooks notified are exactly the active ones that subscribe to the
      event or to "all", in list order. */
  lemma RelevantWebhooksExactly(webhooks: seq<Record>, event: string)
    requires RelevantWebhooks(webhooks, event).Some?
    ensures forall w :: w in RelevantWebhooks(webhooks, event).value <==>
      w in webhooks && Truthy(Get(w, "isActive")) &&
      (Includes(Get(w, "events"), "all") == Some(true) || Includes(Get(w, "events"), event) == Some(true))
    ensures IsSubsequence(RelevantWebhooks(webhooks, event).value, webhooks)
  {
    FilterIsSubsequence(webhooks, SubscribedTo(event));
  }

  /** An inactive webhook is never notified, whatever it subscribes to. */
  lemma InactiveNeverNotified(webhooks: seq<Record>, event: string, w: Record)
    requires RelevantWebhooks(webhooks, event).Some?
    requires !Truthy(Get(w, "isActive"))
    ensures w !in RelevantWebhooks(webhooks, event).value
  {
  }

  /** A webhook subscribed to "all" hears every event. */
  lemma AllHearsEverything(webhooks: seq<Record>, event: string, w: Record)
    requires RelevantWebhooks(webhooks, event).Some?
    requires w in webhooks && Get(w, "isActive") == Bool(true)
    requires Get(w, "events").List? && Str("all") in Get(w, "events").items
    ensures w in RelevantWebhooks(webhooks, event).value
  {
  }

  /** One simulated delivery: the log line names the webhook's url and the
      event. */
  datatype Delivery = Delivery(url: Value, event: string)

  /** `notifyWebhooksSimulated`: select the relevant webhooks, then log one
      delivery per selected webhook, in order.  Nothing stored changes.
      `None` is the `TypeError` the filter throws. */
  method NotifyWebhooksSimulated(webhooks: seq<Record>, event: string) returns (sent: Option<seq<Delivery>>)
    ensures sent.None? <==> exists w :: w in webhooks && !Evaluable(w)
    ensures sent.Some? ==>
      var relevant := Filter(webhooks, SubscribedTo(event));
      && |sent.value| == |relevant|
      && forall i :: 0 <= i < |relevant| ==> sent.value[i] == Delivery(Get(relevant[i], "url"), event)
  {
    var relevant := RelevantWebhooks(webhooks, event);
    if relevant.None? {
      return None;
    }
    var log: seq<Delivery> := [];
    for i := 0 to |relevant.value|
      invariant |log| == i
      invariant forall j :: 0 <= j < i ==> log[j] == Delivery(Get(relevant.value[j], "url"), event)
    {
      log := log + [Delivery(Get(relevant.value[i], "url"), event)];
    }
    return Some(log);
  }
}
