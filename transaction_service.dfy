/** The transaction service (src/services/transactionService.js): insert a
    transaction, merge a patch into it, and the pieces of the simulated
    payment run.  The run itself changes the stored list and is the method
    `PaymentContext.PaymentStore.ProcessPaymentSimulated`. */
module TransactionService {
  import opened JsValues
  import opened RecordLists

  /** `addNewTransaction`: `{ id, timestamp, status: 'pending', ...data }`
      put in front of the list.  The spread comes last, so the caller's
      fields, `status` included, win over the defaults. */
  function AddNewTransaction(transactions: seq<Record>, id: string, now: string, data: Record): (r: Inserted)
    ensures r.list == [r.record] + transactions
    ensures r.list[1..] == transactions
    ensures r.record.Keys == data.Keys + {"id", "timestamp", "status"}
    ensures forall k :: k in data ==> r.record[k] == data[k]
    ensures Get(r.record, "status") == if "status" in data then data["status"] else Str("pending")
    ensures "id" !in data ==> r.record["id"] == Str(id)
    ensures "timestamp" !in data ==> r.record["timestamp"] == Str(now)
  {
    var tx := Spread(map["id" := Str(id), "timestamp" := Str(now), "status" := Str("pending")], data);
    Inserted([tx] + transactions, tx)
  }

  /** The five fields of the payment request that the pending transaction is
      built from; a field missing from the request is stored as `undefined`. */
  function PaymentFields(paymentData: Record): (r: Record)
    ensures r.Keys == {"amount", "currency", "gateway", "customerId", "description"}
    ensures forall k :: k in r ==> r[k] == Get(paymentData, k)
  {
    map k | k in {"amount", "currency", "gateway", "customerId", "description"} :: Get(paymentData, k)
  }

  /** How the simulated processor answers: `Math.random() < 0.9` approves
      (with the random characters of the reference), otherwise the issuer
      declines; `Fault` is an exception raised by the environment inside the
      `try` block before any webhook is notified. */
  datatype Attempt = Approve(referenceChars: string) | Decline | Fault(message: string)

  const DeclineMessage: string := "Payment declined by issuing bank"
  const UnknownErrorMessage: string := "Unknown error occurred"
  /** Stands for the engine's message of the `TypeError` raised when an active
      webhook's `events` has no `includes` method (never empty). */
  const NotifyTypeErrorMessage: string := "webhook.events.includes is not a function"

  /** `REF-${random.toUpperCase()}`. */
  function GatewayReference(chars: string): (r: string)
    ensures StartsWith(r, "REF-")
    ensures |r| == 4 + |chars|
    ensures forall i :: 4 <= i < |r| ==> !('a' <= r[i] <= 'z')
  {
    "REF-" + ToUpper(chars)
  }

  /** `error.message || 'Unknown error occurred'`. */
  function ErrorText(message: string): (r: string)
    ensures r != ""
    ensures message != "" ==> r == message
  {
    if message == "" then UnknownErrorMessage else message
  }

  /** Patch of the approved branch. */
  function CompletedPatch(referenceChars: string, completedAt: string): (p: Record)
    ensures p.Keys == {"status", "gatewayReference", "completedAt"}
    ensures p["status"] == Str("completed")
    ensures p["gatewayReference"].Str? && StartsWith(p["gatewayReference"].s, "REF-")
    ensures p["completedAt"] == Str(completedAt)
  {
    map["status" := Str("completed"),
        "gatewayReference" := Str(GatewayReference(referenceChars)),
        "completedAt" := Str(completedAt)]
  }

  /** Patch of the declined branch. */
  function FailedPatch(completedAt: string): (p: Record)
    ensures p.Keys == {"status", "error", "completedAt"}
    ensures p["status"] == Str("failed") && p["error"] == Str(DeclineMessage)
    ensures p["completedAt"] == Str(completedAt)
  {
    map["status" := Str("failed"), "error" := Str(DeclineMessage), "completedAt" := Str(completedAt)]
  }

  /** Patch of the `catch` branch. */
  function ErrorPatch(message: string, completedAt: string): (p: Record)
    ensures p.Keys == {"status", "error", "completedAt"}
    ensures p["status"] == Str("error") && p["error"] == Str(ErrorText(message))
    ensures p["completedAt"] == Str(completedAt)
  {
    map["status" := Str("error"), "error" := Str(ErrorText(message)), "completedAt" := Str(completedAt)]
  }

  /** The object `processPaymentSimulated` resolves to. */
  datatype PaymentResult = PaymentResult(success: bool, transactionId: Option<string>, error: Option<string>)

  /** Every follow-up update of the payment run is applied to the list the
      caller passed in, captured before the insert.  That list never holds the
      freshly generated id, so the update writes back the list as it was
      before the call: the pending transaction that was just inserted is
      dropped, whatever the outcome. */
  lemma StaleUpdateDropsInsert(pre: seq<Record>, id: string, now: string, paymentData: Record, patch: Record)
    requires Str(id) !in Ids(pre)
    ensures var inserted := AddNewTransaction(pre, id, now, PaymentFields(paymentData));
      && Str(id) in Ids(inserted.list)
      && MergeById(pre, Str(id), patch) == pre
      && Str(id) !in Ids(MergeById(pre, Str(id), patch))
  {
    var inserted := AddNewTransaction(pre, id, now, PaymentFields(paymentData));
    assert IdOf(inserted.list[0]) == Str(id);
    MergeAbsentId(pre, Str(id), patch);
  }

  /** Applied to the list that holds the insert, the same patch gives the new
      transaction its final status and keeps every older entry. */
  lemma FreshUpdateKeepsInsert(pre: seq<Record>, id: string, now: string, paymentData: Record, patch: Record)
    requires Str(id) !in Ids(pre)
    ensures var inserted := AddNewTransaction(pre, id, now, PaymentFields(paymentData));
      var after := MergeById(inserted.list, Str(id), patch);
      && after == [Spread(inserted.record, patch)] + pre
      && |after| == |pre| + 1 && after[1..] == pre
      && ("id" !in patch ==> IdOf(after[0]) == Str(id))
      && ("status" in patch ==> Get(after[0], "status") == patch["status"])
  {
    var inserted := AddNewTransaction(pre, id, now, PaymentFields(paymentData));
    MergeFront(inserted.record, pre, Str(id), patch);
  }
}
