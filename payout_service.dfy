/** The payout service (src/services/payoutService.js).  `updateExistingPayout`
    is the shared `RecordLists.MergeById`; the state write is done by
    `PaymentContext.PaymentStore`. */
module PayoutService {
  import opened JsValues
  import opened RecordLists

  /** `createNewPayout`: `{ id, createdAt, status: 'pending', ...payoutData }`
      put in front of the list.  The caller's fields come last and win, so a
      `status` in `data` replaces the default 'pending'. */
  function CreateNewPayout(payouts: seq<Record>, id: string, now: string, data: Record): (r: Inserted)
    ensures r.list == [r.record] + payouts
    ensures r.record.Keys == data.Keys + {"id", "createdAt", "status"}
    ensures forall k :: k in data ==> r.record[k] == data[k]
    ensures Get(r.record, "status") == if "status" in data then data["status"] else Str("pending")
    ensures "id" !in data ==> r.record["id"] == Str(id)
    ensures "createdAt" !in data ==> r.record["createdAt"] == Str(now)
  {
    var payout := Spread(map["id" := Str(id), "createdAt" := Str(now), "status" := Str("pending")], data);
    Inserted([payout] + payouts, payout)
  }
}
