/** The referral service (src/services/referralService.js).  `updateReferral`
    is the shared `RecordLists.MergeById`; there is no delete.  The state
    write is done by `PaymentContext.PaymentStore`. */
module ReferralService {
  import opened JsValues
  import opened RecordLists

  /** `addReferral`: `{ id, ...referralData, createdAt, status: 'pending' }`
      appended to the list.  Timestamp and status come after the spread, so a
      new referral is always 'pending', whatever status `data` carries. */
  function AddReferral(referrals: seq<Record>, id: string, now: string, data: Record): (r: Inserted)
    ensures r.list == referrals + [r.record]
    ensures r.record.Keys == data.Keys + {"id", "createdAt", "status"}
    ensures r.record["status"] == Str("pending") && r.record["createdAt"] == Str(now)
    ensures forall k :: k in data && k != "createdAt" && k != "status" ==> r.record[k] == data[k]
    ensures r.record["id"] == if "id" in data then data["id"] else Str(id)
  {
    var referral := Spread(Spread(map["id" := Str(id)], data),
                           map["createdAt" := Str(now), "status" := Str("pending")]);
    Inserted(referrals + [referral], referral)
  }
}
