/** The user service (src/services/userService.js), shared by the users,
    managers and merchants lists: it looks at no field but `id`.  Update and
    delete are the shared `RecordLists.MergeById` and `RecordLists.RemoveById`;
    the state write is done by `PaymentContext.PaymentStore`. */
module UserService {
  import opened JsValues
  import opened RecordLists

  /** `addUser`: `{ id, ...userData, createdAt }` appended to the list.  The
      timestamp comes after the spread and always wins; the generated id comes
      before it and yields to an `id` in `data`. */
  function AddUser(users: seq<Record>, id: string, now: string, data: Record): (r: Inserted)
    ensures r.list == users + [r.record]
    ensures r.record.Keys == data.Keys + {"id", "createdAt"}
    ensures r.record["createdAt"] == Str(now)
    ensures forall k :: k in data && k != "createdAt" ==> r.record[k] == data[k]
    ensures r.record["id"] == if "id" in data then data["id"] else Str(id)
  {
    var user := Spread(Spread(map["id" := Str(id)], data), map["createdAt" := Str(now)]);
    Inserted(users + [user], user)
  }
}
