/** The gateway service (src/services/gatewayService.js): `updateGateway` is
    the shared `RecordLists.MergeById`; there is no add and no delete.  The
    state write is done by `PaymentContext.PaymentStore`. */
module GatewayService {
  import opened JsValues
  import opened RecordLists

  /** The toggle patch `{ isActive: !currentValue }` sent by both admin pages. */
  function TogglePatch(currentValue: bool): (p: Record)
    ensures p.Keys == {"isActive"} && p["isActive"] == Bool(!currentValue)
  {
    map["isActive" := Bool(!currentValue)]
  }

  /** A toggle flips `isActive` on the gateways with that id and touches no
      other field and no other gateway; the list keeps its length and order. */
  lemma ToggleFlipsOneFlag(gateways: seq<Record>, id: Value, currentValue: bool)
    ensures var r := MergeById(gateways, id, TogglePatch(currentValue));
      && |r| == |gateways|
      && (forall i :: 0 <= i < |r| && IdOf(gateways[i]) == id ==>
            r[i] == gateways[i]["isActive" := Bool(!currentValue)])
      && (forall i :: 0 <= i < |r| && IdOf(gateways[i]) != id ==> r[i] == gateways[i])
  {
    var r := MergeById(gateways, id, TogglePatch(currentValue));
    forall i | 0 <= i < |r| && IdOf(gateways[i]) == id
      ensures r[i] == gateways[i]["isActive" := Bool(!currentValue)]
    {
      assert Spread(gateways[i], TogglePatch(currentValue)) == gateways[i]["isActive" := Bool(!currentValue)];
    }
  }

  /** On one record: flipping the flag it holds, then flipping it back,
      gives the record back, and the id never changes. */
  lemma ToggleRecordTwice(g: Record, currentValue: bool)
    requires Get(g, "isActive") == Bool(currentValue)
    ensures IdOf(Spread(g, TogglePatch(currentValue))) == IdOf(g)
    ensures Spread(Spread(g, TogglePatch(currentValue)), TogglePatch(!currentValue)) == g
  {
    assert "isActive" in g;
    assert Spread(Spread(g, TogglePatch(currentValue)), TogglePatch(!currentValue)) == g["isActive" := Bool(currentValue)];
  }

  /** When the page passes the gateway's current flag, toggling twice (the
      second time with the flag the first toggle wrote) restores the list. */
  lemma ToggleTwiceRestores(gateways: seq<Record>, id: Value, currentValue: bool)
    requires forall i :: 0 <= i < |gateways| && IdOf(gateways[i]) == id ==>
      Get(gateways[i], "isActive") == Bool(currentValue)
    ensures MergeById(MergeById(gateways, id, TogglePatch(currentValue)), id, TogglePatch(!currentValue)) == gateways
  {
    var once := MergeById(gateways, id, TogglePatch(currentValue));
    var twice := MergeById(once, id, TogglePatch(!currentValue));
    forall i | 0 <= i < |gateways| ensures twice[i] == gateways[i] {
      if IdOf(gateways[i]) == id {
        ToggleRecordTwice(gateways[i], currentValue);
      }
    }
  }
}
