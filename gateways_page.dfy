/** The payment gateways page
    (src/components/admin/PaymentGateways/PaymentGateways.jsx): editing one
    gateway at a time, the active switch, and the simulated connection test. */
module GatewaysPage {
  import opened JsValues
  import opened RecordLists
  import GatewayService
  import GatewayStatus
  import PaymentContext

  /** The verdict of `handleTestConnection` (shown after a two-second
      timer): it succeeds exactly for the gateways the status card calls
      configured, so the two never disagree. */
  function ConnectionTestSucceeds(gateway: Record): (ok: bool)
    ensures ok <==> GatewayStatus.IsConfigured(gateway)
    ensures ok ==> Get(gateway, "name") == Str("PayU") || Get(gateway, "name") == Str("PlatformPayments")
    ensures ok ==> Truthy(Get(gateway, "apiKey"))
  {
    var payU := Get(gateway, "name") == Str("PayU") && Truthy(Get(gateway, "apiKey"))
      && Truthy(Get(gateway, "merchantId")) && Truthy(Get(gateway, "salt"));
    var platform := Get(gateway, "name") == Str("PlatformPayments") && Truthy(Get(gateway, "apiKey"))
      && Truthy(Get(gateway, "keySecret"));
    payU || platform
  }

  /** The page's edit state: the id of the gateway being edited (`null` when
      none) and the form (`{}` when none). */
  class GatewaysPage {
    var editingGateway: Value
    var formData: Record

    constructor ()
      ensures editingGateway == Null && formData == map[]
    {
      editingGateway := Null;
      formData := map[];
    }

    /** `handleEdit`: remember the gateway's id and copy it into the form. */
    method HandleEdit(gateway: Record)
      modifies this
      ensures editingGateway == IdOf(gateway) && formData == gateway
    {
      editingGateway := IdOf(gateway);
      formData := gateway;
    }

    /** `handleCancel`. */
    method HandleCancel()
      modifies this
      ensures editingGateway == Null && formData == map[]
    {
      editingGateway := Null;
      formData := map[];
    }

    /** `handleSave`: when a gateway is being edited, merge the form into it
        and leave edit mode; otherwise nothing happens. */
    method HandleSave(store: PaymentContext.PaymentStore)
      modifies this, store
      ensures Truthy(old(editingGateway)) ==>
        && store.Snapshot() == old(store.Snapshot()).(gateways := MergeById(old(store.gateways), old(editingGateway), old(formData)))
        && editingGateway == Null && formData == map[]
      ensures !Truthy(old(editingGateway)) ==>
        store.Snapshot() == old(store.Snapshot()) && editingGateway == old(editingGateway) && formData == old(formData)
    {
      if Truthy(editingGateway) {
        store.UpdatePaymentGateway(editingGateway, formData);
        editingGateway := Null;
        formData := map[];
      }
    }

    /** `handleChange`: one form field takes the input's value. */
    method HandleChange(name: string, value: Value)
      modifies this
      ensures formData == SetField(old(formData), name, value) && editingGateway == old(editingGateway)
    {
      formData := SetField(formData, name, value);
    }

    /** `handleToggleActive`: store the negation of the flag the card shows. */
    method HandleToggleActive(store: PaymentContext.PaymentStore, id: Value, currentValue: Value)
      modifies store
      ensures store.Snapshot() == old(store.Snapshot()).(gateways :=
        MergeById(old(store.gateways), id, GatewayService.TogglePatch(Truthy(currentValue))))
    {
      store.UpdatePaymentGateway(id, GatewayService.TogglePatch(Truthy(currentValue)));
    }
  }
}
