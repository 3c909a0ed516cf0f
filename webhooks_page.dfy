/** The webhooks administration page (src/components/admin/Webhooks/Webhooks.jsx):
    the add form, editing one webhook at a time, the active switch, delete,
    and the generated signing secret. */
module WebhooksPage {
  import opened JsValues
  import opened RecordLists
  import HexEncoding
  import WebhookService
  import GatewayService
  import PaymentContext

  /** The form's initial and reset value: subscribed to every event, active. */
  function EmptyWebhookForm(): (f: Record)
    ensures f.Keys == {"name", "url", "secret", "events", "isActive"}
    ensures !Truthy(f["url"])
    ensures f["events"] == List([Str("all")]) && f["isActive"] == Bool(true)
  {
    map["name" := Str(""), "url" := Str(""), "secret" := Str(""),
        "events" := List([Str("all")]), "isActive" := Bool(true)]
  }

  /** A new secret: 32 random bytes as 64 lowercase hexadecimal digits, from
      which the bytes can be read back. */
  function SecretFromBytes(bytes: seq<HexEncoding.Byte>): (secret: string)
    requires |bytes| == 32
    ensures |secret| == 64
    ensures forall i :: 0 <= i < |secret| ==> HexEncoding.IsHexDigit(secret[i])
    ensures HexEncoding.DecodeHex(secret) == Some(bytes)
  {
    HexEncoding.DecodeEncode(bytes);
    HexEncoding.EncodeHex(bytes)
  }

  /** The page's edit state: the id of the webhook being edited (`null` when
      none) and the form. */
  class WebhooksPage {
    var editingWebhook: Value
    var formData: Record

    constructor ()
      ensures editingWebhook == Null && formData == EmptyWebhookForm()
    {
      editingWebhook := Null;
      formData := EmptyWebhookForm();
    }

    /** `resetFormData`. */
    method ResetFormData()
      modifies this
      ensures formData == EmptyWebhookForm() && editingWebhook == old(editingWebhook)
    {
      formData := EmptyWebhookForm();
    }

    /** `handleAddWebhook`: without a url nothing is added and the form is
        kept (a validation toast is shown); otherwise the form is appended as
        a new webhook and reset. */
    method HandleAddWebhook(store: PaymentContext.PaymentStore, id: string, now: string)
      modifies this, store
      ensures !Truthy(Get(old(formData), "url")) ==>
        store.Snapshot() == old(store.Snapshot()) && formData == old(formData)
      ensures Truthy(Get(old(formData), "url")) ==>
        && store.Snapshot() == old(store.Snapshot()).(webhooks := WebhookService.AddNewWebhook(old(store.webhooks), id, now, old(formData)).list)
        && formData == EmptyWebhookForm()
      ensures editingWebhook == old(editingWebhook)
    {
      if !Truthy(Get(formData, "url")) {
        return;
      }
      var _ := store.AddWebhook(id, now, formData);
      ResetFormData();
    }

    /** `handleEdit`: remember the webhook's id and copy it into the form. */
    method HandleEdit(webhook: Record)
      modifies this
      ensures editingWebhook == IdOf(webhook) && formData == webhook
    {
      editingWebhook := IdOf(webhook);
      formData := webhook;
    }

    /** `handleCancelEdit`. */
    method HandleCancelEdit()
      modifies this
      ensures editingWebhook == Null && formData == EmptyWebhookForm()
    {
      editingWebhook := Null;
      ResetFormData();
    }

    /** `handleSaveEdit`: when a webhook is being edited, merge the form into
        it and leave edit mode; otherwise nothing happens. */
    method HandleSaveEdit(store: PaymentContext.PaymentStore)
      modifies this, store
      ensures Truthy(old(editingWebhook)) ==>
        && store.Snapshot() == old(store.Snapshot()).(webhooks := MergeById(old(store.webhooks), old(editingWebhook), old(formData)))
        && editingWebhook == Null && formData == EmptyWebhookForm()
      ensures !Truthy(old(editingWebhook)) ==>
        store.Snapshot() == old(store.Snapshot()) && editingWebhook == old(editingWebhook) && formData == old(formData)
    {
      if Truthy(editingWebhook) {
        store.UpdateWebhook(editingWebhook, formData);
        editingWebhook := Null;
        ResetFormData();
      }
    }

    /** `handleChange`: one form field takes the input's value. */
    method HandleChange(name: string, value: Value)
      modifies this
      ensures formData == SetField(old(formData), name, value) && editingWebhook == old(editingWebhook)
    {
      formData := SetField(formData, name, value);
    }

    /** `handleToggleActive`: store the negation of the flag the card shows. */
    method HandleToggleActive(store: PaymentContext.PaymentStore, id: Value, currentValue: Value)
      modifies store
      ensures store.Snapshot() == old(store.Snapshot()).(webhooks :=
        MergeById(old(store.webhooks), id, GatewayService.TogglePatch(Truthy(currentValue))))
    {
      store.UpdateWebhook(id, GatewayService.TogglePatch(Truthy(currentValue)));
    }

    /** `handleDelete`. */
    method HandleDelete(store: PaymentContext.PaymentStore, id: Value)
      modifies store
      ensures store.Snapshot() == old(store.Snapshot()).(webhooks := RemoveById(old(store.webhooks), id))
    {
      store.DeleteWebhook(id);
    }

    /** `generateSecret`: put a fresh secret into the form. */
    method GenerateSecret(bytes: seq<HexEncoding.Byte>)
      requires |bytes| == 32
      modifies this
      ensures formData == SetField(old(formData), "secret", Str(SecretFromBytes(bytes)))
      ensures editingWebhook == old(editingWebhook)
    {
      formData := SetField(formData, "secret", Str(SecretFromBytes(bytes)));
    }
  }
}
