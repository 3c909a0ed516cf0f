/** The settings page (src/components/admin/Settings/Settings.jsx): three
    groups of settings held by the page only, their input handlers, and the
    API key generator. */
module SettingsPage {
  import opened JsValues
  import HexEncoding

  function DefaultGeneral(): (s: Record)
    ensures s.Keys == {"companyName", "supportEmail", "defaultCurrency", "notificationsEnabled"}
    ensures s["defaultCurrency"] == Str("USD") && s["notificationsEnabled"] == Bool(true)
  {
    map["companyName" := Str("Your Company"), "supportEmail" := Str("support@example.com"),
        "defaultCurrency" := Str("USD"), "notificationsEnabled" := Bool(true)]
  }

  function DefaultSecurity(): (s: Record)
    ensures s.Keys == {"ipWhitelist", "webhookSigningEnabled", "apiKeyRotationDays", "twoFactorRequired"}
    ensures s["apiKeyRotationDays"] == Num(90) && s["webhookSigningEnabled"] == Bool(true)
    ensures s["twoFactorRequired"] == Bool(false)
  {
    map["ipWhitelist" := Str(""), "webhookSigningEnabled" := Bool(true),
        "apiKeyRotationDays" := Num(90), "twoFactorRequired" := Bool(false)]
  }

  function DefaultWebhook(): (s: Record)
    ensures s.Keys == {"retryFailedWebhooks", "maxRetries", "retryInterval", "logWebhookEvents"}
    ensures s["maxRetries"] == Num(3) && s["retryInterval"] == Num(60) && s["retryFailedWebhooks"] == Bool(true)
  {
    map["retryFailedWebhooks" := Bool(true), "maxRetries" := Num(3),
        "retryInterval" := Num(60), "logWebhookEvents" := Bool(true)]
  }

  /** The parts of `e.target` the handlers read. */
  datatype InputEvent = InputEvent(name: string, value: Value, inputType: string, checked: bool)

  /** `type === 'checkbox' ? checked : value`. */
  function EventValue(e: InputEvent): (v: Value)
    ensures e.inputType == "checkbox" ==> v == Bool(e.checked)
    ensures e.inputType != "checkbox" ==> v == e.value
  {
    if e.inputType == "checkbox" then Bool(e.checked) else e.value
  }

  /** The state update of the three change handlers: the named setting takes
      the event's value; every other setting is kept, and no setting is
      dropped. */
  function ApplyChange(prev: Record, e: InputEvent): (next: Record)
    ensures next.Keys == prev.Keys + {e.name}
    ensures Get(next, e.name) == EventValue(e)
    ensures forall k :: k != e.name ==> Get(next, k) == Get(prev, k)
  {
    SetField(prev, e.name, EventValue(e))
  }

  /** A checkbox event and a switch's `onCheckedChange` store the same thing. */
  lemma CheckboxMatchesSwitch(prev: Record, name: string, value: Value, checked: bool)
    ensures ApplyChange(prev, InputEvent(name, value, "checkbox", checked)) == SetField(prev, name, Bool(checked))
  {
  }

  /** `generateApiKey`: 16 random bytes as 32 lowercase hexadecimal digits.
      The page wires it as a click handler, so the key is returned to the
      event system and neither stored nor shown. */
  function GenerateApiKey(bytes: seq<HexEncoding.Byte>): (key: string)
    requires |bytes| == 16
    ensures |key| == 32
    ensures forall i :: 0 <= i < |key| ==> HexEncoding.IsHexDigit(key[i])
    ensures HexEncoding.DecodeHex(key) == Some(bytes)
  {
    HexEncoding.DecodeEncode(bytes);
    HexEncoding.EncodeHex(bytes)
  }

  /** The page's three setting groups. */
  class SettingsPage {
    var general: Record
    var security: Record
    var webhook: Record

    constructor ()
      ensures general == DefaultGeneral() && security == DefaultSecurity() && webhook == DefaultWebhook()
    {
      general := DefaultGeneral();
      security := DefaultSecurity();
      webhook := DefaultWebhook();
    }

    /** `handleGeneralChange`. */
    method HandleGeneralChange(e: InputEvent)
      modifies this
      ensures general == ApplyChange(old(general), e)
      ensures security == old(security) && webhook == old(webhook)
    {
      general := ApplyChange(general, e);
    }

    /** `handleSecurityChange`. */
    method HandleSecurityChange(e: InputEvent)
      modifies this
      ensures security == ApplyChange(old(security), e)
      ensures general == old(general) && webhook == old(webhook)
    {
      security := ApplyChange(security, e);
    }

    /** `handleWebhookChange`. */
    method HandleWebhookChange(e: InputEvent)
      modifies this
      ensures webhook == ApplyChange(old(webhook), e)
      ensures general == old(general) && security == old(security)
    {
      webhook := ApplyChange(webhook, e);
    }
  }
}
