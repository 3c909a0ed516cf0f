/** The gateway status card (src/components/admin/PaymentGateways/GatewayStatus.jsx):
    whether a gateway's credentials are complete, and which of the three
    status messages the card shows. */
module GatewayStatus {
  import opened JsValues

  /** `isConfigured`: a PayU gateway needs `apiKey`, `merchantId` and `salt`;
      a PlatformPayments gateway needs `apiKey` and `keySecret`; every other
      name is never configured.  "Needs" is JavaScript truthiness. */
  function IsConfigured(g: Record): (ok: bool)
    ensures ok ==> Truthy(Get(g, "apiKey"))
    ensures ok ==> Get(g, "name") == Str("PayU") || Get(g, "name") == Str("PlatformPayments")
    ensures Get(g, "name") == Str("PlatformPayments") ==> (ok <==> Truthy(Get(g, "apiKey")) && Truthy(Get(g, "keySecret")))
  {
    || (Get(g, "name") == Str("PayU") && Truthy(Get(g, "apiKey")) && Truthy(Get(g, "merchantId")) && Truthy(Get(g, "salt")))
    || (Get(g, "name") == Str("PlatformPayments") && Truthy(Get(g, "apiKey")) && Truthy(Get(g, "keySecret")))
  }

  /** `isActiveAndConfigured`. */
  function IsActiveAndConfigured(g: Record): (ok: bool)
    ensures ok ==> Truthy(Get(g, "isActive")) && Truthy(Get(g, "apiKey"))
    ensures !Truthy(Get(g, "isActive")) || Get(g, "name") !in {Str("PayU"), Str("PlatformPayments")} ==> !ok
  {
    Truthy(Get(g, "isActive")) && IsConfigured(g)
  }

  datatype StatusMessage = IntegrationActive | IntegrationInactive | ConfigurationIncomplete

  /** The message the card shows: active when active and configured;
      otherwise "inactive" when the flag is off, else "complete the
      configuration". */
  function Status(g: Record): (m: StatusMessage)
    ensures m == IntegrationActive <==> Truthy(Get(g, "isActive")) && IsConfigured(g)
    ensures m == IntegrationInactive <==> !Truthy(Get(g, "isActive"))
    ensures m == ConfigurationIncomplete <==> Truthy(Get(g, "isActive")) && !IsConfigured(g)
  {
    if IsActiveAndConfigured(g) then IntegrationActive
    else if !Truthy(Get(g, "isActive")) then IntegrationInactive
    else ConfigurationIncomplete
  }

  /** With string credentials, PayU is configured exactly when all three are
      non-empty. */
  lemma PayUConfiguredIff(g: Record, apiKey: string, merchantId: string, salt: string)
    requires Get(g, "name") == Str("PayU")
    requires Get(g, "apiKey") == Str(apiKey) && Get(g, "merchantId") == Str(merchantId) && Get(g, "salt") == Str(salt)
    ensures IsConfigured(g) <==> apiKey != "" && merchantId != "" && salt != ""
  {
  }

  /** With string credentials, PlatformPayments is configured exactly when key
      and secret are non-empty. */
  lemma PlatformPaymentsConfiguredIff(g: Record, apiKey: string, keySecret: string)
    requires Get(g, "name") == Str("PlatformPayments")
    requires Get(g, "apiKey") == Str(apiKey) && Get(g, "keySecret") == Str(keySecret)
    ensures IsConfigured(g) <==> apiKey != "" && keySecret != ""
  {
  }

  /** A gateway of any other name is never configured, hence never shown as
      active. */
  lemma OtherNamesNeverConfigured(g: Record)
    requires Get(g, "name") != Str("PayU") && Get(g, "name") != Str("PlatformPayments")
    ensures !IsConfigured(g) && Status(g) != IntegrationActive
  {
  }
}
