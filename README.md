# Payment admin portal — a Dafny model

This project models the logic of a client-side payment-administration portal.
The portal keeps its entities in memory: payment gateways, webhooks,
transactions, payouts, users, managers, merchants and referrals. Each entity
is a list of records, and a React context holds all the lists. Small services
build each new list. Admin pages drive them through form-state handlers and
filter the lists for display.

How the model is laid out:

- **Records.** A record is a `map<string, Value>`. `Value` is a small
  JavaScript value type.
  - Object spread `{...a, ...b}` is map union `a + b`, where the right operand
    wins (`JsValues.Spread`).
  - Reading a property is `Get`, which gives `Undefined` when the field is
    missing.
  - `Truthy` follows JavaScript truthiness.
- **List operations.** Every service is one of three list transformations:
  - append or prepend a built record;
  - merge a patch into every record with a matching id (`RecordLists.MergeById`);
  - filter an id out (`RecordLists.RemoveById`).

  The service modules build the new list as pure functions.
- **The context.** `PaymentContext.PaymentStore` is a class with one `seq`
  field per list. A service's `setX(list)` followed by `saveState(...)` is one
  assignment to that field. Every store method states its whole new state as
  `Snapshot() == old(Snapshot()).(field := …)`, so it also states that the
  other lists do not change.
- **Pages.** Each admin page with its own state is a class over that state:
  the edit id, the form record, and the dialog flags. Each handler is a method
  that calls the store.
- **Inputs instead of generators.** Fresh ids (`uuidv4`), timestamps and the
  random bytes of the secret generators are parameters. The outcome of the
  simulated payment is also a parameter: `Attempt` is `Approve(referenceChars)`,
  `Decline`, or `Fault(message)` for an exception raised inside the `try`
  block.
- **The notification `TypeError`.** The webhook filter of the payment run calls
  `events.includes`. That throws when an active webhook's `events` is neither
  an array nor a string. The model carries this as an `Option`:
  `WebhookService.RelevantWebhooks` gives `None`, and the run then ends in its
  `catch` branch.

## Model

| member | source | states |
|---|---|---|
| JsValues.Spread | src/services/webhookService.js:24 | `{...a, ...b}`: keys of both; the fields of `b` win; every other field comes from `a` |
| JsValues.SetField | src/components/admin/Webhooks/Webhooks.jsx:60-63 | `{...prev, [name]: value}`: the named field takes the value and every other field is kept |
| JsValues.ContainsIffOccurs | src/components/admin/Transactions/Transactions.jsx:33-35 | the `includes` scan on strings finds the needle exactly when it occurs at some position |
| JsValues.ContainsNoLonger | src/components/admin/Transactions/Transactions.jsx:33-35 | a string only contains needles no longer than itself |
| JsValues.Includes | src/services/webhookService.js:47 | `v.includes(x)`: array membership, or substring search on strings; `None` (a `TypeError`) for every other value |
| RecordLists.Filter | src/services/userService.js:23 | `filter` keeps exactly the elements that satisfy the predicate and never grows the list |
| RecordLists.FilterIsSubsequence | src/components/admin/Transactions/Transactions.jsx:31 | a filtered list is a subsequence of the original: the order is kept |
| RecordLists.FilterAppend | src/components/admin/Transactions/Transactions.jsx:31 | filtering distributes over concatenation |
| RecordLists.FilterIdempotent | src/services/webhookService.js:35 | filtering twice with one predicate is filtering once |
| RecordLists.Count | src/components/admin/Dashboard/DashboardStats.jsx:20-23 | a filter-and-count is at most the length, and is 0 exactly when no element qualifies |
| RecordLists.CountAppend | src/components/admin/Dashboard/DashboardStats.jsx:20-23 | the count of a concatenation is the sum of the counts; with `CountSingle` this fixes every count |
| RecordLists.CountSingle | src/components/admin/Dashboard/DashboardStats.jsx:20-23 | a single element counts 1 exactly when it qualifies, else 0 |
| RecordLists.MergeById | src/services/webhookService.js:22-25 | the update map keeps the length; every entry with the id becomes `entry + patch`; every other entry is unchanged |
| RecordLists.MergeAbsentId | src/services/payoutService.js:23-26 | an update with an id no entry carries leaves the list unchanged |
| RecordLists.MergeKeepsIds | src/services/gatewayService.js:5-8 | an update whose patch has no `id` field, or carries the same id, changes no entry's id |
| RecordLists.MergeIdempotent | src/services/transactionService.js:20-23 | applying the same update twice is applying it once |
| RecordLists.RemoveById | src/services/webhookService.js:34-35 | delete keeps exactly the entries with another id, in order; the id is gone afterwards |
| RecordLists.RemoveAbsentId | src/services/userService.js:22-23 | deleting an absent id is a no-op |
| RecordLists.RemoveIdempotent | src/services/userService.js:22-23 | deleting twice is deleting once |
| RecordLists.RemoveCount | src/services/webhookService.js:35 | delete shrinks the list by exactly the number of entries with that id |
| WebhookService.AddNewWebhook | src/services/webhookService.js:6-20 | appends one record after the unchanged old list; id and timestamp are defaults that fields of the data override; every data field is kept |
| WebhookService.Subscribed | src/services/webhookService.js:45-48 | a subscribed webhook is active and evaluable with an array or string `events`; an active webhook whose array holds "all" is subscribed |
| WebhookService.Evaluable | src/services/webhookService.js:45-48 | the filter condition is evaluable exactly when the webhook is inactive or `events.includes` exists, and then for every event |
| WebhookService.RelevantWebhooks | src/services/webhookService.js:45-48 | the recipient filter succeeds exactly when every webhook can be evaluated, and then equals the subscription filter |
| WebhookService.RelevantWebhooksExactly | src/services/webhookService.js:45-48 | the recipients are exactly the active webhooks whose events include "all" or the event, in list order |
| WebhookService.InactiveNeverNotified | src/services/webhookService.js:46 | an inactive webhook is never a recipient, whatever it subscribes to |
| WebhookService.AllHearsEverything | src/services/webhookService.js:47 | an active webhook subscribed to "all" receives every event |
| WebhookService.NotifyWebhooksSimulated | src/services/webhookService.js:44-52 | fails (`TypeError`) exactly when some webhook cannot be evaluated; otherwise it logs one delivery per recipient, in order, with its url and the event; it changes nothing stored |
| TransactionService.AddNewTransaction | src/services/transactionService.js:7-18 | prepends one record before the unchanged old list; status is 'pending' unless the data brings a status; the id and the timestamp are the fresh ones unless the data brings its own; every data field is kept |
| TransactionService.PaymentFields | src/services/transactionService.js:29-35 | the pending transaction is built from exactly amount, currency, gateway, customerId and description |
| TransactionService.GatewayReference | src/services/transactionService.js:42 | the reference starts with "REF-" and its random part is upper-cased |
| TransactionService.ErrorText | src/services/transactionService.js:86 | the error text is the exception's message, or 'Unknown error occurred' when that is empty; it is never empty |
| TransactionService.CompletedPatch | src/services/transactionService.js:40-44 | the approval patch sets status 'completed', a "REF-" reference and the completion time it is given |
| TransactionService.FailedPatch | src/services/transactionService.js:61-65 | the decline patch sets status 'failed', the issuer-decline message and the given completion time |
| TransactionService.ErrorPatch | src/services/transactionService.js:84-88 | the catch patch sets status 'error', the error text and the given completion time |
| TransactionService.StaleUpdateDropsInsert | src/services/transactionService.js:29-40 | the follow-up update of the payment run maps the pre-insert list, which lacks the fresh id, so it gives back the pre-call list without the inserted transaction |
| TransactionService.FreshUpdateKeepsInsert | src/services/transactionService.js:29-44 | applied to the list that holds the insert, the same update keeps the new transaction first, with the patch's status, and keeps every older entry |
| PayoutService.CreateNewPayout | src/services/payoutService.js:6-21 | prepends one record; status is 'pending' unless the data brings a status; every data field is kept |
| UserService.AddUser | src/services/userService.js:6-13 | appends one record; `createdAt` is always the fresh time; the id is the data's `id` when present, else the fresh one |
| ReferralService.AddReferral | src/services/referralService.js:6-13 | appends one record that is always 'pending' with the fresh time, whatever the data carries |
| GatewayService.TogglePatch | src/components/admin/PaymentGateways/PaymentGateways.jsx:44 | the toggle patch holds only `isActive`, set to the negated flag |
| GatewayService.ToggleFlipsOneFlag | src/services/gatewayService.js:5-8 | a toggle flips `isActive` on the matching gateways only and changes no other field and no other gateway |
| GatewayService.ToggleTwiceRestores | src/services/gatewayService.js:5-8 | two toggles, each with the flag then stored, restore the list |
| GatewayStatus.IsConfigured | src/components/admin/PaymentGateways/GatewayStatus.jsx:7-10 | a configured gateway has a non-empty apiKey and is named PayU or PlatformPayments; a PlatformPayments gateway is configured exactly when apiKey and keySecret are non-empty |
| GatewayStatus.IsActiveAndConfigured | src/components/admin/PaymentGateways/GatewayStatus.jsx:7-10 | active-and-configured needs the flag on and a non-empty apiKey, and never holds when the flag is off or the name is unknown |
| GatewayStatus.Status | src/components/admin/PaymentGateways/GatewayStatus.jsx:7-10 | "active" exactly when active and configured; "inactive" exactly when the flag is off; "incomplete" exactly when active but not configured |
| GatewayStatus.PayUConfiguredIff | src/components/admin/PaymentGateways/GatewayStatus.jsx:8 | a PayU gateway is configured exactly when apiKey, merchantId and salt are non-empty |
| GatewayStatus.PlatformPaymentsConfiguredIff | src/components/admin/PaymentGateways/GatewayStatus.jsx:9 | a PlatformPayments gateway is configured exactly when apiKey and keySecret are non-empty |
| GatewayStatus.OtherNamesNeverConfigured | src/components/admin/PaymentGateways/GatewayStatus.jsx:7-10 | a gateway with any other name is never configured and never shown as active |
| PaymentContext.DefaultPayU | src/contexts/PaymentContext.jsx:20 | the default PayU gateway has id '1', INR, the flag on, and is not configured, so its card asks for the configuration |
| PaymentContext.DefaultPlatformPayments | src/contexts/PaymentContext.jsx:21 | the default PlatformPayments gateway has id '2', INR, the flag off, and is not configured, so its card reads as inactive |
| PaymentContext.DefaultGateways | src/contexts/PaymentContext.jsx:19-22 | the default gateways are exactly ids '1' and '2', both INR and neither configured; the first asks for configuration, the second reads as inactive |
| PaymentContext.Load | src/contexts/PaymentContext.jsx:19-37 | a missing key gives the default; otherwise the result is the default or one of the stored lists |
| PaymentContext.LoadAfterSave | src/contexts/PaymentContext.jsx:45-54 | a list saved under a key is what is loaded back under it, and every other key loads as before |
| PaymentContext.KycPatch | src/contexts/PaymentContext.jsx:90 | the KYC patch sets the documents and status 'submitted' |
| PaymentContext.KycSubmission | src/contexts/PaymentContext.jsx:89-91 | KYC submission marks exactly the merchants with the id, keeps their other fields, and keeps every other merchant and the length |
| PaymentContext.Settle | src/services/transactionService.js:37-95 | the branch table: success exactly on approval with evaluable webhooks; a failure always carries a non-empty error, which for an exception is its message or 'Unknown error occurred', and for the notification `TypeError` is that error's message; a decline carries the issuer message and notifies 'payment.failed'; an exception notifies nobody and writes the error patch with its text; an approval with evaluable webhooks writes the completion patch; a notification `TypeError` writes the error patch with the `TypeError` message |
| PaymentContext.Deliveries | src/services/webhookService.js:49-51 | one log entry per recipient, in order, with its url and the event |
| PaymentContext.PaymentStore.constructor | src/contexts/PaymentContext.jsx:20-37 | each list is loaded under its own key; only the gateways have a non-empty default |
| PaymentContext.PaymentStore.UpdatePaymentGateway | src/contexts/PaymentContext.jsx:59 | the gateways become the merged list and no other list changes |
| PaymentContext.PaymentStore.AddWebhook | src/contexts/PaymentContext.jsx:61 | the webhooks become the old list plus the new record and no other list changes |
| PaymentContext.PaymentStore.UpdateWebhook | src/contexts/PaymentContext.jsx:62 | the webhooks become the merged list and no other list changes |
| PaymentContext.PaymentStore.DeleteWebhook | src/contexts/PaymentContext.jsx:63 | the webhooks become a subsequence without the id and no other list changes |
| PaymentContext.PaymentStore.AddTransaction | src/contexts/PaymentContext.jsx:65 | the new transaction is put first and no other list changes |
| PaymentContext.PaymentStore.UpdateTransaction | src/contexts/PaymentContext.jsx:66 | the transactions become the merged list and no other list changes |
| PaymentContext.PaymentStore.SettlePayment | src/services/transactionService.js:37-95 | writes the branch's patch merged into the given list, notifies the recipients of the branch's event, and writes the error patch when notification throws |
| PaymentContext.PaymentStore.ProcessPaymentSimulated | src/services/transactionService.js:28-96 | as written: the result and the deliveries follow the branch table; the list written last is the pre-call list merged with the patch, which is the pre-call list itself for a fresh id |
| PaymentContext.PaymentStore.ProcessPaymentIntended | src/services/transactionService.js:28-96 | corrected: for a fresh id, the list grows by one; the new transaction is first and is the pending record overwritten by the branch's patch, so its status is completed, failed or error; the older entries are kept |
| PaymentContext.PaymentStore.CreatePayout | src/contexts/PaymentContext.jsx:69 | the new payout is put first and no other list changes |
| PaymentContext.PaymentStore.UpdatePayout | src/contexts/PaymentContext.jsx:70 | the payouts become the merged list and no other list changes |
| PaymentContext.PaymentStore.SetPeople | src/contexts/PaymentContext.jsx:72-88 | users, managers and merchants are separate lists: writing one leaves the other two unchanged |
| PaymentContext.PaymentStore.AddPerson | src/contexts/PaymentContext.jsx:73-78 | adding a user or manager appends to that list only |
| PaymentContext.PaymentStore.UpdatePerson | src/contexts/PaymentContext.jsx:74-87 | an update merges into that list only |
| PaymentContext.PaymentStore.DeletePerson | src/contexts/PaymentContext.jsx:75-88 | a delete removes the id from that list only |
| PaymentContext.PaymentStore.AddMerchant | src/contexts/PaymentContext.jsx:83-86 | a new merchant is always 'pending' for KYC, whatever the caller sent |
| PaymentContext.PaymentStore.UpdateMerchantKyc | src/contexts/PaymentContext.jsx:89-94 | the merchants become the KYC-merged list and no other list changes |
| PaymentContext.PaymentStore.AddReferral | src/contexts/PaymentContext.jsx:101 | the new referral is appended as 'pending' and no other list changes |
| PaymentContext.PaymentStore.UpdateReferral | src/contexts/PaymentContext.jsx:102 | the referrals become the merged list and no other list changes |
| HexEncoding.ToRadix16 | src/components/admin/Webhooks/Webhooks.jsx:85 | `toString(16)` gives at least one lowercase hex digit |
| HexEncoding.PadStart | src/components/admin/Webhooks/Webhooks.jsx:85 | `padStart` reaches the width with the fill on the left and keeps the string on the right |
| HexEncoding.ByteToHex | src/components/admin/Webhooks/Webhooks.jsx:85 | each byte becomes exactly two digits, high nibble first, zero-padded, which read back as the byte |
| HexEncoding.EncodeHex | src/components/admin/Webhooks/Webhooks.jsx:84-86 | the joined string has two lowercase hex digits per byte |
| HexEncoding.EncodeHexCons | src/components/admin/Webhooks/Webhooks.jsx:84-86 | the first byte's two digits, high nibble first, come before the encoding of the rest |
| HexEncoding.DecodeHex | src/components/admin/Settings/Settings.jsx:77-79 | the inverse reader: two characters per byte |
| HexEncoding.DecodeEncode | src/components/admin/Settings/Settings.jsx:77-79 | decoding undoes encoding |
| HexEncoding.EncodeHexInjective | src/components/admin/Settings/Settings.jsx:77-79 | distinct byte strings give distinct keys |
| TextSearch.LowerIncludes | src/components/admin/Transactions/Transactions.jsx:33 | the case-insensitive search matches only a string field at least as long as the term |
| TextSearch.PlainIncludes | src/components/Payouts.jsx:80 | `field?.includes(term)`: on a string, a match exactly when the term occurs (so it is no longer than the field); on an array, a match exactly when an element is the term; no match for anything else |
| TextSearch.EmptyTermMatchesStrings | src/components/admin/Transactions/Transactions.jsx:33-35 | the empty term matches every string field; the lower-cased search matches nothing else, the plain search also an array holding "" |
| TextSearch.LowerIncludesIgnoresCase | src/components/admin/Transactions/Transactions.jsx:33 | the lower-cased search gives the same answer for a term typed in any case |
| TextSearch.VerbatimMatches | src/components/Payouts.jsx:79-81 | a field holding the term verbatim matches both the case-sensitive and the lower-cased search |
| DashboardStats.ComputeStats | src/components/admin/Dashboard/DashboardStats.jsx:19-34 | total is the list length; successful is at most total, is 0 exactly when none completed, and equals total exactly when all completed; pending payouts is 0 exactly when none is pending and equals the payout count exactly when all are; active webhooks and active gateways are each 0 exactly when no entry has a truthy `isActive`, and equal the list length exactly when every entry does |
| DashboardStats.CountAllIff | src/components/admin/Dashboard/DashboardStats.jsx:20 | a count equals the length exactly when every element qualifies |
| DashboardStats.ActiveIntegrations | src/components/admin/Dashboard/DashboardStats.jsx:50 | active integrations are at least each of the two active counts, and 0 exactly when both are |
| DashboardStats.SuccessRate | src/components/admin/Dashboard/DashboardStats.jsx:48 | 0 without transactions; otherwise the integer nearest `100·successful/total`, rounding halves up; always within [0, 100]; 100 when all succeeded; 0 when none did |
| TransactionsPage.Dedup | src/components/admin/Transactions/Transactions.jsx:29 | `[...new Set(xs)]` holds each value of `xs` once, in order of first occurrence |
| TransactionsPage.UniqueGateways | src/components/admin/Transactions/Transactions.jsx:29 | the gateway choices are exactly the truthy gateway values in use, without duplicates, in order of first occurrence |
| TransactionsPage.MatchesSearch | src/components/admin/Transactions/Transactions.jsx:32-35 | a match needs one of the three searched fields to be a string; the answer is the same for the term typed in capitals |
| TransactionsPage.FilteredTransactions | src/components/admin/Transactions/Transactions.jsx:31-41 | a subsequence of the transactions holding exactly those that pass; every row has the chosen status and the chosen gateway |
| TransactionsPage.EmptySearchShowsStringFields | src/components/admin/Transactions/Transactions.jsx:32-35 | with an empty search, a transaction is listed exactly when one of its three searched fields is a string |
| TransactionsPage.IconFor | src/components/admin/Transactions/Transactions.jsx:65-76 | check exactly for completed, cross exactly for failed or error, clock otherwise |
| PayoutsPage.EmptyPayoutForm | src/components/Payouts.jsx:41-49 | the form has every field empty except the USD currency, and cannot be submitted |
| PayoutsPage.CreateEnabled | src/components/Payouts.jsx:250 | the create button is enabled only when beneficiary name, account number and amount are present and none is empty or zero |
| PayoutsPage.StatusPatch | src/components/Payouts.jsx:64-69 | the processing time is the given current time exactly when the new status is not 'pending', and is null exactly when it is |
| PayoutsPage.OfferedActions | src/components/Payouts.jsx:350-369 | actions are offered exactly for pending payouts, and they are only 'rejected' and 'completed' |
| PayoutsPage.ActionSettlesPayout | src/components/Payouts.jsx:64-69 | an offered action stores its status with the processing time, leaves other payouts unchanged, and leaves no action to offer |
| PayoutsPage.MatchesSearch | src/components/Payouts.jsx:78-81 | a match needs a string field or an array account number; an array account number holding the term matches; with an empty term, exactly the payouts with a string field, or an array account number holding "", match |
| PayoutsPage.FilteredPayouts | src/components/Payouts.jsx:77-86 | a subsequence of the payouts holding exactly those that pass; every row has the chosen status |
| PayoutsPage.AccountNumberVerbatim | src/components/Payouts.jsx:78-81 | when name and description do not match, a payout is found exactly when its account number contains the term verbatim; a term with a lowercase letter never finds an account number without one |
| PayoutsPage.LowercaseNotContained | src/components/Payouts.jsx:80 | a string without lowercase letters contains no term that has one |
| PayoutsPage.AccountNumberCaseSensitive | src/components/Payouts.jsx:80 | the account number "AB12" is found by "AB" but not by "ab" |
| PayoutsPage.PayoutsPage.constructor | src/components/Payouts.jsx:41-49 | the page opens with the empty payout form |
| PayoutsPage.PayoutsPage.HandleCreatePayout | src/components/Payouts.jsx:51-62 | the form becomes a new payout in front of the list, and the form is reset |
| PayoutsPage.PayoutsPage.HandleUpdateStatus | src/components/Payouts.jsx:64-69 | merges the status patch into the payout with the id |
| PayoutsPage.PayoutsPage.HandleNewPayoutChange | src/components/Payouts.jsx:71-74 | only the named form field changes |
| ReferralsPage.BlankForm | src/pages/admin/ReferralSystemPage.jsx:59-63 | the closed dialog's form: no referrer, no email, status 'pending' |
| ReferralsPage.BlankFormIsEmptyNewForm | src/pages/admin/ReferralSystemPage.jsx:45-63 | the blank form is the form `openModal` prepares for a new referral when there is no merchant to preselect |
| ReferralsPage.OpenForm | src/pages/admin/ReferralSystemPage.jsx:45-57 | editing copies the referral's three fields; adding preselects the first merchant (or '') with no email and status 'pending' |
| ReferralsPage.ReferrerName | src/pages/admin/ReferralSystemPage.jsx:66-70 | the name of the first merchant with that id, or 'Unknown Referrer' when there is none |
| ReferralsPage.SubmittedData | src/pages/admin/ReferralSystemPage.jsx:67-70 | the submitted record is the form plus the looked-up referrer name |
| ReferralsPage.Shown | src/pages/admin/ReferralSystemPage.jsx:80-83 | a shown referral has a non-empty string name or email; the answer is the same for the term typed in capitals |
| ReferralsPage.FilteredReferrals | src/pages/admin/ReferralSystemPage.jsx:80-83 | a subsequence of the referrals holding exactly those whose non-empty name or email contains the term, ignoring case |
| ReferralsPage.EmptySearchShowsNamedReferrals | src/pages/admin/ReferralSystemPage.jsx:80-83 | with an empty search, a referral is listed exactly when its name or email is a non-empty string |
| ReferralsPage.BadgeFor | src/pages/admin/ReferralSystemPage.jsx:85-95 | green exactly for completed, red exactly for rejected, amber otherwise |
| ReferralsPage.ReferralsPage.constructor | src/pages/admin/ReferralSystemPage.jsx:24-27 | the page opens with the dialog closed, no current referral, and the blank form |
| ReferralsPage.ReferralsPage.OpenModal | src/pages/admin/ReferralSystemPage.jsx:45-57 | the dialog opens on the given referral with the prepared form |
| ReferralsPage.ReferralsPage.CloseModal | src/pages/admin/ReferralSystemPage.jsx:59-63 | the dialog closes, no referral is current, and the form is blank |
| ReferralsPage.ReferralsPage.HandleInputChange | src/pages/admin/ReferralSystemPage.jsx:40-43 | only the named form field changes |
| ReferralsPage.ReferralsPage.HandleSubmit | src/pages/admin/ReferralSystemPage.jsx:65-78 | editing merges the submitted record into the current referral; adding appends it as 'pending', whatever status was chosen; then the dialog closes |
| WebhooksPage.EmptyWebhookForm | src/components/admin/Webhooks/Webhooks.jsx:29-31 | the reset form has no url, subscribes to "all", and is active |
| WebhooksPage.SecretFromBytes | src/components/admin/Webhooks/Webhooks.jsx:83-87 | 32 bytes give 64 lowercase hex digits, from which the bytes can be read back |
| WebhooksPage.WebhooksPage.constructor | src/components/admin/Webhooks/Webhooks.jsx:18-27 | the page opens with no webhook in edit and the empty form |
| WebhooksPage.WebhooksPage.ResetFormData | src/components/admin/Webhooks/Webhooks.jsx:29-31 | the form returns to the empty form; the edit id is kept |
| WebhooksPage.WebhooksPage.HandleAddWebhook | src/components/admin/Webhooks/Webhooks.jsx:33-40 | without a url nothing is stored and the form stays; otherwise the form is appended as a webhook and reset |
| WebhooksPage.WebhooksPage.HandleEdit | src/components/admin/Webhooks/Webhooks.jsx:42-45 | the webhook's id becomes the edit id and the webhook is copied into the form |
| WebhooksPage.WebhooksPage.HandleCancelEdit | src/components/admin/Webhooks/Webhooks.jsx:47-50 | the edit id is cleared and the form reset |
| WebhooksPage.WebhooksPage.HandleSaveEdit | src/components/admin/Webhooks/Webhooks.jsx:52-58 | while editing, merges the form into that webhook, then clears the edit id and resets the form; otherwise changes nothing |
| WebhooksPage.WebhooksPage.HandleChange | src/components/admin/Webhooks/Webhooks.jsx:60-63 | only the named form field changes |
| WebhooksPage.WebhooksPage.HandleToggleActive | src/components/admin/Webhooks/Webhooks.jsx:65-67 | sends exactly the negated-flag patch for that id |
| WebhooksPage.WebhooksPage.HandleDelete | src/components/admin/Webhooks/Webhooks.jsx:74-76 | the webhook list loses that id and nothing else changes |
| WebhooksPage.WebhooksPage.GenerateSecret | src/components/admin/Webhooks/Webhooks.jsx:83-88 | the form's secret becomes the encoded bytes and every other field is kept |
| GatewaysPage.ConnectionTestSucceeds | src/components/admin/PaymentGateways/PaymentGateways.jsx:58-61 | the connection test succeeds exactly for gateways the status card calls configured |
| GatewaysPage.GatewaysPage.constructor | src/components/admin/PaymentGateways/PaymentGateways.jsx:12-13 | the page opens with no gateway in edit and an empty form |
| GatewaysPage.GatewaysPage.HandleEdit | src/components/admin/PaymentGateways/PaymentGateways.jsx:15-18 | the gateway's id becomes the edit id and the gateway is copied into the form |
| GatewaysPage.GatewaysPage.HandleCancel | src/components/admin/PaymentGateways/PaymentGateways.jsx:20-23 | the edit id and the form are cleared; no gateway is updated |
| GatewaysPage.GatewaysPage.HandleSave | src/components/admin/PaymentGateways/PaymentGateways.jsx:25-35 | while editing, merges the form into that gateway, then clears the edit id and the form; otherwise changes nothing |
| GatewaysPage.GatewaysPage.HandleChange | src/components/admin/PaymentGateways/PaymentGateways.jsx:37-40 | only the named form field changes |
| GatewaysPage.GatewaysPage.HandleToggleActive | src/components/admin/PaymentGateways/PaymentGateways.jsx:42-44 | sends exactly the negated-flag patch for that id |
| SettingsPage.DefaultGeneral | src/components/admin/Settings/Settings.jsx:24-29 | the general defaults: USD currency, notifications on |
| SettingsPage.DefaultSecurity | src/components/admin/Settings/Settings.jsx:31-36 | the security defaults: key rotation every 90 days, webhook signing on, two-factor off |
| SettingsPage.DefaultWebhook | src/components/admin/Settings/Settings.jsx:38-43 | the webhook defaults: retries on, at most 3, every 60 seconds |
| SettingsPage.EventValue | src/components/admin/Settings/Settings.jsx:49 | a checkbox stores its checked flag; every other input stores its value |
| SettingsPage.ApplyChange | src/components/admin/Settings/Settings.jsx:45-67 | the named setting takes the input's value; every other setting of the group is kept and none is dropped |
| SettingsPage.CheckboxMatchesSwitch | src/components/admin/Settings/Settings.jsx:188-190 | a switch's checked-change stores the same value a checkbox event would |
| SettingsPage.GenerateApiKey | src/components/admin/Settings/Settings.jsx:76-87 | 16 bytes give 32 lowercase hex digits, from which the bytes can be read back |
| SettingsPage.SettingsPage.constructor | src/components/admin/Settings/Settings.jsx:24-43 | the page opens with the three default groups |
| SettingsPage.SettingsPage.HandleGeneralChange | src/components/admin/Settings/Settings.jsx:45-51 | the general group takes the change; the other two groups are unchanged |
| SettingsPage.SettingsPage.HandleSecurityChange | src/components/admin/Settings/Settings.jsx:53-59 | the security group takes the change; the other two groups are unchanged |
| SettingsPage.SettingsPage.HandleWebhookChange | src/components/admin/Settings/Settings.jsx:61-67 | the webhook group takes the change; the other two groups are unchanged |

Where the code and the documented behaviour disagree, the model follows the
code:

- The payment run is documented as always leaving the transaction completed
  or failed. As written, it drops the transaction (see Findings). Even as
  intended, it can also end in 'error'.
- Creating a payout is documented as always giving 'pending'. In the code, a
  `status` in the caller's data overrides the default
  (`PayoutService.CreateNewPayout`).
- Deleting a webhook is documented as removing one entry. The filter removes
  every entry with that id (`RecordLists.RemoveCount`).

## Left out

- Persistence (`saveState`, `loadState`) is modelled as the assignment of the list written last. The storage module is not part of this model, so `PaymentContext.Load` takes storage as a map.
- Toasts, `console.log` text and the clipboard are left out. They are notification I/O. `handleSaveSettings` only shows a toast, so it has no model.
- Timers are left out: the two-second delays of the payment run and the connection test. Only the order of the state writes is modelled.
- `uuidv4`, `new Date()`, `Math.random()` and `crypto.getRandomValues` are parameters.
- Floating point is left out: `totalAmount` (`parseFloat`, `toFixed`), the reward-settings parsing of the referral page, and the commission settings.
- `DashboardStats.SuccessRate` is computed on exact rationals. The rounding error of the float division before `Math.round` is not modelled.
- `JsValues.ToLower`: `toLowerCase` and `toUpperCase` map ASCII letters only. Other scripts are left unchanged.
- `===` is modelled as structural equality. On arrays and objects JavaScript compares identity instead. Ids and statuses are strings, for which the two agree.
- `TextSearch.LowerIncludes`: a searched field that is present but not a string makes the page throw. The model treats it as no match.
- `TextSearch.PlainIncludes`: an account number that is present but neither a string nor an array (a number, a boolean, an object) makes the page throw a `TypeError`. The model treats it as no match.
- `WebhooksPage.WebhooksPage.HandleToggleActive` and `GatewaysPage.GatewaysPage.HandleToggleActive` do not model the toast's `TypeError` when no entry has the id. The update has already been issued by then.
- Three context operations have no model of their own: `updateMerchant` and `deleteMerchant` are `PaymentStore.UpdatePerson` and `PaymentStore.DeletePerson` on the merchants list, and `processPayment` is `PaymentStore.ProcessPaymentSimulated`.
- The commission service, the blog list and the `isAdmin` flag are left out: they are whole-value replacements with no logic.
- These pages are left out: the login, register and KYC pages, the Manage users, managers and merchants pages, the commission page, and the earlier duplicates of the Webhooks, PaymentGateways and Dashboard components. They are form glue or repeat logic that is already modelled.
- Rendering is not modelled: layout, animation variants, routing and display cards.
- `HexEncoding.EncodeHex`: the position of byte `i` in the key (digits `2i` and `2i+1`) is stated only inductively, by `EncodeHexCons`. The round trip `DecodeEncode` fixes the whole key. A lemma indexed by position is not part of this model.

## Findings

| source | as written | input that shows it | evidently intended | confidence | as-written member | corrected member |
|---|---|---|---|---|---|---|
| src/services/transactionService.js:40,61,84 | every follow-up update of `processPaymentSimulated` maps the `transactions` argument, captured before the insert; the freshly generated id is never in it, so the list written last equals the pre-call list | an empty transaction list and an approved payment: the pending transaction is inserted, then the completion update writes `[]` back | update the list that holds the inserted transaction, so that it stays, first, with its final status | high (not executed) | PaymentContext.PaymentStore.ProcessPaymentSimulated, TransactionService.StaleUpdateDropsInsert | PaymentContext.PaymentStore.ProcessPaymentIntended |
