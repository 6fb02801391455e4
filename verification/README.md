# VPN shop: provisioning, renewal and settlement

The shop sells VPN services and drives a remote XMPlus panel to deliver them. This project models the
parts of that shop where several functions, an unreliable panel and the order of events meet, and proves
what they promise.

| module | what it models |
|---|---|
| Text, Words, Numbers | the PHP string operations decisions rest on, and the same said letter by letter; maximum, counting |
| Panel | the panel's replies, how the shop reads them, and the oracle `Api` that answers arbitrarily (and may throw) while every call is logged |
| RowSelection | choosing a link and a service id from a list of services |
| Polling, PollingFacts | waiting for a link with a bound that grows inside the loop |
| InvoicePay | paying an invoice whose money the shop already holds |
| ReplyFacts, StatusFacts | the exact replies, in literal words, that the shop takes for paid, accepted, refused, gone, active, renewable and so on |
| Billing, BillingFacts, CycleFacts | the order in which billing cycles are tried, and which one a plan tries first |
| Tally | adding up what a trace of calls did |
| Credentials, Accounts | panel accounts: the stored one, a new one, a recovered or replaced one |
| Invoicing, Payment, NewPurchase | a purchase from its invoice to its link |
| PaymentFacts | when the shop pays, how long it waits, what a visit to the gateway may do |
| PurchaseFacts | a whole purchase on one concrete panel |
| WebCheckout, WebRenewal | the invoice, new or for a renewal, that a customer of the web shop is shown |
| Attempts | the same order provisioned, or shown at the checkout, again and again |
| RenewalDates, ServiceRules | due dates, the service row, the eligibility and depletion rules, the direct writes |
| Enforcement, Renewal, RenewalFacts | a renewal from the eligibility rule to its link, the enforcement after payment, and when a link comes unpaid |
| RenewalAttempts, RenewalPanels | one renewal order settled, or shown at the checkout, again and again |
| Settlement, SettlementFacts, RewardFacts | the handlers that settle orders, as atomic steps on orders, balances, ledger, discounts and the gateway cache |
| Handlers | provisioning with its rollback, and the visits to a gateway |
| Desk, DeskFacts | the handlers as a whole, on an order's row, its panel columns and its cached context: guard, provisioning, settlement |
| MarkdownEscape, ConfigLinks, ServiceLabel | escaping, connection links, service names |

The panel is a `Script`: one arbitrary reply, or error, for every kind of call at every moment; the log of an
`Api` always agrees with it (`IsFaithful`), so that concrete panels can be exhibited. Code that works in loops on
changing state is a method over `Api`, `User`, `ShopOrder`, `ServiceTable`, `Shop` or `Desk`; its contract ties
the trace of calls to a specification, and the lemmas are about every trace the specification allows. Words and
figures the code compares with are stated a second time, literally, where the lemmas promise something about them. A throw is an outcome (`Aborted`, `None`, `Failed`). Settings and randomness are the
parameter `Env`; dates are integer seconds in UTC; the two copies of calculateNewDueDate carry the same
code and are one function here; amounts are integers; the factors 0.1 and 0.9 are exact tenths rounded
down.

## Where the code does less than it promises

Each point names the member that proves it, with its exact condition or a concrete case.

- One invoice per order: fulfilment provisions inside a database transaction, so a throw undoes the stored
  invoice id, and the next attempt makes another invoice (`app/Actions/FulfillOrderAfterPaymentAction.php:27`);
  the web checkout forgets an invoice it does not see Pending, also when the panel does not answer
  (`app/Services/XmplusProvisioningService.php:2667-2683`). `Attempts.OneInvoiceExactlyWhen` gives the exact
  condition on the sequence of attempts, `Attempts.SecondInvoice` a panel for every sequence that violates
  it, and `Attempts.InvoiceForEachAttempt` one without readable ids. The same rollback undoes a password the
  panel has already accepted, and a user without stored credentials whose address is taken then gets nowhere
  (`Accounts.RegisterMain`, `NewPurchase.DoNewPurchase`).
- One renewal per order: the same rollback forgets the renewal invoice, and so does a checkout that does not see
  it Pending and linked, also when the panel does not answer
  (`app/Services/XmplusProvisioningService.php:2829-2846`); the next question renews again.
  `RenewalAttempts.OneRenewalExactlyWhen` gives the exact condition on the sequence of attempts for panels that
  name their invoices and disown none, `RenewalPanels.RenewAgain` ties it to the calls,
  `RenewalPanels.SecondRenewal` has such a panel for every sequence that violates it, and
  `RenewalPanels.RenewalForEachAttempt` one that names no invoice.
- An Active service that is nearly used up is flipped to expired before its renewal, and stays so when the
  renewal throws: `Renewal.DoRenewal` says exactly when, `RenewalPanels.LeftExpired` is a concrete run.
- One settlement per order: it holds for new purchases. A renewal order keeps its own link empty, so a
  cached gateway context settles it again after it was paid (`SettlementFacts.RenewalSettledTwice`,
  `SettlementFacts.OnlyCompletionSettlesAgain`). The referral reward is not paid again
  (`SettlementFacts.OneRewardEver`), and it is lost for good where the first plan order to be paid has lost its
  plan and is topped up by an approval: the next purchase is then not the first
  (`RewardFacts.OneRewardExactlyWhen`).
- Stored credentials are the ones used: a restart whose registration is refused as taken goes on with a
  password it has just made up and stored nowhere (`PurchaseFacts.RestartOnTakenAddress` runs a whole purchase
  into it), unless a password was left in the row; the condition is `Strays`, exact for purchases
  (`NewPurchase.DoNewPurchase`) and for the web checkout (`WebCheckout.OfferInvoice`). Recovery after such a
  refusal on the first pass can never succeed, because it looks for a stored address and there is none
  (`Credentials.RecoverMissing`, `Accounts.RegisterMain`;
  `app/Services/XmplusProvisioningService.php:583-603`, `:1727`).
- The SQL shortcut that marks a new invoice Paid is taken only on runs that throw a moment later
  (`NewPurchase.DoNewPurchase`; `app/Services/XmplusProvisioningService.php:682-704`).
- A renewal hands out the service's present link without payment or enforcement, also where the shop holds
  the money, if and only if the accepted `service/renew` reply has no invoice id at its top level
  (`RenewalFacts.UnpaidExactlyWhen`; a concrete panel in `RenewalFacts.RenewedForNothing`).
- A package that names no traffic renews a used-up service into one that is still used up, and the
  enforcement lets it pass (`ServiceRules.PackageLeavesUsedUp`, `Enforcement.PassesWhileUsedUp`).
- Link and service id may come from different rows: `RowSelection.LinkAndSidAgree` is the exact condition for
  every list and every preferred service. Without a preference an expired service's link is recorded under a
  newer one's id (`RowSelection.LinkAndSidMayDiffer`); a preferred service, such as the renewed one, that is
  listed without a link gets another service's link under its own id wherever a link is picked
  (`RowSelection.AnotherLinkUnderThisSid`, `RowSelection.RenewalTakesOtherLink`). The third and fourth tiers of the link selection never fire.
- The closing "still Pending" errors of the poll cannot occur with an automatic gateway
  (`PollingFacts.PendingEndsTheRun`).
- A numeric invoice id that arrives only under `data` is lost, and the run throws
  (`Invoicing.IdIsLostExactlyWhen`); the web checkout reads it (`WebCheckout.ScalarIdReadsMore`).
- The day table takes the cycle "quater" for a month, and the direct renewal of a three-month invoice falls back
  to the plan's days. On an invoice that states no days, of the plans whose cycle follows from their days, exactly
  those of 36 to 89 days get fewer than was paid for (`Enforcement.CutShortExactlyWhen`, `Enforcement.PlansCutShort`; a concrete run in
  `Enforcement.RenewedForSixtyDays`).
- "Renewed" and "may be renewed" can both hold of a reply with a nested row
  (`ServiceRules.NestedRowDisagrees`).
- Approval records the list price of a discounted order (`SettlementFacts.HandlersAgreeOnPriceExactlyWhen`)
  and never its discount usage (`SettlementFacts.UsageRecordedExactlyWhen`); it also tops up the wallet for an
  order whose plan is gone, where fulfilment throws, and for one that is paid already
  (`SettlementFacts.TopsUpExactlyWhen`).
- Approval reads the date of the renewed order only after the panel has delivered: where it cannot be read the
  order stays pending; fulfilment reads it first (`Desk.Desk.Approve`, `Desk.Desk.Fulfil`).
- A subscription base that ends in `/sub` makes every id read back as "sub" (`ConfigLinks.BaseEndingInSub`).
- The label "0", and a label of blanks, lose the service's name (`ServiceLabel.NameSurvivesExactlyWhen`).

## Model

| member | source | states |
|---|---|---|
| Polling.PollForSublink | app/Services/XmplusProvisioningService.php:1814-2091 | The loop leaves exactly the trace of a run: rounds that all waited and then one that decides or the bound, which a "paid, no service" round raises to 45 inside the loop; result and trace are those of the recursive definition, whatever the panel answers. When a round waits, delivers or gives up is said in literal terms by PollingFacts.PendingWaitsExactlyWhen and PaidRoundExactlyWhen, for whole runs by FailsForAReason. |
| Polling.RunRound | app/Services/XmplusProvisioningService.php:1850-2040 | One round makes the calls and reaches the verdict of its stages in order: view, pending rules, account, paid stage, known service. |
| Polling.RunPaidStage | app/Services/XmplusProvisioningService.php:1921-2020 | On a paid invoice: list selection, then the invoice's own service, then the invoice list, then the early notice; each stage only if the one before it found nothing. |
| Polling.ReadListedRows | app/Services/XmplusProvisioningService.php:1972-1996 | The scan of the invoice list asks about this invoice's rows only, in order, and stops at the first link. |
| PollingFacts.PollIsBounded | app/Services/XmplusProvisioningService.php:1829-1919 | Every run has at most max(maxAttempts, 45) rounds, and at most maxAttempts unless some round was paid with an empty service list. |
| PollingFacts.DeliveryIsPaidAndLinked | app/Services/XmplusProvisioningService.php:1921-2033 | A link is delivered only by the last round, that round saw Paid, every earlier one waited, and the link is never empty in PHP's sense. |
| PollingFacts.OutcomeIsDetermined | app/Services/XmplusProvisioningService.php:1850-2091 | Two runs given the same answers as far as both go have the same length and result. |
| PollingFacts.ExtraRoundsNeedAChange | app/Services/XmplusProvisioningService.php:1916-1919 | With the notice wanted, no round past the early limit waits out "paid, no service", and a run exceeds maxAttempts only if such a round came before that limit. |
| PollingFacts.EarlyNoticeOnTime | app/Services/XmplusProvisioningService.php:1998-2020 | A panel that keeps answering Paid with an empty list is given up after at most 4, 6 or 12 rounds, by the gateway, and the notice never comes sooner. |
| PollingFacts.PendingEndsTheRun | app/Services/XmplusProvisioningService.php:1891-1904 | With an automatic gateway no round past the ninth waits out Pending; with at least ten rounds allowed the closing "still Pending" error cannot occur. |
| PollingFacts.FailsForAReason | app/Services/XmplusProvisioningService.php:1850-2091 | A failed run ends with a round that had that very reason, by literal bounds: no gateway only on the first look, Card2Card from the 6th Pending round, still Pending from the 10th and with an automatic gateway, a missing service from the 5th, paid and empty from the 4th, 6th or 12th; a run that times out has used all its rounds, 45 at least where the raise applies. |
| PollingFacts.PendingWaitsExactlyWhen | app/Services/XmplusProvisioningService.php:1877-1904 | A Pending round is waited out if and only if it is none of these: the first one without a gateway, the 6th or later with Card2Card, the 10th or later with an automatic gateway. |
| PollingFacts.PatientRunDelivers | app/Services/XmplusProvisioningService.php:1891-1934 | Up to nine Pending rounds and then a paid one with a linked service: the run delivers in that very round. |
| PollingFacts.PaidRoundExactlyWhen | app/Services/XmplusProvisioningService.php:1921-2033 | What a round makes of a paid invoice, to the last case and in literal terms: it delivers if and only if the account list, the named service, the invoice list (every third round, or when there is no service) or the known service has a link, in this order, and gives up in between exactly on a service gone from the 5th round on or an account empty too long. |
| PollingFacts.PollOnlyLooks | app/Services/XmplusProvisioningService.php:1850-2040 | Polling never pays, creates or registers, and uses one pair of credentials throughout. |
| RowSelection.PickSublink | app/Services/XmplusProvisioningService.php:2190-2259 | The five-tier loop equals a three-tier rule on every list; its third and fourth tiers cannot fire. |
| RowSelection.PickRelaxed | app/Services/XmplusProvisioningService.php:2099-2132 | The relaxed loop equals "newest linked row of the package, else the first linked row", with that row's own positive sid. |
| RowSelection.PickSid | app/Services/XmplusProvisioningService.php:2278-2316 | The sid loop equals "the preferred one if listed, else the largest of the package's active rows, else the first active row with a sid". |
| RowSelection.PickFindsEveryLink | app/Services/XmplusProvisioningService.php:1922-1934 | Strict and relaxed selection together find a link if and only if some row carries one. |
| RowSelection.PickedSidIsReal | app/Services/XmplusProvisioningService.php:2099-2316 | A service id that is picked is the preferred one, or positive and that of a listed row. |
| RowSelection.RelaxedIsLastResort | app/Services/XmplusProvisioningService.php:1930-1934 | The relaxed rules are reached only when every linked row is inactive and of another package; link and sid then come from one row. |
| RowSelection.LinkAndSidAgree | app/Services/XmplusProvisioningService.php:2187-2304 | For every list with distinct positive sids and every preferred sid, where the strict rules find a link, the sid handed out with it is that of the same row if and only if: the link is the preferred row's, when that row is listed; else, when the package has a linked row, the newest of them is active and no newer active row of the package lacks a link; else no active row is of the package and the linked row is the first active one with a sid. |
| RowSelection.AllLiveRowsAgree | app/Services/XmplusProvisioningService.php:2202-2304 | When every row of the package is active and linked, link and sid come from one row of the package. |
| RowSelection.PreferredAgrees | app/Services/XmplusProvisioningService.php:2192-2199 | With a preferred service that has its link, link and sid are that service's. |
| RowSelection.AnotherLinkUnderThisSid | app/Services/XmplusProvisioningService.php:1154-1157 | With distinct positive sids, every preferred service that is listed without a link gets, where the strict rules find a link, that of another service under its own sid. |
| RowSelection.RenewalTakesOtherLink | app/Services/XmplusProvisioningService.php:1154-1157 | The concrete list on which a renewal hands out another service's link under the renewed sid. |
| RowSelection.LinkAndSidMayDiffer | app/Services/XmplusProvisioningService.php:2278-2304 | The concrete list on which an expired service's link is recorded under a newer service's sid. |
| Panel.IdImpliesHasId | app/Services/XmplusProvisioningService.php:151-175 | An invoice row that yields a service id always counts as having one (the converse fails on ids that are no numbers). |
| Panel.LinkOfService | app/Services/XmplusProvisioningService.php:2160-2185 | The link read from service/info is never empty in PHP's sense. |
| Panel.RecoveredIsSafe | app/Services/XmplusProvisioningService.php:356-397 | The reply made up after an empty body always counts as successful and trips neither wrong-gateway guard. |
| Panel.EmptyBodyIsSafe | app/Services/XmplusProvisioningService.php:335-351 | An empty pay body is never a customer-side or Card2Card reply. |
| ReplyFacts.BillsCustomerExactlyWhen | app/Services/XmplusProvisioningService.php:233-303 | A pay reply is refused as a wrong gateway's if and only if its data begins with http:// or https:// in any case; or it carries a QR code, a text or an intent and its gateway mentions paypal, stripe, wechat or alipay; or its gateway mentions card2card. |
| ReplyFacts.ApprovesExactlyWhen | app/Services/XmplusProvisioningService.php:307-330 | A pay reply counts as successful if and only if it is not void, has no code but 100, a status that is none of fail, failed, error, and code 100, status success or sucess, an order id or a data key. |
| ReplyFacts.SaysNothingExactlyWhen | app/Services/XmplusProvisioningService.php:335-351 | A pay reply counts as empty if and only if it has no key, or no key that matters and a raw text of blanks. |
| ReplyFacts.PaidExactlyWhen | app/Services/XmplusProvisioningService.php:138-149 | An invoice counts as paid by its status alone: "paid" in any case. |
| ReplyFacts.LinkedExactlyWhen | app/Services/XmplusProvisioningService.php:151-178 | An invoice counts as linked if and only if one of its three columns has a positive number or a text other than "0", "null" and blanks. |
| ReplyFacts.ServiceIsNamed | app/Services/XmplusProvisioningService.php:2137-2158 | The service id read from a row is the number in the first of the three columns that holds one, if it is positive. |
| ReplyFacts.LinkIsFirst | app/Services/XmplusProvisioningService.php:2160-2185 | A service's link is the first text, at the top, under data or at the first server, that is neither empty nor "0"; it has none if and only if there is no such text. |
| ReplyFacts.AcceptedExactlyWhen | app/Services/XmplusProvisioningService.php:1429-1449 | An API reply is accepted if and only if it has a top-level invoice id that PHP does not take for empty, or no code but 100 and the status success, sucess or active in any case. |
| ReplyFacts.GoneExactlyWhen | app/Services/XmplusProvisioningService.php:1451-1492 | An account counts as gone on code 208 if and only if the message says so and says nothing of an address in use, a billing cycle or a wrong password; on other codes only on an error that "does not exist". |
| ReplyFacts.WrongPasswordExactlyWhen | app/Services/XmplusProvisioningService.php:1674-1700 | A password counts as wrong by the literal words of the message, unless code 208 is about an address in use or a billing cycle. |
| ReplyFacts.TakenExactlyWhen | app/Services/XmplusProvisioningService.php:1664-1672 | An address counts as taken, and a cycle as unavailable, by the literal words of the message, in any case. |
| InvoicePay.RunInvoicePayStrict | app/Services/XmplusProvisioningService.php:403-494 | The retry loop leaves exactly the trace of a strict run and returns its accepted reply, or nothing where it throws; which replies are accepted is ReplyFacts.StrictAcceptsExactly. |
| InvoicePay.RecoverAfterEmptyResponse | app/Services/XmplusProvisioningService.php:356-397 | Up to eight looks after an empty body, ending with the first one that shows Paid. |
| InvoicePay.StrictReturnsOnEvidence | app/Services/XmplusProvisioningService.php:403-494 | It returns if and only if the last call is a successful pay reply or a Paid view; no call before the last is such evidence; what it returns counts as successful. |
| InvoicePay.StrictCallsAreBounded | app/Services/XmplusProvisioningService.php:403-494 | At most 4 pay calls and 11 views; exactly that many when every body is empty and it throws. |
| InvoicePay.AcceptedMeansClean | app/Services/XmplusProvisioningService.php:403-494 | If the accepted reply is not from a customer-side or Card2Card gateway, no reply of the run was. |
| InvoicePay.AcceptedReplyIsReal | app/Services/XmplusProvisioningService.php:403-494 | The accepted reply is the last one received, or was made up from an empty one after the last view showed Paid. |
| ReplyFacts.StrictAcceptsExactly | app/Services/XmplusProvisioningService.php:403-494 | What the strict routine accepts from a pay reply is that reply, and it approves by the literal conditions; a first reply that approves is accepted at once, and one that says something without approving is refused at once. |
| Billing.ResolveCandidates | app/Services/XmplusProvisioningService.php:1537-1591 | The candidate loops equal the ordered-append definition on every package/info answer. |
| Billing.OrderedIsGood | app/Services/XmplusProvisioningService.php:1555-1579 | Enabled cycles first, preferred first in its group, every default exactly once. |
| Billing.CandidatesAreSafe | app/Services/XmplusProvisioningService.php:1537-1605 | For every billing text and package answer the candidates are distinct, never "quarter", all in the API's spelling, four or five, and well ordered. |
| Billing.CreateWithFallback | app/Services/XmplusProvisioningService.php:1494-1529 | Attempt k is made for candidate k; every attempt but the last was refused for its billing cycle; the last was not, unless the candidates ran out. |
| Billing.SearchAcceptsAtMostOne | app/Services/XmplusProvisioningService.php:1505-1528 | At most one invoice is accepted and the search stops there; no cycle is tried twice. |
| BillingFacts.CycleIsSpelled | app/Services/XmplusProvisioningService.php:1596-1608 | In any case and with blanks, "quarter" and "quater" are asked for as "quater", the other three cycles as themselves, and nothing else as one of the four. |
| BillingFacts.FirstAttemptExactlyWhen | app/Services/XmplusProvisioningService.php:1537-1591 | Nothing is tried if and only if the package only adds traffic; otherwise the first attempt is for the preferred cycle where the package offers it or lists nothing, and for the shortest cycle it offers where it does not. |
| BillingFacts.AttemptsInOrder | app/Services/XmplusProvisioningService.php:1494-1591 | Later attempts: what the package lists comes before what it does not, and, the preferred cycle aside, shorter cycles before longer ones. |
| BillingFacts.PlanTriesItsCycle | app/Services/XmplusProvisioningService.php:57-71 | A plan that names its cycle, or has up to 35, 100, 200 or more days, has month, quater, semiannual or annual tried first where the package offers it or lists nothing. |
| CycleFacts.PurchaseTriesInOrder | app/Services/XmplusProvisioningService.php:510-696 | In every run of a purchase, restarts included, each search for an invoice starts with that cycle and is for the plan's package. |
| BillingFacts.TableSays | app/Services/XmplusServiceRenewalService.php:197-220 | The day table in literal words, any case, with blanks: 90, 180, 365 and 7 days for a quarter, half a year, a year and a week, 30 for anything else. |
| Credentials.ResolvePassword | app/Support/XmplusCredentialRecovery.php:15-41 | The readable password, or the recoverable one where the readable one is blank; nothing else of the user changes. |
| StatusFacts.PasswordExactlyWhen | app/Support/XmplusCredentialRecovery.php:15-41 | The stored password counts unless it is blank and the raw column can be turned into one. |
| Credentials.RegisterAlternate | app/Support/XmplusCredentialRecovery.php:55-108 | At most eight registrations, each of an alternate address of this user with a password of sixteen characters, each but the last refused as taken and nothing else; it returns if and only if the last one is accepted, with those credentials stored through a copy of the user; it gives up before the eighth only on a reply another address would not change; otherwise the user is unchanged. |
| StatusFacts.RegisteredExactlyWhen | app/Support/XmplusCredentialRecovery.php:124-130 | The recovery takes an account for registered if and only if the status is success, in any case, or the code is 100. |
| Credentials.AddressesDiffer | app/Services/XmplusProvisioningService.php:560-560 | No two users share an address, standing or alternate, and an alternate address is never the standing one. |
| Credentials.RecoverMissing | app/Services/XmplusProvisioningService.php:1714-1800 | What account/info says of the stored address decides exactly: wipe, another identity, or nothing. A wipe leaves the user cleared and registers nothing; another identity is saved through a copy, so the object in hand is stale exactly when the column was NULL; without a stored address no call is made. |
| Accounts.RegisterMain | app/Services/XmplusProvisioningService.php:558-612 | The exact calls and result of registering the standing address. Credentials it hands out are stored, except on a restart that was refused as taken and found no password in the row; on the first pass such a refusal of a user without stored credentials always throws. |
| Accounts.EnsureCredentials | app/Services/XmplusProvisioningService.php:554-640 | Stored credentials without a call, or a registration, or a recovery, as the stored columns demand; at most eight registrations (one on a restart), all under addresses of this user and with passwords of sixteen characters; a wipe only to restart; on the first pass the credentials handed out are the stored ones. |
| Invoicing.EnsureInvoice | app/Services/XmplusProvisioningService.php:645-696 | A stored invoice is used again without a call while the order has no link; otherwise exactly one billing search is made, its id, if any, is stored together with whose credentials made it, and it is marked Paid by SQL only for shop-paid orders without an automatic gateway; a vanished account leads to a wipe and a restart, once. |
| StatusFacts.ReusableExactlyWhen | app/Services/XmplusProvisioningService.php:642-645 | A stored invoice is used again if and only if it is not blank and the order's link is. |
| Invoicing.IdIsLostExactlyWhen | app/Services/XmplusProvisioningService.php:670-677 | The id of an accepted invoice is lost, and the run throws, if and only if it is neither a text that is not blank, at the top or else under data, nor a number at the top; otherwise it is that text or number, trimmed. |
| Payment.SettleForShop | app/Services/XmplusProvisioningService.php:706-781 | One look, then nothing if the invoice is Paid and linked, else exactly one strict pay run; it lets the flow go on only if no pay reply is a wrong gateway's, which ReplyFacts.BillsCustomerExactlyWhen puts in literal terms. |
| Payment.TryAutoPay | app/Services/XmplusProvisioningService.php:805-842 | One look and, unless the invoice is Paid and linked, exactly one try to pay, whose failure is ignored. |
| Payment.WaitForLink | app/Services/XmplusProvisioningService.php:782-797 | Exactly one polling run, of 72 rounds after an asynchronous pay reply and 18 otherwise, with the notice flags of the reply; a delivered link is non-empty and follows a Paid view of this invoice. |
| PaymentFacts.PaysExactlyWhen | app/Services/XmplusProvisioningService.php:706-842 | With the reseller's gateway the shop pays if and only if the look before did not find the invoice paid, in any case, and linked by one of its three columns. |
| PaymentFacts.WaitLastsExactly | app/Services/XmplusProvisioningService.php:782-797 | A wait times out after exactly 72 rounds where the pay reply sent the customer elsewhere and 18 where not, or 45 where an invoice was seen paid without a service in between. |
| PaymentFacts.EmptyWaitLastsExactly | app/Services/XmplusProvisioningService.php:1998-2020 | Paid without a service is waited out for 12 rounds, for money the shop holds 4 with Card2Card and 6 where the invoice alone vouched for the payment. |
| PaymentFacts.PurchaseHandsOutThePick | app/Services/XmplusProvisioningService.php:782-896 | A purchase that delivers hands out exactly the link and the service its wait has picked. |
| PaymentFacts.RenewalHandsOutThePick | app/Services/XmplusProvisioningService.php:1147-1191 | So does a renewal, with the renewed service where the pick names none. |
| NewPurchase.PayAndWait | app/Services/XmplusProvisioningService.php:698-896 | Payment, then the wait, or a gateway menu, stage by stage: with the money in the shop never a menu, never past a wrong gateway, nothing but a throw without an automatic gateway. |
| NewPurchase.DoNewPurchase | app/Services/XmplusProvisioningService.php:510-896 | For every panel the trace is that of the stage-by-stage definition, restarts included. Shop-paid runs throw or deliver a non-empty link after a Paid view, and throw wherever a pay reply is from a wrong gateway by its literal marks (an http or https address, PayPal, Stripe, WeChat, Alipay, Card2Card); a row is marked Paid by SQL only on runs that throw; one wipe, nine registrations, one invoice at most. All calls after the wipe use one identity, which is the stored one exactly unless a restart met a taken address with no password left in the row; it is the one the invoice was made with, in this run or, when the user still holds those credentials, in an earlier one. An order that has an invoice and no link gets no second one. |
| NewPurchase.BuyAs | app/Services/XmplusProvisioningService.php:642-896 | The invoice and payment half of a pass, joined to the credential half before it. |
| PurchaseFacts.RestartOnTakenAddress | app/Services/XmplusProvisioningService.php:554-640 | A concrete panel on which a whole purchase wipes the stored credentials, meets the standing address taken, and delivers a link bought with credentials the user does not hold. |
| WebCheckout.OfferInvoice | app/Services/XmplusProvisioningService.php:2644-2804 | For every panel the trace is that of its definition: a stored invoice is kept only while the panel shows it Pending, otherwise forgotten and replaced by one new one at most; nothing is paid or marked; what is offered is offered under the credentials that made it, and these are the stored ones if and only if no restart met a taken address with no password left in the row. |
| WebCheckout.MakeInvoice | app/Services/XmplusProvisioningService.php:2680-2804 | The new invoice of the checkout, restart included: stored exactly when its id is read, under the credentials that made it, which are the stored ones under the same condition. |
| WebCheckout.ScalarIdReadsMore | app/Services/XmplusProvisioningService.php:2803-2808 | The checkout reads every id a purchase reads and, of those that are not blank, exactly one kind more: the number that arrives only under data. |
| Attempts.Attempt | app/Actions/FulfillOrderAfterPaymentAction.php:25-45 | One fulfilment, approval or checkout with its rollback: how many invoices it makes and whether the order has one afterwards, as the model of answers says; while no registration is refused as taken, an invoice is only used by who made it. |
| Attempts.ProvisionAgain | app/Actions/FulfillOrderAfterPaymentAction.php:25-45 | Repeated attempts at one order leave exactly the invoices on the panel that the model of answers counts; and conversely, on a panel that refuses some invoices, accepts the rest and takes no payment, the count is that of the corresponding answers. |
| Attempts.OneInvoiceExactlyWhen | app/Services/XmplusProvisioningService.php:642-645 | If every invoice comes with a readable id: one invoice per order, whatever else the panel answers, if and only if no attempt but the last is a fulfilment, whose transaction forgets the id when it throws, and none but the first a checkout. If ids may be unreadable: if and only if there is one attempt at most. |
| Attempts.SecondInvoice | app/Services/XmplusProvisioningService.php:2667-2679 | For every other sequence of attempts, a concrete panel with readable ids on which the real flows leave two invoices or more. |
| Attempts.InvoiceForEachAttempt | app/Services/XmplusProvisioningService.php:670-677 | For every sequence of attempts, a concrete panel whose accepted replies carry no id, on which each attempt leaves another invoice. |
| Renewal.AskEligibility | app/Support/XmplusRenewalEligibility.php:47-103 | The look that decides, with the stored address or else the order's: a renewal goes on exactly when that look allows it; nothing of the user changes. |
| Renewal.PrepareRenewal | app/Services/XmplusProvisioningService.php:949-978 | A renewal goes on exactly after a look at the service that allows it; the table is changed exactly when that look says low and not expired, the connection works and the row is Active and used up, and then by the flip alone. |
| StatusFacts.PreparesExactlyWhen | app/Support/XmplusRenewalEligibility.php:50-168 | A renewal looks once, unless password, service or address is missing, and goes on if and only if the look finds the status number -1, one of six words in the status, or a tenth of the traffic or less left. |
| Renewal.CheckStoredInvoice | app/Services/XmplusProvisioningService.php:987-1031 | The stored renewal invoice and then its service are looked at; it is dropped exactly when the panel says it has no service or the service is not found. |
| StatusFacts.DisownedExactlyWhen | app/Services/XmplusProvisioningService.php:987-1028 | A stored renewal invoice is given up if and only if the panel shows it without a service or answers "not found" for the service. |
| Renewal.MakeRenewalInvoice | app/Services/XmplusProvisioningService.php:1030-1066 | Exactly one service/renew; its id is stored, the row is made to name the service where the sync is on, and it is marked Paid here only where the next step throws. |
| Renewal.RenewalInvoice | app/Services/XmplusProvisioningService.php:1030-1086 | An invoice the panel does not disown is used again, otherwise exactly one service/renew is made and its id stored; new or kept, its row is made to name the service where the sync is on; it is marked Paid here only where the next step throws. |
| Renewal.SettleRenewal | app/Services/XmplusProvisioningService.php:1094-1146 | One look, then nothing if the invoice is Paid, else a strict pay run for the shop or one try for the customer; the shop goes on only without any wrong-gateway reply. |
| Renewal.SyncInvoiceRow | app/Services/XmplusProvisioningService.php:1159-1170 | One look at the invoice, and the SQL mark exactly if it shows Paid and the sync is on. |
| Enforcement.EnforceAfterShopPay | app/Services/XmplusProvisioningService.php:1264-1363 | It lets the renewal pass if and only if the first query failed, or the first or last look shows it applied, or the last look worked and the shop has changed the row itself; the calls in between are fixed; the row is renewed at most once, by the package on offer or by exactly max(1, plan days, days of the paid invoice), which in figures is an Active row extended by days of 86400 seconds, unused and with 1073741824 bytes per gigabyte of the package, or with its limit as it was; only after the first look showed it missing, and then wherever the panel's database can be reached and knows the service. |
| Enforcement.RenewInTable | app/Services/XmplusProvisioningService.php:1302-1321 | Package first, fallback days second, at most one of them; it reports a renewal exactly when the table changed, and fails on a known service only if a connection failed. |
| Enforcement.CutShortExactlyWhen | app/Services/XmplusProvisioningService.php:1302-1321 | The fallback grants fewer days than the cycle that was paid for if and only if the plan has fewer, and the invoice states fewer as well or, stating none, names the cycle "quater", which the day table takes for a month. |
| Enforcement.PlansCutShort | app/Services/XmplusProvisioningService.php:57-71 | On an invoice that states no days, of the plans whose cycle follows from their days exactly those of 36 to 89 days are cut short. |
| BillingFacts.FallbackIsTheMost | app/Services/XmplusProvisioningService.php:1302-1321 | The fallback grants the most of one day, the plan's days and the invoice's, which are those it states or else those of its cycle in literal words. |
| Enforcement.RenewedForSixtyDays | app/Services/XmplusServiceRenewalService.php:197-220 | A concrete panel on which a plan of 60 days is invoiced and paid for three months, renewed by the shop for 60 days, and passes. |
| Enforcement.PassesWhileUsedUp | app/Services/XmplusProvisioningService.php:1302-1345 | After a renewal from a package the enforcement passes on any last look that works; a truthful one shows the service used up if and only if it was and the package names no traffic, and then the renewal does not count as applied and the service may be renewed again. |
| Renewal.CompletePaidRenewal | app/Services/XmplusProvisioningService.php:1094-1191 | Payment, polling, row sync and enforcement, stage by stage: delivered means paid, linked, marked in order and, for the shop, enforced. |
| Renewal.DoRenewal | app/Services/XmplusProvisioningService.php:938-1259 | For every panel and table the trace is that of the stage-by-stage definition. Shop-paid renewals never end in a gateway menu, and throw wherever a pay reply is from a wrong gateway by its literal marks; every SQL mark follows a Paid view on normal returns. If the due date moves, the row is renewed once, in figures: Active, extended by days of 86400 seconds from the due date or now, with the package's gigabytes or the same limit; no other service is touched. A renewal that throws has changed the panel's row if and only if it flipped an Active service to expired, unless the enforcement renewed the row and its last look failed. Links are non-empty, follow a Paid view and, for the shop, pass the enforcement, except on the runs RenewalFacts.UnpaidExactlyWhen names. |
| Renewal.RenewAs | app/Services/XmplusProvisioningService.php:980-1259 | The invoice, payment and enforcement half of a renewal, joined to the eligibility half before it. |
| Renewal.CloseForShop | app/Services/XmplusProvisioningService.php:1159-1181 | The row sync and the enforcement that close a shop-paid renewal, in that order. |
| Renewal.ReadLinkDirectly | app/Services/XmplusProvisioningService.php:1239-1250 | Without an invoice: the service's own link, else the strict choice from the account's list, never an empty one. |
| Renewal.WithoutAutoPay | app/Services/XmplusProvisioningService.php:1193-1238 | A gateway menu, or a wait of 18 rounds without an automatic gateway. |
| Renewal.FinishRenewal | app/Services/XmplusProvisioningService.php:1094-1258 | Which of the three endings a renewal takes from its invoice id on. |
| RenewalFacts.UnpaidExactlyWhen | app/Services/XmplusProvisioningService.php:1031-1036 | A delivered renewal has no invoice if and only if service/renew was accepted without an id at the top level; then nothing is paid or marked and no enforcement runs. Every other delivered renewal saw its invoice Paid and, for the shop, passed the enforcement. |
| RenewalFacts.RenewedForNothing | app/Services/XmplusProvisioningService.php:1239-1250 | A concrete panel on which a shop-paid renewal hands out the link the expired service has already, with nothing paid to the panel. |
| WebRenewal.OfferRenewal | app/Services/XmplusProvisioningService.php:2812-2866 | For every panel the trace is that of its definition: the eligibility rule first; a stored invoice is kept only while the panel shows it Pending and linked to a service, otherwise forgotten and service/renew asked once; nothing is paid or marked. |
| RenewalAttempts.RenewAttempt | app/Actions/FulfillOrderAfterPaymentAction.php:25-45 | One renewal by fulfilment, approval or checkout with its rollback asks service/renew once at most. What is stored afterwards was stored before or is the readable id of a renewal just made; settling gives a stored invoice up only where the panel disowns it, the checkout only where it is not shown Pending and linked. |
| RenewalAttempts.OneRenewalExactlyWhen | app/Services/XmplusProvisioningService.php:2829-2846 | If the panel disowns no invoice and names each one it makes: one renewal per order, whatever else it answers, if and only if no attempt but the last is a fulfilment, whose transaction forgets the id when it throws, and none but the first a checkout, which forgets an id it does not see Pending and linked. If the checkout always sees the stored invoice so, the fulfilments alone decide. On every other panel: if and only if there is one attempt at most. |
| RenewalPanels.RenewAgain | app/Services/XmplusProvisioningService.php:987-1040 | Repeated attempts at one renewal order make at most one service/renew each, and exactly the renewals that the model of answers counts, whose flags follow from the calls made: a fresh order whose invoices are all named and never disowned is renewed once at most in a safe order of attempts, or with fulfilment last where every look shows Pending and linked. Conversely, on a panel that refuses some renewals, makes the rest and is never paid, the count is that of the corresponding answers. |
| RenewalPanels.SecondRenewal | app/Services/XmplusProvisioningService.php:2829-2848 | For every other sequence of attempts, a concrete panel on which the real flows renew twice or more, although each invoice is named and none disowned. |
| RenewalPanels.SecondThoughShown | app/Actions/FulfillOrderAfterPaymentAction.php:25-45 | For every sequence in which fulfilment is not last, the same although every look shows the invoice Pending and linked. |
| RenewalPanels.RenewalForEachAttempt | app/Services/XmplusProvisioningService.php:1031-1036 | For every sequence of attempts, a concrete panel that disowns no invoice and names none, on which each attempt renews again. |
| RenewalPanels.LeftExpired | app/Services/XmplusProvisioningService.php:968-978 | A concrete panel and table on which an Active service is flipped to expired, its renewal throws, and the service stays expired. |
| RenewalDates.DueIsLatestPromise | app/Services/XmplusServiceRenewalService.php:225-249 | After any renewals the due date is the maximum of start plus all days and of each renewal's moment plus its own and all later days, for days of any sign. |
| RenewalDates.TogetherOrApart | app/Services/XmplusPackageAwareRenewalService.php:169-191 | Two renewals at one instant equal one with summed days if and only if the first leaves the date no earlier than that instant; days that are not negative always do. |
| RenewalDates.ManyAtOnce | app/Services/XmplusPackageAwareRenewalService.php:169-191 | Any number of renewals at one instant with days that are not negative add up. |
| RenewalDates.ExpiryIsSum | app/Actions/FulfillOrderAfterPaymentAction.php:140-142 | The shop's expiry date is its start plus the plan days of every settled renewal. |
| RenewalDates.DatesDriftApart | app/Actions/CompleteXmplusGatewayPaymentAction.php:424-426 | The panel's date exceeds the shop's by exactly the extra days granted plus all the time by which renewals were late. |
| RenewalDates.ShopNeverOutlivesPanel | app/Actions/ApprovePendingOrderAction.php:548-550 | With at least the plan's days granted per renewal the shop's date never exceeds the panel's, and equals it if and only if the days agree and no renewal came after expiry. |
| ServiceRules.AppliedMeansIneligible | app/Support/XmplusServicePanelState.php:36-49 | A reply that counts as renewed makes the service ineligible, unless it carries a nested row, which then decides alone. |
| ServiceRules.NestedRowDisagrees | app/Support/XmplusRenewalEligibility.php:109-113 | One concrete reply that is both applied and eligible. |
| ServiceRules.LowIsDepleted | app/Services/XmplusServiceRenewalService.php:112-124 | Eligibility by traffic implies the depletion threshold of the flip. |
| ServiceRules.DepletedIsLowExactlyWhen | app/Support/XmplusRenewalEligibility.php:157-168 | The two thresholds coincide for all usages if and only if the total is a multiple of ten. |
| ServiceRules.LowIsMonotone | app/Support/XmplusRenewalEligibility.php:157-168 | More usage never ends eligibility. |
| StatusFacts.RenewableExactlyWhen | app/Support/XmplusRenewalEligibility.php:109-168 | A reply allows renewal if and only if its nested row, or else the reply itself, has the status number -1, mentions one of six words in any case, or has at least nine tenths, rounded up, of a positive total used. |
| StatusFacts.UsageIsReported | app/Support/XmplusRenewalEligibility.php:157-168 | Of the usage figures of a reply, used_traffic counts before used, and used before u. |
| StatusFacts.AppliedExactlyWhen | app/Support/XmplusServicePanelState.php:13-49 | A renewal shows as applied if and only if the reply has no code but 100, reads active, in any case, at its top level, and has more than a tenth of its traffic left. |
| StatusFacts.ActiveExactlyWhen | app/Services/XmplusProvisioningService.php:2264-2276 | A listed service counts as active if and only if its status is active, activating or blank, in any case and with blanks around it. |
| ServiceRules.EligibleExactlyWhen | app/Support/XmplusRenewalEligibility.php:131-168 | With the usage the rule prefers (used_traffic, else used, else u), a record is eligible if and only if its status is -1 or at least nine tenths, rounded up, of a positive total are reported. |
| ServiceRules.RenewedUntilUsedUp | app/Services/XmplusServiceRenewalService.php:59-68 | After a direct renewal and any later usage, truthfully reported, and expiry, the service is eligible again if and only if it expired or its traffic, counted from the renewal, is used up. |
| ServiceRules.FlipOpensRenewal | app/Services/XmplusServiceRenewalService.php:99-129 | An Active service reported as used up, and not over-reported, can be flipped, reads as expired then, and is renewed as if it had not been flipped, after which it is ineligible. |
| ServiceRules.RenewalChangesRow | app/Services/XmplusServiceRenewalService.php:70-74 | A renewal by a positive number of days always changes its row, so the database reports it. |
| ServiceRules.ServiceTable.RenewDirectly | app/Services/XmplusServiceRenewalService.php:23-93 | It succeeds exactly when enabled, connected, the row exists and the days are positive; that one row is then Active, unused, with the same limit, due days of 86400 seconds after its due date or now; no other changes. |
| ServiceRules.ServiceTable.RenewFromPackage | app/Services/XmplusPackageAwareRenewalService.php:17-100 | It reports success only when it changed the row; that one row is then Active, due days of 86400 seconds after its due date or now, and unused with n times 1073741824 bytes where the package names n > 0 gigabytes, otherwise with limit and usage as they were. |
| ServiceRules.PackageLeavesUsedUp | app/Services/XmplusPackageAwareRenewalService.php:57-73 | After a renewal from a package the service is still eligible if and only if the package names no traffic and the service was used up. |
| ServiceRules.ServiceTable.MarkDepleted | app/Services/XmplusServiceRenewalService.php:99-137 | It flips exactly the Active rows (1) with a traffic limit of which nine tenths are used to expired (-1), and nothing else in them but the notice flag. |
| Settlement.Shop.Fulfil | app/Actions/FulfillOrderAfterPaymentAction.php:25-132 | The handler with its guard, discount row, link, ledger entry, reward and rollback equals the atomic step. |
| Settlement.Shop.Approve | app/Actions/ApprovePendingOrderAction.php:22-64 | The handler with the unguarded top-up and the pending check equals the atomic step. |
| Settlement.Shop.Complete | app/Actions/CompleteXmplusGatewayPaymentAction.php:405-503 | The four gateway entry points, guard to forgotten context, equal the atomic step. |
| Settlement.Shop.RewardReferrer | app/Listeners/RewardReferrerListener.php:16-58 | The listener as a state function; whom it pays, how much and when is RewardFacts.PurchaseIsRewardedExactlyWhen. |
| Settlement.Shop.WriteLink | app/Actions/FulfillOrderAfterPaymentAction.php:353-384 | Link and date go to the order itself or to the one it renews; nothing is written where the source throws. |
| SettlementFacts.BalanceIsDeposits | app/Actions/FulfillOrderAfterPaymentAction.php:53-67 | Over every run a balance moves by the completed deposits on record and nothing else. |
| SettlementFacts.PaidStaysPaid | app/Actions/FulfillOrderAfterPaymentAction.php:31-33 | A paid order stays paid over every run. |
| SettlementFacts.PurchasesAreCounted | app/Actions/CompleteXmplusGatewayPaymentAction.php:481-495 | Purchases of a plan order, exactly: one for being paid and one for every completion that found it paid. |
| SettlementFacts.OnlyCompletionSettlesAgain | app/Actions/CompleteXmplusGatewayPaymentAction.php:43-45 | A second purchase is written if and only if the gateway completes a paid order without a link of its own whose context does not know of the payment. |
| SettlementFacts.LinkIsWrittenExactlyWhen | app/Actions/CompleteXmplusGatewayPaymentAction.php:405-480 | For all three handlers, in literal terms: when a link is written, to which order, with which date (days of 86400 seconds on top of a readable date, or of now), and that no other order's link or date changes. |
| SettlementFacts.ContextMovesExactly | app/Services/XmplusProvisioningService.php:898-934 | When a cached context comes and goes, and when it knows of the payment: if the order was paid when the chat opened it, or once charged. |
| SettlementFacts.NewPurchaseIsSettledOnce | app/Actions/ApprovePendingOrderAction.php:502-589 | Over every run of every handler a new-purchase order has one purchase if it is paid and none otherwise, and has its link when paid; that links are not empty is the type of what provisioning hands over. |
| SettlementFacts.RenewalSettledTwice | app/Actions/CompleteXmplusGatewayPaymentAction.php:43-45 | A concrete running service and its pending renewal, a state the shop makes: opened, fulfilled, completed; two purchases and twice the days, and no second reward. |
| SettlementFacts.HandlersAgreeOnPriceExactlyWhen | app/Actions/ApprovePendingOrderAction.php:588-588 | Fulfilment and approval record the same price for an order if and only if it was not discounted. |
| SettlementFacts.TopsUpExactlyWhen | app/Actions/ApprovePendingOrderAction.php:28-33 | Approval credits the wallet if and only if the order has no plan, named or gone, paid or not; fulfilment if and only if it names none and is unpaid, and it leaves an order whose plan is gone alone. |
| SettlementFacts.UsageRecordedExactlyWhen | app/Actions/FulfillOrderAfterPaymentAction.php:112-124 | Approval never records a discount's usage; fulfilment does if and only if it delivers an order whose code exists and of which no usage is on record. |
| SettlementFacts.OneRewardAFriend | app/Listeners/RewardReferrerListener.php:49-58 | From any state, rewards for a friend exceed one, for the first paid plan order, by at most the completions that settle the friend's only paid plan order again. |
| SettlementFacts.OneRewardEver | app/Listeners/RewardReferrerListener.php:16-58 | From every state in which the friend's renewals renew other paid orders and paid new purchases have their link, over every run of every handler, completions included: one reward at most, only when a first plan order is paid, and none once one was. |
| RewardFacts.PurchaseIsRewardedExactlyWhen | app/Listeners/RewardReferrerListener.php:16-58 | A purchase that leaves exactly one paid plan order of a friend whose referrer has a wallet adds the reward to that referrer's balance and the entry naming both to the ledger, and changes no other balance; every other purchase pays nobody. |
| RewardFacts.MoneyMoves | app/Actions/FulfillOrderAfterPaymentAction.php:53-132 | Every step of every handler: a top-up pays the order's amount into its owner's wallet, a purchase pays the referrer or nobody, and no other step moves money. |
| RewardFacts.RewardsAreEarned | app/Listeners/RewardReferrerListener.php:16-58 | From any state and over every run, the rewards for a friend are exactly those earned by purchases. |
| RewardFacts.OneRewardExactlyWhen | app/Listeners/RewardReferrerListener.php:16-58 | In a well-made shop, over every run: one reward for a friend if the friend has a referrer to thank and the first plan order to be paid is bought, and none otherwise. |
| SettlementFacts.ExpiryAddsUp | app/Actions/FulfillOrderAfterPaymentAction.php:355-358 | Over every run the date of a running service is its start plus the plan days of every settled renewal of it. |
| SettlementFacts.UsedCountIsUsages | app/Models/DiscountCode.php:63-78 | Over every run used_count moves with the usage rows of its code. |
| SettlementFacts.OneUsageAnOrder | app/Actions/FulfillOrderAfterPaymentAction.php:112-124 | Over every run fulfilment adds at most one usage row to an order, and none where there is one. |
| SettlementFacts.NoUsageTwice | app/Models/DiscountCode.php:63-78 | Over every run the same use of a code is never on record twice. |
| Handlers.Provision | app/Services/XmplusProvisioningService.php:87-132 | Orders that name an original are renewed, all others bought; a delivered link is not empty and was paid for, except on a renewal whose service/renew named no invoice. |
| Handlers.ProvideLink | app/Actions/FulfillOrderAfterPaymentAction.php:102-132 | A provisioning run and what it leaves behind: after a throw inside fulfilment's transaction the invoice id and the user are as before, otherwise the invoice is the one the run saved. |
| Handlers.PayAtGateway | app/Services/XmplusProvisioningService.php:2879-2955 | One try with an offered gateway and a wait of 18 rounds, or 72 rounds after a payment made elsewhere, in the chat only once a look does not show Pending; no wait where the payment fails or goes on elsewhere; a link follows a Paid view of this invoice. |
| PaymentFacts.VisitPaysExactlyWhen | app/Services/XmplusProvisioningService.php:2879-2929 | A visit tries to pay if and only if the gateway was on offer and there is an invoice, once and with that gateway, and waits for the link if and only if the reply does not send the customer elsewhere. |
| PaymentFacts.VisitLastsExactly | app/Services/XmplusProvisioningService.php:2879-2955 | The wait of a visit takes 18 rounds after a payment and 72 after a check, 45 where the raise applies, and 12 of them at most paid without a service. |
| Desk.Desk.Fulfil | app/Actions/FulfillOrderAfterPaymentAction.php:25-384 | Guard, provisioning, rollback and settlement in one, on the order's own row, plan, user and renewed order: only an unpaid plan order costs calls, and a renewal only if its date can be read; whatever is delivered is settled, with link, date, account and service id on the same row; otherwise no row has changed. |
| Desk.Desk.Approve | app/Actions/ApprovePendingOrderAction.php:502-589 | The same for approval, without the rollback: only a pending plan order costs calls; a delivered order is settled if and only if it is no renewal or its date can be read. |
| Desk.Desk.OfferAtSite | app/Services/XmplusProvisioningService.php:2549-2638 | A context is cached if and only if the order has an invoice on offer and the panel a gateway; it names the order's own stored invoice, the credentials it is offered under, the plan's package and, for a renewal, the renewed service. |
| Desk.Desk.Complete | app/Actions/CompleteXmplusGatewayPaymentAction.php:27-503 | A completed order, or one without a context, costs no call; the others visit the gateway with their own context, and a link is written only after a Paid view of its invoice; a completion forgets the context and writes account and service id where the link goes, or changes nothing. |
| DeskFacts.ProvisioningTriesInOrder | app/Services/XmplusProvisioningService.php:87-132 | A fulfilled or approved purchase asks for an invoice of its own package, first for the plan's own cycle, or for the one its days suggest. |
| DeskFacts.JobIsOwn | app/Services/XmplusProvisioningService.php:87-132 | Provisioning is asked for the order's package and cycle and, for a renewal, the account and service of the order renewed. |
| DeskFacts.ReusesExactlyWhen | app/Services/XmplusProvisioningService.php:642-645 | A purchase at the desk uses the order's own stored invoice, trimmed, if and only if it is not blank and the order's link is. |
| DeskFacts.DeliveryIsRecorded | app/Actions/FulfillOrderAfterPaymentAction.php:344-384 | A delivery leaves the invoice on the order, and account and service on the order renewed, or on the order itself; nothing else in any row changes. |
| Desk.Desk.Do | app/Services/XmplusProvisioningService.php:898-934 | Opening, charging and forgetting a context, and applying a code, keep every context beside an order of its kind and package. |
| MarkdownEscape.EscapeIsOnePass | app/Support/TelegramMarkdownV2.php:7-13 | The backslash pass and the 18 replacements equal one simultaneous pass, on every string. |
| MarkdownEscape.EscapeIsGuarded | app/Support/TelegramMarkdownV2.php:7-13 | Every character of the literal reserved set, and the backslash, stands behind a backslash in the result, and a backslash stands behind nothing else. |
| MarkdownEscape.EscapeRoundTrip | app/Support/TelegramMarkdownV2.php:7-13 | A one-pass unescape is its left inverse, on every string. |
| MarkdownEscape.EscapeIsInjective | app/Support/TelegramMarkdownV2.php:7-13 | No two texts escape to the same string. |
| MarkdownEscape.BackslashesMustComeFirst | app/Support/TelegramMarkdownV2.php:10-12 | With the backslash pass last the round trip fails on "_". |
| ConfigLinks.VlessRoundTrip | app/Actions/ApprovePendingOrderAction.php:193-194 | The leftmost UUID of every vless link is the client's, whatever follows it. |
| ConfigLinks.HexIsOneOf | app/Actions/ApprovePendingOrderAction.php:193-194 | The literal characters a UUID is matched by. |
| ConfigLinks.SubRoundTripExactlyWhen | app/Actions/ApprovePendingOrderAction.php:130-131 | Every subscription id is read back in full if and only if the base has no /sub/ path of its own and does not end in /sub. |
| ConfigLinks.BaseEndingInSub | app/Actions/ApprovePendingOrderAction.php:273-273 | A concrete base on which every id reads back as "sub". |
| ServiceLabel.MergeIsIdempotent | app/Models/Order.php:91-108 | Merging twice equals merging once. |
| ServiceLabel.DefaultNamesDiffer | app/Models/Order.php:70-84 | Two orders without any name show the same label only if they are the same order. |
| ServiceLabel.NameSurvivesExactlyWhen | app/Models/Order.php:70-108 | One panel update keeps the displayed name if and only if the label is not "0" or blank beside a usable username. |
| ServiceLabel.NameSurvivesManyUpdates | app/Models/Order.php:70-108 | The same over any number of updates: only the first can cost a name. |
| ServiceLabel.RenewalKeepsName | app/Actions/FulfillOrderAfterPaymentAction.php:344-358 | A renewal order without a name of its own leaves the renewed service its name; one with a usable username and no label of its own overwrites it. |

## Left out

- HTTP clients, Telegram, QR codes, notifications, logging, views and the admin panel: they do not touch the modelled state; the panel is an oracle.
- Marzban and X-UI provisioning: only their links are modelled (ConfigLinks); with Marzban an order can be paid without a link, so "paid implies a link" is claimed for XMPlus alone.
- VLESS query parameters: they are the arbitrary rest of the link.
- Controllers and the wallet payment handlers: their effect on the gateway cache (opening, charging, forgetting a context) is modelled as steps; as callers of provisionPurchase inside a transaction they are attempts like fulfilment. What a chat puts into a context it opens is a parameter (Desk.Desk.Do); the web shop's opening is modelled whole (Desk.Desk.OfferAtSite).
- Concurrency inside a handler: a handler call is one atomic step; the provisioning lock is taken to be held for the whole call, although it expires after 180 s and a poll may wait longer.
- Sleeping and cache expiry times: rounds are counted; a context may be forgotten at any moment.
- NewPurchase.DoNewPurchase: its detour to doRenewal (app/Services/XmplusProvisioningService.php:532-552) is not modelled, because it is never taken: its only caller besides itself sends every order that names an original to doRenewal (Handlers.Provision).
- The column variants and retries of the SQL writes to invoice rows: a mark, or the naming of a service, is one event in the trace, whether or not a row matched.
- extractAccountPayload, parseDataSizeToBytes, resolvePackageId: the models start from the lists, byte counts and ids these produce; of resolveBilling the reading of a plan's own cycle.
- Encryption of passwords: a stored password is readable, recoverable or neither.
- The user object in memory and the stored row: they are taken to be the same, except for the password column after another identity was saved through a copy.
- The value of a discount and the checks before a code is applied: only usage rows and used_count are modelled.
- Floating point: the factors 0.1 and 0.9 and all amounts are exact.
