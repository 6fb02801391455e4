/** The XMPlus panel as the shop sees it: what may come back from each Client API call, how the
    shop reads such a reply, and an oracle that answers arbitrarily while every call is logged. */
module Panel {
  import opened Text

  datatype Option<+T> = None | Some(value: T)

  /** A call either throws or hands back a decoded body. `runtime` says that the throwable is a
      `RuntimeException` (HTTP status, HTML page); connection failures are not. */
  datatype Thrown = Thrown(runtime: bool, message: string)
  datatype Reply<+T> = Threw(error: Thrown) | Got(body: T)

  datatype Creds = Creds(email: string, password: string)

  /** A cell of an invoice row; null and '' both read as `Missing`. */
  datatype Cell =
    | Missing
    | Number(n: int)
    | NumericText(text: string, n: int)
    | OtherText(text: string)

  /** `status` is None when the key is absent or its value is not a string; `cycle` is the row's
      billing or else its cycle. */
  datatype InvoiceRow = InvoiceRow(
    status: Option<string>, serviceid: Cell, service_id: Cell, sid: Cell, packageExpire: Option<int>, cycle: string)

  /** The part every body shares; `code` is None when absent or null, texts are '' when absent. */
  datatype Envelope = Envelope(code: Option<int>, status: string, message: string)

  /** An invoice id as it may arrive; a number arrives with its decimal text. */
  datatype InvoiceId = NoId | TextId(text: string) | NumberId(text: string)

  datatype ApiBody = ApiBody(env: Envelope, invid: InvoiceId, dataInvid: InvoiceId)
  datatype ViewBody = ViewBody(env: Envelope, invoice: Option<InvoiceRow>)

  /** One entry of account/info's service list. `packageId` is 0 when absent. */
  datatype ServiceRow =
    | NotARow
    | Row(sublink: string, sid: Option<int>, packageId: int, status: string)

  datatype Services = Rows(rows: seq<ServiceRow>) | NotAList
  datatype AccountBody = AccountBody(api: ApiBody, services: Services)

  /** Traffic figures of a service/info row in bytes; `statusNumber` is the integer value of a
      numeric status. */
  datatype UsageRow = UsageRow(status: string, statusNumber: Option<int>, total: int, used: int)

  /** `links` and `nestedLinks` list the candidate link keys in the order they are tried. */
  datatype ServiceBody = ServiceBody(
    env: Envelope, sid: Option<int>, usage: UsageRow, nestedUsage: Option<UsageRow>,
    links: seq<string>, nestedLinks: seq<string>, serverUris: seq<string>)

  datatype ListedInvoice = ListedInvoice(invoiceId: string, row: InvoiceRow)

  datatype PayData = NoData | NullData | DataText(text: string) | DataIntent | DataOther

  /** invoice/pay. `raw` is the undecodable text; `orderId` and `named` say that orderid, or one of
      ret, message, invid, is set; `extra` that a further key (perhaps null) is present. */
  datatype PayBody = PayBody(
    code: Option<int>, status: Option<string>, gateway: Option<string>, data: PayData,
    qrcode: Option<string>, raw: Option<string>, orderId: bool, named: bool, extra: bool)

  /** package/info: None where the key is not an array. A cell carries whether it looks enabled. */
  datatype BillingCells = BillingCells(
    month: bool, quater: bool, semiannual: bool, annual: bool, topupTraffic: bool)
  datatype PackageCard = PackageCard(kind: string, billing: Option<BillingCells>)
  datatype PackageBody = PackageBody(package: Option<PackageCard>)

  /** A link that PHP does not take for empty. */
  type Link = s: string | !PhpEmpty(s) witness "link"

  datatype PackageEntry = PackageEntry(id: Option<int>, validity: int, trafficGb: Option<int>)

  // ---------------------------------------------------------------- reading replies

  function OrEmpty(s: Option<string>): string {
    if s.Some? then s.value else ""
  }

  predicate EqualsIgnoringCase(s: string, lowered: string) {
    Lower(s) == lowered
  }

  predicate ViewIsPaid(view: ViewBody) {
    view.invoice.Some? && view.invoice.value.status.Some?
    && EqualsIgnoringCase(view.invoice.value.status.value, "paid")
  }

  predicate TextNamesService(text: string) {
    Trim(text) != "" && Lower(Trim(text)) != "null" && Trim(text) != "0"
  }

  predicate CellNamesService(cell: Cell) {
    match cell
    case Missing => false
    case Number(n) => n > 0
    case NumericText(text, n) => n > 0 || TextNamesService(text)
    case OtherText(text) => TextNamesService(text)
  }

  predicate ViewHasServiceId(view: ViewBody) {
    view.invoice.Some?
    && var row := view.invoice.value;
       CellNamesService(row.serviceid) || CellNamesService(row.service_id) || CellNamesService(row.sid)
  }

  /** The first numeric cell decides, and only when it is positive. */
  function ServiceIdOfRow(row: InvoiceRow): (sid: Option<int>)
    ensures sid.Some? ==> sid.value > 0
  {
    FirstServiceId([row.serviceid, row.service_id, row.sid])
  }

  function FirstServiceId(cells: seq<Cell>): (sid: Option<int>)
    ensures sid.Some? ==> sid.value > 0
  {
    if cells == [] then None
    else
      match cells[0]
      case Missing => FirstServiceId(cells[1..])
      case OtherText(_) => FirstServiceId(cells[1..])
      case Number(n) => if n > 0 then Some(n) else None
      case NumericText(_, n) => if n > 0 then Some(n) else None
  }

  function FirstNonEmpty(texts: seq<string>): (r: Option<string>)
    ensures r.Some? ==> r.value in texts && !PhpEmpty(r.value)
    ensures r.None? ==> forall t :: t in texts ==> PhpEmpty(t)
  {
    if texts == [] then None
    else if !PhpEmpty(texts[0]) then Some(texts[0])
    else FirstNonEmpty(texts[1..])
  }

  /** The subscription link of a service/info reply; only the first server is looked at. */
  function LinkOfService(info: ServiceBody): (r: Option<string>)
    ensures r.Some? ==> !PhpEmpty(r.value)
  {
    var top := FirstNonEmpty(info.links);
    if top.Some? then top
    else
      var nested := FirstNonEmpty(info.nestedLinks);
      if nested.Some? then nested
      else FirstNonEmpty(info.serverUris[..if info.serverUris == [] then 0 else 1])
  }

  predicate HasTopId(id: InvoiceId) {
    !id.NoId? && !PhpEmpty(id.text)
  }

  predicate ApiOk(api: ApiBody) {
    HasTopId(api.invid)
    || ((api.env.code.None? || api.env.code.value == 100)
        && Lower(api.env.status) in {"success", "sucess", "active"})
  }

  predicate EmailAlreadyRegistered(env: Envelope) {
    ContainsAny(Lower(env.message), ["already registered", "already been registered"])
  }

  predicate BillingUnavailable(env: Envelope) {
    Contains(Lower(env.message), "billing") && Contains(Lower(env.message), "unavailable")
  }

  function CodeOf(env: Envelope): int {
    if env.code.Some? then env.code.value else 0
  }

  const NOT_FOUND_WORDS: seq<string> := [
    "does not exist", "not found", "could not be found", "no such user",
    "user not found", "account not found", "email not found"]

  /** "This account no longer exists in the panel", and nothing else that shares code 208. */
  predicate EmailNotFound(env: Envelope) {
    var message := Lower(env.message);
    if CodeOf(env) == 208 then
      && !EmailAlreadyRegistered(env)
      && !BillingUnavailable(env)
      && !(Contains(message, "password") && ContainsAny(message, ["invalid", "incorrect", "wrong"]))
      && ContainsAny(message, NOT_FOUND_WORDS)
    else
      Lower(env.status) == "error" && Contains(message, "does not exist")
  }

  predicate InvalidPassword(env: Envelope) {
    var message := Lower(env.message);
    if CodeOf(env) == 208 && (EmailAlreadyRegistered(env) || BillingUnavailable(env)) then false
    else
      || (CodeOf(env) == 208
          && ContainsAny(message, ["password", "passwd", "credential", "login", "auth"]))
      || ContainsAny(message, ["invalid password", "incorrect password", "wrong password",
                               "invalid passwd", "authentication failed"])
  }

  predicate SaysNotFound(error: Thrown) {
    ContainsAny(Lower(error.message), ["service not found", "not found"])
  }

  // ---------------------------------------------------------------- invoice/pay

  predicate PayIsBlank(pay: PayBody) {
    pay == PayBody(None, None, None, NoData, None, None, false, false, false)
  }

  predicate PayLooksSuccessful(pay: PayBody) {
    var status := Lower(OrEmpty(pay.status));
    if PayIsBlank(pay) then false
    else if pay.code.Some? && pay.code.value != 100 then false
    else if status in {"fail", "failed", "error"} then false
    else if pay.code.Some? then true
    else if status in {"success", "sucess"} then true
    else pay.orderId || !pay.data.NoData?
  }

  predicate PayBodyIsEmpty(pay: PayBody) {
    if PayIsBlank(pay) then true
    else if pay.code.Some? || pay.status.Some? || pay.gateway.Some? || pay.orderId || pay.named
            || !(pay.data.NoData? || pay.data.NullData?) then false
    else pay.raw.Some? && Trim(pay.raw.value) == ""
  }

  /** The reply the shop makes up once invoice/view has vouched for the invoice. */
  function Recovered(pay: PayBody): PayBody {
    pay.(code := Some(100), status := Some("success"), gateway := Some("ShopPrepaidConfirm"), extra := true)
  }

  predicate PayLooksAsync(pay: PayBody) {
    || !PhpEmpty(OrEmpty(pay.qrcode))
    || (pay.data.DataText? && pay.data.text != "")
    || pay.data.DataIntent?
  }

  predicate IsWebAddress(s: string) {
    StartsWith(Lower(s), "http://") || StartsWith(Lower(s), "https://")
  }

  /** The customer would have to pay a second time, outside the shop. */
  predicate PayIsCustomerSide(pay: PayBody) {
    && PayLooksAsync(pay)
    && (|| ContainsAny(Lower(OrEmpty(pay.gateway)), ["paypal", "stripe", "wechat", "alipay"])
        || (pay.data.DataText? && IsWebAddress(pay.data.text)))
  }

  predicate PayIsCard2Card(pay: PayBody) {
    Contains(Lower(Trim(OrEmpty(pay.gateway))), "card2card")
  }

  predicate PayIsShopPrepaid(pay: PayBody) {
    Contains(Lower(Trim(OrEmpty(pay.gateway))), "shopprepaid")
  }

  // ---------------------------------------------------------------- the oracle

  /** What the panel will answer: one arbitrary reply for every kind of call at every moment. */
  datatype Script = Script(
    view: nat -> Reply<ViewBody>,
    pay: nat -> Reply<PayBody>,
    account: nat -> Reply<AccountBody>,
    service: nat -> Reply<ServiceBody>,
    invoices: nat -> Reply<seq<ListedInvoice>>,
    register: nat -> Reply<ApiBody>,
    sendCode: nat -> Reply<()>,
    create: nat -> Reply<ApiBody>,
    renew: nat -> Reply<ApiBody>,
    packageInfo: nat -> Reply<PackageBody>,
    packages: nat -> Reply<Option<seq<PackageEntry>>>,
    gateways: nat -> Reply<seq<int>>)

  /** What a silent panel throws. */
  const NO_PANEL: Thrown := Thrown(false, "")

  /** Everything the shop did to the panel, and three writes of its own that must be ordered among
      those calls: forgetting a user's credentials, and the SQL writes that mark an invoice row Paid or
      name the service it renews. */
  datatype Event =
    | Viewed(creds: Creds, invid: string, view: Reply<ViewBody>)
    | PayTried(creds: Creds, invid: string, gateway: int, pay: Reply<PayBody>)
    | AccountRead(creds: Creds, account: Reply<AccountBody>)
    | ServiceRead(creds: Creds, sid: int, service: Reply<ServiceBody>)
    | InvoicesListed(creds: Creds, invoices: Reply<seq<ListedInvoice>>)
    | CodeSent(email: string, sent: Reply<()>)
    | RegisterTried(creds: Creds, registered: Reply<ApiBody>)
    | CreateTried(creds: Creds, pid: int, billing: string, created: Reply<ApiBody>)
    | RenewTried(creds: Creds, sid: int, renewed: Reply<ApiBody>)
    | PackageRead(pid: int, package: Reply<PackageBody>)
    | PackagesListed(creds: Creds, packages: Reply<Option<seq<PackageEntry>>>)
    | GatewaysListed(gateways: Reply<seq<int>>)
    | CredentialsCleared
    | MarkedPaid(invid: string)
    | LinkedInvoice(invid: string, sid: int)

  predicate IsOwnWrite(e: Event) {
    e.CredentialsCleared? || e.MarkedPaid? || e.LinkedInvoice?
  }

  /** The reply in the event, if any, is the one the script has for that moment. */
  predicate IsAnswer(script: Script, at: nat, e: Event) {
    match e
    case Viewed(_, _, view) => view == script.view(at)
    case PayTried(_, _, _, pay) => pay == script.pay(at)
    case AccountRead(_, account) => account == script.account(at)
    case ServiceRead(_, _, service) => service == script.service(at)
    case InvoicesListed(_, invoices) => invoices == script.invoices(at)
    case CodeSent(_, sent) => sent == script.sendCode(at)
    case RegisterTried(_, registered) => registered == script.register(at)
    case CreateTried(_, _, _, created) => created == script.create(at)
    case RenewTried(_, _, renewed) => renewed == script.renew(at)
    case PackageRead(_, package) => package == script.packageInfo(at)
    case PackagesListed(_, packages) => packages == script.packages(at)
    case GatewaysListed(gateways) => gateways == script.gateways(at)
    case _ => true
  }

  /** A piece of a log that starts at the moment `from`. */
  predicate Follows(script: Script, from: nat, d: seq<Event>) {
    forall k :: 0 <= k < |d| ==> IsAnswer(script, from + k, d[k])
  }

  class Api {
    const script: Script
    var log: seq<Event>

    /** Every reply on record is the script's. */
    ghost predicate IsFaithful()
      reads this
    {
      Follows(script, 0, log)
    }

    constructor (script: Script)
      ensures log == [] && this.script == script && IsFaithful()
    {
      this.script := script;
      log := [];
    }

    method InvoiceView(creds: Creds, invid: string) returns (r: Reply<ViewBody>)
      requires IsFaithful()
      modifies this
      ensures IsFaithful() && log == old(log) + [Viewed(creds, invid, r)]
      ensures r == script.view(|old(log)|)
    {
      r := script.view(|log|);
      log := log + [Viewed(creds, invid, r)];
    }

    method InvoicePay(creds: Creds, invid: string, gateway: int) returns (r: Reply<PayBody>)
      requires IsFaithful()
      modifies this
      ensures IsFaithful() && log == old(log) + [PayTried(creds, invid, gateway, r)]
      ensures r == script.pay(|old(log)|)
    {
      r := script.pay(|log|);
      log := log + [PayTried(creds, invid, gateway, r)];
    }

    method AccountInfo(creds: Creds) returns (r: Reply<AccountBody>)
      requires IsFaithful()
      modifies this
      ensures IsFaithful() && log == old(log) + [AccountRead(creds, r)]
      ensures r == script.account(|old(log)|)
    {
      r := script.account(|log|);
      log := log + [AccountRead(creds, r)];
    }

    method ServiceInfo(creds: Creds, sid: int) returns (r: Reply<ServiceBody>)
      requires IsFaithful()
      modifies this
      ensures IsFaithful() && log == old(log) + [ServiceRead(creds, sid, r)]
      ensures r == script.service(|old(log)|)
    {
      r := script.service(|log|);
      log := log + [ServiceRead(creds, sid, r)];
    }

    method ListInvoices(creds: Creds) returns (r: Reply<seq<ListedInvoice>>)
      requires IsFaithful()
      modifies this
      ensures IsFaithful() && log == old(log) + [InvoicesListed(creds, r)]
      ensures r == script.invoices(|old(log)|)
    {
      r := script.invoices(|log|);
      log := log + [InvoicesListed(creds, r)];
    }

    method SendCode(email: string) returns (r: Reply<()>)
      requires IsFaithful()
      modifies this
      ensures IsFaithful() && log == old(log) + [CodeSent(email, r)]
      ensures r == script.sendCode(|old(log)|)
    {
      r := script.sendCode(|log|);
      log := log + [CodeSent(email, r)];
    }

    method Register(creds: Creds) returns (r: Reply<ApiBody>)
      requires IsFaithful()
      modifies this
      ensures IsFaithful() && log == old(log) + [RegisterTried(creds, r)]
      ensures r == script.register(|old(log)|)
    {
      r := script.register(|log|);
      log := log + [RegisterTried(creds, r)];
    }

    method InvoiceCreate(creds: Creds, pid: int, billing: string) returns (r: Reply<ApiBody>)
      requires IsFaithful()
      modifies this
      ensures IsFaithful() && log == old(log) + [CreateTried(creds, pid, billing, r)]
      ensures r == script.create(|old(log)|)
    {
      r := script.create(|log|);
      log := log + [CreateTried(creds, pid, billing, r)];
    }

    method ServiceRenew(creds: Creds, sid: int) returns (r: Reply<ApiBody>)
      requires IsFaithful()
      modifies this
      ensures IsFaithful() && log == old(log) + [RenewTried(creds, sid, r)]
      ensures r == script.renew(|old(log)|)
    {
      r := script.renew(|log|);
      log := log + [RenewTried(creds, sid, r)];
    }

    method PackageInfo(pid: int) returns (r: Reply<PackageBody>)
      requires IsFaithful()
      modifies this
      ensures IsFaithful() && log == old(log) + [PackageRead(pid, r)]
      ensures r == script.packageInfo(|old(log)|)
    {
      r := script.packageInfo(|log|);
      log := log + [PackageRead(pid, r)];
    }

    method ListPackages(creds: Creds) returns (r: Reply<Option<seq<PackageEntry>>>)
      requires IsFaithful()
      modifies this
      ensures IsFaithful() && log == old(log) + [PackagesListed(creds, r)]
      ensures r == script.packages(|old(log)|)
    {
      r := script.packages(|log|);
      log := log + [PackagesListed(creds, r)];
    }

    method ListGateways() returns (r: Reply<seq<int>>)
      requires IsFaithful()
      modifies this
      ensures IsFaithful() && log == old(log) + [GatewaysListed(r)]
      ensures r == script.gateways(|old(log)|)
    {
      r := script.gateways(|log|);
      log := log + [GatewaysListed(r)];
    }

    /** The shop's own write, kept in the same order as the calls. */
    method Note(event: Event)
      requires IsFaithful() && IsOwnWrite(event)
      modifies this
      ensures IsFaithful() && log == old(log) + [event]
    {
      log := log + [event];
    }
  }

  lemma FollowsPart(script: Script, from: nat, d: seq<Event>, k: nat)
    requires Follows(script, from, d) && k <= |d|
    ensures Follows(script, from, d[..k]) && Follows(script, from + k, d[k..])
  {
    hide IsAnswer;
    assert forall j :: 0 <= j < |d| - k ==> d[k..][j] == d[k + j] && from + k + j == from + (k + j);
  }

  lemma FirstFollows(script: Script, from: nat, d: seq<Event>)
    requires Follows(script, from, d) && d != []
    ensures IsAnswer(script, from, d[0])
  {
    assert IsAnswer(script, from + 0, d[0]);
  }

  // ---------------------------------------------------------------- reading-rule lemmas

  /** A row that yields an id is always one "with a service id"; the converse fails on ids that are
      not numbers, so a Paid invoice may count as linked and still give nothing to look up. */
  lemma IdImpliesHasId(view: ViewBody)
    requires view.invoice.Some? && ServiceIdOfRow(view.invoice.value).Some?
    ensures ViewHasServiceId(view)
  {
    var row := view.invoice.value;
    var cells := [row.serviceid, row.service_id, row.sid];
    assert cells[1..] == [row.service_id, row.sid] && cells[1..][1..] == [row.sid];
    if row.serviceid.Missing? || row.serviceid.OtherText? {
      assert FirstServiceId(cells[1..]) == ServiceIdOfRow(row);
      if row.service_id.Missing? || row.service_id.OtherText? {
        assert FirstServiceId(cells[1..][1..]) == ServiceIdOfRow(row);
      }
    }
  }

  lemma ShopPrepaidIsNot(name: string, wrong: string, k: nat)
    requires name == "shopprepaidconfirm"
    requires k + 1 < |wrong|
    requires (wrong[k], wrong[k + 1]) in {('y', 'p'), ('s', 't'), ('w', 'e'), ('a', 'l'), ('c', 'a')}
    ensures !Contains(name, wrong)
  {
    NoPairNoNeedle(name, wrong, k);
  }

  lemma ShopPrepaidIsItself(name: string)
    requires name == "shopprepaidconfirm"
    ensures Contains(name, "shopprepaid")
  {
    assert name[0..11] == "shopprepaid";
    ContainsAt(name, "shopprepaid", 0);
  }

  lemma ShopPrepaidNames(name: string)
    requires name == "shopprepaidconfirm"
    ensures !ContainsAny(name, ["paypal", "stripe", "wechat", "alipay"])
    ensures !Contains(name, "card2card")
    ensures Contains(name, "shopprepaid")
  {
    hide Contains;
    ShopPrepaidIsItself(name);
    ShopPrepaidIsNot(name, "paypal", 2);
    ShopPrepaidIsNot(name, "stripe", 0);
    ShopPrepaidIsNot(name, "wechat", 0);
    ShopPrepaidIsNot(name, "alipay", 0);
    ShopPrepaidIsNot(name, "card2card", 0);
  }

  /** A reply made up after an empty pay body passes as successful and trips neither of the two
      wrong-gateway guards, whatever the empty body looked like. */
  lemma RecoveredIsSafe(pay: PayBody)
    requires PayBodyIsEmpty(pay)
    ensures PayLooksSuccessful(Recovered(pay))
    ensures !PayIsCustomerSide(Recovered(pay)) && !PayIsCard2Card(Recovered(pay))
    ensures PayIsShopPrepaid(Recovered(pay))
  {
    assert Trim("ShopPrepaidConfirm") == "ShopPrepaidConfirm";
    assert Lower("ShopPrepaidConfirm") == "shopprepaidconfirm";
    ShopPrepaidNames(Lower("ShopPrepaidConfirm"));
  }

  /** An empty body names no gateway and carries no link, so it is never a wrong-gateway reply. */
  lemma EmptyBodyIsSafe(pay: PayBody)
    requires PayBodyIsEmpty(pay)
    ensures !PayIsCustomerSide(pay) && !PayIsCard2Card(pay)
  {
    assert Lower("") == "" && Trim("") == "";
  }
}
