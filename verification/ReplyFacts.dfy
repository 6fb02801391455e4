/** What the shop makes of the panel's replies, said in their own words. */
module ReplyFacts {
  import opened Text
  import opened Words
  import opened Panel
  import opened InvoicePay

  // ---------------------------------------------------------------- gateways that bill the customer

  /** A QR code, a text or a payment intent to go on with elsewhere. */
  predicate SendsElsewhere(pay: PayBody) {
    || (pay.qrcode.Some? && pay.qrcode.value !in {"", "0"})
    || (pay.data.DataText? && pay.data.text != "")
    || pay.data.DataIntent?
  }

  /** A web address as data; PayPal, Stripe, WeChat or Alipay with something to go on with; or Card2Card. */
  predicate BillsCustomer(pay: PayBody) {
    || (pay.data.DataText? && (Begins(pay.data.text, "http://") || Begins(pay.data.text, "https://")))
    || (SendsElsewhere(pay) && pay.gateway.Some?
        && (|| Mentions(pay.gateway.value, "paypal") || Mentions(pay.gateway.value, "stripe")
            || Mentions(pay.gateway.value, "wechat") || Mentions(pay.gateway.value, "alipay")))
    || (pay.gateway.Some? && Mentions(pay.gateway.value, "card2card"))
  }

  lemma LowerOfNothing()
    ensures Lower("") == "" && Trim("") == ""
  {
  }

  lemma NothingContains(word: string)
    requires word != ""
    ensures !Contains("", word)
  {
  }

  lemma WebAddressBegins(text: string)
    ensures IsWebAddress(text) <==> Begins(text, "http://") || Begins(text, "https://")
  {
    hide StartsWith, ReadsAt;
    LowerBegins(text, "http://");
    LowerBegins(text, "https://");
  }

  lemma CustomerGatewayMentions(gateway: string)
    ensures ContainsAny(Lower(gateway), ["paypal", "stripe", "wechat", "alipay"])
            <==> || Mentions(gateway, "paypal") || Mentions(gateway, "stripe")
                 || Mentions(gateway, "wechat") || Mentions(gateway, "alipay")
  {
    hide Contains, Mentions;
    var names := ["paypal", "stripe", "wechat", "alipay"];
    forall k | 0 <= k < |names|
      ensures Contains(Lower(gateway), names[k]) <==> Mentions(gateway, names[k])
    {
      LowerMentions(gateway, names[k]);
    }
    assert names[0] == "paypal" && names[1] == "stripe" && names[2] == "wechat" && names[3] == "alipay";
  }

  lemma CustomerSideExactlyWhen(pay: PayBody)
    ensures PayIsCustomerSide(pay) <==>
              && SendsElsewhere(pay)
              && (|| (pay.gateway.Some?
                      && (|| Mentions(pay.gateway.value, "paypal") || Mentions(pay.gateway.value, "stripe")
                          || Mentions(pay.gateway.value, "wechat") || Mentions(pay.gateway.value, "alipay")))
                  || (pay.data.DataText?
                      && (Begins(pay.data.text, "http://") || Begins(pay.data.text, "https://"))))
  {
    hide Contains, Mentions, Lower, IsWebAddress, ReadsAt;
    CustomerGatewayMentions(OrEmpty(pay.gateway));
    if pay.gateway.None? {
      NothingMentions("paypal");
      NothingMentions("stripe");
      NothingMentions("wechat");
      NothingMentions("alipay");
    }
    if pay.data.DataText? {
      WebAddressBegins(pay.data.text);
    }
  }

  lemma NothingMentions(word: string)
    requires word != ""
    ensures !Mentions("", word)
  {
  }

  lemma Card2CardExactlyWhen(pay: PayBody)
    ensures PayIsCard2Card(pay) <==> pay.gateway.Some? && Mentions(pay.gateway.value, "card2card")
  {
    hide Contains, Mentions, Lower, Trim;
    var gateway := OrEmpty(pay.gateway);
    TrimLower(gateway);
    LowerMentions(Trim(gateway), "card2card");
    TrimMentions(gateway, "card2card");
    NothingMentions("card2card");
  }

  /** The replies that a shop-paid purchase or renewal never gets past. */
  lemma BillsCustomerExactlyWhen(pay: PayBody)
    ensures IsWrongGateway(pay) <==> BillsCustomer(pay)
  {
    hide PayIsCustomerSide, PayIsCard2Card, Mentions, ReadsAt;
    CustomerSideExactlyWhen(pay);
    Card2CardExactlyWhen(pay);
    if pay.data.DataText? {
      AddressIsText(pay.data.text);
    }
  }

  lemma AddressIsText(text: string)
    ensures Begins(text, "http://") || Begins(text, "https://") ==> text != ""
  {
  }

  /** Some try to pay was answered so. */
  predicate MeetsBiller(d: seq<Event>) {
    exists k :: 0 <= k < |d| && d[k].PayTried? && d[k].pay.Got? && BillsCustomer(d[k].pay.body)
  }

  // ---------------------------------------------------------------- replies that count as paid

  /** No key at all. */
  predicate IsVoid(pay: PayBody) {
    && pay.code.None? && pay.status.None? && pay.gateway.None? && pay.data.NoData? && pay.qrcode.None? && pay.raw.None?
    && !pay.orderId && !pay.named && !pay.extra
  }

  /** Neither void nor refused, by its code or by its status, and with some sign of success. */
  predicate Approves(pay: PayBody) {
    && !IsVoid(pay)
    && (pay.code.None? || pay.code.value == 100)
    && (pay.status.Some? ==>
          !Reads(pay.status.value, "fail") && !Reads(pay.status.value, "failed") && !Reads(pay.status.value, "error"))
    && (|| pay.code == Some(100)
        || (pay.status.Some? && (Reads(pay.status.value, "success") || Reads(pay.status.value, "sucess")))
        || pay.orderId || !pay.data.NoData?)
  }

  /** No key that says anything, and no text but blanks. */
  predicate SaysNothing(pay: PayBody) {
    || IsVoid(pay)
    || (&& pay.code.None? && pay.status.None? && pay.gateway.None? && !pay.orderId && !pay.named
        && (pay.data.NoData? || pay.data.NullData?)
        && pay.raw.Some? && forall k :: 0 <= k < |pay.raw.value| ==> IsSpace(pay.raw.value[k]))
  }

  lemma ApprovesExactlyWhen(pay: PayBody)
    ensures PayLooksSuccessful(pay) <==> Approves(pay)
  {
    hide Lower, Reads;
    var status := OrEmpty(pay.status);
    LowerReads(status, "fail");
    LowerReads(status, "failed");
    LowerReads(status, "error");
    LowerReads(status, "success");
    LowerReads(status, "sucess");
    LowerOfNothing();
  }

  lemma BlankExactlyWhen(text: string)
    ensures Trim(text) == "" <==> forall k :: 0 <= k < |text| ==> IsSpace(text[k])
  {
    var i := TrimIsCore(text);
    var t := Trim(text);
    if t != "" {
      assert text[i..i + |t|][0] == text[i];
    }
  }

  lemma SaysNothingExactlyWhen(pay: PayBody)
    ensures PayBodyIsEmpty(pay) <==> SaysNothing(pay)
  {
    hide Trim;
    if pay.raw.Some? {
      BlankExactlyWhen(pay.raw.value);
    }
  }

  /** What the strict routine accepts from a reply to invoice/pay is that reply, and it approves; a first reply
      that approves is accepted at once, and one that says something without approving is refused at once. */
  lemma StrictAcceptsExactly(bill: Bill, d: seq<Event>, r: Option<PayBody>)
    requires StrictRun(bill, d, r)
    ensures var last := d[|d| - 1];
            r.Some? && last.PayTried? ==> last.pay == Got(r.value) && Approves(r.value)
    ensures d[0].PayTried? && d[0].pay.Got? ==>
              && (Approves(d[0].pay.body) ==> |d| == 1 && r == Some(d[0].pay.body))
              && (!Approves(d[0].pay.body) && !SaysNothing(d[0].pay.body) ==> |d| == 1 && r == None)
  {
    hide PayLooksSuccessful, PayBodyIsEmpty, RetryRun, ViewIsPaid, Approves, SaysNothing;
    StrictReturnsOnEvidence(bill, d, r);
    AcceptedReplyIsReal(bill, d, r);
    if r.Some? && d[|d| - 1].PayTried? {
      ApprovesExactlyWhen(d[|d| - 1].pay.body);
    }
    if d[0].pay.Got? {
      ApprovesExactlyWhen(d[0].pay.body);
      SaysNothingExactlyWhen(d[0].pay.body);
      assert d[1..] == [] ==> |d| == 1;
    }
  }

  /** An invoice counts as paid by its status alone, in any case. */
  lemma PaidExactlyWhen(view: ViewBody)
    ensures ViewIsPaid(view) <==>
              view.invoice.Some? && view.invoice.value.status.Some? && Reads(view.invoice.value.status.value, "paid")
  {
    hide Lower, Reads;
    if view.invoice.Some? && view.invoice.value.status.Some? {
      LowerReads(view.invoice.value.status.value, "paid");
    }
  }

  // ---------------------------------------------------------------- services and links

  /** Some cell has a positive number or a text other than "0" and "null". */
  predicate CellPoints(cell: Cell) {
    match cell
    case Missing => false
    case Number(n) => n > 0
    case NumericText(text, n) => n > 0 || TextPoints(text)
    case OtherText(text) => TextPoints(text)
  }

  predicate TextPoints(text: string) {
    !Says(text, "") && !Says(text, "null") && !Says(text, "0")
  }

  lemma PointsExactlyWhen(text: string)
    ensures TextNamesService(text) <==> TextPoints(text)
  {
    hide Lower, Trim, Says;
    TrimSays(text, "");
    TrimSays(text, "null");
    TrimSays(text, "0");
    LowerReads(Trim(text), "");
    LowerReads(Trim(text), "0");
    assert Trim(text) == "0" <==> Reads(Trim(text), "0");
  }

  /** An invoice is linked to a service when one of its three columns points to one. */
  lemma LinkedExactlyWhen(view: ViewBody)
    ensures ViewHasServiceId(view) <==>
              && view.invoice.Some?
              && (|| CellPoints(view.invoice.value.serviceid) || CellPoints(view.invoice.value.service_id)
                  || CellPoints(view.invoice.value.sid))
  {
    hide TextNamesService, TextPoints;
    if view.invoice.Some? {
      var row := view.invoice.value;
      forall cell | cell in {row.serviceid, row.service_id, row.sid}
        ensures CellNamesService(cell) <==> CellPoints(cell)
      {
        if cell.NumericText? || cell.OtherText? {
          PointsExactlyWhen(cell.text);
        }
      }
    }
  }

  /** PHP takes two texts for empty, and no link is one of them. */
  lemma LinkIsNotEmpty(link: string)
    ensures PhpEmpty(link) <==> link == "" || link == "0"
  {
  }

  // ---------------------------------------------------------------- accepted, refused, gone

  predicate Succeeds(status: string) {
    Reads(status, "success") || Reads(status, "sucess")
  }

  lemma AcceptedExactlyWhen(api: ApiBody)
    ensures ApiOk(api) <==>
              || (!api.invid.NoId? && api.invid.text !in {"", "0"})
              || ((api.env.code.None? || api.env.code.value == 100)
                  && (Succeeds(api.env.status) || Reads(api.env.status, "active")))
  {
    hide Lower, Reads;
    LowerReads(api.env.status, "success");
    LowerReads(api.env.status, "sucess");
    LowerReads(api.env.status, "active");
  }

  predicate SaysTaken(message: string) {
    Mentions(message, "already registered") || Mentions(message, "already been registered")
  }

  predicate SaysBilling(message: string) {
    Mentions(message, "billing") && Mentions(message, "unavailable")
  }

  lemma {:induction false} AnyMentioned(message: string, words: seq<string>)
    requires forall k :: 0 <= k < |words| ==> HasNoCapital(words[k])
    ensures ContainsAny(Lower(message), words) <==> exists k :: 0 <= k < |words| && Mentions(message, words[k])
  {
    hide Contains, Mentions;
    forall k | 0 <= k < |words|
      ensures Contains(Lower(message), words[k]) <==> Mentions(message, words[k])
    {
      LowerMentions(message, words[k]);
    }
  }

  lemma TakenExactlyWhen(env: Envelope)
    ensures EmailAlreadyRegistered(env) <==> SaysTaken(env.message)
    ensures BillingUnavailable(env) <==> SaysBilling(env.message)
  {
    hide Contains, Mentions;
    var words := ["already registered", "already been registered"];
    AnyMentioned(env.message, words);
    assert words[0] == "already registered" && words[1] == "already been registered";
    LowerMentions(env.message, "billing");
    LowerMentions(env.message, "unavailable");
  }

  predicate SaysGone(message: string) {
    || Mentions(message, "does not exist") || Mentions(message, "not found") || Mentions(message, "could not be found")
    || Mentions(message, "no such user")
  }

  predicate SaysWrongPassword(message: string) {
    && Mentions(message, "password")
    && (Mentions(message, "invalid") || Mentions(message, "incorrect") || Mentions(message, "wrong"))
  }

  lemma PartIsMentioned(s: string, word: string, part: string, at: nat)
    requires at + |part| <= |word| && forall k :: 0 <= k < |part| ==> word[at + k] == part[k]
    ensures Mentions(s, word) ==> Mentions(s, part)
  {
    if Mentions(s, word) {
      var i :| 0 <= i <= |s| && ReadsAt(s, i, word);
      forall k {:trigger part[k]} | 0 <= k < |part|
        ensures IsLetter(s[(i + at) + k], part[k])
      {
        assert IsLetter(s[i + (at + k)], word[at + k]);
      }
      assert ReadsAt(s, i + at, part);
    }
  }

  lemma LongerWords(message: string)
    ensures Mentions(message, "user not found") ==> Mentions(message, "not found")
    ensures Mentions(message, "account not found") ==> Mentions(message, "not found")
    ensures Mentions(message, "email not found") ==> Mentions(message, "not found")
  {
    hide Mentions;
    PartIsMentioned(message, "user not found", "not found", 5);
    PartIsMentioned(message, "account not found", "not found", 8);
    PartIsMentioned(message, "email not found", "not found", 6);
  }

  lemma GoneWords(message: string)
    ensures ContainsAny(Lower(message), NOT_FOUND_WORDS) <==> SaysGone(message)
  {
    hide Contains, Mentions;
    AnyMentioned(message, NOT_FOUND_WORDS);
    LongerWords(message);
    assert NOT_FOUND_WORDS[0] == "does not exist" && NOT_FOUND_WORDS[1] == "not found";
    assert NOT_FOUND_WORDS[2] == "could not be found" && NOT_FOUND_WORDS[3] == "no such user";
  }

  lemma WrongPasswordWords(message: string)
    ensures Contains(Lower(message), "password") && ContainsAny(Lower(message), ["invalid", "incorrect", "wrong"])
            <==> SaysWrongPassword(message)
  {
    hide Contains, Mentions;
    var words := ["invalid", "incorrect", "wrong"];
    AnyMentioned(message, words);
    LowerMentions(message, "password");
    assert words[0] == "invalid" && words[1] == "incorrect" && words[2] == "wrong";
  }

  /** An account counts as gone, and is wiped, on code 208 only where the message says so and says nothing of an
      address in use, a billing cycle or a wrong password; on other codes only on an error that names it. */
  lemma GoneExactlyWhen(env: Envelope)
    ensures EmailNotFound(env) <==>
              if env.code == Some(208) then
                && SaysGone(env.message) && !SaysTaken(env.message) && !SaysBilling(env.message)
                && !SaysWrongPassword(env.message)
              else Reads(env.status, "error") && Mentions(env.message, "does not exist")
  {
    hide Contains, ContainsAny, Mentions, Lower, Reads, EmailAlreadyRegistered, BillingUnavailable, SaysGone;
    hide SaysWrongPassword;
    TakenExactlyWhen(env);
    GoneWords(env.message);
    WrongPasswordWords(env.message);
    LowerReads(env.status, "error");
    LowerMentions(env.message, "does not exist");
  }

  predicate SaysPassword(message: string) {
    || Mentions(message, "password") || Mentions(message, "passwd") || Mentions(message, "credential")
    || Mentions(message, "login") || Mentions(message, "auth")
  }

  predicate SaysNotValid(message: string) {
    || Mentions(message, "invalid password") || Mentions(message, "incorrect password")
    || Mentions(message, "wrong password") || Mentions(message, "invalid passwd")
    || Mentions(message, "authentication failed")
  }

  lemma PasswordWords(message: string)
    ensures ContainsAny(Lower(message), ["password", "passwd", "credential", "login", "auth"])
            <==> SaysPassword(message)
  {
    hide Contains, Mentions;
    var words := ["password", "passwd", "credential", "login", "auth"];
    AnyMentioned(message, words);
    assert words[0] == "password" && words[1] == "passwd" && words[2] == "credential" && words[3] == "login";
    assert words[4] == "auth";
  }

  lemma NotValidWords(message: string)
    ensures ContainsAny(Lower(message), ["invalid password", "incorrect password", "wrong password",
                                         "invalid passwd", "authentication failed"])
            <==> SaysNotValid(message)
  {
    hide Contains, Mentions;
    var words := ["invalid password", "incorrect password", "wrong password", "invalid passwd",
                  "authentication failed"];
    AnyMentioned(message, words);
    assert words[0] == "invalid password" && words[1] == "incorrect password" && words[2] == "wrong password";
    assert words[3] == "invalid passwd" && words[4] == "authentication failed";
  }

  /** A password counts as wrong, and another identity is registered, unless code 208 is about an address in use
      or a billing cycle: on that code on any mention of credentials, otherwise only where it is said outright. */
  lemma WrongPasswordExactlyWhen(env: Envelope)
    ensures InvalidPassword(env) <==>
              && !(env.code == Some(208) && (SaysTaken(env.message) || SaysBilling(env.message)))
              && ((env.code == Some(208) && SaysPassword(env.message)) || SaysNotValid(env.message))
  {
    hide Contains, ContainsAny, Mentions, Lower, EmailAlreadyRegistered, BillingUnavailable, SaysPassword;
    hide SaysNotValid;
    TakenExactlyWhen(env);
    PasswordWords(env.message);
    NotValidWords(env.message);
  }

  /** A service counts as missing when the error says "not found". */
  lemma MissingExactlyWhen(error: Thrown)
    ensures SaysNotFound(error) <==> Mentions(error.message, "not found")
  {
    hide Contains, Mentions;
    var words := ["service not found", "not found"];
    AnyMentioned(error.message, words);
    PartIsMentioned(error.message, "service not found", "not found", 8);
    assert words[0] == "service not found" && words[1] == "not found";
  }

  // ---------------------------------------------------------------- cells and links

  predicate HoldsNumber(cell: Cell) {
    cell.Number? || cell.NumericText?
  }

  /** The service an invoice row names: the number in the first of its three columns that holds one, if that is
      positive. */
  function NamedService(row: InvoiceRow): Option<int> {
    var cell := if HoldsNumber(row.serviceid) then row.serviceid
                else if HoldsNumber(row.service_id) then row.service_id else row.sid;
    if HoldsNumber(cell) && cell.n > 0 then Some(cell.n) else None
  }

  lemma ServiceIsNamed(row: InvoiceRow)
    ensures ServiceIdOfRow(row) == NamedService(row)
  {
    SkipsText(row.sid, []);
    SkipsText(row.service_id, [row.sid]);
    SkipsText(row.serviceid, [row.service_id, row.sid]);
    assert [row.service_id] + [row.sid] == [row.service_id, row.sid];
    assert [row.sid] + [] == [row.sid];
    assert [row.serviceid] + [row.service_id, row.sid] == [row.serviceid, row.service_id, row.sid];
  }

  lemma SkipsText(cell: Cell, rest: seq<Cell>)
    ensures FirstServiceId([cell] + rest) == if !HoldsNumber(cell) then FirstServiceId(rest)
                                             else if cell.n > 0 then Some(cell.n) else None
  {
    assert ([cell] + rest)[1..] == rest;
  }

  /** Where a service's link is looked for: at the top, under data, and at the first server. */
  function Places(info: ServiceBody): seq<string> {
    info.links + info.nestedLinks + if info.serverUris == [] then [] else [info.serverUris[0]]
  }

  predicate IsFirstLink(places: seq<string>, link: string) {
    exists k :: 0 <= k < |places| && places[k] == link && link !in {"", "0"}
                && forall j :: 0 <= j < k ==> places[j] in {"", "0"}
  }

  lemma {:induction false} FirstIsFirst(texts: seq<string>)
    ensures var r := FirstNonEmpty(texts);
            if r.Some? then IsFirstLink(texts, r.value) else forall k :: 0 <= k < |texts| ==> texts[k] in {"", "0"}
  {
    if texts != [] && PhpEmpty(texts[0]) {
      FirstIsFirst(texts[1..]);
      var r := FirstNonEmpty(texts[1..]);
      if r.Some? {
        var k :| 0 <= k < |texts[1..]| && texts[1..][k] == r.value && r.value !in {"", "0"}
                 && forall j :: 0 <= j < k ==> texts[1..][j] in {"", "0"};
        assert texts[k + 1] == r.value;
        assert forall j :: 1 <= j < k + 1 ==> texts[j] == texts[1..][j - 1];
      } else {
        assert forall k :: 1 <= k < |texts| ==> texts[k] == texts[1..][k - 1];
      }
    }
  }

  lemma FirstInTurn(a: seq<string>, b: seq<string>)
    ensures FirstNonEmpty(a + b) == if FirstNonEmpty(a).Some? then FirstNonEmpty(a) else FirstNonEmpty(b)
  {
    if a == [] {
      assert a + b == b;
    } else {
      assert (a + b)[1..] == a[1..] + b;
      FirstInTurn(a[1..], b);
    }
  }

  predicate HasLinkIn(info: ServiceBody) {
    exists k :: 0 <= k < |Places(info)| && Places(info)[k] !in {"", "0"}
  }

  /** A service's link is the first text that is not empty, and it has none if there is no such text. */
  lemma LinkIsFirst(info: ServiceBody)
    ensures var r := LinkOfService(info);
            if r.Some? then IsFirstLink(Places(info), r.value)
            else !HasLinkIn(info)
    ensures LinkOfService(info).Some? ==> HasLinkIn(info)
  {
    var server := if info.serverUris == [] then [] else [info.serverUris[0]];
    FirstInTurn(info.links + info.nestedLinks, server);
    FirstInTurn(info.links, info.nestedLinks);
    assert info.serverUris[..if info.serverUris == [] then 0 else 1] == server;
    FirstIsFirst(Places(info));
  }
}
