/** Getting a panel account for a purchase: the stored one, a new one, or a recovered one. */
module Accounts {
  import opened Text
  import opened Numbers
  import opened Panel
  import opened Tally
  import opened Credentials

  datatype CredResult = Ready(creds: Creds) | Restart | NoCredentials

  function RegisterLimit(allow: bool): int {
    if allow then ALTERNATE_ATTEMPTS else 1
  }

  /** Counts that nothing but registering and wiping has moved. */
  predicate OnlyCredentials(d: seq<Event>, registers: int, clears: int) {
    var s := SumOf(d);
    && 0 <= s.registers <= registers && s.clears == clears
    && s.invoices == 0 && s.ids == 0 && s.marks == 0 && s.wrong == 0
  }

  function FromRecovery(recovered: Recovery): CredResult {
    match recovered
    case Recovered(creds) => Ready(creds)
    case ClearAndRestart => Restart
    case NothingToRecover => NoCredentials
    case RecoveryThrew => NoCredentials
  }

  /** The registration of the standing address. `stored` is a password the shop can still read; `allow`
      is off on a restart, where a taken address does not stop the flow. */
  predicate RegisterRun(d: seq<Event>, email: string, sendCode: bool, stored: string, allow: bool, r: CredResult) {
    var n := if sendCode then 1 else 0;
    && (sendCode ==> d != [] && d[0].CodeSent? && d[0].email == email)
    && if sendCode && d[0].sent.Threw? then |d| == 1 && r.NoCredentials?
       else
         && |d| == n + 1 && d[n].RegisterTried? && d[n].creds.email == email
         && r == match d[n].registered
                 case Threw(_) => NoCredentials
                 case Got(reply) =>
                   if ApiOk(reply) then Ready(d[n].creds)
                   else if !EmailAlreadyRegistered(reply.env) then NoCredentials
                   else if stored != "" then Ready(Creds(email, stored))
                   else if allow then NoCredentials
                   else Ready(d[n].creds)
  }

  ghost predicate CredentialsRun(d: seq<Event>, env: Env, stored: Stored, allow: bool, r: CredResult) {
    if stored.email == "" then
      RegisterRun(d, MainEmail(stored.idText, env), env.sendCode, stored.password, allow, r)
    else if stored.password != "" then d == [] && r == Ready(Creds(stored.email, stored.password))
    else exists recovered :: RecoverRun(d, stored.email, env.domain, recovered) && r == FromRecovery(recovered)
  }

  /** The first half of doNewPurchase. Restarting is allowed once; the second pass starts from a user
      without an address. Its register call may answer "already registered", and then the flow goes on with
      the password left in the row, or else with the one it has just made up and has stored nowhere. */
  method EnsureCredentials(api: Api, env: Env, user: User, allow: bool) returns (r: CredResult, ghost d: seq<Event>)
    requires !user.stale && (!allow ==> user.email == "")
    requires api.IsFaithful()
    modifies api, user
    ensures api.IsFaithful() && api.log == old(api.log) + d
    ensures OnlyCredentials(d, RegisterLimit(allow), if r.Restart? then 1 else 0)
    ensures forall c :: AllActAs(d, c)
    ensures r.Restart? ==>
              && allow && StoredOf(user) == Cleared(old(StoredOf(user))) && !user.stale
              && SumOf(d).registers == 0 && SinceClear(d) == []
    ensures r.Ready? && allow ==> user.Holds(r.creds)
    ensures r.Ready? && !allow ==> (user.Holds(r.creds) <==> !AnyTaken(d) || old(StoredOf(user)).password != "")
    ensures IsComplete(old(StoredOf(user))) ==>
              d == [] && r == Ready(Creds(old(user.email), old(StoredOf(user)).password))
    ensures r.Ready? ==> r.creds.email != "" && (user.Holds(r.creds) || user.email == "")
    ensures r.Ready? ==> (user.stale <==> IsMissing(old(StoredOf(user))))
    ensures r.Ready? && user.stale ==> SumOf(d).registers > 0
    ensures SumOf(d).registers == 0 && !r.Restart? ==> StoredOf(user) == old(StoredOf(user))
    ensures r.NoCredentials? ==> StoredOf(user) == old(StoredOf(user))
    ensures allow && old(user.IsCleared()) && AnyTaken(d) ==> r.NoCredentials?
    ensures CredentialsRun(d, env, old(StoredOf(user)), allow, r)
    // Nobody is ever registered under the address of another user.
    ensures RegistersAs(d, user.idText, env)
  {
    hide EmailAlreadyRegistered, ApiOk, AllActAs, SumOf, Rehydrated, SinceClear, MainEmail, RecoverRun, RegisterRun;
    hide IsMain, IsAlternate;
    RehydratedTwice(user.password, user.recoverable);
    d := [];
    EmptySegment();
    if user.email == "" {
      r, d := RegisterMain(api, env, user, allow);
    } else {
      var email := user.email;
      var password := ResolvePassword(user);
      if password == "" && allow {
        var recovered;
        recovered, d := RecoverMissing(api, env, user, email);
        if recovered.ClearAndRestart? {
          ClearedAtEnd(d);
        }
        return FromRecovery(recovered), d;
      }
      r := if password == "" then NoCredentials else Ready(Creds(email, password));
    }
  }

  /** A register call that was turned down because the address exists already. */
  predicate RefusedAsTaken(e: Event) {
    WasTaken(e) && !ApiOk(e.registered.body)
  }

  predicate AnyTaken(d: seq<Event>) {
    exists k :: 0 <= k < |d| && RefusedAsTaken(d[k])
  }

  lemma ClearedAtEnd(d: seq<Event>)
    requires d != [] && d[|d| - 1].CredentialsCleared?
    ensures SinceClear(d) == []
  {
  }

  lemma MainEmailIsSet(idText: string, env: Env)
    ensures MainEmail(idText, env) != ""
  {
  }

  /** A user without a stored address registers the standing one. */
  method RegisterMain(api: Api, env: Env, user: User, allow: bool) returns (r: CredResult, ghost d: seq<Event>)
    requires user.email == "" && !user.stale
    requires api.IsFaithful()
    modifies api, user
    ensures api.IsFaithful() && api.log == old(api.log) + d
    ensures OnlyCredentials(d, 1, 0)
    ensures forall c :: AllActAs(d, c)
    ensures !r.Restart?
    ensures r.Ready? && allow ==> user.Holds(r.creds)
    ensures r.Ready? && !allow ==> (user.Holds(r.creds) <==> !AnyTaken(d) || old(StoredOf(user)).password != "")
    ensures r.Ready? ==> !user.stale && r.creds.email != "" && (user.Holds(r.creds) || user.email == "")
    ensures SumOf(d).registers == 0 || r.NoCredentials? ==> StoredOf(user) == old(StoredOf(user))
    ensures allow && old(user.IsCleared()) && AnyTaken(d) ==> r.NoCredentials?
    ensures RegisterRun(d, MainEmail(user.idText, env), env.sendCode, old(StoredOf(user).password), allow, r)
    ensures RegistersAs(d, user.idText, env)
  {
    hide EmailAlreadyRegistered, ApiOk, AllActAs, SumOf, MainEmail, Rehydrated, IsMain, IsAlternate;
    AddressesAreOwn(user.idText, "", env);
    RehydratedTwice(user.password, user.recoverable);
    var email := MainEmail(user.idText, env);
    MainEmailIsSet(user.idText, env);
    var creds := Creds(email, env.secret(|api.log|));
    d := [];
    EmptySegment();
    if env.sendCode {
      var sent := api.SendCode(email);
      d := [CodeSent(email, sent)];
      OneRegistering(d[0]);
      if sent.Threw? {
        return NoCredentials, d;
      }
    }
    var reg := api.Register(creds);
    ghost var tried := RegisterTried(creds, reg);
    ghost var before := d;
    AddRegistering(d, tried);
    d := d + [tried];
    assert before == [] || (|before| == 1 && d[0] == before[0] && d[0].CodeSent?);
    assert d[|before|] == tried;
    if reg.Threw? {
      return NoCredentials, d;
    }
    if ApiOk(reg.body) {
      user.Save(creds);
      return Ready(creds), d;
    }
    if !EmailAlreadyRegistered(reg.body.env) {
      return NoCredentials, d;
    }
    assert RefusedAsTaken(d[|before|]);
    var existing := ResolvePassword(user);
    if existing != "" {
      user.Save(Creds(email, existing));
      return Ready(Creds(email, existing)), d;
    }
    if allow {
      // Nothing is stored under this user, so recovery finds nothing and the source throws.
      return NoCredentials, d;
    }
    r := Ready(creds);
  }

  const TAKEN := ApiBody(Envelope(Some(208), "error", "already registered"), NoId, NoId)

  lemma TakenMessage()
    ensures Contains(Lower(TAKEN.env.message), "already registered")
  {
    var message := "already registered";
    LowerCaseStays(message);
    assert message[..|message|] == message;
  }

  lemma TakenIsTaken()
    ensures EmailAlreadyRegistered(TAKEN.env) && !ApiOk(TAKEN)
  {
    hide Contains;
    TakenMessage();
    var words := ["already registered", "already been registered"];
    assert Contains(Lower(TAKEN.env.message), words[0]);
    LowerCaseStays(TAKEN.env.status);
  }

  lemma OneRegistering(e: Event)
    requires IsRegistering(e)
    ensures SumOf([e]) == ZERO.(registers := One(e.RegisterTried?)) && forall c :: AllActAs([e], c)
  {
    hide SumOf, SumOfEvent;
    SumOfOne(e);
    SumOfPlainEvent(e);
  }

  lemma AddRegistering(d: seq<Event>, e: Event)
    requires SumOf(d) == ZERO && (forall c :: AllActAs(d, c)) && IsRegistering(e)
    ensures SumOf(d + [e]) == ZERO.(registers := One(e.RegisterTried?)) && forall c :: AllActAs(d + [e], c)
  {
    hide SumOf, SumOfEvent, AllActAs;
    SumOfAppend(d, e);
    SumOfPlainEvent(e);
    OneRegistering(e);
    forall c
      ensures AllActAs(d + [e], c)
    {
      ActAsConcat(d, [e], c);
    }
  }
}
