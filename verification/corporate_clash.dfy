/** The Corporate Clash integration of code/game/corporate_clash.py: the
    request headers, the two login handlers (`process_offline` against the
    login API, `process_lt` against the token API), token revocation, the
    launch environment, and the patcher's manifest parser.

    The handlers change the game object's account record, its token and its
    `account_needs_change` flag; those fields, with the number of requests
    sent so far, are the integration's session. The servers' replies and
    what the user types at the password prompt are parameters. */
module CorporateClash {
  import opened Values
  import opened LoginDriver
  import opened Patching

  const UserAgent: string := "Toony Linux 0.2.1 by Wizzerinus"

  /** The start of Cloudflare's challenge page, lower-cased. */
  const CloudflareCaptcha: string := "<!doctype html><html lang=\"en-us\"><head><title>just a moment...</title>"

  /** `get_headers`: the given headers plus the launcher's user agent, which
      wins over a supplied one. */
  function GetHeaders(extra: map<string, string>): (r: map<string, string>)
    ensures r.Keys == extra.Keys + {"user-agent"}
    ensures r["user-agent"] == UserAgent
    ensures forall k :: k in extra && k != "user-agent" ==> r[k] == extra[k]
  {
    extra["user-agent" := UserAgent]
  }

  /** The fields of a `CorporateClash` object that the handlers change, and
      the number of requests sent so far. `forceAccount` is the class's
      `force_account` (the empty string until a toon slot is forced). */
  datatype ClashSession = ClashSession(
    account: map<string, Value>,
    token: Value,
    needsChange: bool,
    forceAccount: Value,
    sent: nat)

  /** A freshly constructed game object for `account`. */
  function NewSession(account: map<string, Value>): (s: ClashSession)
    ensures s.account == account && !Truthy(s.token) && !s.needsChange && s.sent == 0
    ensures s.forceAccount == Str("")
  {
    ClashSession(account, Nil, false, Str(""), 0)
  }

  /** The outside world of one login: the login API's reply to the n-th
      request, sent with a given token; the token API's reply to the n-th
      request, sent with a given password; what the user types when asked
      for a password; and the configured game server. */
  datatype World = World(
    loginApi: (Value, nat) -> Reply,
    tokenApi: (Value, nat) -> Reply,
    typed: string,
    gameserver: string)

  // ---------------------------------------------------------------------
  // process_offline

  /** The reply `process_offline` classifies: a JSON object with no truthy
      `bad_token`, and a `status` key. */
  predicate Judged(f: map<string, Value>)
  {
    !TruthyAt(f, "bad_token") && "status" in f
  }

  /** `process_offline`: logs in with the stored token. */
  function ProcessOffline(w: World, s: ClashSession): (r: (ClashSession, StepResult))
    // with no token, the token step comes next and nothing is sent
    ensures !Truthy(s.token) ==> r == (s, Next(LoginToken, Bool(true)))
    ensures Truthy(s.token) ==> r.0.sent == s.sent + 1
    ensures r.0.token == s.token && r.0.forceAccount == s.forceAccount
    // a body that is not JSON never raises: it retries, unless it is the
    // Cloudflare challenge page and not a rate-limit answer
    ensures Truthy(s.token) && w.loginApi(s.token, s.sent).NotJson? ==>
      var reply := w.loginApi(s.token, s.sent);
      r.1 == Next(Offline, Bool(reply.status == 429 || !StartsWith(Lower(reply.text), CloudflareCaptcha)))
    // a revoked token is dropped from the account, which is marked for
    // saving, whatever else the reply says
    ensures Truthy(s.token) && w.loginApi(s.token, s.sent).Json? && TruthyAt(w.loginApi(s.token, s.sent).fields, "bad_token") ==>
      if "token" in s.account then
        r.0.account == s.account - {"token"} && r.0.needsChange && r.1 == Next(Rejected, Bool(false))
      else r.0.account == s.account && r.1 == Raise(KeyError("token"))
    // no other reply changes the account
    ensures !(Truthy(s.token) && w.loginApi(s.token, s.sent).Json? && TruthyAt(w.loginApi(s.token, s.sent).fields, "bad_token")) ==>
      r.0.account == s.account && r.0.needsChange == s.needsChange
    // Online exactly on a judged reply with a truthy status, with its token as the payload
    ensures r.1.Next? && r.1.state == Online <==>
      && Truthy(s.token) && w.loginApi(s.token, s.sent).Json?
      && var f := w.loginApi(s.token, s.sent).fields;
         Judged(f) && Truthy(f["status"]) && "token" in f
    ensures r.1.Next? && r.1.state == Online ==> r.1.data == w.loginApi(s.token, s.sent).fields["token"]
    // a two-factor answer is a rejection, checked before the message
    ensures Truthy(s.token) && w.loginApi(s.token, s.sent).Json? ==>
      var f := w.loginApi(s.token, s.sent).fields;
      Judged(f) && !Truthy(f["status"]) && TruthyAt(f, "toonstep") ==> r.1 == Next(Rejected, Bool(false))
    // the only JSON retry is the "too many toons" message
    ensures Truthy(s.token) && w.loginApi(s.token, s.sent).Json? ==>
      var f := w.loginApi(s.token, s.sent).fields;
      (r.1 == Next(Offline, Bool(true)) <==>
         Judged(f) && !Truthy(f["status"]) && !TruthyAt(f, "toonstep") && "message" in f
         && In("A lot of Toons", f["message"]) == Ok(true))
    // the token step comes next exactly when there is no token, and nothing queues
    ensures r.1 == Next(LoginToken, Bool(true)) <==> !Truthy(s.token)
    ensures r.1.Next? ==> r.1.state != Queue
    ensures r.1.Next? && r.1.state == Rejected ==> r.1.data == Bool(false)
    // the keys it reads are missing: KeyError
    ensures Truthy(s.token) && w.loginApi(s.token, s.sent).Json? ==>
      var f := w.loginApi(s.token, s.sent).fields;
      && (!TruthyAt(f, "bad_token") && "status" !in f ==> r.1 == Raise(KeyError("status")))
      && (Judged(f) && Truthy(f["status"]) && "token" !in f ==> r.1 == Raise(KeyError("token")))
      && (Judged(f) && !Truthy(f["status"]) && !TruthyAt(f, "toonstep") && "message" !in f ==>
            r.1 == Raise(KeyError("message")))
    // any other message rejects, and one `in` cannot look into raises
    ensures Truthy(s.token) && w.loginApi(s.token, s.sent).Json? ==>
      var f := w.loginApi(s.token, s.sent).fields;
      Judged(f) && !Truthy(f["status"]) && !TruthyAt(f, "toonstep") && "message" in f ==>
        match In("A lot of Toons", f["message"])
        case Ok(tooMany) => r.1 == Next(if tooMany then Offline else Rejected, Bool(tooMany))
        case Err(e) => r.1 == Raise(e)
  {
    if !Truthy(s.token) then (s, Next(LoginToken, Bool(true)))
    else
      var s1 := s.(sent := s.sent + 1);
      match w.loginApi(s.token, s.sent)
      case NotJson(status, text) =>
        if status == 429 then (s1, Next(Offline, Bool(true)))
        else if StartsWith(Lower(text), CloudflareCaptcha) then (s1, Next(Offline, Bool(false)))
        else (s1, Next(Offline, Bool(true)))
      case Json(f) =>
        if TruthyAt(f, "bad_token") then
          if "token" !in s1.account then (s1, Raise(KeyError("token")))
          else (s1.(account := s1.account - {"token"}, needsChange := true), Next(Rejected, Bool(false)))
        else if "status" !in f then (s1, Raise(KeyError("status")))
        else if Truthy(f["status"]) then
          if "token" !in f then (s1, Raise(KeyError("token"))) else (s1, Next(Online, f["token"]))
        else if TruthyAt(f, "toonstep") then (s1, Next(Rejected, Bool(false)))
        else if "message" !in f then (s1, Raise(KeyError("message")))
        else match In("A lot of Toons", f["message"])
          case Err(e) => (s1, Raise(e))
          case Ok(tooMany) => (s1, if tooMany then Next(Offline, Bool(true)) else Next(Rejected, Bool(false)))
  }

  // ---------------------------------------------------------------------
  // process_lt

  /** The password `process_lt` uses: the one stored in the account, or else
      what the user types. */
  function LtPassword(w: World, s: ClashSession): Value
  {
    if "password" in s.account then s.account["password"] else Str(w.typed)
  }

  /** Python's `'%d' % v` accepts an int (a bool is one) and raises a
      TypeError on anything else. */
  predicate FormatsAsInt(v: Value)
  {
    v.Num? || v.Bool?
  }

  /** A token API reply that grants a token. */
  predicate Grants(reply: Reply)
  {
    reply.Json? && TruthyAt(reply.fields, "status") && "token" in reply.fields
  }

  /** `process_lt`: trades the password for a login token. */
  function ProcessLt(w: World, s: ClashSession): (r: (ClashSession, StepResult))
    // an empty password rejects without a request
    ensures !Truthy(LtPassword(w, s)) ==> r == (s, Next(Rejected, Bool(false)))
    ensures Truthy(LtPassword(w, s)) ==> r.0.sent == s.sent + 1
    // success exactly on a granting reply: the token is stored in the
    // account and on the object, the password dropped from the account,
    // and the account marked for saving; login starts over from Offline
    ensures r.1 == Next(Offline, Bool(true)) <==>
      Truthy(LtPassword(w, s)) && Grants(w.tokenApi(LtPassword(w, s), s.sent))
    ensures r.1 == Next(Offline, Bool(true)) ==>
      var t := w.tokenApi(LtPassword(w, s), s.sent).fields["token"];
      && r.0.account == s.account["token" := t] - {"password"}
      && r.0.token == t && r.0.needsChange
    ensures r.1 != Next(Offline, Bool(true)) ==>
      r.0.account == s.account && r.0.token == s.token && r.0.needsChange == s.needsChange
    ensures r.0.forceAccount == s.forceAccount
    ensures r.1.Next? ==> r.1 == Next(Offline, Bool(true)) || r.1 == Next(Rejected, Bool(false))
    // a reply that is no JSON object raises the decoder's error
    ensures Truthy(LtPassword(w, s)) && w.tokenApi(LtPassword(w, s), s.sent).NotJson? ==>
      r.1 == Raise(JsonDecodeError)
    // the keys a reply is read by, and the two-factor and failure messages
    // that `%d` formats, decide how a login that got no token ends
    ensures Truthy(LtPassword(w, s)) && w.tokenApi(LtPassword(w, s), s.sent).Json? ==>
      var f := w.tokenApi(LtPassword(w, s), s.sent).fields;
      && ("status" !in f ==> r.1 == Raise(KeyError("status")))
      && ("status" in f && Truthy(f["status"]) && "token" !in f ==> r.1 == Raise(KeyError("token")))
      && ("status" in f && !Truthy(f["status"]) && TruthyAt(f, "toonstep") ==>
            r.1 == if "id" !in f then Raise(KeyError("id"))
                   else if FormatsAsInt(f["id"]) then Next(Rejected, Bool(false))
                   else Raise(TypeError))
      && ("status" in f && !Truthy(f["status"]) && !TruthyAt(f, "toonstep") ==>
            r.1 == if "message" !in f then Raise(KeyError("message"))
                   else if "reason" !in f then Raise(KeyError("reason"))
                   else if FormatsAsInt(f["reason"]) then Next(Rejected, Bool(false))
                   else Raise(TypeError))
  {
    var password := LtPassword(w, s);
    if !Truthy(password) then (s, Next(Rejected, Bool(false)))
    else
      var s1 := s.(sent := s.sent + 1);
      match w.tokenApi(password, s.sent)
      case NotJson(_, _) => (s1, Raise(JsonDecodeError))
      case Json(f) =>
        if "status" !in f then (s1, Raise(KeyError("status")))
        else if !Truthy(f["status"]) then
          if TruthyAt(f, "toonstep") then
            if "id" !in f then (s1, Raise(KeyError("id")))
            else if !FormatsAsInt(f["id"]) then (s1, Raise(TypeError))
            else (s1, Next(Rejected, Bool(false)))
          else if "message" !in f then (s1, Raise(KeyError("message")))
          else if "reason" !in f then (s1, Raise(KeyError("reason")))
          else if !FormatsAsInt(f["reason"]) then (s1, Raise(TypeError))
          else (s1, Next(Rejected, Bool(false)))
        else if "token" !in f then (s1, Raise(KeyError("token")))
        else
          var t := f["token"];
          (s1.(account := s1.account["token" := t] - {"password"}, token := t, needsChange := true),
           Next(Offline, Bool(true)))
  }

  /** The game's handlers: `process_offline` and `process_lt`. Queue falls
      back to `Game.process_queued`, and Online and Rejected have none; the
      driver calls `handle` only for the states `defines` names.
      `start_game` never raises. */
  function Clash(w: World): Integration<ClashSession>
  {
    Integration(
      st => st == Offline || st == LoginToken,
      (s, st, a) => if st == Offline then ProcessOffline(w, s) else ProcessLt(w, s),
      (s, data) => Ok(StartGameEnv(w.gameserver, data, s)))
  }

  /** `CorporateClash.login`: forces the toon slot unless it is the number
      6 (the default, `Num(6)`; the shell's `toon_position=6` is the string
      "6" and does force it), takes the given token (the empty string by
      default) and a password (the empty string when none is given), then
      runs `Game.login`. */
  method Login(game: Game<ClashSession>, w: World, login: string, token: Value, toonPosition: Value,
               password: Option<Value>) returns (r: Outcome)
    modifies game
    ensures game.username == Some(login)
    ensures game.password == if password.Some? then password.value else Str("")
    ensures var start := old(game.session).(
        token := token,
        forceAccount := if toonPosition != Num(6) then toonPosition else old(game.session).forceAccount);
      var run := Drive(Clash(w), start, Offline, Nil, MaxSteps);
      && r == run.outcome && game.session == run.session && game.state == run.state
      && game.launched == (if run.launched.Some? then run.launched else old(game.launched))
  {
    var s := game.session;
    if toonPosition != Num(6) {
      s := s.(forceAccount := toonPosition);
    }
    game.session := s.(token := token);
    r := game.Login(login, if password.Some? then password.value else Str(""), Clash(w));
  }

  /** `start_game`'s environment: the configured game server, the play
      cookie the login produced, and the forced toon slot. */
  function StartGameEnv(gameserver: string, data: Value, s: ClashSession): (env: map<string, Value>)
    ensures env.Keys == {"TT_GAMESERVER", "TT_PLAYCOOKIE", "FORCE_TOON_SLOT"}
    ensures env["TT_GAMESERVER"] == Str(gameserver)
    ensures env["TT_PLAYCOOKIE"] == data && env["FORCE_TOON_SLOT"] == s.forceAccount
  {
    map["TT_GAMESERVER" := Str(gameserver), "TT_PLAYCOOKIE" := data, "FORCE_TOON_SLOT" := s.forceAccount]
  }

  // ---------------------------------------------------------------------
  // Whole logins

  /** A first login: no token is stored, so the token step asks for the
      password, trades it for a token, and the login with that token
      launches the game with the configured server, the cookie the login API
      sent and the session's toon slot. Three handler calls; the account
      keeps the new token and no password, and is marked for saving. */
  lemma FreshTokenLogin(w: World, s: ClashSession)
    requires !Truthy(s.token) && "password" !in s.account && w.typed != ""
    requires Grants(w.tokenApi(Str(w.typed), s.sent))
    requires var t := w.tokenApi(Str(w.typed), s.sent).fields["token"];
      && Truthy(t) && w.loginApi(t, s.sent + 1).Json?
      && var f := w.loginApi(t, s.sent + 1).fields;
         Judged(f) && Truthy(f["status"]) && "token" in f
    ensures var t := w.tokenApi(Str(w.typed), s.sent).fields["token"];
      var run := Drive(Clash(w), s, Offline, Nil, MaxSteps);
      && |run.calls| == 3
      && run.outcome == Returned(true)
      && run.launched == Some(map["TT_GAMESERVER" := Str(w.gameserver),
                                  "TT_PLAYCOOKIE" := w.loginApi(t, s.sent + 1).fields["token"],
                                  "FORCE_TOON_SLOT" := s.forceAccount])
      && run.session.account == s.account["token" := t]
      && run.session.token == t && run.session.needsChange
      && run.session.sent == s.sent + 2
  {
    var g := Clash(w);
    var t := w.tokenApi(Str(w.typed), s.sent).fields["token"];
    TokenGranted(w, s);
    var s1 := s.(account := s.account["token" := t], token := t, needsChange := true, sent := s.sent + 1);
    LoggedInWithToken(w, s1);
    var run2 := Drive(g, s1, Offline, Bool(true), MaxSteps - 2);
    assert run2.calls == [Call(Offline, NoArg, Next(Online, w.loginApi(t, s.sent + 1).fields["token"]))];
    var run1 := Drive(g, s, LoginToken, Bool(true), MaxSteps - 1);
    assert run1.calls == [Call(LoginToken, Prev(Bool(true)), Next(Offline, Bool(true)))] + run2.calls;
  }

  /** `process_lt` with a typed password the token API accepts: the token
      is stored and login starts over from Offline. */
  lemma TokenGranted(w: World, s: ClashSession)
    requires "password" !in s.account && w.typed != ""
    requires Grants(w.tokenApi(Str(w.typed), s.sent))
    ensures var t := w.tokenApi(Str(w.typed), s.sent).fields["token"];
      ProcessLt(w, s) == (s.(account := s.account["token" := t], token := t, needsChange := true, sent := s.sent + 1),
                          Next(Offline, Bool(true)))
  {
    var t := w.tokenApi(Str(w.typed), s.sent).fields["token"];
    assert s.account["token" := t] - {"password"} == s.account["token" := t];
  }

  /** `process_offline` with a token the login API accepts goes Online with
      the play cookie. */
  lemma LoggedInWithToken(w: World, s: ClashSession)
    requires Truthy(s.token) && w.loginApi(s.token, s.sent).Json?
    requires var f := w.loginApi(s.token, s.sent).fields;
      Judged(f) && Truthy(f["status"]) && "token" in f
    ensures ProcessOffline(w, s) ==
      (s.(sent := s.sent + 1), Next(Online, w.loginApi(s.token, s.sent).fields["token"]))
  {
  }

  /** A token whose every login attempt is answered with a rate-limit page
      spends the whole step budget: `fuel` requests, and a false result. */
  lemma {:induction false} RateLimitedForever(w: World, s: ClashSession, state: LoginState, data: Value, fuel: nat)
    requires Truthy(s.token) && state == Offline
    requires forall n :: w.loginApi(s.token, n).NotJson? && w.loginApi(s.token, n).status == 429
    ensures var run := Drive(Clash(w), s, state, data, fuel);
      && |run.calls| == fuel && run.outcome == Returned(false) && run.launched == None
      && run.session.sent == s.sent + fuel && run.session.account == s.account
    decreases fuel
  {
    if fuel > 0 {
      var s1 := ProcessOffline(w, s).0;
      RateLimitedForever(w, s1, Offline, Bool(true), fuel - 1);
    }
  }

  /** A revoked token ends the login at once with a false result; the token
      is gone from the account, which is marked for saving. */
  lemma RevokedTokenLogin(w: World, s: ClashSession)
    requires Truthy(s.token) && "token" in s.account
    requires w.loginApi(s.token, s.sent).Json? && TruthyAt(w.loginApi(s.token, s.sent).fields, "bad_token")
    ensures var run := Drive(Clash(w), s, Offline, Nil, MaxSteps);
      && |run.calls| == 1 && run.outcome == Returned(false) && run.state == Rejected
      && "token" !in run.session.account && run.session.needsChange
  {
    var (s1, res) := ProcessOffline(w, s);
    assert res == Next(Rejected, Bool(false)) && s1.account == s.account - {"token"} && s1.needsChange;
    assert Dispatch(Clash(w), s, Offline, Nil) == (s1, res);
    assert LaunchDecision(Rejected, Bool(false)) == Some(false);
  }

  // ---------------------------------------------------------------------
  // Revoking a token

  /** `revoke_token`: `None` for an empty token (nothing is sent), else what
      the login API says about it, `n` being the number of requests sent
      before. */
  function RevokeToken(w: World, token: Value, n: nat): (r: Result<Option<bool>>)
    ensures r == Ok(None) <==> !Truthy(token)
    ensures r == Ok(Some(true)) <==>
      && Truthy(token) && w.loginApi(token, n).Json?
      && var f := w.loginApi(token, n).fields;
         !TruthyAt(f, "bad_token") && TruthyAt(f, "success")
    ensures r == Ok(Some(false)) <==>
      && Truthy(token) && w.loginApi(token, n).Json?
      && var f := w.loginApi(token, n).fields;
         TruthyAt(f, "bad_token") || ("success" in f && !Truthy(f["success"]))
    ensures r.Err? <==>
      && Truthy(token)
      && (w.loginApi(token, n).NotJson?
          || (!TruthyAt(w.loginApi(token, n).fields, "bad_token") && "success" !in w.loginApi(token, n).fields))
    ensures r.Err? ==> r.exc == if w.loginApi(token, n).NotJson? then JsonDecodeError else KeyError("success")
  {
    if !Truthy(token) then Ok(None)
    else match w.loginApi(token, n)
      case NotJson(_, _) => Err(JsonDecodeError)
      case Json(f) =>
        if TruthyAt(f, "bad_token") then Ok(Some(false))
        else if "success" !in f then Err(KeyError("success"))
        else Ok(Some(Truthy(f["success"])))
  }

  // ---------------------------------------------------------------------
  // ClashPatcher

  /** A manifest file as fetched: the status code and the body, which is
      either not JSON or an object whose `files` key (when present) holds
      the entries, each an object of string fields. */
  datatype ManifestReply = ManifestReply(status: int, body: ManifestBody)
  datatype ManifestBody = Unparsable | Manifest(files: Option<seq<map<string, string>>>)

  /** One iteration of the loop: the record for an entry, its keys read in
      the order the constructor call names them. */
  function ClashStep(e: map<string, string>): (r: Step)
    ensures !r.Skip?
    ensures r.Append? <==> "fileName" in e && "filePath" in e && "sha1" in e && "compressed_sha1" in e
    ensures r.Append? ==>
      && r.file.filename == e["fileName"]
      && r.file.path == r.file.networkPath == e["filePath"]
      && r.file.fileHash == e["sha1"] && r.file.archiveHash == e["compressed_sha1"]
      && r.file.hashUrl && r.file.algo == Gzip
    ensures r.Fail? ==> r.exc.KeyError? && r.exc.key !in e
  {
    if "fileName" !in e then Fail(KeyError("fileName"))
    else if "filePath" !in e then Fail(KeyError("filePath"))
    else if "sha1" !in e then Fail(KeyError("sha1"))
    else if "compressed_sha1" !in e then Fail(KeyError("compressed_sha1"))
    else Append(UpdaterFile(
      path := e["filePath"], filename := e["fileName"], fileHash := e["sha1"],
      archiveHash := e["compressed_sha1"], networkPath := e["filePath"], hashUrl := true, algo := Gzip))
  }

  /** What `get_partial_manifest` appends and raises for a fetched file. */
  function ClashPartial(reply: ManifestReply): (p: Partial)
    ensures reply.status != 200 ==> p == Partial([], Some(ConnectionError(reply.status)))
    ensures reply.status == 200 && reply.body.Unparsable? ==> p == Partial([], Some(JsonDecodeError))
    ensures reply.status == 200 && reply.body.Manifest? && reply.body.files.None? ==>
      p == Partial([], Some(KeyError("files")))
  {
    if reply.status != 200 then Partial([], Some(ConnectionError(reply.status)))
    else match reply.body
      case Unparsable => Partial([], Some(JsonDecodeError))
      case Manifest(files) =>
        if files.None? then Partial([], Some(KeyError("files")))
        else Collect(ClashStep, files.value)
  }

  /** A well-formed manifest yields one record per entry, in order. */
  lemma {:induction false} ClashRecordsInOrder(entries: seq<map<string, string>>)
    requires forall i :: 0 <= i < |entries| ==> ClashStep(entries[i]).Append?
    ensures var p := Collect(ClashStep, entries);
      && p.raised.None? && |p.records| == |entries|
      && forall i :: 0 <= i < |entries| ==> p.records[i] == ClashStep(entries[i]).file
  {
    if entries != [] {
      ClashRecordsInOrder(entries[1..]);
      assert forall i :: 1 <= i < |entries| ==> entries[i] == entries[1..][i - 1];
    }
  }

  /** `ClashPatcher.get_partial_manifest` */
  method GetPartialManifest(u: Updater, reply: ManifestReply) returns (r: Option<Exc>)
    modifies u`patchManifest
    ensures u.patchManifest == old(u.patchManifest) + ClashPartial(reply).records
    ensures r == ClashPartial(reply).raised
  {
    if reply.status != 200 {
      return Some(ConnectionError(reply.status));
    }
    match reply.body {
      case Unparsable =>
        return Some(JsonDecodeError);
      case Manifest(files) =>
        if files.None? {
          return Some(KeyError("files"));
        }
        r := u.AppendEntries(ClashStep, files.value);
    }
  }
}
