/** The Toontown Rewritten integration of code/game/rewritten.py: the login
    reply classifier, the queue handler, the launch environment, and the
    patcher's manifest filter.

    The handlers change nothing on the game object; the session is the
    number of requests sent so far. */
module Rewritten {
  import opened Values
  import opened LoginDriver
  import opened Patching

  /** The outside world of one login: the login API's reply to the n-th
      request, and what the user types when asked for an authenticator
      code. */
  datatype World = World(loginApi: nat -> Reply, typed: string)

  /** `get_login_state` on a decoded reply, `auth` being what the user types
      if asked. A non-empty code is sent with the reply's `responseToken`
      (a KeyError when there is none, before anything is sent); the answer
      to that request is never decoded, so the lookup that follows it raises
      a TypeError. */
  function GetLoginState(f: map<string, Value>, auth: string): (r: StepResult)
    ensures r.Next? ==> "success" in f
    // a queued login carries the queue token
    ensures "success" in f && f["success"] == Str("delayed") ==>
      if "position" !in f then r == Raise(KeyError("position"))
      else if "queueToken" !in f then r == Raise(KeyError("queueToken"))
      else r == Next(Queue, f["queueToken"])
    // Online exactly on "true", with the whole reply as the payload
    ensures r.Next? && r.state == Online <==> "success" in f && f["success"] == Str("true")
    ensures r.Next? && r.state == Online ==> r.data == Dict(f)
    // two-factor with no code typed cancels the login; a typed code is sent
    // with the reply's response token, which must be there
    ensures "success" in f && f["success"] == Str("partial") ==>
      r == if auth == "" then Next(Rejected, Bool(false))
           else if "responseToken" !in f then Raise(KeyError("responseToken"))
           else Raise(TypeError)
    // anything else is a rejection, once the banner has been printed
    ensures "success" in f && f["success"] !in {Str("partial"), Str("delayed"), Str("true")} ==>
      r == if "banner" in f then Next(Rejected, Bool(false)) else Raise(KeyError("banner"))
    ensures r.Next? ==> r.state in {Queue, Online, Rejected}
    ensures r.Next? && r.state == Rejected ==> r.data == Bool(false)
  {
    if "success" !in f then Raise(KeyError("success"))
    else if f["success"] == Str("partial") then
      if auth == "" then Next(Rejected, Bool(false))
      else if "responseToken" !in f then Raise(KeyError("responseToken"))
      else Raise(TypeError)
    else if f["success"] == Str("delayed") then
      if "position" !in f then Raise(KeyError("position"))
      else if "queueToken" !in f then Raise(KeyError("queueToken"))
      else Next(Queue, f["queueToken"])
    else if f["success"] == Str("true") then Next(Online, Dict(f))
    else if "banner" !in f then Raise(KeyError("banner"))
    else Next(Rejected, Bool(false))
  }

  /** Whether `get_login_state` sends the authenticator code (a second
      request): only once the code and the response token are both at hand. */
  predicate SendsCode(f: map<string, Value>, auth: string)
  {
    "success" in f && f["success"] == Str("partial") && auth != "" && "responseToken" in f
  }

  /** `process_offline`: posts the credentials and classifies the reply. */
  function ProcessOffline(w: World, sent: nat): (r: (nat, StepResult))
    ensures r.0 == sent + 1 || (r.0 == sent + 2 && r.1 == Raise(TypeError))
    // the second request goes out exactly when a code is sent with the token
    ensures r.0 == sent + 2 <==> w.loginApi(sent).Json? && SendsCode(w.loginApi(sent).fields, w.typed)
    ensures w.loginApi(sent).NotJson? ==> r.1 == Raise(JsonDecodeError)
    ensures w.loginApi(sent).Json? ==> r.1 == GetLoginState(w.loginApi(sent).fields, w.typed)
  {
    match w.loginApi(sent)
    case NotJson(_, _) => (sent + 1, Raise(JsonDecodeError))
    case Json(f) => (if SendsCode(f, w.typed) then sent + 2 else sent + 1, GetLoginState(f, w.typed))
  }

  /** `process_queued`: schedules a retry (not modelled) and answers at once
      with a falsy payload, so the synchronous login stops there. */
  function ProcessQueued(sent: nat): (r: (nat, StepResult))
    ensures r.0 == sent
    ensures r.1.Next? && r.1.state == Queue && !Truthy(r.1.data)
  {
    (sent, Next(Queue, Bool(false)))
  }

  /** The game's handlers: `process_offline` and its own `process_queued`;
      the driver calls `handle` only for the states `defines` names.
      `start_game` reads the server and the cookie from the payload. */
  function Ttr(w: World): Integration<nat>
  {
    Integration(
      st => st == Offline || st == Queue,
      (n, st, a) => if st == Offline then ProcessOffline(w, n) else ProcessQueued(n),
      (n, data) => StartGameEnv(data))
  }

  /** A queued login returns false after at most two handler calls, leaving
      the state at Queue: the synchronous login never launches (the Timer
      retry that may launch later is not part of this model). */
  lemma DelayedLoginFails(w: World, sent: nat)
    requires w.loginApi(sent).Json?
    requires var f := w.loginApi(sent).fields;
      "success" in f && f["success"] == Str("delayed") && "position" in f && "queueToken" in f
    ensures var run := Drive(Ttr(w), sent, Offline, Nil, MaxSteps);
      && run.outcome == Returned(false) && run.launched == None && run.state == Queue
      && |run.calls| == if Truthy(w.loginApi(sent).fields["queueToken"]) then 2 else 1
  {
    var f := w.loginApi(sent).fields;
    assert Str("delayed") != Str("partial");
    assert ProcessOffline(w, sent) == (sent + 1, Next(Queue, f["queueToken"]));
    if Truthy(f["queueToken"]) {
      var run2 := Drive(Ttr(w), sent + 1, Queue, f["queueToken"], MaxSteps - 1);
      assert run2.calls == [Call(Queue, Prev(f["queueToken"]), Next(Queue, Bool(false)))];
    }
  }

  /** The synchronous login launches exactly when the first reply says
      "true" and carries a server and a cookie, and then with those; a "true"
      reply missing either makes `start_game` raise KeyError out of the
      login, with the state already Online. */
  lemma LaunchesIffTrue(w: World, sent: nat)
    ensures var run := Drive(Ttr(w), sent, Offline, Nil, MaxSteps);
      && (run.outcome == Returned(true) <==>
            w.loginApi(sent).Json? && "success" in w.loginApi(sent).fields
            && w.loginApi(sent).fields["success"] == Str("true")
            && "gameserver" in w.loginApi(sent).fields && "cookie" in w.loginApi(sent).fields)
      && (run.outcome == Returned(true) ==>
            run.launched == Some(map["TTR_GAMESERVER" := w.loginApi(sent).fields["gameserver"],
                                     "TTR_PLAYCOOKIE" := w.loginApi(sent).fields["cookie"]]))
      && (w.loginApi(sent).Json? && "success" in w.loginApi(sent).fields
          && w.loginApi(sent).fields["success"] == Str("true") ==>
            && run.state == Online
            && ("gameserver" !in w.loginApi(sent).fields ==> run.outcome == Raised(KeyError("gameserver")))
            && ("gameserver" in w.loginApi(sent).fields && "cookie" !in w.loginApi(sent).fields ==>
                  run.outcome == Raised(KeyError("cookie"))))
  {
    var r := ProcessOffline(w, sent);
    if r.1.Next? && r.1.state == Queue && Truthy(r.1.data) {
      var run2 := Drive(Ttr(w), r.0, Queue, r.1.data, MaxSteps - 1);
      assert run2.calls == [Call(Queue, Prev(r.1.data), Next(Queue, Bool(false)))];
    }
  }

  /** `start_game`'s environment, read from the login payload. */
  function StartGameEnv(data: Value): (r: Result<map<string, Value>>)
    ensures r.Ok? <==> data.Dict? && "gameserver" in data.d && "cookie" in data.d
    ensures r.Ok? ==>
      && r.value.Keys == {"TTR_GAMESERVER", "TTR_PLAYCOOKIE"}
      && r.value["TTR_GAMESERVER"] == data.d["gameserver"] && r.value["TTR_PLAYCOOKIE"] == data.d["cookie"]
  {
    match data
    case Dict(d) =>
      if "gameserver" !in d then Err(KeyError("gameserver"))
      else if "cookie" !in d then Err(KeyError("cookie"))
      else Ok(map["TTR_GAMESERVER" := d["gameserver"], "TTR_PLAYCOOKIE" := d["cookie"]])
    case _ => Err(TypeError)
  }

  // ---------------------------------------------------------------------
  // RewrittenUpdater

  /** One entry of the manifest object: its name, its `only` value (a list
      of platforms in practice; `None` when the key is missing) and its
      string fields. */
  datatype Entry = Entry(name: string, only: Option<Value>, fields: map<string, string>)

  /** `'linux2' in file['only']` holds. */
  predicate ForLinux(e: Entry)
  {
    e.only.Some? && In("linux2", e.only.value) == Ok(true)
  }

  /** A manifest as fetched: the status code and the body, either not JSON
      or the object's entries in order. */
  datatype ManifestReply = ManifestReply(status: int, body: ManifestBody)
  datatype ManifestBody = Unparsable | Manifest(entries: seq<Entry>)

  /** One iteration of the loop: entries not built for linux2 are skipped;
      the others' keys are read in the order the constructor call names them. */
  function TtrStep(e: Entry): (r: Step)
    ensures e.only.None? ==> r == Fail(KeyError("only"))
    ensures e.only.Some? && In("linux2", e.only.value).Err? ==> r == Fail(TypeError)
    ensures r.Skip? <==> e.only.Some? && In("linux2", e.only.value) == Ok(false)
    ensures r.Append? <==> ForLinux(e) && "hash" in e.fields && "compHash" in e.fields && "dl" in e.fields
    ensures r.Append? ==>
      && r.file.path == r.file.filename == e.name
      && r.file.networkPath == e.fields["dl"]
      && r.file.fileHash == e.fields["hash"] && r.file.archiveHash == e.fields["compHash"]
      && !r.file.hashUrl && r.file.algo == Bzip2
    ensures r.Fail? ==> r.exc.KeyError? || r.exc == TypeError
  {
    if e.only.None? then Fail(KeyError("only"))
    else if In("linux2", e.only.value).Err? then Fail(In("linux2", e.only.value).exc)
    else if !In("linux2", e.only.value).value then Skip
    else if "hash" !in e.fields then Fail(KeyError("hash"))
    else if "compHash" !in e.fields then Fail(KeyError("compHash"))
    else if "dl" !in e.fields then Fail(KeyError("dl"))
    else Append(UpdaterFile(
      path := e.name, filename := e.name, fileHash := e.fields["hash"],
      archiveHash := e.fields["compHash"], networkPath := e.fields["dl"], hashUrl := false, algo := Bzip2))
  }

  /** What `get_partial_manifest` appends and raises for a fetched file. */
  function TtrPartial(reply: ManifestReply): (p: Partial)
    ensures reply.status != 200 ==> p == Partial([], Some(ConnectionError(reply.status)))
    ensures reply.status == 200 && reply.body.Unparsable? ==> p == Partial([], Some(JsonDecodeError))
  {
    if reply.status != 200 then Partial([], Some(ConnectionError(reply.status)))
    else match reply.body
      case Unparsable => Partial([], Some(JsonDecodeError))
      case Manifest(entries) => Collect(TtrStep, entries)
  }

  /** A manifest whose every entry is well formed yields exactly the linux2
      entries' records, in order. */
  lemma {:induction false} LinuxOnly(entries: seq<Entry>)
    requires forall i :: 0 <= i < |entries| ==> !TtrStep(entries[i]).Fail?
    ensures Collect(TtrStep, entries).raised.None?
    ensures Collect(TtrStep, entries).records == LinuxRecords(entries)
  {
    if entries != [] {
      LinuxOnly(entries[1..]);
      assert forall i :: 1 <= i < |entries| ==> entries[i] == entries[1..][i - 1];
    }
  }

  /** The records of the entries built for linux2, in order. */
  function LinuxRecords(entries: seq<Entry>): (r: seq<UpdaterFile>)
    ensures |r| <= |entries|
    ensures forall f :: f in r ==> f.algo == Bzip2 && !f.hashUrl
  {
    if entries == [] then []
    else
      var e := entries[0];
      (if ForLinux(e) && "hash" in e.fields && "compHash" in e.fields && "dl" in e.fields
       then [UpdaterFile(e.name, e.name, e.fields["hash"], e.fields["compHash"], e.fields["dl"], false, Bzip2)]
       else [])
      + LinuxRecords(entries[1..])
  }

  /** `RewrittenUpdater.get_partial_manifest` */
  method GetPartialManifest(u: Updater, reply: ManifestReply) returns (r: Option<Exc>)
    modifies u`patchManifest
    ensures u.patchManifest == old(u.patchManifest) + TtrPartial(reply).records
    ensures r == TtrPartial(reply).raised
  {
    if reply.status != 200 {
      return Some(ConnectionError(reply.status));
    }
    match reply.body {
      case Unparsable =>
        return Some(JsonDecodeError);
      case Manifest(entries) =>
        r := u.AppendEntries(TtrStep, entries);
    }
  }
}
