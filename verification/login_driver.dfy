/** The bounded login state machine of `Game` in code/common.py.

    A concrete game supplies one handler per state (`process_offline`,
    `process_lt`, ...). Handlers may change the game object's own fields
    (an account table, a token, a "needs saving" flag): that part of the
    object is the integration's session `S`, and a handler is modelled as a
    function from the session, the state and its argument to the new session
    and what it returned or raised. */
module LoginDriver {
  import opened Values

  datatype LoginState = Offline | Queue | Online | Rejected | LoginToken

  /** The enum's `.value`, from which the handler's method name is built. */
  function StateValue(s: LoginState): string
  {
    match s
    case Offline => "offline"
    case Queue => "queued"
    case Online => "online"
    case Rejected => "rejected"
    case LoginToken => "lt"
  }

  function HandlerName(s: LoginState): string
  {
    "process_" + StateValue(s)
  }

  /** What a handler is called with: nothing in state Offline, the payload the
      previous step returned otherwise. */
  datatype Arg = NoArg | Prev(data: Value)

  /** A handler either returns `(state, payload)` or raises. */
  datatype StepResult = Next(state: LoginState, data: Value) | Raise(exc: Exc)

  /** A game integration: which `process_<state>` methods it defines, what
      they do, and what its `start_game` does with the payload of an Online
      step: the environment it launches the game with, or what it raises. */
  datatype Integration<!S> = Integration(
    defines: LoginState -> bool,
    handle: (S, LoginState, Arg) -> (S, StepResult),
    start: (S, Value) -> Result<map<string, Value>>)

  /** The hard bound on handler calls in one login. */
  const MaxSteps: nat := 10

  function ArgFor(state: LoginState, data: Value): Arg
  {
    if state == Offline then NoArg else Prev(data)
  }

  /** Looks the handler up by the state's name and calls it. `Game` itself
      defines `process_queued` (back to Offline with a falsy payload); any
      other missing handler is an AttributeError. */
  function Dispatch<S>(g: Integration<S>, session: S, state: LoginState, data: Value): (S, StepResult)
  {
    if g.defines(state) then g.handle(session, state, ArgFor(state, data))
    else if state == Queue then (session, Next(Offline, Bool(false)))
    else (session, Raise(AttributeError(HandlerName(state))))
  }

  /** The decision of `try_launch`: `Some(true)` launches, `Some(false)` stops
      the login, `None` lets it continue. */
  function LaunchDecision(state: LoginState, data: Value): Option<bool>
  {
    if state == Online then Some(true)
    else if !Truthy(data) then Some(false)
    else None
  }

  /** A step after which the driving loop goes on. */
  predicate Continues(res: StepResult)
  {
    res.Next? && LaunchDecision(res.state, res.data).None?
  }

  /** One handler call: the state it was looked up for, its argument, its result. */
  datatype Call = Call(state: LoginState, arg: Arg, result: StepResult)

  /** What `process_step` returns, or the exception it lets through. */
  datatype Outcome = Returned(b: bool) | Raised(exc: Exc)

  /** A whole drive: the handler calls made, the final session, state and
      payload, the outcome, and the environment the game was launched with,
      if `start_game` launched it. */
  datatype Run<S> = Run(calls: seq<Call>, session: S, state: LoginState, data: Value,
                        outcome: Outcome, launched: Option<map<string, Value>>)

  /** The loop of `process_step` with `fuel` iterations left. An Online step
      calls `start_game`, which launches the game or raises out of the loop
      with the state already Online. */
  function Drive<S>(g: Integration<S>, session: S, state: LoginState, data: Value, fuel: nat): (r: Run<S>)
    ensures |r.calls| <= fuel
    ensures r.launched.Some? <==> r.outcome == Returned(true)
    ensures r.launched.Some? ==> r.state == Online && g.start(r.session, r.data) == Ok(r.launched.value)
    decreases fuel
  {
    if fuel == 0 then Run([], session, state, data, Returned(false), None)
    else
      var (session', res) := Dispatch(g, session, state, data);
      var call := Call(state, ArgFor(state, data), res);
      match res
      case Raise(e) => Run([call], session', state, data, Raised(e), None)
      case Next(state', data') =>
        match LaunchDecision(state', data')
        case Some(b) =>
          if !b then Run([call], session', state', data', Returned(false), None)
          else
            (match g.start(session', data')
             case Err(e) => Run([call], session', state', data', Raised(e), None)
             case Ok(env) => Run([call], session', state', data', Returned(true), Some(env)))
        case None =>
          var rest := Drive(g, session', state', data', fuel - 1);
          rest.(calls := [call] + rest.calls)
  }

  /** Every call but the last let the loop continue, and each call's state and
      argument come from the previous call's result. */
  ghost predicate Chained(calls: seq<Call>)
  {
    forall k :: 0 <= k < |calls| - 1 ==>
      && Continues(calls[k].result)
      && calls[k + 1].state == calls[k].result.state
      && calls[k + 1].arg == ArgFor(calls[k + 1].state, calls[k].result.data)
  }

  /** The shape of every drive: the first handler is the one for the starting
      state (with no payload in Offline), and the calls are chained. */
  lemma {:induction false} DriveShape<S>(g: Integration<S>, session: S, state: LoginState, data: Value, fuel: nat)
    requires fuel > 0
    ensures var r := Drive(g, session, state, data, fuel);
      && 1 <= |r.calls| <= fuel
      && r.calls[0].state == state
      && r.calls[0].arg == ArgFor(state, data)
      && Chained(r.calls)
    decreases fuel
  {
    var r := Drive(g, session, state, data, fuel);
    var (session', res) := Dispatch(g, session, state, data);
    if Continues(res) && fuel > 1 {
      DriveShape(g, session', res.state, res.data, fuel - 1);
      var rest := Drive(g, session', res.state, res.data, fuel - 1);
      assert r.calls == [Call(state, ArgFor(state, data), res)] + rest.calls;
      forall k | 0 <= k < |r.calls| - 1
        ensures Continues(r.calls[k].result)
        ensures r.calls[k + 1].state == r.calls[k].result.state
        ensures r.calls[k + 1].arg == ArgFor(r.calls[k + 1].state, r.calls[k].result.data)
      {
        if k > 0 {
          assert r.calls[k] == rest.calls[k - 1] && r.calls[k + 1] == rest.calls[k];
        }
      }
    }
  }

  /** One continuing step: the drive is the first call followed by the
      drive from the state that call moved to. */
  lemma DriveContinues<S>(g: Integration<S>, session: S, state: LoginState, data: Value, fuel: nat)
    requires fuel > 0 && Continues(Dispatch(g, session, state, data).1)
    ensures var (session', res) := Dispatch(g, session, state, data);
      var rest := Drive(g, session', res.state, res.data, fuel - 1);
      Drive(g, session, state, data, fuel) == rest.(calls := [Call(state, ArgFor(state, data), res)] + rest.calls)
  {
  }

  /** The last call decides whether the drive raises or launches: a raise
      is let through, and `Online` launches and returns true even with a
      falsy payload unless `start_game` raises. */
  lemma {:induction false} DriveOutcome<S>(g: Integration<S>, session: S, state: LoginState, data: Value, fuel: nat)
    requires fuel > 0
    ensures var r := Drive(g, session, state, data, fuel);
      && 1 <= |r.calls|
      && var last := r.calls[|r.calls| - 1].result;
      && (r.outcome.Raised? <==> last.Raise? || (last.Next? && last.state == Online && g.start(r.session, last.data).Err?))
      && (last.Raise? ==> r.outcome.exc == last.exc)
      && (last.Next? && last.state == Online && g.start(r.session, last.data).Err? ==>
            r.outcome == Raised(g.start(r.session, last.data).exc))
      && (r.outcome == Returned(true) <==> last.Next? && last.state == Online && g.start(r.session, last.data).Ok?)
      && (last.Next? ==> r.state == last.state && r.data == last.data)
    decreases fuel
  {
    var r := Drive(g, session, state, data, fuel);
    var (session', res) := Dispatch(g, session, state, data);
    if Continues(res) {
      var rest := Drive(g, session', res.state, res.data, fuel - 1);
      DriveContinues(g, session, state, data, fuel);
      if fuel > 1 {
        DriveOutcome(g, session', res.state, res.data, fuel - 1);
        assert r.calls[|r.calls| - 1] == rest.calls[|rest.calls| - 1];
      }
    } else {
      assert r.calls == [Call(state, ArgFor(state, data), res)] && r.session == session';
    }
  }

  /** A drive returns false when its last call moved to a state other than
      Online with a falsy payload, or when it used up its iterations. */
  lemma {:induction false} DriveStops<S>(g: Integration<S>, session: S, state: LoginState, data: Value, fuel: nat)
    requires fuel > 0
    ensures var r := Drive(g, session, state, data, fuel);
      && 1 <= |r.calls|
      && var last := r.calls[|r.calls| - 1].result;
      && (r.outcome == Returned(false) <==>
            last.Next? && last.state != Online && (!Truthy(last.data) || |r.calls| == fuel))
    decreases fuel
  {
    var r := Drive(g, session, state, data, fuel);
    var (session', res) := Dispatch(g, session, state, data);
    if Continues(res) {
      var rest := Drive(g, session', res.state, res.data, fuel - 1);
      DriveContinues(g, session, state, data, fuel);
      if fuel > 1 {
        DriveStops(g, session', res.state, res.data, fuel - 1);
        assert r.calls[|r.calls| - 1] == rest.calls[|rest.calls| - 1];
      }
    } else {
      assert r.calls == [Call(state, ArgFor(state, data), res)] && r.session == session';
    }
  }

  /** A handler that never ends the loop (say, one that keeps answering
      "rate limited, retry") costs exactly `fuel` calls, and the drive then
      returns false rather than raising. */
  lemma {:induction false} NeverConverges<S>(g: Integration<S>, session: S, state: LoginState, data: Value, fuel: nat)
    requires forall st :: g.defines(st)
    requires forall s, st, a :: Continues(g.handle(s, st, a).1)
    ensures var r := Drive(g, session, state, data, fuel);
      |r.calls| == fuel && r.outcome == Returned(false) && r.launched == None
    decreases fuel
  {
    if fuel > 0 {
      var (session', res) := Dispatch(g, session, state, data);
      assert Continues(res);
      NeverConverges(g, session', res.state, res.data, fuel - 1);
    }
  }

  /** The driver with the game object's login fields. */
  class Game<S> {
    var state: LoginState
    var username: Option<string>
    var password: Value
    var session: S
    /** The environment `start_game` last launched the game with. */
    var launched: Option<map<string, Value>>

    constructor (session: S)
      ensures state == Offline && this.session == session && launched == None
      ensures username == None && password == Nil
    {
      state := Offline;
      username := None;
      password := Nil;
      this.session := session;
      launched := None;
    }

    predicate IsPlayable()
      reads this
    {
      state == Online
    }

    /** `try_launch`: starts the game when Online, letting `start_game`'s
        exception through. */
    method TryLaunch(g: Integration<S>, data: Value) returns (r: Result<Option<bool>>)
      modifies this`launched
      ensures state != Online ==> r == Ok(LaunchDecision(state, data)) && launched == old(launched)
      ensures state == Online && g.start(session, data).Ok? ==>
        r == Ok(Some(true)) && launched == Some(g.start(session, data).value)
      ensures state == Online && g.start(session, data).Err? ==>
        r == Err(g.start(session, data).exc) && launched == old(launched)
    {
      if state == Online {
        var started := g.start(session, data);
        if started.Err? {
          return Err(started.exc);
        }
        launched := Some(started.value);
        return Ok(Some(true));
      } else if !Truthy(data) {
        return Ok(Some(false));
      }
      return Ok(None);
    }

    /** `process_step`: at most `MaxSteps` handler calls, as `Drive` describes. */
    method ProcessStep(g: Integration<S>) returns (r: Outcome)
      modifies this
      ensures var run := Drive(g, old(session), old(state), Nil, MaxSteps);
        && r == run.outcome && state == run.state && session == run.session
        && launched == (if run.launched.Some? then run.launched else old(launched))
      ensures r == Returned(true) ==> IsPlayable()
      ensures username == old(username) && password == old(password)
    {
      ghost var run := Drive(g, session, state, Nil, MaxSteps);
      var data := Nil;
      var i := 0;
      while i < MaxSteps
        invariant 0 <= i <= MaxSteps
        invariant Drive(g, session, state, data, MaxSteps - i).(calls := []) == run.(calls := [])
        invariant launched == old(launched)
        invariant username == old(username) && password == old(password)
      {
        var (session', res) := Dispatch(g, session, state, data);
        session := session';
        match res {
          case Raise(e) =>
            return Raised(e);
          case Next(state', data') =>
            state, data := state', data';
            var tl := TryLaunch(g, data);
            if tl.Err? {
              return Raised(tl.exc);
            }
            if tl.value.Some? {
              return Returned(tl.value.value);
            }
        }
        i := i + 1;
      }
      return Returned(false);
    }

    /** `Game.login`: stores the credentials, starts again from Offline, drives. */
    method Login(login: string, password: Value, g: Integration<S>) returns (r: Outcome)
      modifies this
      ensures username == Some(login) && this.password == password
      ensures var run := Drive(g, old(session), Offline, Nil, MaxSteps);
        && r == run.outcome && state == run.state && session == run.session
        && launched == (if run.launched.Some? then run.launched else old(launched))
    {
      username := Some(login);
      this.password := password;
      state := Offline;
      r := ProcessStep(g);
    }
  }
}
