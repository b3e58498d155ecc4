/** The account table and the `launch` command of code/shell.py.

    Loading the accounts file makes one dict per account and binds its name
    and each of its aliases to that same dict, which later code (the
    password prompt, a game's login) changes in place. The model keeps that
    sharing explicit: `store` holds the account dicts, and `names` maps each
    name to the index of its dict, so two names share an account exactly
    when they map to the same index. */
module Shell {
  import opened Values
  import opened ShellArgs

  /** An account as read from the accounts file: a YAML mapping. */
  type Record = map<string, Value>

  datatype Table = Table(names: map<string, nat>, store: seq<Record>)

  predicate Valid(t: Table)
  {
    forall k :: k in t.names ==> t.names[k] < |t.store|
  }

  // ---------------------------------------------------------------------
  // load_toons

  /** `account['game'] not in self.games`: a missing key raises KeyError,
      an unhashable value TypeError, and an unregistered one ValueError. */
  function CheckGame(rec: Record, games: set<string>): (e: Option<Exc>)
    ensures e.None? <==> "game" in rec && rec["game"].Str? && rec["game"].s in games
    ensures "game" in rec && rec["game"].Str? && rec["game"].s !in games ==> e == Some(ValueError("Unknown game " + rec["game"].s))
  {
    if "game" !in rec then Some(KeyError("game"))
    else match rec["game"]
      case Str(g) => if g in games then None else Some(ValueError("Unknown game " + g))
      case List(_) => Some(TypeError)
      case Dict(_) => Some(TypeError)
      case _ => Some(ValueError("Unknown game"))
  }

  /** What `for alias in account['aliases']` binds: a list's items or a
      string's characters; anything else is not iterable. */
  function AliasNames(v: Value): (r: Option<seq<string>>)
    ensures v.List? ==> (r.Some? <==> forall i :: 0 <= i < |v.items| ==> v.items[i].Str?)
    ensures v.List? && r.Some? ==> forall a :: a in r.value <==> Str(a) in v.items
    ensures v.Str? ==> r.Some? && |r.value| == |v.s| && forall i :: 0 <= i < |v.s| ==> r.value[i] == [v.s[i]]
    ensures !v.List? && !v.Str? ==> r.None?
  {
    match v
    case List(items) =>
      if forall i :: 0 <= i < |items| ==> items[i].Str?
      then
        var names := seq(|items|, i requires 0 <= i < |items| => if items[i].Str? then items[i].s else "");
        assert forall a :: a in names <==> Str(a) in items by {
          forall a ensures a in names <==> Str(a) in items {
            if a in names {
              var i :| 0 <= i < |names| && names[i] == a;
              assert items[i] == Str(a);
            }
            if Str(a) in items {
              var i :| 0 <= i < |items| && items[i] == Str(a);
              assert names[i] == a;
            }
          }
        }
        Some(names)
      else None
    case Str(s) => Some(seq(|s|, i requires 0 <= i < |s| => [s[i]]))
    case _ => None
  }

  /** What loading one entry raises, after its name is bound. */
  function EntryError(rec: Record, games: set<string>): Option<Exc>
  {
    match CheckGame(rec, games)
    case Some(e) => Some(e)
    case None => if "aliases" in rec && AliasNames(rec["aliases"]).None? then Some(TypeError) else None
  }

  /** The names an entry binds when it loads: its own, and its aliases. */
  function EntryNames(name: string, rec: Record): set<string>
  {
    {name} + if "aliases" in rec && AliasNames(rec["aliases"]).Some?
             then set a | a in AliasNames(rec["aliases"]).value else {}
  }

  /** Binds every alias to `id`. */
  function Bind(names: map<string, nat>, aliases: seq<string>, id: nat): (r: map<string, nat>)
    ensures r.Keys == names.Keys + set a | a in aliases
    ensures forall k :: k in r ==> r[k] == if k in aliases then id else names[k]
    decreases |aliases|
  {
    if aliases == [] then names else Bind(names[aliases[0] := id], aliases[1..], id)
  }

  /** One iteration of `load_toons`: the name is bound to a new dict, the
      game checked, and the aliases bound to the same dict. */
  function LoadEntry(t: Table, name: string, rec: Record, games: set<string>): (r: (Table, Option<Exc>))
    requires Valid(t)
    ensures Valid(r.0) && r.0.store == t.store + [rec]
    ensures r.1 == EntryError(rec, games)
    ensures r.0.names.Keys == t.names.Keys + (if r.1.None? then EntryNames(name, rec) else {name})
    ensures forall k :: k in r.0.names ==>
      r.0.names[k] == if k in (if r.1.None? then EntryNames(name, rec) else {name}) then |t.store| else t.names[k]
  {
    var id := |t.store|;
    var t1 := Table(t.names[name := id], t.store + [rec]);
    if EntryError(rec, games).Some? then (t1, EntryError(rec, games))
    else if "aliases" !in rec then (t1, None)
    else (t1.(names := Bind(t1.names, AliasNames(rec["aliases"]).value, id)), None)
  }

  /** `load_toons` over the entries of the accounts file, in file order;
      the first raise ends it, with what was bound before it kept. */
  function Load(entries: seq<(string, Record)>, games: set<string>): (r: (Table, Option<Exc>))
    ensures Valid(r.0)
    ensures |r.0.store| <= |entries|
    ensures forall i :: 0 <= i < |r.0.store| ==> r.0.store[i] == entries[i].1
    ensures r.1.None? ==> |r.0.store| == |entries|
    ensures r.1.Some? ==> |r.0.store| > 0 && r.1 == EntryError(entries[|r.0.store| - 1].1, games)
  {
    if entries == [] then (Table(map[], []), None)
    else
      var (t, e) := Load(entries[..|entries| - 1], games);
      if e.Some? then (t, e)
      else LoadEntry(t, entries[|entries| - 1].0, entries[|entries| - 1].1, games)
  }

  /** Loading raises exactly when some entry is bad (an unknown game raises
      ValueError), and it is the first bad entry that raises. */
  lemma {:induction false} LoadFails(entries: seq<(string, Record)>, games: set<string>)
    ensures var r := Load(entries, games);
      && (r.1.None? <==> forall i :: 0 <= i < |entries| ==> EntryError(entries[i].1, games).None?)
      && (r.1.Some? ==> forall i :: 0 <= i < |r.0.store| - 1 ==> EntryError(entries[i].1, games).None?)
  {
    if entries != [] {
      var init := entries[..|entries| - 1];
      LoadFails(init, games);
      assert forall i :: 0 <= i < |init| ==> init[i] == entries[i];
    }
  }

  /** The last entry that binds `k` by its name or an alias. */
  function LastNaming(entries: seq<(string, Record)>, k: string): (r: Option<nat>)
    ensures r.Some? ==> r.value < |entries| && k in EntryNames(entries[r.value].0, entries[r.value].1)
    ensures r.Some? ==> forall j :: r.value < j < |entries| ==> k !in EntryNames(entries[j].0, entries[j].1)
    ensures r.None? ==> forall j :: 0 <= j < |entries| ==> k !in EntryNames(entries[j].0, entries[j].1)
  {
    if entries == [] then None
    else
      var last := |entries| - 1;
      if k in EntryNames(entries[last].0, entries[last].1) then Some(last)
      else
        var r := LastNaming(entries[..last], k);
        assert forall j :: 0 <= j < last ==> entries[..last][j] == entries[j];
        r
  }

  /** After a load without error, a name is bound exactly when some entry
      names it, and to the dict of the last entry that does: a later entry
      takes over an earlier entry's name or alias. */
  lemma {:induction false} LoadBindsLast(entries: seq<(string, Record)>, games: set<string>, k: string)
    requires Load(entries, games).1.None?
    ensures var t := Load(entries, games).0;
      && (k in t.names <==> LastNaming(entries, k).Some?)
      && (k in t.names ==> t.names[k] == LastNaming(entries, k).value)
  {
    if entries != [] {
      var init := entries[..|entries| - 1];
      LoadBindsLast(init, games, k);
    }
  }

  /** No name or alias of one entry is a name or alias of another. */
  ghost predicate NoClashes(entries: seq<(string, Record)>)
  {
    forall i, j, k :: 0 <= i < j < |entries| && k in EntryNames(entries[i].0, entries[i].1) ==>
      k !in EntryNames(entries[j].0, entries[j].1)
  }

  /** When names and aliases are all distinct, every entry's name and each
      of its aliases are bound to that entry's one dict. */
  lemma AliasesShareAccount(entries: seq<(string, Record)>, games: set<string>, i: nat, k: string)
    requires Load(entries, games).1.None? && NoClashes(entries)
    requires i < |entries| && k in EntryNames(entries[i].0, entries[i].1)
    ensures var t := Load(entries, games).0;
      k in t.names && t.names[k] == i && t.store[i] == entries[i].1
  {
    LoadBindsLast(entries, games, k);
  }

  // ---------------------------------------------------------------------
  // save_accounts and resolve_account

  /** `account.get('aliases', [])` */
  function AliasesOf(rec: Record): Value
  {
    if "aliases" in rec then rec["aliases"] else List([])
  }

  /** The test of `save_accounts`: `name in account.get('aliases', [])`. */
  function ListedAsAlias(t: Table, name: string): Result<bool>
    requires Valid(t) && name in t.names
  {
    In(name, AliasesOf(t.store[t.names[name]]))
  }

  /** The table's names but those in `drop`, each with its account. */
  function Without(t: Table, drop: set<string>): map<string, Record>
    requires Valid(t)
  {
    map k | k in t.names && k !in drop :: t.store[t.names[k]]
  }

  /** What `save_accounts` writes: every name but those listed among their
      own account's aliases, with its account; a membership test that
      raises ends it before anything is written. */
  function Saved(t: Table): Result<map<string, Record>>
    requires Valid(t)
  {
    if exists k :: k in t.names && ListedAsAlias(t, k).Err? then Err(TypeError)
    else Ok(Without(t, set k | k in t.names && ListedAsAlias(t, k) == Ok(true)))
  }

  /** The entries' own names. */
  function EntryKeys(entries: seq<(string, Record)>): set<string>
  {
    set i | 0 <= i < |entries| :: entries[i].0
  }

  /** The conditions under which saving writes back what was loaded: names
      and aliases distinct, aliases given as lists, and no account listing
      its own name as an alias. */
  ghost predicate Plain(entries: seq<(string, Record)>)
  {
    && NoClashes(entries)
    && forall i :: 0 <= i < |entries| ==>
         "aliases" in entries[i].1 ==> entries[i].1["aliases"].List? && Str(entries[i].0) !in entries[i].1["aliases"].items
  }

  /** After loading plain entries, a name is listed among its account's
      aliases exactly when it is an alias rather than an entry's name. */
  lemma ListedIffAlias(entries: seq<(string, Record)>, games: set<string>, k: string)
    requires Load(entries, games).1.None? && Plain(entries)
    requires k in Load(entries, games).0.names
    ensures ListedAsAlias(Load(entries, games).0, k) == Ok(k !in EntryKeys(entries))
  {
    var t := Load(entries, games).0;
    LoadFails(entries, games);
    LoadBindsLast(entries, games, k);
    var m := t.names[k];
    var rec := entries[m].1;
    assert t.store[m] == rec;
    if k == entries[m].0 {
      assert k in EntryKeys(entries);
    } else {
      assert k in AliasNames(rec["aliases"]).value;
      AliasIsNoEntryName(entries, m, k);
    }
  }

  /** With distinct names and aliases, an alias of one entry is no
      entry's name. */
  lemma AliasIsNoEntryName(entries: seq<(string, Record)>, m: nat, k: string)
    requires NoClashes(entries) && m < |entries|
    requires k in EntryNames(entries[m].0, entries[m].1) && k != entries[m].0
    ensures k !in EntryKeys(entries)
  {
    forall i | 0 <= i < |entries| ensures entries[i].0 != k {
      assert entries[i].0 in EntryNames(entries[i].0, entries[i].1);
      if i > m {
        assert k !in EntryNames(entries[i].0, entries[i].1);
      }
    }
  }

  /** After loading, every entry's own name is known. */
  lemma EntryKeysKnown(entries: seq<(string, Record)>, games: set<string>)
    requires Load(entries, games).1.None? && NoClashes(entries)
    ensures var t := Load(entries, games).0;
      forall i :: 0 <= i < |entries| ==> entries[i].0 in t.names
  {
    var t := Load(entries, games).0;
    forall i | 0 <= i < |entries| ensures entries[i].0 in t.names {
      AliasesShareAccount(entries, games, i, entries[i].0);
    }
  }

  /** After loading plain entries, saving keeps exactly the entries' own
      names. */
  lemma SavedNames(entries: seq<(string, Record)>, games: set<string>)
    requires Load(entries, games).1.None? && Plain(entries)
    ensures var dump := Saved(Load(entries, games).0);
      dump.Ok? && dump.value.Keys == EntryKeys(entries)
  {
    var t := Load(entries, games).0;
    EntryKeysKnown(entries, games);
    forall k | k in t.names
      ensures ListedAsAlias(t, k).Ok? && (ListedAsAlias(t, k).value <==> k !in EntryKeys(entries))
    {
      ListedIffAlias(entries, games, k);
    }
    assert EntryKeys(entries) <= t.names.Keys;
    SavedKeys(t, EntryKeys(entries));
  }

  /** A table whose names are each listed among their account's aliases
      exactly when they are outside `keys` saves exactly `keys`. */
  lemma SavedKeys(t: Table, keys: set<string>)
    requires Valid(t) && keys <= t.names.Keys
    requires forall k :: k in t.names ==> ListedAsAlias(t, k).Ok? && (ListedAsAlias(t, k).value <==> k !in keys)
    ensures Saved(t).Ok? && Saved(t).value.Keys == keys
  {
    var drop := set k | k in t.names && ListedAsAlias(t, k) == Ok(true);
    assert Saved(t) == Ok(Without(t, drop));
  }

  /** Saving right after loading plain entries writes the file back: the
      dump has exactly the entries' names, each with its own account. */
  lemma LoadSaveRoundTrip(entries: seq<(string, Record)>, games: set<string>)
    requires Load(entries, games).1.None? && Plain(entries)
    ensures var dump := Saved(Load(entries, games).0);
      && dump.Ok? && dump.value.Keys == EntryKeys(entries)
      && forall i :: 0 <= i < |entries| ==> dump.value[entries[i].0] == entries[i].1
  {
    var t := Load(entries, games).0;
    SavedNames(entries, games);
    forall i | 0 <= i < |entries|
      ensures entries[i].0 in t.names && t.names[entries[i].0] == i && t.store[i] == entries[i].1
    {
      AliasesShareAccount(entries, games, i, entries[i].0);
    }
  }

  /** `resolve_account`: the account's login if the name is known. */
  function ResolveAccount(t: Table, arg: string): (r: Result<Option<Value>>)
    requires Valid(t)
    ensures arg !in t.names <==> r == Ok(None)
    ensures arg in t.names ==>
      if "login" in t.store[t.names[arg]] then r == Ok(Some(t.store[t.names[arg]]["login"]))
      else r == Err(KeyError("login"))
  {
    if arg in t.names then
      var account := t.store[t.names[arg]];
      if "login" in account then Ok(Some(account["login"])) else Err(KeyError("login"))
    else Ok(None)
  }

  /** After loading distinct names and aliases, an alias resolves to the
      login of the account it names. */
  lemma AliasResolvesToLogin(entries: seq<(string, Record)>, games: set<string>, i: nat, alias: string)
    requires Load(entries, games).1.None? && NoClashes(entries)
    requires i < |entries| && alias in EntryNames(entries[i].0, entries[i].1)
    ensures ResolveAccount(Load(entries, games).0, alias) == ResolveAccount(Load(entries, games).0, entries[i].0)
  {
    AliasesShareAccount(entries, games, i, alias);
    AliasesShareAccount(entries, games, i, entries[i].0);
  }

  // ---------------------------------------------------------------------
  // do_launch

  /** What a game's `login(**account, **kwargs)` does, as the shell sees it:
      what it returned or raised, the account dict afterwards (the game
      changes the shared dict in place), and the game's
      `account_needs_change`. */
  datatype Attempt = Attempt(result: Result<bool>, account: Record, needsChange: bool)

  /** What `do_launch` consults: the launched games still running, whether a
      game asks for a password, what the user types at the prompt, and how a
      login goes for an account and keyword arguments. */
  datatype LaunchWorld = LaunchWorld(
    active: set<(Value, Value)>,
    usesPassword: Value -> bool,
    typed: string,
    login: (Record, map<string, Value>) -> Attempt)

  /** The shell's state: the account table, the launched `(game, login)`
      pairs, and what each `save_accounts` call wrote. */
  datatype ShellState = ShellState(table: Table, launched: set<(Value, Value)>, saved: seq<map<string, Record>>)

  /** A value a dict key or set element can be. */
  predicate Hashable(v: Value)
  {
    !v.List? && !v.Dict?
  }

  /** `kwargs.get(key)` */
  function Get(kwargs: map<string, Value>, key: string): Value
  {
    if key in kwargs then kwargs[key] else Nil
  }

  /** What building `(account['game'], account['login'])` as a key raises. */
  function PairError(rec: Record): (e: Option<Exc>)
    ensures e.None? <==> "game" in rec && "login" in rec && Hashable(rec["game"]) && Hashable(rec["login"])
  {
    if "game" !in rec then Some(KeyError("game"))
    else if "login" !in rec then Some(KeyError("login"))
    else if !Hashable(rec["game"]) || !Hashable(rec["login"]) then Some(TypeError)
    else None
  }

  /** The `(game, login)` key of an account. */
  function PairOf(rec: Record): (Value, Value)
    requires PairError(rec).None?
  {
    (rec["game"], rec["login"])
  }

  /** Whether the launch of an account is skipped as already launched. */
  predicate Gated(st: ShellState, rec: Record, kwargs: map<string, Value>)
  {
    PairError(rec).None? && PairOf(rec) in st.launched && !Truthy(Get(kwargs, "force"))
  }

  /** Whether the user is asked for the account's password. */
  predicate Resets(rec: Record, w: LaunchWorld)
  {
    "game" in rec && "password" !in rec && w.usesPassword(rec["game"])
  }

  /** The account as handed to the game's login: with the typed password
      when the user was asked for one. */
  function Prompted(rec: Record, w: LaunchWorld): (r: Record)
    ensures Resets(rec, w) ==> "password" in r && r["password"] == Str(w.typed)
    ensures r.Keys == rec.Keys + if Resets(rec, w) then {"password"} else {}
    ensures forall k :: k in rec ==> r[k] == rec[k]
  {
    if Resets(rec, w) then rec["password" := Str(w.typed)] else rec
  }

  /** `st` with the account at `id` replaced. */
  function SetAccount(st: ShellState, id: nat, rec: Record): (r: ShellState)
    requires id < |st.table.store|
    ensures Valid(st.table) ==> Valid(r.table)
    ensures r.table.names == st.table.names && r.launched == st.launched && r.saved == st.saved
    ensures r.table.store == st.table.store[id := rec]
  {
    st.(table := st.table.(store := st.table.store[id := rec]))
  }

  /** After a login that returned true: the save when the game asks for one
      (and no password was typed), then the launched game's key, taken from
      the account as the game left it. */
  function Register(st: ShellState, account: Record, save: bool): (r: (ShellState, Option<Exc>))
    requires Valid(st.table)
    ensures r.0.table == st.table
    // the accounts file is dumped exactly when asked, and its dump raises
    // when an account's aliases cannot be searched
    ensures r.0.saved == if save && Saved(st.table).Ok? then st.saved + [Saved(st.table).value] else st.saved
    ensures save && Saved(st.table).Err? ==> r.1 == Some(Saved(st.table).exc)
    // then the key of the account as the game left it is recorded
    ensures r.1.None? <==> (!save || Saved(st.table).Ok?) && PairError(account).None?
    ensures r.0.launched == if r.1.None? then st.launched + {PairOf(account)} else st.launched
  {
    var (st1, e) :=
      if !save then (st, None)
      else match Saved(st.table)
        case Err(e) => (st, Some(e))
        case Ok(dump) => (st.(saved := st.saved + [dump]), None);
    if e.Some? then (st1, e)
    else if PairError(account).Some? then (st1, PairError(account))
    else (st1.(launched := st1.launched + {PairOf(account)}), None)
  }

  /** The KeyError of looking up an unregistered game: it carries the
      game's name (a game that is no string is keyed "game"). */
  function UnknownGame(game: Value): (e: Exc)
    ensures e.KeyError?
    ensures game.Str? ==> e.key == game.s
  {
    if game.Str? then KeyError(game.s) else KeyError("game")
  }

  /** One iteration of `do_launch`'s loop, for the toon name `toon`. */
  function LaunchOne(st: ShellState, toon: string, kwargs: map<string, Value>, w: LaunchWorld,
                     games: set<string>): (r: (ShellState, Option<Exc>))
    requires Valid(st.table)
    ensures Valid(r.0.table) && r.0.table.names == st.table.names
    ensures st.launched <= r.0.launched
    // `self.games[account['game']]` on a game that was never registered
    // raises KeyError with the game's name, and nothing changes
    ensures toon in st.table.names ==>
      var rec := st.table.store[st.table.names[toon]];
      PairError(rec).None? && !Gated(st, rec, kwargs) && rec["game"].Str? && rec["game"].s !in games ==>
        r == (st, Some(KeyError(rec["game"].s)))
  {
    if toon !in st.table.names then (st, None)
    else
      var id := st.table.names[toon];
      var rec := st.table.store[id];
      if PairError(rec).Some? then (st, PairError(rec))
      else if Gated(st, rec, kwargs) then (st, None)
      else if !(rec["game"].Str? && rec["game"].s in games) then (st, Some(UnknownGame(rec["game"])))
      else if "display_name" !in rec then (st, Some(KeyError("display_name")))
      else
        var prompted := Prompted(rec, w);
        var st1 := SetAccount(st, id, prompted);
        if prompted.Keys * kwargs.Keys != {} then (st1, Some(TypeError))
        else
          var at := w.login(prompted, kwargs);
          var st2 := SetAccount(st1, id, at.account);
          match at.result
          case Err(e) => (st2, Some(e))
          case Ok(ok) =>
            if ok then Register(st2, at.account, !Resets(rec, w) && at.needsChange)
            else if !Resets(rec, w) then (st2, None)
            else if "password" !in at.account then (st2, Some(KeyError("password")))
            else (SetAccount(st2, id, at.account - {"password"}), None)
  }

  /** `do_launch`'s loop over the toon names; the first raise ends it. */
  function LaunchAll(st: ShellState, toons: seq<string>, kwargs: map<string, Value>, w: LaunchWorld,
                     games: set<string>): (r: (ShellState, Option<Exc>))
    requires Valid(st.table)
    ensures Valid(r.0.table) && r.0.table.names == st.table.names
    ensures st.launched <= r.0.launched
  {
    if toons == [] then (st, None)
    else
      var (st1, e) := LaunchAll(st, toons[..|toons| - 1], kwargs, w, games);
      if e.Some? then (st1, e) else LaunchOne(st1, toons[|toons| - 1], kwargs, w, games)
  }

  /** `LaunchAll` over a concatenation: the second part runs only when the
      first did not raise. */
  lemma {:induction false} LaunchAllAppend(st: ShellState, a: seq<string>, b: seq<string>, kwargs: map<string, Value>,
                                           w: LaunchWorld, games: set<string>)
    requires Valid(st.table)
    ensures var p := LaunchAll(st, a, kwargs, w, games);
      LaunchAll(st, a + b, kwargs, w, games) == if p.1.Some? then p else LaunchAll(p.0, b, kwargs, w, games)
    decreases |b|
  {
    if b == [] {
      assert a + b == a;
    } else {
      var b' := b[..|b| - 1];
      assert (a + b)[..|a + b| - 1] == a + b';
      assert (a + b)[|a + b| - 1] == b[|b| - 1];
      LaunchAllAppend(st, a, b', kwargs, w, games);
    }
  }

  /** `LaunchAll` over a single name is one iteration. */
  lemma LaunchAllOne(st: ShellState, toon: string, kwargs: map<string, Value>, w: LaunchWorld, games: set<string>)
    requires Valid(st.table)
    ensures LaunchAll(st, [toon], kwargs, w, games) == LaunchOne(st, toon, kwargs, w, games)
  {
    assert [toon][..0] == [];
  }

  /** The duplicate-launch gate: an account whose `(game, login)` key is
      already launched is skipped, with nothing asked or changed, unless
      `force` is truthy; a forced or new account goes on to the game's
      login, and a login that returns true with nothing to save launches
      it. */
  lemma GateSkips(st: ShellState, toon: string, kwargs: map<string, Value>, w: LaunchWorld, games: set<string>)
    requires Valid(st.table) && toon in st.table.names
    requires PairError(st.table.store[st.table.names[toon]]).None?
    ensures var rec := st.table.store[st.table.names[toon]];
      PairOf(rec) in st.launched && !Truthy(Get(kwargs, "force")) ==> LaunchOne(st, toon, kwargs, w, games) == (st, None)
    ensures var rec := st.table.store[st.table.names[toon]];
      var at := w.login(Prompted(rec, w), kwargs);
      && (PairOf(rec) !in st.launched || Truthy(Get(kwargs, "force")))
      && rec["game"].Str? && rec["game"].s in games && "display_name" in rec
      && Prompted(rec, w).Keys * kwargs.Keys == {}
      && at.result == Ok(true) && (Resets(rec, w) || !at.needsChange) && PairError(at.account).None? ==>
        var r := LaunchOne(st, toon, kwargs, w, games);
        && r.1.None? && r.0.launched == st.launched + {PairOf(at.account)}
        && r.0.table.store[st.table.names[toon]] == at.account
  {
  }

  /** The accounts file is dumped during a launch only after a login that
      returned true and asked for it, with no password typed in this call,
      and the dump is the table with the account as the game left it. */
  lemma SaveOnlyWhenAsked(st: ShellState, toon: string, kwargs: map<string, Value>, w: LaunchWorld,
                          games: set<string>)
    requires Valid(st.table)
    ensures var r := LaunchOne(st, toon, kwargs, w, games);
      r.0.saved != st.saved ==>
        && toon in st.table.names
        && var id := st.table.names[toon];
        && var rec := st.table.store[id];
        && var at := w.login(Prompted(rec, w), kwargs);
        && at.result == Ok(true) && !Resets(rec, w) && at.needsChange
        && var t := st.table.(store := st.table.store[id := at.account]);
        && Saved(t).Ok? && r.0.saved == st.saved + [Saved(t).value]
  {
    var r := LaunchOne(st, toon, kwargs, w, games);
    if r.0.saved != st.saved {
      var id := st.table.names[toon];
      var rec := st.table.store[id];
      var prompted := Prompted(rec, w);
      var at := w.login(prompted, kwargs);
      var st2 := SetAccount(SetAccount(st, id, prompted), id, at.account);
      assert st2.table.store == st.table.store[id := at.account];
      assert r == Register(st2, at.account, !Resets(rec, w) && at.needsChange);
    }
  }

  /** A successful launch records the account's key, so naming the account
      again (by its name or by an alias) in the same command is skipped
      unless `force` is truthy. */
  lemma {:induction false} LaunchedOnceTwice(st: ShellState, a: string, b: string, kwargs: map<string, Value>,
                                             w: LaunchWorld, games: set<string>)
    requires Valid(st.table) && a in st.table.names && b in st.table.names
    requires st.table.names[a] == st.table.names[b]
    requires !Truthy(Get(kwargs, "force"))
    requires var r := LaunchOne(st, a, kwargs, w, games);
      && r.1.None?
      && PairError(r.0.table.store[r.0.table.names[a]]).None?
      && PairOf(r.0.table.store[r.0.table.names[a]]) in r.0.launched
    ensures LaunchAll(st, [a, b], kwargs, w, games) == LaunchOne(st, a, kwargs, w, games)
  {
    assert [a, b][..1] == [a];
    assert [a][..0] == [];
    var r := LaunchOne(st, a, kwargs, w, games);
    assert LaunchAll(st, [a], kwargs, w, games) == r;
    assert Gated(r.0, r.0.table.store[r.0.table.names[b]], kwargs);
  }

  /** A failed login with a password typed in this call does not keep it:
      the account is left without one, or the removal raises KeyError when
      the game already dropped it. Nothing is launched. */
  lemma PromptedPasswordDropped(st: ShellState, toon: string, kwargs: map<string, Value>, w: LaunchWorld,
                                games: set<string>)
    requires Valid(st.table) && toon in st.table.names
    requires var rec := st.table.store[st.table.names[toon]];
      && PairError(rec).None? && !Gated(st, rec, kwargs)
      && rec["game"].Str? && rec["game"].s in games && "display_name" in rec
      && Resets(rec, w)
      && Prompted(rec, w).Keys * kwargs.Keys == {} && w.login(Prompted(rec, w), kwargs).result == Ok(false)
    ensures var r := LaunchOne(st, toon, kwargs, w, games);
      var id := st.table.names[toon];
      var after := w.login(Prompted(st.table.store[id], w), kwargs).account;
      && r.0.launched == st.launched
      && (if "password" in after then r.1.None? && "password" !in r.0.table.store[id]
          else r.1 == Some(KeyError("password")))
  {
  }

  /** A toon is launched only by a login that returned true, under the key
      of the account as the game left it. */
  lemma LaunchOnlyOnSuccess(st: ShellState, toon: string, kwargs: map<string, Value>, w: LaunchWorld,
                            games: set<string>)
    requires Valid(st.table)
    ensures var r := LaunchOne(st, toon, kwargs, w, games);
      r.0.launched != st.launched ==>
        && toon in st.table.names
        && var at := w.login(Prompted(st.table.store[st.table.names[toon]], w), kwargs);
        && at.result == Ok(true) && r.1.None? && r.0.table.store[st.table.names[toon]] == at.account
        && PairError(at.account).None? && r.0.launched == st.launched + {PairOf(at.account)}
  {
  }

  // ---------------------------------------------------------------------
  // The shell object

  class ToonShell {
    /** The names of the registered games. */
    const games: set<string>
    var table: Table
    /** The `(game, login)` pairs of the launched games. */
    var launched: set<(Value, Value)>
    /** What each `save_accounts` call wrote, in order. */
    var saved: seq<map<string, Record>>

    function State(): ShellState
      reads this
    {
      ShellState(table, launched, saved)
    }

    /** A shell before its accounts are loaded. */
    constructor (games: set<string>)
      ensures this.games == games && table == Table(map[], []) && launched == {} && saved == []
      ensures Valid(table)
    {
      this.games := games;
      table := Table(map[], []);
      launched := {};
      saved := [];
    }

    /** `load_toons`: a fresh table from the file's entries. */
    method LoadToons(entries: seq<(string, Record)>) returns (r: Option<Exc>)
      modifies this`table
      ensures (table, r) == Load(entries, games)
      ensures Valid(table)
    {
      table := Table(map[], []);
      var i := 0;
      while i < |entries|
        invariant 0 <= i <= |entries|
        invariant (table, None) == Load(entries[..i], games)
      {
        assert entries[..i + 1][..i] == entries[..i];
        var (name, account) := entries[i];
        var id := |table.store|;
        table := Table(table.names[name := id], table.store + [account]);
        var e := EntryError(account, games);
        if e.Some? {
          LoadRest(entries, games, i + 1);
          return e;
        }
        if "aliases" in account {
          var aliases := AliasNames(account["aliases"]).value;
          ghost var bound, store := table.names, table.store;
          var j := 0;
          while j < |aliases|
            invariant 0 <= j <= |aliases|
            invariant table.store == store
            invariant Bind(bound, aliases, id) == Bind(table.names, aliases[j..], id)
          {
            assert aliases[j..][1..] == aliases[j + 1..];
            table := table.(names := table.names[aliases[j] := id]);
            j := j + 1;
          }
        }
        i := i + 1;
      }
      assert entries[..i] == entries;
      return None;
    }

    /** `save_accounts`: the dump it writes (or the exception it raises). */
    method SaveAccounts() returns (r: Result<map<string, Record>>)
      requires Valid(table)
      ensures r == Saved(table)
    {
      var accounts := map k | k in table.names :: table.store[table.names[k]];
      var remaining := table.names.Keys;
      ghost var dropped: set<string> := {};
      assert accounts == Without(table, dropped);
      while remaining != {}
        invariant remaining <= table.names.Keys
        invariant forall k :: k in table.names.Keys - remaining ==> ListedAsAlias(table, k).Ok?
        invariant dropped == set k | k in table.names.Keys - remaining && ListedAsAlias(table, k) == Ok(true)
        invariant accounts == Without(table, dropped)
        decreases remaining
      {
        var login :| login in remaining;
        var listed := In(login, AliasesOf(table.store[table.names[login]]));
        if listed.Err? {
          assert ListedAsAlias(table, login).Err?;
          return Err(TypeError);
        }
        if listed.value {
          accounts := accounts - {login};
          dropped := dropped + {login};
          assert accounts == Without(table, dropped);
        }
        remaining := remaining - {login};
      }
      assert !exists k :: k in table.names && ListedAsAlias(table, k).Err?;
      assert dropped == set k | k in table.names && ListedAsAlias(table, k) == Ok(true);
      return Ok(accounts);
    }

    /** `do_launch`: forgets games no longer running, then launches each
        toon named on the command line. */
    method DoLaunch(arg: string, w: LaunchWorld) returns (r: Option<Exc>)
      requires Valid(table)
      modifies this`table, this`launched, this`saved
      ensures Valid(table)
      ensures var st0 := ShellState(old(table), old(launched) * w.active, old(saved));
        match Extracted(Words(arg))
        case Err(e) => r == Some(e) && State() == st0
        case Ok((toons, kwargs)) => (State(), r) == LaunchAll(st0, toons, kwargs, w, games)
    {
      launched := launched * w.active;
      var parsed := ExtractKwargs(arg);
      if parsed.Err? {
        return Some(parsed.exc);
      }
      var (toons, kwargs) := parsed.value;
      r := LaunchToons(toons, kwargs, w);
    }

    /** The loop of `do_launch` over the toon names. */
    method LaunchToons(toons: seq<string>, kwargs: map<string, Value>, w: LaunchWorld) returns (r: Option<Exc>)
      requires Valid(table)
      modifies this`table, this`launched, this`saved
      ensures Valid(table)
      ensures (State(), r) == LaunchAll(old(State()), toons, kwargs, w, games)
    {
      ghost var st0 := State();
      var i := 0;
      while i < |toons|
        invariant 0 <= i <= |toons|
        invariant Valid(table)
        invariant (State(), None) == LaunchAll(st0, toons[..i], kwargs, w, games)
      {
        assert toons[..i + 1] == toons[..i] + [toons[i]];
        LaunchAllAppend(st0, toons[..i], [toons[i]], kwargs, w, games);
        LaunchAllOne(State(), toons[i], kwargs, w, games);
        var step := LaunchToon(toons[i], kwargs, w);
        if step.Some? {
          LaunchAllAppend(st0, toons[..i + 1], toons[i + 1..], kwargs, w, games);
          assert toons[..i + 1] + toons[i + 1..] == toons;
          return step;
        }
        i := i + 1;
      }
      assert toons[..i] == toons;
      return None;
    }

    /** One iteration of `do_launch`'s loop. */
    method LaunchToon(toon: string, kwargs: map<string, Value>, w: LaunchWorld) returns (r: Option<Exc>)
      requires Valid(table)
      modifies this`table, this`launched, this`saved
      ensures (State(), r) == LaunchOne(old(State()), toon, kwargs, w, games)
    {
      if toon !in table.names {
        return None;
      }
      var id := table.names[toon];
      var account := table.store[id];
      var keyError := PairError(account);
      if keyError.Some? {
        return keyError;
      }
      if (account["game"], account["login"]) in launched && !Truthy(Get(kwargs, "force")) {
        return None;
      }
      if !(account["game"].Str? && account["game"].s in games) {
        return Some(UnknownGame(account["game"]));
      }
      if "display_name" !in account {
        return Some(KeyError("display_name"));
      }
      var passwordReset := false;
      if "password" !in account && w.usesPassword(account["game"]) {
        passwordReset := true;
        account := account["password" := Str(w.typed)];
        table := table.(store := table.store[id := account]);
      }
      assert account == Prompted(old(table.store[id]), w);
      assert table.store == old(table.store)[id := account];
      if account.Keys * kwargs.Keys != {} {
        return Some(TypeError);
      }
      var attempt := w.login(account, kwargs);
      account := attempt.account;
      table := table.(store := table.store[id := account]);
      if attempt.result.Err? {
        return Some(attempt.result.exc);
      }
      if !attempt.result.value {
        if passwordReset {
          if "password" !in account {
            return Some(KeyError("password"));
          }
          table := table.(store := table.store[id := account - {"password"}]);
        }
        return None;
      }
      if !passwordReset && attempt.needsChange {
        var dump := SaveAccounts();
        if dump.Err? {
          return Some(dump.exc);
        }
        saved := saved + [dump.value];
      }
      keyError := PairError(account);
      if keyError.Some? {
        return keyError;
      }
      launched := launched + {(account["game"], account["login"])};
      return None;
    }
  }

  /** Once an entry raises, the rest of the file is not looked at. */
  lemma {:induction false} LoadRest(entries: seq<(string, Record)>, games: set<string>, i: nat)
    requires 0 < i <= |entries|
    requires Load(entries[..i], games).1.Some?
    ensures Load(entries, games) == Load(entries[..i], games)
    decreases |entries| - i
  {
    if i < |entries| {
      var init := entries[..|entries| - 1];
      assert init[..i] == entries[..i];
      LoadRest(init, games, i);
    } else {
      assert entries[..i] == entries;
    }
  }
}
