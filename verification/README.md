# toony-linux, modelled in Dafny

toony-linux is a command-line launcher for two Toontown servers, Corporate
Clash and Toontown Rewritten. It has four parts, and this project models
the logic at the core of each.

1. **Login driver.** A bounded loop calls one handler per login state
   (`Offline`, `LoginToken`, `Queue`, …). It stops as soon as the state is
   `Online`, which launches the game, or the payload is falsy.
2. **Patch engine.** It fetches the patch manifest, diffs it against the
   local file hashes, then downloads, checks and extracts each stale file
   and moves it into place.
3. **Per-game integrations.** Each game has decision tables that turn a
   server reply into the next login state, and a parser that turns a
   manifest into patch records.
4. **Shell.** This covers the command-line tokenizer, the account table
   with its aliases, and the `launch` command with its duplicate-launch
   gate and one-shot password prompt.

Modules:

- `values.dfy` (`Values`): Python values as the code sees them. It covers
  the untyped JSON/YAML `Value` and its truthiness, the exceptions the code
  raises (`Exc`), `Option`/`Result`, and Python's `in` operator.
- `login_driver.dfy` (`LoginDriver`):
  - the `LoginState` enum;
  - `Drive`, the driver as a function of a game's handlers (an
    `Integration`, whose handlers update a game-private session value);
  - the class `Game`, whose `ProcessStep` loop and `Login` update `state`,
    `username`, `password` and the session in place.
- `patching.dfy` (`Patching`):
  - `UpdaterFile`;
  - a game directory modelled as a value (a map from path to bytes, plus a
    set of directories);
  - specification functions for each step of the patch engine;
  - the class `Updater`, whose methods change `patchManifest`,
    `filesNeeded` and the filesystem in place.
- `corporate_clash.dfy` (`CorporateClash`): the Corporate Clash login
  handlers, `login`, `get_headers`, `revoke_token`, `start_game`'s
  environment and `ClashPatcher.get_partial_manifest`.
- `rewritten.dfy` (`Rewritten`): `get_login_state`, `process_offline`,
  `process_queued`, `start_game`'s environment and
  `RewrittenUpdater.get_partial_manifest`.
- `shell_args.dfy` (`ShellArgs`): `str.split()` and `extract_kwargs`.
- `shell.dfy` (`Shell`):
  - the account table that `load_toons` builds. A name and its aliases
    share one account dict, so the table maps names to indices into a
    store of dicts.
  - `save_accounts` and `resolve_account`;
  - `do_launch`, both as specification functions and as the class
    `ToonShell`.

The server, the user and the libraries are parameters:

- The login and token APIs are functions from the request count to a
  decoded reply.
- SHA-1, the decompressors and the HTTP download are fields of a `Library`
  value.
- What the user types is a string argument.
- A game's `login`, as the shell sees it, is a function from the account
  and the keyword arguments to an `Attempt`.

Where the code behaves in a way one might not expect, the model follows
the code:

- After ten handler calls without a decision, `process_step` returns
  `False`; it does not raise.
- An archive-hash mismatch raises and keeps the downloaded archive.
- A failed check of the extracted file's hash raises and leaves the `~`
  file in place.
- An algorithm other than gzip or bzip2 makes `decompress_file` write an
  empty file.

## Model

| member | source | states |
|---|---|---|
| Values.In | code/shell.py:56 | Python's `in`: on a list it tests item membership, on a dict key membership, and on a string whether the substring occurs at some index; on None, a bool or a number it raises TypeError |
| Values.ContainsAt | code/shell.py:56 | the recursive substring test holds iff the substring occurs at some index of the string |
| Values.Lower | code/game/corporate_clash.py:84 | `str.lower()` keeps the length and lower-cases each character |
| LoginDriver.Drive | code/common.py:86-101 | the loop makes at most `fuel` handler calls; it launches exactly when it returns True, only in state Online, with the environment that `start_game` builds from the final session and payload |
| LoginDriver.DriveShape | code/common.py:86-94 | there are between 1 and `fuel` calls; the first call gets the starting state (with no payload when Offline), and each later call gets the previous result's state and payload |
| LoginDriver.DriveOutcome | code/common.py:86-101 | a raise from the last handler is passed through; a last state of Online returns True when `start_game` succeeds and raises its exception when it does not, even with a falsy payload; the final state and payload are the last handler's |
| LoginDriver.DriveStops | code/common.py:86-101 | the driver returns False iff the last handler moved to a state other than Online and either its payload is falsy or the `fuel` calls ran out |
| LoginDriver.NeverConverges | code/common.py:88-94 | handlers that never end the loop use exactly `fuel` calls, and the driver then returns False without raising or launching |
| LoginDriver.Game.constructor | code/common.py:63-67 | a new game is Offline with no username, no password and nothing launched |
| LoginDriver.Game.TryLaunch | code/common.py:96-101 | Online calls `start_game` with the payload: True and the new environment when it succeeds, its exception with nothing launched when it raises; otherwise a falsy payload gives False and a truthy one gives None (continue) |
| LoginDriver.Game.ProcessStep | code/common.py:86-94 | the new state, session, result and launch are those of `Drive` with 10 steps from the current state, a raising `start_game` included; a True result leaves the game playable; the credentials are untouched |
| LoginDriver.Game.Login | code/common.py:80-84 | stores the login and password, resets the state to Offline, and then runs the loop |
| Patching.HashFile | code/common.py:189-199 | gives a digest exactly when the file exists, and raises FileNotFoundError otherwise |
| Patching.Verify | code/common.py:206-207 | True iff the file exists and its SHA-1 equals the expected hash; raises iff the file is missing |
| Patching.Gather | code/common.py:160-162 | the records gathered from all manifest files are never more than the sum of their counts |
| Patching.GatherMeaning | code/common.py:160-162 | gathering raises iff some manifest file raised, and then with the first one's exception; without a raise every record is kept |
| Patching.GatherAppend | code/common.py:160-162 | gathering a concatenation looks at the second part only when the first did not raise, and then puts the first part's records before the second's, so records come file by file in manifest order |
| Patching.GatherOne | code/common.py:160-162 | one manifest file contributes exactly its records and its raise |
| Patching.Collect | code/game/rewritten.py:77-85 | the loop of a `get_partial_manifest` appends at most one record per entry |
| Patching.CollectMeaning | code/game/rewritten.py:77-85 | the loop raises iff some entry fails, with the first failure; every record comes from an appended entry; without a raise every appended entry is present |
| Patching.CollectAppend | code/game/rewritten.py:77-85 | collecting a concatenation looks at the second part only when the first did not raise, and keeps the first part's records before the second's, so records keep manifest order |
| Patching.Diff | code/common.py:164-176 | `check_local_files` never selects more entries than the manifest has |
| Patching.DiffMeaning | code/common.py:164-176 | the stale entries are exactly the manifest entries whose local file is missing or whose hash differs |
| Patching.DiffAppend | code/common.py:164-176 | diffing keeps manifest order: the diff of a concatenation is the concatenation of the diffs |
| Patching.Extracted | code/common.py:209-226 | the archive is always removed and no other path but the output changes; a missing archive raises FileNotFoundError and leaves no output; otherwise the decompressor decides: inflated data gives 0 with the output holding it, a bad archive gives -1 with the output removed, and a crash is passed through with an empty output left behind |
| Patching.Acquired | code/common.py:228-266 | acquiring a file changes only the download path and its `~` twin, and no directories |
| Patching.AcquireOutcomes | code/common.py:228-266 | a failed download removes the download and raises, a plain OSError when there was a file to remove (always so after a failing write, since `open` created it) and the FileNotFoundError of `os.remove` otherwise; an archive-hash mismatch raises before extracting and keeps the download; a failed extraction raises and leaves neither file; a final hash mismatch raises and leaves the `~` file; success means both hashes matched and the entry's filename is now `key~` |
| Patching.AcquireSucceeds | code/common.py:242-266 | when the download succeeds and both hashes match, acquiring succeeds: the entry's filename becomes `key~`, the `~` file holds the decompressed archive, and the archive is gone |
| Patching.AcquireFrom | code/common.py:268-271 | acquiring in order renames each entry at most once; without a raise every entry is renamed; earlier entries are untouched |
| Patching.ReplaceOne | code/common.py:274-284 | on success the extracted file sits at the entry's path, its directory exists, and the source is gone; a missing source raises; only those two paths change, and no directory is removed |
| Patching.ReplaceAll | code/common.py:273-284 | replacing all entries changes no path outside theirs and removes no directory |
| Patching.ReplaceAllPlaces | code/common.py:273-284 | when the entries share no paths and nothing raises, each entry's place holds what its extracted file held, the extracted file is gone unless it is the place itself, and the place's directory exists |
| Patching.Updater.constructor | code/common.py:151-154 | the game directory gets a trailing separator, and both lists start empty |
| Patching.Updater.AppendEntries | code/game/rewritten.py:77-85 | the loop appends to `patchManifest` exactly the records of `Collect` and raises its exception |
| Patching.Updater.GetPatchManifest | code/common.py:160-162 | appends the gathered records and raises the first manifest file's exception |
| Patching.Updater.CheckLocalFiles | code/common.py:164-176 | appends exactly the stale manifest entries to `filesNeeded`, in manifest order |
| Patching.Updater.IsUpdated | code/common.py:178-187 | returns True iff nothing was already needed and no manifest entry is stale; both lists are then empty; a raising fetch keeps the records fetched so far |
| Patching.Updater.Extract | code/common.py:218-226 | the filesystem and the result are those of `Extracted` |
| Patching.Updater.AcquireFile | code/common.py:228-266 | the filesystem and the result are those of `Acquired` |
| Patching.Updater.DownloadGameFiles | code/common.py:268-271 | acquires the needed files in order, renaming each in place; the first failure is raised |
| Patching.Updater.ReplaceGameFiles | code/common.py:273-286 | moves each needed file into place as `ReplaceAll` does; both lists are cleared only when nothing raised |
| Patching.Updater.Run | code/common.py:288-298 | fetch, diff, download and replace, in that order; a fetch failure is raised and leaves the filesystem alone; otherwise the first download that raises is raised with the filesystem as the downloads left it, and else the result and filesystem are those of `ReplaceAll`; a clean run ends with empty lists |
| CorporateClash.GetHeaders | code/game/corporate_clash.py:26-28 | keeps every given header and adds the fixed user agent, which overrides a supplied one |
| CorporateClash.NewSession | code/game/corporate_clash.py:18-24 | a new game has no token, no forced toon slot, and nothing to save |
| CorporateClash.ProcessOffline | code/game/corporate_clash.py:70-110 | with no token: `(LoginToken, True)` and no request; a non-JSON reply gives `(Offline, True)` on 429 or non-Cloudflare text, and `(Offline, False)` for the captcha page; `bad_token` is checked first and deletes the token, marks the account and rejects; a truthy status gives Online with the token; `toonstep` rejects; a message containing 'A lot of Toons' retries and any other rejects; a missing `status`, `token` or `message` raises KeyError, and a message that `in` cannot search raises its TypeError |
| CorporateClash.ProcessLt | code/game/corporate_clash.py:41-68 | an empty password rejects without a request; the result is success iff the reply grants a token; success stores the token in the account and on the game, drops the password, marks the account and restarts from Offline; a non-JSON reply raises the JSON error; a missing `status` raises KeyError, and so does a truthy status without `token`; a falsy status rejects unless the message it prints raises: with `toonstep`, KeyError for a missing `id` or TypeError for one `%d` cannot format; without it, KeyError for a missing `message` or `reason` or TypeError for a `reason` `%d` cannot format |
| CorporateClash.Login | code/game/corporate_clash.py:33-39 | forces the toon slot, to the position value as given (a string from the shell), only when that value is not the number 6, takes the token, defaults a missing password to '', then runs the driver |
| CorporateClash.StartGameEnv | code/game/corporate_clash.py:112-117 | the environment holds exactly the game server, the play cookie and the forced toon slot |
| CorporateClash.FreshTokenLogin | code/game/corporate_clash.py:41-117 | with no token, the password is traded for a token and the next login launches the game: three handler calls, the token is kept and the account marked for saving, and the game starts with the game server, the new play cookie and the forced toon slot |
| CorporateClash.RateLimitedForever | code/game/corporate_clash.py:73-81 | a login that is always rate limited spends all ten steps and returns False |
| CorporateClash.RevokedTokenLogin | code/game/corporate_clash.py:93-97 | a revoked token ends the login after one call with False and removes the token from the account |
| CorporateClash.RevokeToken | code/game/corporate_clash.py:119-134 | an empty token gives None without a request; a non-JSON reply raises the JSON error; a truthy `bad_token` gives False; otherwise a missing `success` raises KeyError, and the result is True iff `success` is truthy |
| CorporateClash.ClashStep | code/game/corporate_clash.py:152-155 | an entry gives a record iff it has all four keys, with `fileName`, `filePath`, `sha1`, `compressed_sha1`, a hashed URL and gzip; otherwise it raises KeyError for a missing key |
| CorporateClash.ClashPartial | code/game/corporate_clash.py:146-155 | a non-200 status raises ConnectionError with nothing appended; an unparsable body raises the JSON error; a missing `files` raises KeyError |
| CorporateClash.ClashRecordsInOrder | code/game/corporate_clash.py:152-155 | a well-formed manifest gives one record per entry, in order, without raising |
| CorporateClash.GetPartialManifest | code/game/corporate_clash.py:146-155 | appends exactly `ClashPartial`'s records and raises its exception |
| Rewritten.GetLoginState | code/game/rewritten.py:26-44 | 'partial' with no code typed rejects, and with a code raises KeyError without a `responseToken` and TypeError (the undecoded second reply) with one; 'delayed' gives `(Queue, queueToken)`; 'true' gives Online with the whole reply; anything else rejects once the banner is read |
| Rewritten.ProcessOffline | code/game/rewritten.py:21-34 | posts and classifies the decoded reply with `GetLoginState`; a second request goes out exactly when a 2FA code is sent with the response token; a non-JSON reply raises |
| Rewritten.ProcessQueued | code/game/rewritten.py:46-54 | answers at once with Queue and a falsy payload |
| Rewritten.DelayedLoginFails | code/game/rewritten.py:36-54 | a queued login returns False after at most two calls and stays in Queue: the synchronous login never launches (the Timer retry is not part of this model) |
| Rewritten.LaunchesIffTrue | code/game/rewritten.py:21-60 | the synchronous login launches iff the first reply's success is 'true' and the reply has `gameserver` and `cookie`, and then with exactly those two values; a 'true' reply without either raises KeyError for the first one missing |
| Rewritten.StartGameEnv | code/game/rewritten.py:56-60 | the environment is built iff the payload has `gameserver` and `cookie`, and holds exactly those two values |
| Rewritten.TtrStep | code/game/rewritten.py:77-85 | an entry without `only` raises KeyError and an `only` that `in` cannot search raises TypeError; one whose `only` lacks 'linux2' is skipped; one that has it and all three keys gives a record with path = filename = the key, the `dl` network path, the two hashes, bzip2 and no hashed URL; any other failure is a KeyError |
| Rewritten.TtrPartial | code/game/rewritten.py:71-85 | a non-200 status raises ConnectionError with nothing appended; an unparsable body raises the JSON error |
| Rewritten.LinuxOnly | code/game/rewritten.py:77-85 | a well-formed manifest gives exactly the linux2 entries' records, in order |
| Rewritten.LinuxRecords | code/game/rewritten.py:77-85 | every kept record uses bzip2 and an unhashed URL |
| Rewritten.GetPartialManifest | code/game/rewritten.py:71-85 | appends exactly `TtrPartial`'s records and raises its exception |
| ShellArgs.Words | code/shell.py:64 | `str.split()` gives non-empty words with no white space |
| ShellArgs.WordsUnwords | code/shell.py:64 | splitting words joined by spaces gives the same words back |
| ShellArgs.Replaced | code/shell.py:67-68 | 'true'/'True' become True, 'false'/'False' become False, and any other value stays the same string |
| ShellArgs.SplitAtEquals | code/shell.py:66 | the key comes before the first '=' and rejoins with the value to form the word |
| ShellArgs.Classify | code/shell.py:65-71 | a word is positional iff it has no '='; it is rejected iff a second '=' follows the first; a keyword word is its key, '=' and its value, with 'true'/'false' turned into booleans |
| ShellArgs.Extracted | code/shell.py:62-72 | the only exception is the unpacking ValueError |
| ShellArgs.ExtractKwargs | code/shell.py:62-72 | the result is `Extracted` over the words of the argument |
| ShellArgs.ExtractedFails | code/shell.py:66 | `extract_kwargs` raises iff some word has two or more '=' |
| ShellArgs.ExtractedArgs | code/shell.py:70-71 | the positional arguments are exactly the words without '=', in input order |
| ShellArgs.Positionals | code/shell.py:70-71 | holds exactly the words without '=' |
| ShellArgs.ExtractedLastWins | code/shell.py:66-69 | each key takes the value of its last occurrence |
| ShellArgs.ExtractedKeys | code/shell.py:65-69 | a key is bound iff some keyword word names it |
| Shell.CheckGame | code/shell.py:47-48 | passes iff the account's game is a registered game name; an unregistered string raises ValueError('Unknown game …') |
| Shell.AliasNames | code/shell.py:49-51 | a list of strings binds exactly its items, and a string binds each of its characters in order; None, a bool or a number is not iterable |
| Shell.LoadEntry | code/shell.py:46-51 | the name is bound to a new account dict before the check, and the aliases to the same dict after it |
| Shell.Load | code/shell.py:40-51 | the dicts are the file's accounts in order; a raise comes from the last entry looked at |
| Shell.LoadFails | code/shell.py:45-48 | loading raises iff some entry is bad (an unknown game raises ValueError), and it is the first bad entry that raises |
| Shell.LastNaming | code/shell.py:44-51 | the last entry whose name or aliases include a name |
| Shell.LoadBindsLast | code/shell.py:44-51 | a name is bound iff some entry names it, and to the last such entry's dict |
| Shell.AliasesShareAccount | code/shell.py:44-51 | with distinct names and aliases, an entry's name and every alias map to that entry's one dict |
| Shell.ListedIffAlias | code/shell.py:55-57 | after a plain load, a name is listed among its own account's aliases iff it is an alias, not an entry's name |
| Shell.SavedNames | code/shell.py:53-57 | saving right after a plain load raises nothing and keeps exactly the entries' own names |
| Shell.LoadSaveRoundTrip | code/shell.py:40-60 | saving right after loading writes exactly the entries' names, each with its own account |
| Shell.ResolveAccount | code/shell.py:74-77 | a known name gives its account's login (KeyError without one); an unknown name gives None |
| Shell.AliasResolvesToLogin | code/shell.py:74-77 | an alias resolves to the same login as its account's name |
| Shell.PairError | code/shell.py:124 | the `(game, login)` key can be built iff both fields are present and hashable |
| Shell.Prompted | code/shell.py:132-135 | the typed password is added only when the account has none and its game uses passwords; nothing else changes |
| Shell.Register | code/shell.py:142-149 | the table is unchanged; the accounts file is dumped and kept iff saving was asked for and the dump succeeds, and a failing dump raises; without a raise the `(game, login)` pair joins the launched set, and only then |
| Shell.LaunchOne | code/shell.py:118-149 | one launch keeps the table valid and its names, and only adds to the launched set; an account whose game was never registered (reachable by reloading a file with an unknown game) raises KeyError with the game's name and changes nothing |
| Shell.LaunchAll | code/shell.py:118-149 | the same, for the whole loop |
| Shell.GateSkips | code/shell.py:118-149 | an already launched `(game, login)` is skipped with nothing changed unless `force` is truthy; conversely a known toon that is not yet launched (or forced) and whose login returns True is launched under its pair, with the account as the game left it |
| Shell.SaveOnlyWhenAsked | code/shell.py:137-149 | the accounts file is dumped during a launch only after a login that returned True, with no password typed in this call and a game asking for the change, and then with the updated account in the table |
| Shell.LaunchedOnceTwice | code/shell.py:124-149 | naming the same account twice (by name or alias) launches it once |
| Shell.PromptedPasswordDropped | code/shell.py:132-141 | after a failed login, a password typed in this call is removed from the account, or KeyError is raised if the game already dropped it; nothing is launched |
| Shell.LaunchOnlyOnSuccess | code/shell.py:137-149 | a toon is marked launched only after a login that returned True, under the key of the account as the game left it |
| Shell.ToonShell.constructor | code/shell.py:9-13 | a new shell has no accounts and nothing launched |
| Shell.ToonShell.LoadToons | code/shell.py:40-51 | the new table and the exception are those of `Load` |
| Shell.ToonShell.SaveAccounts | code/shell.py:53-60 | the dump is `Saved` of the table |
| Shell.ToonShell.DoLaunch | code/shell.py:113-149 | drops launched games that are no longer running, raises the tokenizer's error, then runs `LaunchAll` over the toon names |
| Shell.ToonShell.LaunchToons | code/shell.py:118-149 | the loop over the toon names changes the state as `LaunchAll` does, stopping at the first raise |
| Shell.ToonShell.LaunchToon | code/shell.py:118-149 | one iteration changes the state as `LaunchOne` does |

## Left out

- HTTP requests and JSON decoding: replies are inputs, already decoded, with a non-JSON body modelled as its status and text.
- SHA-1, gzip and bzip2 are the uninterpreted functions of `Library`. Reading in 8 KiB chunks is not modelled, since it gives the same digest.
- The filesystem: files and directories live in separate namespaces, so a directory where a file is expected is not modelled. `open` errors other than a missing file are not modelled either.
- Waiting and threads: `time.sleep`, and the `threading.Timer` retry that `process_queued` schedules. `process_queued` only gives its immediate answer.
- Terminal I/O: every `print` is dropped. `getpass` and `input` are the `typed` string of the world.
- Configuration: the YAML file, the `Config` singleton, game paths and the server URLs. Whether a game uses passwords is a function of the `LaunchWorld`.
- The OS handlers (code/handler/windows_handler.py, code/handler/native_handler.py): `launch`, `find`, `is_active` and `stop` are not part of this model. `do_launch`'s `filter_accounts` takes the set of still-running games as a parameter.
- `RewrittenUpdater.run`'s `chmod` subprocess.
- `update(force)` is not modelled: it passes an argument that `Updater.run` does not accept.
- The 2FA re-post in `get_login_state` sends a request and never decodes the reply; reading it raises TypeError. The model gives that TypeError and counts the request, but not what the request carries.
- Credentials sent to the servers: Corporate Clash's login APIs see the token or the password and the request count, not the username. Toontown Rewritten's login API sees only the request count, not the username, password, authenticator code, response token or queue token.
- Shell.AliasNames: dict-valued aliases and list aliases whose items are not strings are not bound. The model raises TypeError for them, whereas Python would bind the dict's keys or the items as they are.
- Shell.CheckGame: the text of the ValueError for a non-string game is not modelled.
- Values.Lower: lower-cases only ASCII letters. The captcha marker it is compared with is ASCII.
- CorporateClash.Login: the keyword arguments the shell passes through to `launch` are not modelled.
- Shell.LaunchOne: an unregistered game that is no string (a number, a bool or None) raises, in Python, a KeyError carrying that value; the model's KeyError carries only strings, so it is keyed "game". Constructing the game object is assumed to succeed. The game's `login` is an opaque function of the account and the keyword arguments.
- The ToonShell constructor does not run `load_toons`: Dafny constructors return no result, so `ToonShell.LoadToons` is a separate call.
- `do_notoken`, `do_update`, `do_accounts`, `do_disconnect` and `main.py` are not part of this model.
- Shell.Load: the accounts file is taken to be a mapping from string names to mappings. An empty file (`safe_load` gives None) or a top level that is not a mapping raises AttributeError at `accounts.items()`, and an account that is not a mapping raises TypeError at `account['game']`; neither is modelled.
- Patching.Updater.DownloadGameFiles: `check_local_files` appends to `files_needed` the same `UpdaterFile` objects that `patch_manifest` holds, so renaming one renames it in both lists. The model renames only the `filesNeeded` entry. No modelled outcome depends on the difference: `check_local_files` reads only `path` and `file_hash`, and an entry reaches `replace_game_files` only after its own `acquire_file` has set its name to the same `key~` again.
- Non-object JSON: a reply or manifest entry that is a list, string or number, where indexing or `.get` would raise TypeError or AttributeError, is not modelled; replies and entries are dicts.
- Exceptions are modelled by kind and, for KeyError, by the missing key; their message texts are not modelled.
- Manifest fields (`fileName`, `hash`, `dl`, …) are modelled as strings, and an entry's `only` as any value that `in` may search.
- The manifest-file URLs and the update URL are configuration: the updater takes the update URL as a parameter, and `GetPatchManifest` takes each manifest file's result.
- The game subprocess: Corporate Clash's `start_game` only builds its environment and never raises in the model; Toontown Rewritten's raises only the KeyError of a missing field.
- JSON numbers are integers: `Value` has no floats, so a float `id` or `reason`, which `'%d'` would format, is not modelled.
