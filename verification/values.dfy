/** Python-level values shared by every part of the model: optional values,
    results carrying a raised exception, the untyped payload that login steps
    hand to each other, and Python's truthiness of it. */
module Values {

  datatype Option<+T> = None | Some(value: T)

  /** A call either returns a value or raises a Python exception. */
  datatype Result<+T> = Ok(value: T) | Err(exc: Exc)

  /** The reasons for which the modelled OSError is raised by the updater. */
  datatype IoFailure =
    | DownloadFailed
    | ArchiveHashMismatch(expected: string, got: string)
    | ExtractFailed
    | FileHashMismatch

  /** The Python exceptions the modelled code raises or lets through. */
  datatype Exc =
    | AttributeError(name: string)     // getattr on a handler method that does not exist
    | KeyError(key: string)            // a dict lookup of a missing key
    | TypeError                        // subscripting a value that is not a dict
    | ValueError(message: string)
    | ConnectionError(status: int)     // a manifest fetch answered with a non-200 status
    | FileNotFoundError(path: string)
    | OSError(failure: IoFailure)
    | DecompressCrash                  // a decompressor error that is not an OSError

  /** The untyped carrier between login steps and the decoded JSON values the
      integrations look at: Python None, a bool, an int, a str, a list, or a
      dict with string keys. */
  datatype Value =
    | Nil
    | Bool(b: bool)
    | Num(n: int)
    | Str(s: string)
    | List(items: seq<Value>)
    | Dict(d: map<string, Value>)

  /** The body of an HTTP reply as the integrations see it: not JSON (with
      the status code and the text), or a decoded JSON object. Calling
      `.json()` on the first raises a JSONDecodeError. */
  datatype Reply = NotJson(status: int, text: string) | Json(fields: map<string, Value>)

  /** The ValueError subclass `.json()` and `json.loads` raise. */
  const JsonDecodeError: Exc := ValueError("JSONDecodeError")

  /** Python's `bool(v)`. */
  predicate Truthy(v: Value)
  {
    match v
    case Nil => false
    case Bool(b) => b
    case Num(n) => n != 0
    case Str(s) => s != ""
    case List(items) => items != []
    case Dict(d) => |d| > 0
  }

  /** `dict.get(key)` followed by a truth test, `None` standing for a missing key. */
  predicate TruthyAt(m: map<string, Value>, key: string)
  {
    key in m && Truthy(m[key])
  }

  /** Python's `sub in v` for a str `sub`: a substring test on a str, a
      membership test on a list, a key test on a dict, and a TypeError on
      anything else. */
  function In(sub: string, v: Value): (r: Result<bool>)
    ensures r.Err? <==> v.Nil? || v.Bool? || v.Num?
    ensures v.List? ==> r == Ok(Str(sub) in v.items)
    ensures v.Dict? ==> r == Ok(sub in v.d)
    ensures v.Str? ==> r == Ok(exists i :: OccursAt(v.s, sub, i))
  {
    match v
    case Str(s) =>
      ContainsAt(s, sub);
      Ok(Contains(s, sub))
    case List(items) => Ok(Str(sub) in items)
    case Dict(d) => Ok(sub in d)
    case _ => Err(TypeError)
  }

  predicate StartsWith(s: string, prefix: string)
  {
    |prefix| <= |s| && s[..|prefix|] == prefix
  }

  /** Python's `sub in s` on strings. */
  predicate Contains(s: string, sub: string)
    decreases |s|
  {
    StartsWith(s, sub) || (s != [] && Contains(s[1..], sub))
  }

  /** `sub` occurs in `s` at index `i`. */
  predicate OccursAt(s: string, sub: string, i: int)
  {
    0 <= i <= |s| - |sub| && s[i..i + |sub|] == sub
  }

  /** `sub` occurs in `s` exactly when it starts at some index of `s`. */
  lemma {:induction false} ContainsAt(s: string, sub: string)
    ensures Contains(s, sub) <==> exists i :: OccursAt(s, sub, i)
    decreases |s|
  {
    if StartsWith(s, sub) {
      assert OccursAt(s, sub, 0);
    }
    if s != [] {
      ContainsAt(s[1..], sub);
      if Contains(s[1..], sub) {
        var i :| OccursAt(s[1..], sub, i);
        assert s[i + 1..i + 1 + |sub|] == s[1..][i..i + |sub|];
        assert OccursAt(s, sub, i + 1);
      }
      if i :| OccursAt(s, sub, i) && i > 0 {
        assert s[1..][i - 1..i - 1 + |sub|] == s[i..i + |sub|];
        assert OccursAt(s[1..], sub, i - 1);
      }
    }
  }

  /** Python's `str.lower()` on the ASCII range. */
  function Lower(s: string): (r: string)
    ensures |r| == |s|
    ensures forall i :: 0 <= i < |s| ==> r[i] == LowerChar(s[i])
  {
    seq(|s|, i requires 0 <= i < |s| => LowerChar(s[i]))
  }

  function LowerChar(c: char): char
  {
    if 'A' <= c <= 'Z' then (c as int + 32) as char else c
  }
}
