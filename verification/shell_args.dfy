/** The command-line tokenizer of code/shell.py: `str.split()` and
    `extract_kwargs`. */
module ShellArgs {
  import opened Values

  // ---------------------------------------------------------------------
  // str.split()

  /** The characters `str.split()` with no separator splits on. */
  predicate IsSpace(c: char)
  {
    var n := c as int;
    || (9 <= n <= 13) || (28 <= n <= 32) || n == 0x85 || n == 0xA0 || n == 0x1680
    || (0x2000 <= n <= 0x200A) || n == 0x2028 || n == 0x2029 || n == 0x202F || n == 0x205F || n == 0x3000
  }

  /** A non-empty run of non-space characters. */
  predicate Word(w: string)
  {
    w != [] && forall i :: 0 <= i < |w| ==> !IsSpace(w[i])
  }

  /** `s` with its leading white space removed. */
  function SkipSpace(s: string): (t: string)
    ensures |t| <= |s|
    ensures t != [] ==> !IsSpace(t[0])
  {
    if s != [] && IsSpace(s[0]) then SkipSpace(s[1..]) else s
  }

  /** The length of the longest prefix of `s` without white space. */
  function WordLength(s: string): (n: nat)
    ensures n <= |s|
    ensures forall i :: 0 <= i < n ==> !IsSpace(s[i])
    ensures n < |s| ==> IsSpace(s[n])
  {
    if s == [] || IsSpace(s[0]) then 0 else 1 + WordLength(s[1..])
  }

  /** `s.split()`: the maximal runs of non-space characters, in order. */
  function Words(s: string): (ws: seq<string>)
    ensures forall i :: 0 <= i < |ws| ==> Word(ws[i])
    decreases |s|
  {
    var t := SkipSpace(s);
    if t == [] then []
    else
      var n := WordLength(t);
      [t[..n]] + Words(t[n..])
  }

  /** The words joined with single spaces. */
  function Unwords(ws: seq<string>): string
  {
    if ws == [] then "" else if |ws| == 1 then ws[0] else ws[0] + " " + Unwords(ws[1..])
  }

  lemma {:induction false} WordLengthOf(w: string, tail: string)
    requires Word(w)
    requires tail == [] || IsSpace(tail[0])
    ensures WordLength(w + tail) == |w|
    decreases |w|
  {
    if |w| > 1 {
      assert (w + tail)[1..] == w[1..] + tail;
      WordLengthOf(w[1..], tail);
    } else {
      assert (w + tail)[1..] == tail;
    }
  }

  /** A word followed by white space (or nothing) is the first word. */
  lemma WordsOfWordThen(w: string, tail: string)
    requires Word(w)
    requires tail == [] || IsSpace(tail[0])
    ensures Words(w + tail) == [w] + Words(tail)
  {
    assert (w + tail)[0] == w[0];
    assert SkipSpace(w + tail) == w + tail;
    WordLengthOf(w, tail);
    assert (w + tail)[..|w|] == w;
    assert (w + tail)[|w|..] == tail;
  }

  /** Leading white space does not change the words. */
  lemma WordsAfterSpace(c: char, s: string)
    requires IsSpace(c)
    ensures Words([c] + s) == Words(s)
  {
    assert ([c] + s)[1..] == s;
    assert SkipSpace([c] + s) == SkipSpace(s);
  }

  /** Splitting words joined by spaces gives the words back. */
  lemma {:induction false} WordsUnwords(ws: seq<string>)
    requires forall i :: 0 <= i < |ws| ==> Word(ws[i])
    ensures Words(Unwords(ws)) == ws
  {
    if |ws| == 1 {
      WordsOfWordThen(ws[0], "");
      assert ws[0] + "" == ws[0];
    } else if |ws| > 1 {
      var rest := Unwords(ws[1..]);
      assert Unwords(ws) == ws[0] + (" " + rest);
      WordsOfWordThen(ws[0], " " + rest);
      assert " " + rest == [' '] + rest;
      WordsAfterSpace(' ', rest);
      WordsUnwords(ws[1..]);
      assert [ws[0]] + ws[1..] == ws;
    }
  }

  // ---------------------------------------------------------------------
  // extract_kwargs

  /** `value_replacements`: the four boolean spellings become booleans, any
      other value stays the string it was. */
  function Replaced(value: string): (v: Value)
    ensures v == Bool(true) <==> value == "true" || value == "True"
    ensures v == Bool(false) <==> value == "false" || value == "False"
    ensures !v.Bool? ==> v == Str(value)
  {
    if value == "true" || value == "True" then Bool(true)
    else if value == "false" || value == "False" then Bool(false)
    else Str(value)
  }

  /** The index of the first `c` in `s`. */
  function IndexOf(s: string, c: char): (i: nat)
    requires c in s
    ensures i < |s| && s[i] == c && c !in s[..i]
  {
    if s[0] == c then 0
    else
      assert c in s[1..] by { var k :| 0 <= k < |s| && s[k] == c; assert s[1..][k - 1] == c; }
      var i := 1 + IndexOf(s[1..], c);
      assert s[..i] == [s[0]] + s[1..][..i - 1];
      i
  }

  /** The two halves around the first '='. */
  function SplitAtEquals(w: string): (kv: (string, string))
    requires '=' in w
    ensures kv.0 + "=" + kv.1 == w
    ensures '=' !in kv.0
  {
    var i := IndexOf(w, '=');
    assert w == w[..i] + "=" + w[i + 1..];
    (w[..i], w[i + 1..])
  }

  /** What one word of the command line is: a positional argument, a
      keyword argument, or a word whose `split('=')` has more than two parts,
      which the unpacking rejects. */
  datatype Token = Positional(arg: string) | Keyword(key: string, value: Value) | TooManyParts

  function Classify(w: string): (t: Token)
    ensures t.Positional? <==> '=' !in w
    ensures t.Positional? ==> t.arg == w
    ensures t.TooManyParts? <==> '=' in w && '=' in SplitAtEquals(w).1
    // a word with exactly one '=' binds the text before it to the text after it
    ensures t.Keyword? ==>
      var v := SplitAtEquals(w).1;
      '=' !in v && w == t.key + "=" + v && t.value == Replaced(v)
  {
    if '=' !in w then Positional(w)
    else
      var (k, v) := SplitAtEquals(w);
      if '=' in v then TooManyParts else Keyword(k, Replaced(v))
  }

  /** The exception of a word with two or more '='. */
  const Unpacking: Exc := ValueError("too many values to unpack (expected 2)")

  /** `extract_kwargs` on the words seen so far: positional words in order,
      keyword words into the map, a later key replacing an earlier one. */
  function Extracted(words: seq<string>): (r: Result<(seq<string>, map<string, Value>)>)
    ensures r.Err? ==> r.exc == Unpacking
  {
    if words == [] then Ok(([], map[]))
    else
      match Extracted(words[..|words| - 1])
      case Err(e) => Err(e)
      case Ok((args, kwargs)) =>
        match Classify(words[|words| - 1])
        case Positional(a) => Ok((args + [a], kwargs))
        case Keyword(k, v) => Ok((args, kwargs[k := v]))
        case TooManyParts => Err(Unpacking)
  }

  /** `Extracted` over one more word. */
  lemma ExtractedSnoc(words: seq<string>, w: string)
    ensures Extracted(words + [w]) ==
      match Extracted(words)
      case Err(e) => Err(e)
      case Ok((args, kwargs)) =>
        match Classify(w)
        case Positional(a) => Ok((args + [a], kwargs))
        case Keyword(k, v) => Ok((args, kwargs[k := v]))
        case TooManyParts => Err(Unpacking)
  {
    assert (words + [w])[..|words|] == words;
  }

  /** `extract_kwargs` */
  method ExtractKwargs(arg: string) returns (r: Result<(seq<string>, map<string, Value>)>)
    ensures r == Extracted(Words(arg))
  {
    var words := Words(arg);
    var args: seq<string> := [];
    var kwargs: map<string, Value> := map[];
    var i := 0;
    while i < |words|
      invariant 0 <= i <= |words|
      invariant Extracted(words[..i]) == Ok((args, kwargs))
    {
      ExtractedSnoc(words[..i], words[i]);
      assert words[..i + 1] == words[..i] + [words[i]];
      var w := words[i];
      if '=' in w {
        var (key, value) := SplitAtEquals(w);
        if '=' in value {
          assert Classify(words[i]).TooManyParts?;
          ExtractedFails(words);
          return Err(Unpacking);
        }
        kwargs := kwargs[key := Replaced(value)];
      } else {
        args := args + [w];
      }
      i := i + 1;
    }
    assert words[..i] == words;
    return Ok((args, kwargs));
  }

  /** The words rejected by the unpacking are exactly what makes
      `extract_kwargs` raise. */
  lemma {:induction false} ExtractedFails(words: seq<string>)
    ensures Extracted(words).Err? <==> exists i :: 0 <= i < |words| && Classify(words[i]).TooManyParts?
  {
    if words != [] {
      var init := words[..|words| - 1];
      ExtractedFails(init);
      assert forall i :: 0 <= i < |init| ==> init[i] == words[i];
    }
  }

  /** The positional arguments are exactly the words without '=', in order. */
  lemma {:induction false} ExtractedArgs(words: seq<string>)
    requires Extracted(words).Ok?
    ensures Extracted(words).value.0 == Positionals(words)
  {
    if words != [] {
      var init := words[..|words| - 1];
      ExtractedArgs(init);
      PositionalsSnoc(init, words[|words| - 1]);
      assert init + [words[|words| - 1]] == words;
    }
  }

  /** The words without '=', in order. */
  function Positionals(words: seq<string>): (r: seq<string>)
    ensures forall a :: a in r <==> a in words && '=' !in a
  {
    if words == [] then []
    else (if '=' !in words[0] then [words[0]] else []) + Positionals(words[1..])
  }

  lemma {:induction false} PositionalsSnoc(words: seq<string>, w: string)
    ensures Positionals(words + [w]) == Positionals(words) + if '=' !in w then [w] else []
  {
    if words == [] {
      assert words + [w] == [w];
      assert [w][1..] == [];
    } else {
      assert (words + [w])[0] == words[0];
      assert (words + [w])[1..] == words[1..] + [w];
      PositionalsSnoc(words[1..], w);
    }
  }

  /** Each keyword takes the value of its last occurrence. */
  lemma {:induction false} ExtractedLastWins(words: seq<string>, i: nat)
    requires Extracted(words).Ok?
    requires i < |words| && Classify(words[i]).Keyword?
    requires forall j :: i < j < |words| ==> !(Classify(words[j]).Keyword? && Classify(words[j]).key == Classify(words[i]).key)
    ensures var t := Classify(words[i]);
      t.key in Extracted(words).value.1 && Extracted(words).value.1[t.key] == t.value
  {
    var init := words[..|words| - 1];
    assert forall j :: 0 <= j < |init| ==> init[j] == words[j];
    if i < |words| - 1 {
      ExtractedLastWins(init, i);
    }
  }

  /** A key is bound exactly when some keyword word names it. */
  lemma {:induction false} ExtractedKeys(words: seq<string>, k: string)
    requires Extracted(words).Ok?
    ensures k in Extracted(words).value.1 <==>
      exists i :: 0 <= i < |words| && Classify(words[i]).Keyword? && Classify(words[i]).key == k
  {
    if words != [] {
      var init := words[..|words| - 1];
      assert forall j :: 0 <= j < |init| ==> init[j] == words[j];
      ExtractedKeys(init, k);
    }
  }
}
