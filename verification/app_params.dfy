/**
 * The `--application-parameters KEY=VALUE [KEY=VALUE ...]` option of the
 * application commands: an argument action that turns its tokens into a
 * key/value mapping and stores it on the parsed-arguments namespace.
 */
module AppParams {
  import opened Wrappers

  /** The position of the first occurrence of `c` in `s`, if any. */
  function IndexOf(s: string, c: char): (r: Option<nat>)
    ensures r.None? <==> c !in s
    ensures r.Some? ==> r.value < |s| && s[r.value] == c && c !in s[..r.value]
  {
    if s == [] then None
    else if s[0] == c then Some(0)
    else
      match IndexOf(s[1..], c)
      case None => None
      case Some(i) =>
        assert s[..i + 1] == [s[0]] + s[1..][..i];
        Some(i + 1)
  }

  /**
   * Splitting a token at its first `=` and unpacking the two pieces: `None`
   * when the token has no `=` (the unpacking fails), otherwise the text
   * before the first `=` and everything after it.
   */
  function SplitAtFirst(token: string): (r: Option<(string, string)>)
    ensures r.None? <==> '=' !in token
    ensures r.Some? ==> token == r.value.0 + "=" + r.value.1 && '=' !in r.value.0
  {
    match IndexOf(token, '=')
    case None => None
    case Some(i) =>
      assert token == token[..i] + "=" + token[i + 1..];
      Some((token[..i], token[i + 1..]))
  }

  /** The key and value that the token contributes. */
  predicate Defines(token: string, key: string, value: string) {
    SplitAtFirst(token) == Some((key, value))
  }

  /** Joining a key without `=` and any value, and splitting again, gives them back. */
  lemma SplitAtFirstOfJoin(key: string, value: string)
    requires '=' !in key
    ensures SplitAtFirst(key + "=" + value) == Some((key, value))
  {
    var token := key + "=" + value;
    assert token[|key|] == '=';
    assert forall j :: 0 <= j < |key| ==> token[j] == key[j];
    var i := IndexOf(token, '=').value;
    assert i == |key|;
    assert token[..i] == key;
    assert token[i + 1..] == value;
  }

  /**
   * What the tokens denote: `None` when some token has no `=`, otherwise the
   * mapping obtained by storing the tokens' pairs in order, a later key
   * overwriting an earlier one.
   */
  function ParseTokens(tokens: seq<string>): Option<map<string, string>>
  {
    if tokens == [] then Some(map[])
    else
      match ParseTokens(tokens[..|tokens| - 1])
      case None => None
      case Some(m) =>
        match SplitAtFirst(tokens[|tokens| - 1])
        case None => None
        case Some((k, v)) => Some(m[k := v])
  }

  /** The parse fails exactly when some token lacks an `=`. */
  lemma {:induction false} ParseFailsIffSeparatorMissing(tokens: seq<string>)
    ensures ParseTokens(tokens).None? <==> exists i :: 0 <= i < |tokens| && '=' !in tokens[i]
  {
    if tokens != [] {
      var init := tokens[..|tokens| - 1];
      ParseFailsIffSeparatorMissing(init);
      if ParseTokens(init).None? {
        var i :| 0 <= i < |init| && '=' !in init[i];
        assert tokens[i] == init[i];
      } else if '=' in tokens[|tokens| - 1] {
        forall i | 0 <= i < |tokens|
          ensures '=' in tokens[i]
        {
          if i < |init| { assert tokens[i] == init[i]; }
        }
      }
    }
  }

  /** On success, every key of the mapping is defined by some token. */
  lemma {:induction false} ParseKeysSound(tokens: seq<string>, m: map<string, string>, k: string)
    requires ParseTokens(tokens) == Some(m)
    requires k in m
    ensures exists i, v :: 0 <= i < |tokens| && Defines(tokens[i], k, v)
  {
    var init := tokens[..|tokens| - 1];
    var m0 := ParseTokens(init).value;
    var last := |tokens| - 1;
    var (k1, v1) := SplitAtFirst(tokens[last]).value;
    assert m == m0[k1 := v1];
    if k == k1 {
      assert Defines(tokens[last], k, v1);
    } else {
      ParseKeysSound(init, m0, k);
      var i, v :| 0 <= i < |init| && Defines(init[i], k, v);
      assert tokens[i] == init[i];
      assert Defines(tokens[i], k, v);
    }
  }

  /** On success, every key some token defines is in the mapping. */
  lemma {:induction false} ParseKeysComplete(tokens: seq<string>, m: map<string, string>, i: nat, k: string, v: string)
    requires ParseTokens(tokens) == Some(m)
    requires i < |tokens| && Defines(tokens[i], k, v)
    ensures k in m
  {
    var init := tokens[..|tokens| - 1];
    var m0 := ParseTokens(init).value;
    var last := |tokens| - 1;
    var (k1, v1) := SplitAtFirst(tokens[last]).value;
    assert m == m0[k1 := v1];
    if i < last {
      assert init[i] == tokens[i];
      ParseKeysComplete(init, m0, i, k, v);
    }
  }

  /** On success, the keys of the mapping are exactly the keys of the tokens. */
  lemma ParseKeys(tokens: seq<string>, m: map<string, string>)
    requires ParseTokens(tokens) == Some(m)
    ensures forall k :: k in m <==> exists i, v :: 0 <= i < |tokens| && Defines(tokens[i], k, v)
  {
    forall k
      ensures k in m <==> exists i, v :: 0 <= i < |tokens| && Defines(tokens[i], k, v)
    {
      if k in m {
        ParseKeysSound(tokens, m, k);
      }
      if exists i, v :: 0 <= i < |tokens| && Defines(tokens[i], k, v) {
        var i, v :| 0 <= i < |tokens| && Defines(tokens[i], k, v);
        ParseKeysComplete(tokens, m, i, k, v);
      }
    }
  }

  /** On success, a key is bound to the value of its last occurrence. */
  lemma {:induction false} ParseLastWins(tokens: seq<string>, m: map<string, string>, i: nat, k: string, v: string)
    requires ParseTokens(tokens) == Some(m)
    requires i < |tokens| && Defines(tokens[i], k, v)
    requires forall j, w :: i < j < |tokens| ==> !Defines(tokens[j], k, w)
    ensures k in m && m[k] == v
  {
    var init := tokens[..|tokens| - 1];
    var m0 := ParseTokens(init).value;
    var last := |tokens| - 1;
    var (k1, v1) := SplitAtFirst(tokens[last]).value;
    assert m == m0[k1 := v1];
    if i < last {
      assert Defines(tokens[last], k1, v1);
      assert k1 != k;
      assert init[i] == tokens[i];
      forall j, w | i < j < |init|
        ensures !Defines(init[j], k, w)
      {
        assert init[j] == tokens[j];
      }
      ParseLastWins(init, m0, i, k, v);
    }
  }

  /** Worked examples of the split: empty pieces are accepted, and only the first `=` splits. */
  lemma SplitExamples()
    ensures SplitAtFirst("k=") == Some(("k", ""))
    ensures SplitAtFirst("=v") == Some(("", "v"))
    ensures SplitAtFirst("a=b=c") == Some(("a", "b=c"))
    ensures SplitAtFirst("Mode") == None
  {
    SplitAtFirstOfJoin("k", "");
    assert "k" + "=" + "" == "k=";
    SplitAtFirstOfJoin("", "v");
    assert "" + "=" + "v" == "=v";
    SplitAtFirstOfJoin("a", "b=c");
    assert "a" + "=" + "b=c" == "a=b=c";
    assert 'M' == "Mode"[0] && 'o' == "Mode"[1] && 'd' == "Mode"[2] && 'e' == "Mode"[3];
  }

  /** The application-type scenario passes `Mode=binary` and expects `{Mode: binary}`. */
  lemma ModeBinaryExample()
    ensures ParseTokens(["Mode=binary"]) == Some(map["Mode" := "binary"])
  {
    var tokens := ["Mode=binary"];
    SplitAtFirstOfJoin("Mode", "binary");
    assert "Mode" + "=" + "binary" == "Mode=binary";
    assert tokens[..0] == [];
    assert ParseTokens(tokens[..0]) == Some(map[]);
  }

  /** Two tokens with different keys give both pairs. */
  lemma TwoKeysExample()
    ensures ParseTokens(["A=1", "B=2"]) == Some(map["A" := "1", "B" := "2"])
  {
    var tokens := ["A=1", "B=2"];
    SplitAtFirstOfJoin("A", "1");
    assert "A" + "=" + "1" == "A=1";
    SplitAtFirstOfJoin("B", "2");
    assert "B" + "=" + "2" == "B=2";
    assert tokens[..1] == ["A=1"] && tokens[..1][..0] == [];
    assert ParseTokens(tokens[..1]) == Some(map["A" := "1"]);
  }

  /** The message of the usage error, naming the option as written (Python prints a missing one as `None`). */
  function UsageError(optionString: Option<string>): string {
    var option := match optionString case Some(s) => s case None => "None";
    "usage error: " + option + " KEY=VALUE [KEY=VALUE ...]"
  }

  /**
   * The loop of the action: split every token at its first `=` and store the
   * pair in a fresh dictionary; the first token without `=` raises the usage
   * error.
   */
  method BuildParams(values: seq<string>, optionString: Option<string>)
      returns (r: Result<map<string, string>, string>)
    ensures r.Success? <==> forall i :: 0 <= i < |values| ==> '=' in values[i]
    ensures r.Success? ==> ParseTokens(values) == Some(r.value)
    ensures r.Failure? ==> r.error == UsageError(optionString)
  {
    ParseFailsIffSeparatorMissing(values);
    var params := map[];
    for i := 0 to |values|
      invariant ParseTokens(values[..i]) == Some(params)
    {
      match SplitAtFirst(values[i]) {
        case None =>
          return Failure(UsageError(optionString));
        case Some((key, value)) =>
          assert values[..i + 1][..i] == values[..i];
          params := params[key := value];
      }
    }
    assert values[..|values|] == values;
    return Success(params);
  }

  /** The parsed-arguments namespace, reduced to the attribute the action sets. */
  class Namespace {
    var applicationParameters: Option<map<string, string>>

    constructor (initial: Option<map<string, string>>)
      ensures applicationParameters == initial
    {
      applicationParameters := initial;
    }
  }

  /**
   * The action itself: on success the namespace's `application_parameters`
   * is replaced by the new mapping (earlier values are not kept); on a usage
   * error it is left as it was.
   */
  method AddAppParams(namespace: Namespace, values: seq<string>, optionString: Option<string>)
      returns (r: Result<(), string>)
    modifies namespace
    ensures r.Failure? <==> exists i :: 0 <= i < |values| && '=' !in values[i]
    ensures r.Failure? ==> r.error == UsageError(optionString)
    ensures r.Failure? ==> namespace.applicationParameters == old(namespace.applicationParameters)
    ensures r.Success? ==> namespace.applicationParameters == ParseTokens(values)
  {
    var params := BuildParams(values, optionString);
    match params {
      case Failure(message) =>
        return Failure(message);
      case Success(m) =>
        namespace.applicationParameters := Some(m);
        return Success(());
    }
  }
}
