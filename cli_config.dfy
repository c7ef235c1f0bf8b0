/**
 * The command-line side of the config command, `juju_spell/cli/config.py`:
 * the `KeyValue` argparse action that turns `--config-set a=1 b=2` into a
 * dictionary on the parsed namespace, and `get_application_config`, which
 * turns the top-level entries of a loaded YAML mapping into
 * `ApplicationConfig` records.
 *
 * The YAML file is taken as already loaded: a mapping is a sequence of
 * (application, configuration) entries in the order the mapping iterates.
 */
module CliConfig {
  import opened Wrappers
  import opened ConfigCommand

  /** The message Python gives when `key, value = [token]` cannot unpack. */
  const UNPACK_MESSAGE := "not enough values to unpack (expected 2, got 1)"

  /** The index of the first `c` in `s`, if there is one. */
  function FirstIndex(s: string, c: char): (r: Option<nat>)
    ensures r.None? <==> c !in s
    ensures r.Some? ==> r.value < |s| && s[r.value] == c && c !in s[..r.value]
  {
    if s == [] then None
    else if s[0] == c then Some(0)
    else
      match FirstIndex(s[1..], c)
      case None => None
      case Some(i) =>
        assert s[..i + 1] == [s[0]] + s[1..][..i];
        Some(i + 1)
  }

  /**
   * `key, value = token.split("=", 1)`: the token is cut at its first "=",
   * so the value keeps any later "="; without an "=" the split gives one
   * part and the unpacking raises.
   */
  function SplitFirst(token: string): (r: Outcome<(string, string)>)
    ensures r.Raised? <==> '=' !in token
    ensures r.Raised? ==> r.error == ValueError(UNPACK_MESSAGE)
    ensures r.Returned? ==> r.value.0 + "=" + r.value.1 == token && '=' !in r.value.0
  {
    match FirstIndex(token, '=')
    case None => Raised(ValueError(UNPACK_MESSAGE))
    case Some(i) =>
      assert token[..i] + "=" + token[i + 1..] == token;
      Returned((token[..i], token[i + 1..]))
  }

  /** The token a user writes for the pair (key, value). */
  function Join(key: string, value: string): string
  {
    key + "=" + value
  }

  /** Splitting a written pair gives the pair back, whatever "=" its value holds. */
  lemma SplitJoin(key: string, value: string)
    requires '=' !in key
    ensures SplitFirst(Join(key, value)) == Returned((key, value))
  {
    var t := Join(key, value);
    assert t[|key|] == '=' && t[..|key|] == key;
    var r := SplitFirst(t);
    var k := r.value.0;
    assert k + "=" + r.value.1 == t;
    assert |k| == |key|;
    assert k == t[..|k|];
    assert r.value.1 == t[|k| + 1..];
  }

  /** The dictionary the action has built, and how the action ended. */
  datatype Filled = Filled(config: Config, outcome: Outcome<()>)

  /**
   * The loop of `KeyValue.__call__` from dictionary `acc`: each token is split
   * and stored under its key, a later token overriding an earlier one; at a
   * token without "=" the exception leaves the dictionary as it stands.
   */
  function Fill(tokens: seq<string>, acc: Config): Filled
  {
    if tokens == [] then Filled(acc, Returned(()))
    else
      match SplitFirst(tokens[0])
      case Raised(e) => Filled(acc, Raised(e))
      case Returned(kv) =>
        Fill(tokens[1..], acc[kv.0 := kv.1])
  }

  /** One step of the loop: the token at `i` is split and its pair stored, or it raises. */
  lemma FillAt(tokens: seq<string>, i: nat, acc: Config)
    requires i < |tokens|
    ensures var kv := SplitFirst(tokens[i]);
            Fill(tokens[i..], acc) ==
              if kv.Raised? then Filled(acc, Raised(kv.error))
              else Fill(tokens[i + 1..], acc[kv.value.0 := kv.value.1])
  {
    assert tokens[i..][0] == tokens[i] && tokens[i..][1..] == tokens[i + 1..];
  }

  /**
   * Reference definition of the stored value: the value of the last token
   * whose key is `key` (a token without "=" has no key).
   */
  function LastValue(tokens: seq<string>, key: string): Option<string>
  {
    if tokens == [] then None
    else
      var last := SplitFirst(tokens[|tokens| - 1]);
      if last.Returned? && last.value.0 == key then Some(last.value.1)
      else LastValue(tokens[..|tokens| - 1], key)
  }

  /** Filling one more well-formed token after `tokens` stores its pair last. */
  lemma {:induction false} FillSnoc(tokens: seq<string>, t: string, acc: Config)
    requires forall i :: 0 <= i < |tokens| ==> '=' in tokens[i]
    requires '=' in t
    ensures Fill(tokens, acc).outcome.Returned? && Fill(tokens + [t], acc).outcome.Returned?
    ensures Fill(tokens + [t], acc).config ==
              Fill(tokens, acc).config[SplitFirst(t).value.0 := SplitFirst(t).value.1]
    decreases |tokens|
  {
    if tokens == [] {
      assert [t][1..] == [];
    } else {
      var kv := SplitFirst(tokens[0]).value;
      assert (tokens + [t])[0] == tokens[0];
      assert (tokens + [t])[1..] == tokens[1..] + [t];
      assert forall i :: 0 <= i < |tokens[1..]| ==> tokens[1..][i] == tokens[i + 1];
      FillSnoc(tokens[1..], t, acc[kv.0 := kv.1]);
    }
  }

  /**
   * When every token holds an "=", the action returns normally and the
   * dictionary maps each key to the value of the last token with that key,
   * keeping the keys no token names.
   */
  lemma {:induction false} FillLaterWins(tokens: seq<string>, acc: Config, key: string)
    requires forall i :: 0 <= i < |tokens| ==> '=' in tokens[i]
    ensures var r := Fill(tokens, acc);
            r.outcome.Returned? &&
            (key in r.config <==> LastValue(tokens, key).Some? || key in acc) &&
            (LastValue(tokens, key).Some? ==> r.config[key] == LastValue(tokens, key).value) &&
            (LastValue(tokens, key).None? && key in acc ==> r.config[key] == acc[key])
    decreases |tokens|
  {
    if tokens != [] {
      var n := |tokens| - 1;
      var front := tokens[..n];
      assert tokens == front + [tokens[n]];
      assert forall i :: 0 <= i < |front| ==> front[i] == tokens[i];
      FillSnoc(front, tokens[n], acc);
      FillLaterWins(front, acc, key);
    }
  }

  /**
   * A token without "=" raises ValueError, and the dictionary then holds
   * exactly what the tokens before it put there.
   */
  lemma {:induction false} FillStopsAt(tokens: seq<string>, acc: Config, i: nat)
    requires i < |tokens| && '=' !in tokens[i]
    requires forall j :: 0 <= j < i ==> '=' in tokens[j]
    ensures Fill(tokens, acc) == Filled(Fill(tokens[..i], acc).config, Raised(ValueError(UNPACK_MESSAGE)))
    decreases i
  {
    if i > 0 {
      var kv := SplitFirst(tokens[0]).value;
      assert tokens[1..][..i - 1] == tokens[..i][1..];
      assert forall j :: 0 <= j < i - 1 ==> tokens[1..][j] == tokens[j + 1];
      FillStopsAt(tokens[1..], acc[kv.0 := kv.1], i - 1);
    }
  }

  /** A token written as `key=value` stores `value` under `key`. */
  lemma FillJoinAt(tokens: seq<string>, i: nat, acc: Config, key: string, value: string)
    requires i < |tokens| && tokens[i] == Join(key, value) && '=' !in key
    ensures Fill(tokens[i..], acc) == Fill(tokens[i + 1..], acc[key := value])
  {
    SplitJoin(key, value);
    FillAt(tokens, i, acc);
  }

  /** The first unit test of the action: the value "z=2" keeps its "=". */
  lemma {:induction false} KeyValueExample()
    ensures Fill(["a=3", "b=2", "c=z=2"], map[]) == Filled(map["a" := "3", "b" := "2", "c" := "z=2"], Returned(()))
  {
    var ts := ["a=3", "b=2", "c=z=2"];
    var m := map["a" := "3", "b" := "2", "c" := "z=2"];
    assert Fill(ts[2..], map["a" := "3", "b" := "2"]) == Filled(m, Returned(())) by {
      assert ts[3..] == [];
      FillJoinAt(ts, 2, map["a" := "3", "b" := "2"], "c", "z=2");
    }
    assert Fill(ts[1..], map["a" := "3"]) == Fill(ts[2..], map["a" := "3", "b" := "2"]) by {
      FillJoinAt(ts, 1, map["a" := "3"], "b", "2");
    }
    assert Fill(ts, map[]) == Fill(ts[1..], map["a" := "3"]) by {
      assert ts[0..] == ts;
      FillJoinAt(ts, 0, map[], "a", "3");
    }
  }

  /** A quoted value holding "=" is kept whole, quotes included. */
  lemma {:induction false} KeyValueQuotedExample()
    ensures Fill(["x=\"2=2\"", "y=2"], map[]) == Filled(map["x" := "\"2=2\"", "y" := "2"], Returned(()))
  {
    var ts := ["x=\"2=2\"", "y=2"];
    assert ts[0..] == ts && ts[2..] == [];
    FillJoinAt(ts, 0, map[], "x", "\"2=2\"");
    FillJoinAt(ts, 1, map["x" := "\"2=2\""], "y", "2");
  }

  /** The tokens of an optional argument list: none when it is absent. */
  function TokensOf(values: Option<seq<string>>): seq<string>
  {
    if values.Some? then values.value else []
  }

  /** The attributes of an `argparse.Namespace` that hold dictionaries of strings. */
  class Namespace {
    var attrs: map<string, Config>

    constructor(attrs: map<string, Config>)
      ensures this.attrs == attrs
    {
      this.attrs := attrs;
    }
  }

  /** The `KeyValue` action, bound to the attribute `dest` it fills. */
  class KeyValue {
    const dest: string

    constructor(dest: string)
      ensures this.dest == dest
    {
      this.dest := dest;
    }

    /**
     * `KeyValue.__call__`: the attribute becomes a fresh empty dictionary,
     * even when no values are given (None or an empty list), and the tokens
     * are then stored into it one by one.
     */
    method Call(namespace: Namespace, values: Option<seq<string>>) returns (r: Outcome<()>)
      modifies namespace
      ensures namespace.attrs == old(namespace.attrs)[dest := Fill(TokensOf(values), map[]).config]
      ensures r == Fill(TokensOf(values), map[]).outcome
    {
      namespace.attrs := namespace.attrs[dest := map[]];
      if values.Some? && values.value != [] {
        r := Store(namespace, values.value);
      } else {
        r := Returned(());
      }
    }

    /** The loop of `__call__`: each token's pair goes into the attribute's dictionary. */
    method Store(namespace: Namespace, tokens: seq<string>) returns (r: Outcome<()>)
      requires dest in namespace.attrs
      modifies namespace
      ensures namespace.attrs == old(namespace.attrs)[dest := Fill(tokens, old(namespace.attrs)[dest]).config]
      ensures r == Fill(tokens, old(namespace.attrs)[dest]).outcome
    {
      // `d` is the dictionary object the attribute refers to.
      var d := namespace.attrs[dest];
      ghost var attrs0 := namespace.attrs;
      var i := 0;
      while i < |tokens|
        invariant 0 <= i <= |tokens|
        invariant namespace.attrs == attrs0[dest := d]
        invariant Fill(tokens, attrs0[dest]) == Fill(tokens[i..], d)
      {
        var kv := SplitFirst(tokens[i]);
        FillAt(tokens, i, d);
        if kv.Raised? {
          return Raised(kv.error);
        }
        var key, value := kv.value.0, kv.value.1;
        d := d[key := value];
        namespace.attrs := namespace.attrs[dest := d];
        i := i + 1;
      }
      assert tokens[i..] == [];
      r := Returned(());
    }
  }

  /** The `ApplicationConfig` records for the entries of a loaded mapping. */
  function ApplicationConfigs(mapping: seq<(string, Config)>): seq<ApplicationConfig>
  {
    seq(|mapping|, i requires 0 <= i < |mapping| => ApplicationConfig(mapping[i].0, mapping[i].1))
  }

  /**
   * `get_application_config` after the YAML file is loaded: one record per
   * top-level entry, in the mapping's order, with the entry's dictionary as
   * its configuration.
   */
  method GetApplicationConfig(mapping: seq<(string, Config)>) returns (result: seq<ApplicationConfig>)
    ensures result == ApplicationConfigs(mapping)
    // the records hold exactly the mapping's entries, in order
    ensures |result| == |mapping|
    ensures forall i :: 0 <= i < |mapping| ==> result[i].application == mapping[i].0 && result[i].config == mapping[i].1
  {
    result := [];
    for i := 0 to |mapping|
      invariant result == ApplicationConfigs(mapping[..i])
    {
      var (app, valueDict) := mapping[i];
      result := result + [ApplicationConfig(app, valueDict)];
    }
    assert mapping[..|mapping|] == mapping;
  }

  /** The unit test's two applications give the two expected records. */
  lemma ApplicationConfigExample()
    ensures ApplicationConfigs([("squid-reverseproxy", map["cache_size_mb" := "129", "cache_mem_mb" := "257"]),
                                ("ubuntu", map["hostname" := "test-test"])])
         == [ApplicationConfig("squid-reverseproxy", map["cache_size_mb" := "129", "cache_mem_mb" := "257"]),
             ApplicationConfig("ubuntu", map["hostname" := "test-test"])]
  {
  }
}
