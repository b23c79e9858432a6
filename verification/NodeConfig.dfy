/** The custom configuration of a redis node: comparing it and applying it, key by key. */
module NodeConfig {
  import opened Basics
  import MemConf

  type Config = map<string, string>

  /** Settings that redis stores as a byte count. */
  const MEMORY_KEYS: set<string> := {
    "maxmemory", "proto-max-bulk-len", "client-query-buffer-limit", "repl-backlog-size",
    "auto-aof-rewrite-min-size", "active-defrag-ignore-bytes", "hash-max-ziplist-entries",
    "hash-max-ziplist-value", "stream-node-max-bytes", "set-max-intset-entries",
    "zset-max-ziplist-entries", "zset-max-ziplist-value", "hll-sparse-max-bytes"
  }

  /** The text a node shows for a setting; memory sizes that make no sense have none. */
  function Normal(key: string, value: string): Result<string> {
    if key in MEMORY_KEYS then MemConf.ParseRedisMemConf(value) else Success(value)
  }

  /** The settings whose text is a size. */
  predicate IsSize(key: string) {
    || key == "maxmemory" || key == "proto-max-bulk-len" || key == "client-query-buffer-limit"
    || key == "repl-backlog-size" || key == "auto-aof-rewrite-min-size" || key == "active-defrag-ignore-bytes"
    || key == "hash-max-ziplist-entries" || key == "hash-max-ziplist-value" || key == "stream-node-max-bytes"
    || key == "set-max-intset-entries" || key == "zset-max-ziplist-entries" || key == "zset-max-ziplist-value"
    || key == "hll-sparse-max-bytes"
  }

  /** Sizes are compared in bytes, every other setting as it is written, and only a size can be unreadable. */
  lemma NormalByKey(key: string, value: string)
    ensures IsSize(key) ==> Normal(key, value) == MemConf.ParseRedisMemConf(value)
    ensures !IsSize(key) ==> Normal(key, value) == Success(value)
  {
    hide MemConf.ParseRedisMemConf;
  }

  /** A missing key reads as the empty string, as in a Go map. */
  function Lookup(conf: Config, key: string): string {
    if key in conf then conf[key] else ""
  }

  /** The node shows every setting of the specification that can be read at all. */
  ghost predicate Matches(spec: Config, conf: Config) {
    forall key :: key in spec && Normal(key, spec[key]).Success? ==>
      Lookup(conf, key) == Normal(key, spec[key]).value
  }

  /** A missing setting counts as the empty text, and a size that cannot be read is passed over. */
  lemma MatchesByKey(spec: Config, conf: Config)
    ensures Matches(spec, conf) <==> forall key :: key in spec ==>
      var shown := if key in conf then conf[key] else "";
      if IsSize(key) then
        var bytes := MemConf.ParseRedisMemConf(spec[key]);
        bytes.Success? ==> shown == bytes.value
      else shown == spec[key]
  {
    hide MemConf.ParseRedisMemConf;
    hide IsSize;
    hide Normal;
    forall key | key in spec
      ensures IsSize(key) ==> Normal(key, spec[key]) == MemConf.ParseRedisMemConf(spec[key])
      ensures !IsSize(key) ==> Normal(key, spec[key]) == Success(spec[key])
    {
      NormalByKey(key, spec[key]);
    }
  }

  /** CONFIG GET: an alternating list of names and values. */
  method GetAllRedisConfig(val: seq<string>) returns (valMap: Config)
    requires |val| % 2 == 0
    ensures forall key :: key in valMap <==> exists j :: 0 <= j < |val| / 2 && val[2 * j] == key
    ensures forall key :: key in valMap ==> LastValue(val, |val| / 2, key, valMap[key])
  {
    valMap := map[];
    var i := 0;
    while i < |val|
      invariant 0 <= i <= |val| && i % 2 == 0
      invariant forall key :: key in valMap <==> exists j :: 0 <= j < i / 2 && val[2 * j] == key
      invariant forall key :: key in valMap ==> LastValue(val, i / 2, key, valMap[key])
    {
      assert 2 * (i / 2) == i;
      ghost var before := valMap;
      valMap := valMap[val[i] := val[i + 1]];
      forall key | key in valMap
        ensures LastValue(val, (i + 2) / 2, key, valMap[key])
      {
        if key != val[i] {
          var j :| IsLast(val, i / 2, key, j) && before[key] == val[2 * j + 1];
          assert IsLast(val, (i + 2) / 2, key, j);
        } else {
          assert IsLast(val, (i + 2) / 2, key, i / 2);
        }
      }
      i := i + 2;
    }
  }

  ghost predicate IsLast(val: seq<string>, n: int, key: string, j: int)
    requires 2 * n <= |val|
  {
    && 0 <= j < n && val[2 * j] == key
    && forall l :: j < l < n ==> val[2 * l] != key
  }

  ghost predicate LastValue(val: seq<string>, n: int, key: string, value: string)
    requires 2 * n <= |val|
  {
    exists j :: IsLast(val, n, key, j) && value == val[2 * j + 1]
  }

  /**
   * Compares a node's configuration with the specification, in any order of the keys. The
   * answer does not depend on that order, although the first difference stops the loop.
   */
  method CheckRedisConfig(spec: Config, conf: Config, order: seq<string>) returns (ok: bool)
    requires Lists(order, spec.Keys)
    ensures ok <==> Matches(spec, conf)
  {
    hide MemConf.ParseRedisMemConf;
    for k := 0 to |order|
      invariant forall i :: 0 <= i < k && Normal(order[i], spec[order[i]]).Success? ==>
        Lookup(conf, order[i]) == Normal(order[i], spec[order[i]]).value
    {
      var key := order[k];
      var value := spec[key];
      if key in MEMORY_KEYS {
        match MemConf.ParseRedisMemConf(value) {
          case Failure => continue;
          case Success(bytes) => value := bytes;
        }
      }
      if value != Lookup(conf, key) {
        return false;
      }
    }
    return true;
  }

  // ---------------------------------------------------------------- applying

  /** CONFIG SET as redis performs it: a size that makes no sense is refused. */
  function Set(conf: Config, key: string, value: string): Option<Config> {
    match Normal(key, value)
    case Failure => None
    case Success(text) => Some(conf[key := text])
  }

  /** The settings of `order`, one after the other, up to the first refusal. */
  function SetAll(conf: Config, spec: Config, order: seq<string>): Option<Config>
    requires forall k :: 0 <= k < |order| ==> order[k] in spec
  {
    if order == [] then Some(conf)
    else
      match SetAll(conf, spec, order[..|order| - 1])
      case None => None
      case Some(c) => Set(c, order[|order| - 1], spec[order[|order| - 1]])
  }

  /** Every size in the specification can be read. */
  ghost predicate Readable(spec: Config) {
    forall key :: key in spec ==> Normal(key, spec[key]).Success?
  }

  ghost function Normalised(spec: Config): Config
    requires Readable(spec)
  {
    map key | key in spec :: Normal(key, spec[key]).value
  }

  ghost predicate AllNormal(spec: Config, order: seq<string>)
    requires forall k :: 0 <= k < |order| ==> order[k] in spec
  {
    forall k :: 0 <= k < |order| ==> Normal(order[k], spec[order[k]]).Success?
  }

  lemma {:induction false} SetAllSucceeds(conf: Config, spec: Config, order: seq<string>)
    requires forall k :: 0 <= k < |order| ==> order[k] in spec
    ensures SetAll(conf, spec, order).Some? <==> AllNormal(spec, order)
  {
    hide Normal;
    if order != [] {
      var n := |order| - 1;
      SetAllSucceeds(conf, spec, order[..n]);
      if AllNormal(spec, order[..n]) && Normal(order[n], spec[order[n]]).Success? {
        forall k | 0 <= k < |order|
          ensures Normal(order[k], spec[order[k]]).Success?
        {
          assert k < n ==> order[..n][k] == order[k];
        }
      }
      if AllNormal(spec, order) {
        forall k | 0 <= k < n
          ensures Normal(order[..n][k], spec[order[..n][k]]).Success?
        {
          assert order[..n][k] == order[k];
        }
      }
    }
  }

  lemma {:induction false} SetAllContents(conf: Config, spec: Config, order: seq<string>, key: string)
    requires forall k :: 0 <= k < |order| ==> order[k] in spec
    requires SetAll(conf, spec, order).Some?
    ensures var c := SetAll(conf, spec, order).value;
      && (key in order ==> Normal(key, spec[key]).Success? && key in c && c[key] == Normal(key, spec[key]).value)
      && (key !in order ==> (key in c <==> key in conf) && (key in c ==> c[key] == conf[key]))
  {
    hide Normal;
    if order != [] {
      var n := |order| - 1;
      SetAllContents(conf, spec, order[..n], key);
      assert key in order <==> key in order[..n] || key == order[n];
    }
  }

  /**
   * Whatever order the map is ranged over, applying the whole specification succeeds in the
   * same cases and leaves the same configuration: the old one overridden by the normal form.
   */
  lemma ApplyingIsOrderFree(conf: Config, spec: Config, order: seq<string>)
    requires Lists(order, spec.Keys)
    ensures SetAll(conf, spec, order).Some? <==> Readable(spec)
    ensures Readable(spec) ==> SetAll(conf, spec, order) == Some(conf + Normalised(spec))
  {
    hide Normal;
    SetAllSucceeds(conf, spec, order);
    assert AllNormal(spec, order) <==> Readable(spec) by {
      if AllNormal(spec, order) {
        forall key | key in spec
          ensures Normal(key, spec[key]).Success?
        {
          assert key in order;
          var k :| 0 <= k < |order| && order[k] == key;
        }
      }
    }
    if Readable(spec) {
      var c := SetAll(conf, spec, order).value;
      forall key
        ensures key in c <==> key in conf + Normalised(spec)
        ensures key in c ==> c[key] == (conf + Normalised(spec))[key]
      {
        SetAllContents(conf, spec, order, key);
      }
      assert c == conf + Normalised(spec);
    }
  }

  /** A node that took the whole specification passes the comparison, and so needs no second one. */
  lemma AppliedMatches(conf: Config, spec: Config, order: seq<string>)
    requires Lists(order, spec.Keys) && SetAll(conf, spec, order).Some?
    ensures Matches(spec, SetAll(conf, spec, order).value)
  {
    ApplyingIsOrderFree(conf, spec, order);
  }
}
