/** The research pacing configuration and its validation. Rates are exact reals, times are integer
    nanoseconds. */
module PolicyConfig {
  datatype Mode = Disabled | Observe | Enforce | UnknownMode

  datatype Pool = Pool(
    name: string,
    account: string,
    models: seq<string>,
    startRate: real,
    burst: int,
    limit: int,
    reserved: int)

  datatype Config = Config(mode: Mode, allowed: seq<string>, pools: seq<Pool>, concurrencyRetry: int)

  const DEFAULT_CONCURRENCY_RETRY := 1_000_000_000

  function RetryAfter(c: Config): int {
    if c.concurrencyRetry > 0 then c.concurrencyRetry else DEFAULT_CONCURRENCY_RETRY
  }

  predicate NumbersOk(p: Pool) {
    p.startRate > 0.0 && p.burst >= 1 && p.limit >= 1 && 0 <= p.reserved <= p.limit
  }

  predicate DistinctModels(models: seq<string>) {
    forall j, k :: 0 <= j < k < |models| ==> models[j] != models[k]
  }

  predicate PoolOk(p: Pool, allowed: seq<string>) {
    p.name != "" && p.account != "" && p.models != [] && NumbersOk(p) && DistinctModels(p.models) &&
    (forall m :: m in p.models ==> m in allowed)
  }

  predicate Disjoint(p: Pool, q: Pool) {
    p.name != q.name && p.account != q.account && (forall m :: m in p.models ==> m !in q.models)
  }

  predicate PoolsOk(pools: seq<Pool>, allowed: seq<string>) {
    && (forall p :: p in pools ==> PoolOk(p, allowed))
    && (forall i, j :: 0 <= i < j < |pools| ==> Disjoint(pools[i], pools[j]))
  }

  predicate Mapped(m: string, pools: seq<Pool>) {
    exists p :: p in pools && m in p.models
  }

  /** A configuration the evaluator may run. */
  predicate ValidConfig(c: Config) {
    !c.mode.UnknownMode? && c.concurrencyRetry >= 0 &&
    (c.mode.Disabled? ||
     (PoolsOk(c.pools, c.allowed) && (c.mode.Enforce? ==> forall m :: m in c.allowed ==> Mapped(m, c.pools))))
  }

  /** The models of p, checked one by one against the allowlist and the models mapped before. */
  method CheckModels(p: Pool, allowed: set<string>, mapped0: set<string>) returns (ok: bool, mapped: set<string>)
    ensures ok <==> DistinctModels(p.models) && forall m :: m in p.models ==> m in allowed && m !in mapped0
    ensures ok ==> mapped == mapped0 + set m | m in p.models
  {
    mapped := mapped0;
    for i := 0 to |p.models|
      invariant mapped == mapped0 + set m | m in p.models[..i]
      invariant DistinctModels(p.models[..i])
      invariant forall m :: m in p.models[..i] ==> m in allowed && m !in mapped0
    {
      if p.models[i] !in allowed || p.models[i] in mapped {
        return false, mapped;
      }
      assert p.models[..i + 1] == p.models[..i] + [p.models[i]];
      mapped := mapped + {p.models[i]};
    }
    assert p.models[..|p.models|] == p.models;
    return true, mapped;
  }

  predicate Prefix(pools: seq<Pool>, names: set<string>, accounts: set<string>, mapped: set<string>) {
    && (names == set p | p in pools :: p.name)
    && (accounts == set p | p in pools :: p.account)
    && (mapped == set p, m | p in pools && m in p.models :: m)
  }

  /** The pools seen so far are acceptable, and so is p after them. */
  lemma PrefixGrows(pools: seq<Pool>, p: Pool, allowed: seq<string>, names: set<string>, accounts: set<string>, mapped: set<string>)
    requires PoolsOk(pools, allowed) && Prefix(pools, names, accounts, mapped)
    ensures PoolsOk(pools + [p], allowed) <==>
      PoolOk(p, allowed) && p.name !in names && p.account !in accounts && forall m :: m in p.models ==> m !in mapped
    ensures Prefix(pools + [p], names + {p.name}, accounts + {p.account}, mapped + set m | m in p.models)
  {
    var all := pools + [p];
    if PoolsOk(all, allowed) {
      assert p in all;
      forall q | q in pools ensures Disjoint(q, p) {
        var i :| 0 <= i < |pools| && pools[i] == q;
        assert Disjoint(all[i], all[|pools|]);
      }
    }
  }

  lemma PrefixRejects(pools: seq<Pool>, more: seq<Pool>, allowed: seq<string>)
    requires PoolsOk(pools + more, allowed)
    ensures PoolsOk(pools, allowed)
  {
    forall p | p in pools ensures PoolOk(p, allowed) { assert p in pools + more; }
    forall i, j | 0 <= i < j < |pools| ensures Disjoint(pools[i], pools[j]) {
      assert Disjoint((pools + more)[i], (pools + more)[j]);
    }
  }

  lemma BadPoolRejects(pools: seq<Pool>, i: nat, allowed: seq<string>)
    requires i < |pools| && !PoolsOk(pools[..i + 1], allowed)
    ensures !PoolsOk(pools, allowed)
  {
    assert pools == pools[..i + 1] + pools[i + 1..];
    if PoolsOk(pools, allowed) { PrefixRejects(pools[..i + 1], pools[i + 1..], allowed); }
  }

  lemma AllMapped(pools: seq<Pool>, allowed: seq<string>, names: set<string>, accounts: set<string>, mapped: set<string>)
    requires Prefix(pools, names, accounts, mapped)
    ensures (set m | m in allowed) <= mapped <==> forall m :: m in allowed ==> Mapped(m, pools)
  {
    assert forall m :: m in mapped <==> Mapped(m, pools);
    assert forall m :: m in allowed <==> m in set x | x in allowed;
  }

  /** The checks of one pool, against the names, accounts and models of the pools before it. */
  method CheckPool(p: Pool, allowed: set<string>, names: set<string>, accounts: set<string>, mapped0: set<string>)
    returns (ok: bool, mapped: set<string>)
    ensures ok <==>
      p.name != "" && p.account != "" && p.models != [] && NumbersOk(p) && DistinctModels(p.models) &&
      p.name !in names && p.account !in accounts && forall m :: m in p.models ==> m in allowed && m !in mapped0
    ensures ok ==> mapped == mapped0 + set m | m in p.models
  {
    if p.name == "" || p.name in names || p.account == "" || p.account in accounts || p.models == [] {
      return false, mapped0;
    }
    ok, mapped := CheckModels(p, allowed, mapped0);
    if !ok || p.startRate <= 0.0 || p.burst < 1 || p.limit < 1 || p.reserved < 0 || p.reserved > p.limit {
      return false, mapped0;
    }
  }

  /** Config.Validate accepts exactly the valid configurations. */
  method Validate(c: Config) returns (ok: bool)
    ensures ok <==> ValidConfig(c)
  {
    if c.mode.UnknownMode? || c.concurrencyRetry < 0 {
      return false;
    }
    if c.mode.Disabled? {
      return true;
    }
    var allowed := set m | m in c.allowed;
    var names: set<string>, accounts: set<string>, mapped: set<string> := {}, {}, {};
    for i := 0 to |c.pools|
      invariant PoolsOk(c.pools[..i], c.allowed) && Prefix(c.pools[..i], names, accounts, mapped)
    {
      var p := c.pools[i];
      PrefixGrows(c.pools[..i], p, c.allowed, names, accounts, mapped);
      assert c.pools[..i + 1] == c.pools[..i] + [p];
      ok, mapped := CheckPool(p, allowed, names, accounts, mapped);
      if !ok {
        BadPoolRejects(c.pools, i, c.allowed);
        return;
      }
      names, accounts := names + {p.name}, accounts + {p.account};
    }
    assert c.pools[..|c.pools|] == c.pools;
    AllMapped(c.pools, c.allowed, names, accounts, mapped);
    ok := !c.mode.Enforce? || allowed <= mapped;
  }
}
