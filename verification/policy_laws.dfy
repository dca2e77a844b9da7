/** What the admission policy guarantees over whole runs, with clocks moving any way. */
module PolicyLaws {
  import opened PolicyConfig
  import opened Policy

  datatype Op =
    | EvaluateOp(now: int, model: string, class_: WorkClass)
    | ReleaseOp(ticket: nat)
    | ReconfigureOp(now: int, cfg: Config)

  // ---------------------------------------------------------------------------------------------
  // The invariant
  // ---------------------------------------------------------------------------------------------

  predicate Unreleased(g: Grant, id: string, completionOnly: bool) {
    g.account == id && !g.released && (completionOnly ==> g.completion)
  }

  /** How many unreleased tickets an account has, of completion work only if asked. */
  function Outstanding(grants: seq<Grant>, id: string, completionOnly: bool): nat {
    if grants == [] then 0
    else
      var n := |grants| - 1;
      Outstanding(grants[..n], id, completionOnly) + if Unreleased(grants[n], id, completionOnly) then 1 else 0
  }

  predicate AccountOk(a: Account) {
    0.0 <= a.tokens <= a.burst && a.rate > 0.0 && a.burst >= 1.0
  }

  predicate CountsOk(s: State, id: string)
    requires id in s.accounts
  {
    s.accounts[id].active == Outstanding(s.grants, id, false) &&
    s.accounts[id].activeCompletion == Outstanding(s.grants, id, true)
  }

  predicate PoolInUse(s: State, p: Pool) {
    NumbersOk(p) && p.account in s.accounts &&
    s.accounts[p.account].rate == p.startRate && s.accounts[p.account].burst == p.burst as real
  }

  predicate Good(s: State) {
    && (forall m :: m in s.modelPool ==> PoolInUse(s, s.modelPool[m]))
    && (forall id :: id in s.accounts ==> AccountOk(s.accounts[id]) && CountsOk(s, id))
    && (forall g :: g in s.grants ==> g.account in s.accounts)
  }

  // Arithmetic

  lemma MulNonneg(x: real, y: real)
    requires x >= 0.0 && y >= 0.0
    ensures x * y >= 0.0
  {
  }

  lemma SettleOk(a: Account, now: int)
    requires AccountOk(a)
    ensures AccountOk(Settle(a, now)) && Settle(a, now).tokens >= a.tokens && Settle(a, now).last >= a.last
    ensures Settle(a, now) == a.(tokens := Settle(a, now).tokens, last := Settle(a, now).last)
  {
    if now > a.last {
      MulNonneg(Seconds(now - a.last), a.rate);
    }
  }

  // Counting tickets

  lemma OutstandingAppend(grants: seq<Grant>, g: Grant, id: string, c: bool)
    ensures Outstanding(grants + [g], id, c) == Outstanding(grants, id, c) + if Unreleased(g, id, c) then 1 else 0
  {
    assert (grants + [g])[..|grants|] == grants;
  }

  lemma {:induction false} OutstandingRelease(grants: seq<Grant>, i: nat, id: string, c: bool)
    requires i < |grants| && !grants[i].released
    ensures Outstanding(grants[i := grants[i].(released := true)], id, c) ==
      Outstanding(grants, id, c) - if Unreleased(grants[i], id, c) then 1 else 0
  {
    var n := |grants| - 1;
    var after := grants[i := grants[i].(released := true)];
    if i == n {
      assert after[..n] == grants[..n];
    } else {
      assert after[..n] == grants[..n][i := grants[i].(released := true)];
      OutstandingRelease(grants[..n], i, id, c);
    }
  }

  lemma {:induction false} NobodyOutstanding(grants: seq<Grant>, id: string, c: bool)
    requires forall g :: g in grants ==> g.account != id
    ensures Outstanding(grants, id, c) == 0
  {
    if grants != [] {
      NobodyOutstanding(grants[..|grants| - 1], id, c);
    }
  }

  // Each operation keeps the invariant

  /** One account and the tickets change; the account's counts follow its own tickets. */
  lemma AccountChanges(s: State, id: string, a: Account, grants: seq<Grant>)
    requires Good(s) && id in s.accounts && AccountOk(a) && a.rate == s.accounts[id].rate && a.burst == s.accounts[id].burst
    requires forall g :: g in grants ==> g.account in s.accounts
    requires forall x, c :: x != id ==> Outstanding(grants, x, c) == Outstanding(s.grants, x, c)
    requires a.active == Outstanding(grants, id, false) && a.activeCompletion == Outstanding(grants, id, true)
    ensures Good(s.(accounts := s.accounts[id := a], grants := grants))
  {
    var s' := s.(accounts := s.accounts[id := a], grants := grants);
    forall x | x in s'.accounts ensures AccountOk(s'.accounts[x]) && CountsOk(s', x) {
      if x != id { assert AccountOk(s.accounts[x]) && CountsOk(s, x); }
    }
    forall m | m in s'.modelPool ensures PoolInUse(s', s'.modelPool[m]) {
      assert PoolInUse(s, s.modelPool[m]);
    }
  }

  lemma DebitTrackOk(a: Account, debited: bool, tracked: bool, c: WorkClass)
    requires AccountOk(a)
    ensures var b := if debited then Debit(a) else a;
      var d := if tracked then Track(b, c) else b;
      AccountOk(d) && d.rate == a.rate && d.burst == a.burst && d.last == a.last
  {
  }

  lemma EvaluateKeepsGood(s: State, now: int, model: string, c: WorkClass)
    requires Good(s)
    ensures Good(Evaluate(s, now, model, c).state)
  {
    if Limited(s, c) && model in s.modelPool {
      var id := s.modelPool[model].account;
      assert CountsOk(s, id);
      var r := Evaluate(s, now, model, c);
      SettleOk(s.accounts[id], now);
      DebitTrackOk(Settle(s.accounts[id], now), r.shadow.Admit?, r.tracked, c);
      forall x, completionOnly: bool {
        OutstandingAppend(s.grants, Grant(id, Completion(c), false), x, completionOnly);
      }
      AccountChanges(s, id, r.state.accounts[id], r.state.grants);
      assert r.state == s.(accounts := s.accounts[id := r.state.accounts[id]], grants := r.state.grants);
    }
  }

  lemma ReleaseKeepsGood(s: State, i: nat)
    requires Good(s)
    ensures Good(Release(s, i))
  {
    if i < |s.grants| && !s.grants[i].released {
      var g := s.grants[i];
      assert g in s.grants && CountsOk(s, g.account);
      forall x, completionOnly: bool {
        OutstandingRelease(s.grants, i, x, completionOnly);
      }
      AccountChanges(s, g.account, Untrack(s.accounts[g.account], g.completion), s.grants[i := g.(released := true)]);
    }
  }

  predicate AccountsOk(accounts: map<string, Account>, grants: seq<Grant>) {
    forall id :: id in accounts ==>
      AccountOk(accounts[id]) && accounts[id].active == Outstanding(grants, id, false) &&
      accounts[id].activeCompletion == Outstanding(grants, id, true)
  }

  lemma {:induction false} ApplyPoolsKeepsAccounts(accounts: map<string, Account>, pools: seq<Pool>, now: int, grants: seq<Grant>)
    requires AccountsOk(accounts, grants) && (forall p :: p in pools ==> NumbersOk(p))
    requires forall g :: g in grants ==> g.account in accounts
    ensures AccountsOk(ApplyPools(accounts, pools, now), grants)
    ensures forall id :: id in accounts ==> id in ApplyPools(accounts, pools, now)
  {
    if pools != [] {
      var n := |pools| - 1;
      var before := ApplyPools(accounts, pools[..n], now);
      var p := pools[n];
      assert p in pools && NumbersOk(p);
      ApplyPoolsKeepsAccounts(accounts, pools[..n], now, grants);
      if p.account in before {
        SettleOk(before[p.account], now);
      } else {
        NobodyOutstanding(grants, p.account, false);
        NobodyOutstanding(grants, p.account, true);
      }
    }
  }

  lemma ApplyKeepsGood(s: State, now: int, cfg: Config)
    requires Good(s)
    ensures Good(Apply(s, now, cfg))
  {
    if ValidConfig(cfg) && !cfg.mode.Disabled? {
      forall p | p in cfg.pools ensures NumbersOk(p) { assert PoolOk(p, cfg.allowed); }
      ApplyPoolsKeepsAccounts(s.accounts, cfg.pools, now, s.grants);
      PoolAccounts(s.accounts, cfg.pools, cfg.allowed, now);
    }
  }

  function Step(s: State, op: Op): State
    requires Good(s)
  {
    match op
    case EvaluateOp(now, model, c) => if c.UnknownClass? then s else Evaluate(s, now, model, c).state
    case ReleaseOp(i) => Release(s, i)
    case ReconfigureOp(now, cfg) => Apply(s, now, cfg)
  }

  lemma StepKeepsGood(s: State, op: Op)
    requires Good(s)
    ensures Good(Step(s, op))
  {
    match op
    case EvaluateOp(now, model, c) => EvaluateKeepsGood(s, now, model, c);
    case ReleaseOp(i) => ReleaseKeepsGood(s, i);
    case ReconfigureOp(now, cfg) => ApplyKeepsGood(s, now, cfg);
  }

  ghost function Run(s: State, ops: seq<Op>): State
    requires Good(s)
    decreases |ops|
  {
    if ops == [] then s else StepKeepsGood(s, ops[0]); Run(Step(s, ops[0]), ops[1..])
  }

  /** In every reachable state, also across reconfigurations, an account's active dispatches are its
      unreleased tickets, and so are its active completions. */
  lemma {:induction false} ActiveIsTickets(s: State, ops: seq<Op>)
    requires Good(s)
    ensures Good(Run(s, ops))
    ensures forall id :: id in Run(s, ops).accounts ==> CountsOk(Run(s, ops), id)
    decreases |ops|
  {
    if ops != [] {
      StepKeepsGood(s, ops[0]);
      ActiveIsTickets(Step(s, ops[0]), ops[1..]);
    }
  }

  // ---------------------------------------------------------------------------------------------
  // Concurrency under a fixed enforcing configuration
  // ---------------------------------------------------------------------------------------------

  predicate WithinLimits(a: Account, p: Pool) {
    a.active <= p.limit && a.active - a.activeCompletion <= p.limit - p.reserved
  }

  predicate Enforced(s: State) {
    s.cfg.mode.Enforce? && forall m :: m in s.modelPool ==> PoolInUse(s, s.modelPool[m]) && WithinLimits(s.accounts[s.modelPool[m].account], s.modelPool[m])
  }

  /** Two mapped models with one account have one pool. */
  predicate OnePoolPerAccount(s: State) {
    forall m, n :: m in s.modelPool && n in s.modelPool && s.modelPool[m].account == s.modelPool[n].account ==>
      s.modelPool[m] == s.modelPool[n]
  }

  /** A new evaluator. */
  ghost function New(now: int, cfg: Config): (s: State)
    requires ValidConfig(cfg)
    ensures Good(s)
  {
    ApplyKeepsGood(EMPTY, now, cfg);
    Apply(EMPTY, now, cfg)
  }

  lemma ValidPoolsAreOne(pools: seq<Pool>, allowed: seq<string>, p: Pool, q: Pool)
    requires PoolsOk(pools, allowed) && p in pools && q in pools && p.account == q.account
    ensures p == q
  {
    var i :| 0 <= i < |pools| && pools[i] == p;
    var j :| 0 <= j < |pools| && pools[j] == q;
    assert i == j;
  }

  lemma NewIsEnforced(now: int, cfg: Config)
    requires ValidConfig(cfg) && cfg.mode.Enforce?
    ensures Enforced(New(now, cfg)) && OnePoolPerAccount(New(now, cfg))
  {
    var s := New(now, cfg);
    PoolAccounts(map[], cfg.pools, cfg.allowed, now);
    forall m | m in s.modelPool
      ensures PoolInUse(s, s.modelPool[m]) && WithinLimits(s.accounts[s.modelPool[m].account], s.modelPool[m])
    {
      assert CountsOk(s, s.modelPool[m].account);
    }
    forall m, n | m in s.modelPool && n in s.modelPool && s.modelPool[m].account == s.modelPool[n].account
      ensures s.modelPool[m] == s.modelPool[n]
    {
      ValidPoolsAreOne(cfg.pools, cfg.allowed, s.modelPool[m], s.modelPool[n]);
    }
  }

  predicate NoReconfigure(ops: seq<Op>) {
    forall op :: op in ops ==> !op.ReconfigureOp?
  }

  lemma EvaluateKeepsEnforced(s: State, now: int, model: string, c: WorkClass)
    requires Good(s) && Enforced(s) && OnePoolPerAccount(s) && Limited(s, c) && model in s.modelPool
    requires Good(Evaluate(s, now, model, c).state)
    ensures Enforced(Evaluate(s, now, model, c).state)
  {
    var p := s.modelPool[model];
    var a := Settle(s.accounts[p.account], now);
    var r := Evaluate(s, now, model, c);
    SettleOk(s.accounts[p.account], now);
    DebitTrackOk(a, r.shadow.Admit?, r.tracked, c);
    FirstPassCount(s.grants, p.account);
    assert CountsOk(s, p.account);
    assert WithinLimits(r.state.accounts[p.account], p);
  }

  lemma ReleaseKeepsEnforced(s: State, i: nat)
    requires Good(s) && Enforced(s) && Good(Release(s, i))
    ensures Enforced(Release(s, i))
  {
    if i < |s.grants| && !s.grants[i].released {
      var id := s.grants[i].account;
      assert CountsOk(s, id) && CountsOk(Release(s, i), id);
    }
  }

  lemma StepKeepsEnforced(s: State, op: Op)
    requires Good(s) && Enforced(s) && OnePoolPerAccount(s) && !op.ReconfigureOp?
    ensures Enforced(Step(s, op)) && OnePoolPerAccount(Step(s, op)) && Step(s, op).modelPool == s.modelPool
  {
    StepKeepsGood(s, op);
    match op
    case EvaluateOp(now, model, c) =>
      if !c.UnknownClass? && Limited(s, c) && model in s.modelPool { EvaluateKeepsEnforced(s, now, model, c); }
    case ReleaseOp(i) => ReleaseKeepsEnforced(s, i);
  }

  lemma {:induction false} FirstPassCount(grants: seq<Grant>, id: string)
    ensures Outstanding(grants, id, true) <= Outstanding(grants, id, false)
  {
    if grants != [] {
      FirstPassCount(grants[..|grants| - 1], id);
    }
  }

  /** Started under enforcement and never reconfigured, no pool has more active dispatches than its
      limit, nor more first-pass ones than the limit less the reservation. */
  lemma {:induction false} LimitsHold(s: State, ops: seq<Op>)
    requires Good(s) && Enforced(s) && OnePoolPerAccount(s) && NoReconfigure(ops)
    ensures Enforced(Run(s, ops)) && Run(s, ops).modelPool == s.modelPool
    decreases |ops|
  {
    if ops != [] {
      StepKeepsGood(s, ops[0]);
      StepKeepsEnforced(s, ops[0]);
      LimitsHold(Step(s, ops[0]), ops[1..]);
    }
  }

  /** From New on: the two bounds, and completion work is never refused for concurrency while fewer
      completions than the reservation are active. */
  lemma CompletionIsNeverStarved(start: int, cfg: Config, ops: seq<Op>, now: int, model: string, c: WorkClass)
    requires ValidConfig(cfg) && cfg.mode.Enforce? && NoReconfigure(ops) && Completion(c)
    ensures var s := Run(New(start, cfg), ops);
      Good(s) &&
      (model in s.modelPool ==>
        var p := s.modelPool[model];
        p.account in s.accounts && WithinLimits(s.accounts[p.account], p) &&
        (s.accounts[p.account].activeCompletion < p.reserved ==> !Evaluate(s, now, model, c).shadow.Retry?))
  {
    NewIsEnforced(start, cfg);
    var s0 := New(start, cfg);
    LimitsHold(s0, ops);
    ActiveIsTickets(s0, ops);
    var s := Run(s0, ops);
    if model in s.modelPool {
      SettleOk(s.accounts[s.modelPool[model].account], now);
    }
  }
}
