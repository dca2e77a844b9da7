/** When the admission policy admits: the exact condition, and what tokens and slots there must be. */
module PolicyAdmission {
  import opened PolicyConfig
  import opened Policy
  import opened PolicyLaws
  import opened PolicyRate

  // ---------------------------------------------------------------------------------------------
  // Which pool a model has
  // ---------------------------------------------------------------------------------------------

  lemma LastApart(front: seq<Pool>, last: Pool, allowed: seq<string>)
    requires PoolsOk(front + [last], allowed)
    ensures PoolsOk(front, allowed) && forall p :: p in front ==> Disjoint(p, last)
  {
    PrefixRejects(front, [last], allowed);
    var all := front + [last];
    forall p | p in front
      ensures Disjoint(p, last)
    {
      var i :| 0 <= i < |front| && front[i] == p;
      assert all[i] == p && all[|front|] == last;
    }
  }

  lemma {:induction false} ModelsMapped(pools: seq<Pool>, m: string)
    ensures m in ModelPools(pools) <==> Mapped(m, pools)
    decreases |pools|
  {
    if pools != [] {
      var n := |pools| - 1;
      ModelsMapped(pools[..n], m);
      assert pools == pools[..n] + [pools[n]];
    }
  }

  lemma {:induction false} ModelPoolsExact(pools: seq<Pool>, allowed: seq<string>, p: Pool, m: string)
    requires PoolsOk(pools, allowed) && p in pools && m in p.models
    ensures m in ModelPools(pools) && ModelPools(pools)[m] == p
    decreases |pools|
  {
    var n := |pools| - 1;
    assert pools == pools[..n] + [pools[n]];
    LastApart(pools[..n], pools[n], allowed);
    if p in pools[..n] {
      ModelPoolsExact(pools[..n], allowed, p, m);
    }
  }

  /** A new evaluator knows each model by the pool that lists it, and no others, until it is
      reconfigured. */
  lemma PoolsAreThoseConfigured(start: int, cfg: Config, ops: seq<Op>, m: string)
    requires ValidConfig(cfg) && !cfg.mode.Disabled? && NoReconfigure(ops)
    ensures var s := Run(New(start, cfg), ops);
      && Good(s) && s.cfg == cfg
      && (forall p :: p in cfg.pools && m in p.models ==> m in s.modelPool && s.modelPool[m] == p)
      && (m in s.modelPool <==> Mapped(m, cfg.pools))
  {
    var s0 := New(start, cfg);
    ActiveIsTickets(s0, ops);
    RunKeepsPools(s0, ops);
    forall p | p in cfg.pools && m in p.models
      ensures m in ModelPools(cfg.pools) && ModelPools(cfg.pools)[m] == p
    {
      ModelPoolsExact(cfg.pools, cfg.allowed, p, m);
    }
    ModelsMapped(cfg.pools, m);
  }

  // ---------------------------------------------------------------------------------------------
  // The exact condition
  // ---------------------------------------------------------------------------------------------

  function Busy(s: State, id: string): nat {
    Outstanding(s.grants, id, false)
  }

  /** Dispatches that are no completion work. */
  function FirstPass(s: State, id: string): int {
    Outstanding(s.grants, id, false) - Outstanding(s.grants, id, true)
  }

  function TokensAt(s: State, id: string, now: int): real {
    if id in s.accounts then Settle(s.accounts[id], now).tokens else 0.0
  }

  predicate FullyBusy(s: State, p: Pool) {
    Busy(s, p.account) >= p.limit
  }

  predicate ReserveOnly(s: State, p: Pool, c: WorkClass) {
    c.ResearchWrite? && FirstPass(s, p.account) >= p.limit - p.reserved
  }

  /** A request for research work of a mapped model, against the account's tickets and tokens: it is
      told to come back for want of a slot, for want of an unreserved slot, or for want of a token, in
      that order, and is admitted exactly when none is wanting. */
  predicate DecidedExactly(s: State, p: Pool, now: int, c: WorkClass, shadow: Verdict) {
    && (shadow.Admit? <==> !FullyBusy(s, p) && !ReserveOnly(s, p, c) && TokensAt(s, p.account, now) >= 1.0 - TOKEN_EPSILON)
    && (shadow == Retry(Concurrency, RetryAfter(s.cfg)) <==> FullyBusy(s, p))
    && (shadow == Retry(ReservedCapacity, RetryAfter(s.cfg)) <==> !FullyBusy(s, p) && ReserveOnly(s, p, c))
    && (shadow.Defer? <==> !FullyBusy(s, p) && !ReserveOnly(s, p, c) && TokensAt(s, p.account, now) < 1.0 - TOKEN_EPSILON)
    && !shadow.Unmapped?
  }

  predicate Research(c: WorkClass) {
    c == ResearchWrite || c == ResearchReview || c == ResearchRework || c == ResearchAdjudication
  }

  lemma DecisionIsExact(s: State, now: int, model: string, c: WorkClass)
    requires Good(s) && Research(c) && !s.cfg.mode.Disabled? && model in s.modelPool
    ensures var r := Evaluate(s, now, model, c);
      DecidedExactly(s, s.modelPool[model], now, c, r.shadow) && r.verdict == if s.cfg.mode.Observe? then Admit else r.shadow
  {
    var p := s.modelPool[model];
    assert PoolInUse(s, p) && CountsOk(s, p.account);
    SettleOk(s.accounts[p.account], now);
  }

  /** From New on, for every request: the decision is exact for the pool that lists the model; a model
      no pool lists is unmapped; other work is admitted at no cost; and in observe mode everything is
      admitted, whatever enforcement would have said. */
  lemma AdmissionIsExact(start: int, cfg: Config, ops: seq<Op>, now: int, model: string, c: WorkClass)
    requires ValidConfig(cfg) && !cfg.mode.Disabled? && NoReconfigure(ops) && !c.UnknownClass?
    ensures var s := Run(New(start, cfg), ops);
      Good(s) &&
      var r := Evaluate(s, now, model, c);
      && (Research(c) ==> forall p :: p in cfg.pools && model in p.models ==> DecidedExactly(s, p, now, c, r.shadow))
      && (Research(c) && !Mapped(model, cfg.pools) ==> r.shadow == Unmapped && r.state == s)
      && (Research(c) ==> r.verdict == if cfg.mode.Observe? then Admit else r.shadow)
      && (!Research(c) ==> r.verdict == Admit && r.shadow == Admit && r.state == s)
  {
    var s := Run(New(start, cfg), ops);
    PoolsAreThoseConfigured(start, cfg, ops, model);
    if Research(c) && model in s.modelPool { DecisionIsExact(s, now, model, c); }
  }

  /** With the policy disabled everything is admitted and nothing is counted. */
  lemma DisabledAdmitsAll(s: State, now: int, model: string, c: WorkClass)
    requires Good(s) && s.cfg.mode.Disabled?
    ensures Evaluate(s, now, model, c).verdict == Admit && Evaluate(s, now, model, c).state == s
  {
  }

  /** What an admission takes: one slot of its kind, exactly if the verdict is to admit. */
  lemma AdmissionTakesASlot(s: State, now: int, model: string, c: WorkClass, id: string)
    requires Good(s) && Research(c) && !s.cfg.mode.Disabled? && model in s.modelPool
    ensures var r := Evaluate(s, now, model, c); var taken := if r.verdict.Admit? && s.modelPool[model].account == id then 1 else 0;
      && Busy(r.state, id) == Busy(s, id) + taken
      && FirstPass(r.state, id) == FirstPass(s, id) + if c == ResearchWrite then taken else 0
  {
    var g := Grant(s.modelPool[model].account, Completion(c), false);
    GrantsAfter(s, now, model, c, g);
    OutstandingAppend(s.grants, g, id, false);
    OutstandingAppend(s.grants, g, id, true);
  }

  lemma GrantsAfter(s: State, now: int, model: string, c: WorkClass, g: Grant)
    requires Good(s) && Research(c) && !s.cfg.mode.Disabled? && model in s.modelPool
    requires g == Grant(s.modelPool[model].account, Completion(c), false)
    ensures var r := Evaluate(s, now, model, c); r.state.grants == if r.verdict.Admit? then s.grants + [g] else s.grants
    ensures g.completion <==> c != ResearchWrite
  {
  }

  /** Release frees the slot of a ticket once, and no token. */
  lemma ReleaseFreesASlot(s: State, i: nat, id: string)
    requires Good(s) && i < |s.grants|
    ensures var s' := Release(s, i); var g := s.grants[i]; var freed := if !g.released && g.account == id then 1 else 0;
      && Busy(s', id) == Busy(s, id) - freed
      && FirstPass(s', id) == FirstPass(s, id) - (if g.completion then 0 else freed)
      && Tokens(s', id) == Tokens(s, id) && Release(s', i) == s'
      && |s'.grants| == |s.grants| && s'.grants[i].released
  {
    assert s.grants[i] in s.grants;
    if !s.grants[i].released {
      OutstandingRelease(s.grants, i, id, false);
      OutstandingRelease(s.grants, i, id, true);
    }
  }

  // ---------------------------------------------------------------------------------------------
  // Tokens from below
  // ---------------------------------------------------------------------------------------------

  /** What an account holds at least: what it had and earned, up to its burst, less its starts. */
  predicate HoldsAtLeast(a: Account, b: Account, starts: nat) {
    b.rate == a.rate && b.burst == a.burst && b.last >= a.last &&
    b.tokens >= Min(a.burst, a.tokens + Seconds(b.last - a.last) * a.rate) - starts as real
  }

  lemma SameHolds(a: Account, b: Account)
    requires AccountOk(a) && b == a.(active := b.active, activeCompletion := b.activeCompletion)
    ensures HoldsAtLeast(a, b, 0)
  {
    assert Seconds(0) * a.rate == 0.0;
  }

  lemma SettledHolds(a: Account, now: int)
    requires AccountOk(a)
    ensures var b := Settle(a, now);
      b.last >= a.last && b.tokens == Min(a.burst, a.tokens + Seconds(b.last - a.last) * a.rate)
  {
    assert Seconds(0) * a.rate == 0.0;
  }

  lemma TakenHolds(a: Account, now: int, debited: bool, tracked: bool, c: WorkClass)
    requires AccountOk(a)
    ensures var d := if debited then Debit(Settle(a, now)) else Settle(a, now);
      HoldsAtLeast(a, if tracked then Track(d, c) else d, if debited then 1 else 0)
  {
    SettledHolds(a, now);
  }

  lemma EvaluateSpendsOne(s: State, now: int, model: string, c: WorkClass, id: string)
    requires Good(s) && !c.UnknownClass? && id in s.accounts
    ensures var r := Evaluate(s, now, model, c);
      id in r.state.accounts &&
      HoldsAtLeast(s.accounts[id], r.state.accounts[id], if Debits(s, EvaluateOp(now, model, c), id) then 1 else 0)
  {
    var r := Evaluate(s, now, model, c);
    if Limited(s, c) && model in s.modelPool && s.modelPool[model].account == id {
      TakenHolds(s.accounts[id], now, r.shadow.Admit?, r.tracked, c);
    } else {
      SameHolds(s.accounts[id], r.state.accounts[id]);
    }
  }

  lemma StepSpendsOne(s: State, op: Op, id: string)
    requires Good(s) && !op.ReconfigureOp? && id in s.accounts
    ensures id in Step(s, op).accounts && HoldsAtLeast(s.accounts[id], Step(s, op).accounts[id], if Debits(s, op, id) then 1 else 0)
  {
    match op
    case EvaluateOp(now, model, c) =>
      if c.UnknownClass? { SameHolds(s.accounts[id], s.accounts[id]); } else { EvaluateSpendsOne(s, now, model, c, id); }
    case ReleaseOp(_) => SameHolds(s.accounts[id], Step(s, op).accounts[id]);
  }

  lemma HoldsAdds(a: Account, b: Account, c: Account, m: nat, n: nat)
    requires HoldsAtLeast(a, b, m) && HoldsAtLeast(b, c, n) && AccountOk(a) && AccountOk(b)
    ensures HoldsAtLeast(a, c, m + n)
  {
    Distribute(b.last - a.last, c.last - b.last, a.rate);
    MulNonneg(Seconds(c.last - b.last), a.rate);
  }

  /** Refill is as fast as promised and a start costs no more than one token: between reconfigurations
      an account holds at least what it had and earned, up to its burst, less one for each start. */
  lemma {:induction false} RunRefills(s: State, ops: seq<Op>, id: string)
    requires Good(s) && NoReconfigure(ops) && id in s.accounts
    ensures id in Run(s, ops).accounts && HoldsAtLeast(s.accounts[id], Run(s, ops).accounts[id], Starts(s, ops, id))
    decreases |ops|
  {
    if ops == [] {
      assert AccountOk(s.accounts[id]);
      SameHolds(s.accounts[id], s.accounts[id]);
    } else {
      StepKeepsGood(s, ops[0]);
      StepSpendsOne(s, ops[0], id);
      RunRefills(Step(s, ops[0]), ops[1..], id);
      assert AccountOk(s.accounts[id]) && AccountOk(Step(s, ops[0]).accounts[id]);
      HoldsAdds(s.accounts[id], Step(s, ops[0]).accounts[id], Run(s, ops).accounts[id],
                if Debits(s, ops[0], id) then 1 else 0, Starts(Step(s, ops[0]), ops[1..], id));
    }
  }

  lemma {:induction false} StartsFull(accounts: map<string, Account>, pools: seq<Pool>, allowed: seq<string>, start: int, p: Pool)
    requires PoolsOk(pools, allowed) && p in pools && p.account !in accounts
    ensures p.account in ApplyPools(accounts, pools, start) && ApplyPools(accounts, pools, start)[p.account] == FirstSeen(p, start)
    decreases |pools|
  {
    var n := |pools| - 1;
    assert pools == pools[..n] + [pools[n]];
    LastApart(pools[..n], pools[n], allowed);
    if p in pools[..n] {
      StartsFull(accounts, pools[..n], allowed, start, p);
    } else {
      NotTouched(accounts, pools[..n], start, p.account);
    }
  }

  /** From New on, research work is not deferred for rate while its account has started fewer than its
      burst. */
  lemma BurstIsAvailable(start: int, cfg: Config, ops: seq<Op>, now: int, model: string, c: WorkClass, p: Pool)
    requires ValidConfig(cfg) && !cfg.mode.Disabled? && NoReconfigure(ops) && Research(c)
    requires p in cfg.pools && model in p.models && Starts(New(start, cfg), ops, p.account) < p.burst
    ensures var s := Run(New(start, cfg), ops);
      Good(s) && TokensAt(s, p.account, now) >= 1.0 && !Evaluate(s, now, model, c).shadow.Defer?
  {
    var s0 := New(start, cfg);
    StartsFull(map[], cfg.pools, cfg.allowed, start, p);
    RunRefills(s0, ops, p.account);
    AdmissionIsExact(start, cfg, ops, now, model, c);
    FullLess(s0, Run(s0, ops), p, Starts(s0, ops, p.account), now);
  }

  lemma FullLess(s: State, end: State, p: Pool, starts: nat, now: int)
    requires Good(s) && Good(end) && p.account in s.accounts && p.account in end.accounts
    requires s.accounts[p.account].tokens == s.accounts[p.account].burst == p.burst as real
    requires HoldsAtLeast(s.accounts[p.account], end.accounts[p.account], starts) && starts < p.burst
    ensures TokensAt(end, p.account, now) >= 1.0
  {
    var a, b := s.accounts[p.account], end.accounts[p.account];
    assert AccountOk(a) && AccountOk(b);
    MulNonneg(Seconds(b.last - a.last), a.rate);
    SettleOk(b, now);
  }

  /** A deferral asks for no longer a wait than it takes: a nanosecond earlier the token is not whole. */
  lemma DeferralIsTight(a: Account, elapsed: int)
    requires AccountOk(a) && a.tokens < 1.0 && ExactWait(a) < MAX_WAIT as real && 0 <= elapsed < Wait(a)
    ensures Settle(a, a.last + elapsed).tokens < 1.0
  {
    var share := (1.0 - a.tokens) / a.rate;
    assert elapsed as real < ExactWait(a);
    assert Seconds(elapsed) < share;
    Grows(Seconds(elapsed), share, a.rate);
    assert share * a.rate == 1.0 - a.tokens;
  }

  lemma Grows(x: real, y: real, rate: real)
    requires x < y && rate > 0.0
    ensures x * rate < y * rate
  {
  }

  // ---------------------------------------------------------------------------------------------
  // Reconfiguration, account by account
  // ---------------------------------------------------------------------------------------------

  /** What a pool makes of its account: settled to now under the old rate, then under the new rate and
      within the new burst; its time and its dispatches are kept. */
  predicate TakesPool(a: Account, b: Account, p: Pool, now: int) {
    && b.rate == p.startRate && b.burst == p.burst as real
    && b.tokens == Min(TokensOf(a, now), p.burst as real) && b.last == (if now > a.last then now else a.last)
    && b.active == a.active && b.activeCompletion == a.activeCompletion
  }

  function TokensOf(a: Account, now: int): real {
    if now <= a.last then a.tokens else Min(a.burst, a.tokens + Seconds(now - a.last) * a.rate)
  }

  lemma {:induction false} PoolTakesAccount(accounts: map<string, Account>, pools: seq<Pool>, allowed: seq<string>, now: int, p: Pool)
    requires PoolsOk(pools, allowed) && p in pools && p.account in accounts
    ensures p.account in ApplyPools(accounts, pools, now)
    ensures TakesPool(accounts[p.account], ApplyPools(accounts, pools, now)[p.account], p, now)
    decreases |pools|
  {
    var n := |pools| - 1;
    assert pools == pools[..n] + [pools[n]];
    LastApart(pools[..n], pools[n], allowed);
    if p in pools[..n] {
      PoolTakesAccount(accounts, pools[..n], allowed, now, p);
    } else {
      NotTouched(accounts, pools[..n], now, p.account);
    }
  }

  /** A valid configuration changes exactly the accounts its pools name: known ones keep their allowance,
      new ones start full, all others stay as they are; an invalid one changes nothing. */
  lemma ReconfigureIsExact(s: State, now: int, cfg: Config, p: Pool, id: string)
    requires Good(s)
    ensures !ValidConfig(cfg) ==> Apply(s, now, cfg) == s
    ensures ValidConfig(cfg) ==> Apply(s, now, cfg).cfg == cfg && Apply(s, now, cfg).grants == s.grants
    ensures ValidConfig(cfg) && cfg.mode.Disabled? ==> Apply(s, now, cfg).accounts == s.accounts && Apply(s, now, cfg).modelPool == map[]
    ensures ValidConfig(cfg) && !cfg.mode.Disabled? && p in cfg.pools && p.account in s.accounts ==>
      p.account in Apply(s, now, cfg).accounts && TakesPool(s.accounts[p.account], Apply(s, now, cfg).accounts[p.account], p, now)
    ensures ValidConfig(cfg) && !cfg.mode.Disabled? && p in cfg.pools && p.account !in s.accounts ==>
      p.account in Apply(s, now, cfg).accounts &&
      Apply(s, now, cfg).accounts[p.account] == Account(p.burst as real, now, p.startRate, p.burst as real, 0, 0)
    ensures ValidConfig(cfg) && !cfg.mode.Disabled? && (forall q :: q in cfg.pools ==> q.account != id) ==>
      (id in Apply(s, now, cfg).accounts <==> id in s.accounts) &&
      (id in s.accounts ==> Apply(s, now, cfg).accounts[id] == s.accounts[id])
  {
    if ValidConfig(cfg) && !cfg.mode.Disabled? {
      PoolAccounts(s.accounts, cfg.pools, cfg.allowed, now);
      if p in cfg.pools {
        if p.account in s.accounts { PoolTakesAccount(s.accounts, cfg.pools, cfg.allowed, now, p); }
        else { StartsFull(s.accounts, cfg.pools, cfg.allowed, now, p); }
      }
      if forall q :: q in cfg.pools ==> q.account != id { NotTouched(s.accounts, cfg.pools, now, id); }
    }
  }
}
