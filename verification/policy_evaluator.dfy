/** The evaluator of the research admission policy, updated in place, against module Policy. */
module PolicyEvaluator {
  import PolicyConfig
  import Policy
  import opened Types = PolicyConfig
  import opened Spec = Policy

  class Ticket {
    const owner: Evaluator
    const account: string
    const completion: bool
    var released: bool

    constructor (owner: Evaluator, account: string, completion: bool)
      ensures this.owner == owner && this.account == account && this.completion == completion && !released
    {
      this.owner, this.account, this.completion, this.released := owner, account, completion, false;
    }
  }

  /** Map p's models to it, over any earlier mapping. */
  method MapModels(modelPool: map<string, Pool>, p: Pool) returns (mapped: map<string, Pool>)
    ensures mapped == modelPool + map m | m in p.models :: p
  {
    mapped := modelPool;
    for j := 0 to |p.models|
      invariant mapped == modelPool + map m | m in p.models[..j] :: p
    {
      assert p.models[..j + 1] == p.models[..j] + [p.models[j]];
      mapped := mapped[p.models[j] := p];
    }
    assert p.models[..|p.models|] == p.models;
  }

  /** Settle, decide, debit and track, on the account. */
  method StepAccount(cfg: Config, p: Pool, before: Account, now: int, c: WorkClass)
    returns (acct: Account, verdict: Verdict, shadow: Verdict)
    requires before.rate > 0.0
    ensures Stepped(cfg, p, before, now, c, acct, verdict, shadow)
  {
    acct := Settle(before, now);
    shadow := Decide(cfg, p, acct, c);
    if shadow.Admit? {
      acct := Debit(acct);
    }
    verdict := if cfg.mode.Observe? then Admit else shadow;
    if verdict.Admit? {
      acct := Track(acct, c);
    }
  }

  predicate Stepped(cfg: Config, p: Pool, before: Account, now: int, c: WorkClass, acct: Account, verdict: Verdict, shadow: Verdict)
    requires before.rate > 0.0
  {
    var a := Settle(before, now);
    var debited := if shadow.Admit? then Debit(a) else a;
    && shadow == Decide(cfg, p, a, c) && verdict == (if cfg.mode.Observe? then Admit else shadow)
    && acct == if verdict.Admit? then Track(debited, c) else debited
  }

  /** What that makes of the whole state. */
  lemma EvaluateIs(s: State, now: int, model: string, p: Pool, c: WorkClass, acct: Account, verdict: Verdict, shadow: Verdict)
    requires Runnable(s) && Limited(s, c) && model in s.modelPool && s.modelPool[model] == p
    requires Stepped(s.cfg, p, s.accounts[p.account], now, c, acct, verdict, shadow)
    ensures var r := Policy.Evaluate(s, now, model, c);
      && r.state == s.(accounts := s.accounts[p.account := acct],
                       grants := s.grants + if verdict.Admit? then [Grant(p.account, Completion(c), false)] else [])
      && r.verdict == verdict && r.shadow == shadow && r.tracked == verdict.Admit? && Runnable(r.state)
  {
    assert s.grants + [] == s.grants;
  }

  class Evaluator {
    var cfg: Config
    var modelPool: map<string, Pool>
    var accounts: map<string, Account>
    ghost var issued: seq<Ticket>

    ghost predicate Valid()
      reads this, issued
    {
      && Runnable(Abs())
      && (forall t :: t in issued ==> t.owner == this && t.account in accounts)
      && (forall i, j :: 0 <= i < j < |issued| ==> issued[i] != issued[j])
    }

    ghost function Abs(): State
      reads this, issued
    {
      State(cfg, modelPool, accounts, seq(|issued|, i requires 0 <= i < |issued| reads this, issued => Granted(issued[i])))
    }

    ghost function Granted(t: Ticket): Grant
      reads t
    {
      Grant(t.account, t.completion, t.released)
    }

    constructor ()
      ensures Valid() && Abs() == EMPTY && issued == []
    {
      cfg, modelPool, accounts, issued := EMPTY.cfg, map[], map[], [];
    }

    /** Set up the account and the models of each pool. */
    method ConfigurePools(now: int, pools: seq<Pool>) returns (modelPool: map<string, Pool>)
      modifies this`accounts
      ensures modelPool == ModelPools(pools) && accounts == ApplyPools(old(accounts), pools, now)
    {
      modelPool := map[];
      for i := 0 to |pools|
        invariant modelPool == ModelPools(pools[..i])
        invariant accounts == ApplyPools(old(accounts), pools[..i], now)
      {
        var p := pools[i];
        assert pools[..i + 1][..i] == pools[..i];
        modelPool := MapModels(modelPool, p);
        if p.account !in accounts {
          accounts := accounts[p.account := FirstSeen(p, now)];
        } else {
          accounts := accounts[p.account := Configured(accounts[p.account], p, now)];
        }
      }
      assert pools[..|pools|] == pools;
    }

    /** apply: swap in a configuration, or refuse it and change nothing. */
    method Reconfigure(now: int, cfg: Config) returns (ok: bool)
      requires Valid()
      modifies this`cfg, this`modelPool, this`accounts
      ensures Valid() && ok == ValidConfig(cfg) && Abs() == Apply(old(Abs()), now, cfg)
    {
      ok := PolicyConfig.Validate(cfg);
      if ok {
        ApplyKeepsAccounts(Abs(), now, cfg);
        var modelPool := map[];
        if !cfg.mode.Disabled? {
          modelPool := ConfigurePools(now, cfg.pools);
        }
        this.cfg := cfg;
        this.modelPool := modelPool;
        assert Abs() == Apply(old(Abs()), now, cfg);
      }
    }

    method Evaluate(now: int, model: string, c: WorkClass) returns (known: bool, verdict: Verdict, shadow: Verdict, ticket: Ticket?)
      requires Valid()
      modifies this`accounts, this`issued
      ensures Valid() && known == !c.UnknownClass?
      ensures !known ==> Abs() == old(Abs()) && ticket == null
      ensures known ==>
        var r := Policy.Evaluate(old(Abs()), now, model, c);
        Abs() == r.state && verdict == r.verdict && shadow == r.shadow && (ticket != null) == r.tracked
      ensures ticket != null ==> fresh(ticket) && issued == old(issued) + [ticket]
      ensures ticket == null ==> issued == old(issued)
    {
      ticket := null;
      if c.UnknownClass? {
        return false, Unmapped, Unmapped, null;
      }
      if !Paced(c) || cfg.mode.Disabled? {
        return true, Admit, Admit, null;
      }
      if model !in modelPool {
        return true, if cfg.mode.Observe? then Admit else Unmapped, Unmapped, null;
      }
      verdict, shadow, ticket := EvaluateIn(now, model, modelPool[model], c);
      known := true;
    }

    /** The part for a mapped model. */
    method EvaluateIn(now: int, model: string, p: Pool, c: WorkClass) returns (verdict: Verdict, shadow: Verdict, ticket: Ticket?)
      requires Valid() && Paced(c) && !cfg.mode.Disabled? && model in modelPool && modelPool[model] == p
      modifies this`accounts, this`issued
      ensures Valid()
      ensures var r := Policy.Evaluate(old(Abs()), now, model, c);
        Abs() == r.state && verdict == r.verdict && shadow == r.shadow && (ticket != null) == r.tracked
      ensures ticket != null ==> fresh(ticket) && issued == old(issued) + [ticket]
      ensures ticket == null ==> issued == old(issued)
    {
      var acct;
      acct, verdict, shadow := StepAccount(cfg, p, accounts[p.account], now, c);
      EvaluateIs(Abs(), now, model, p, c, acct, verdict, shadow);
      ticket := null;
      if verdict.Admit? {
        ticket := new Ticket(this, p.account, Completion(c));
        issued := issued + [ticket];
      }
      accounts := accounts[p.account := acct];
      assert Abs().grants == old(Abs()).grants + if verdict.Admit? then [Grant(p.account, Completion(c), false)] else [];
    }

    /** Idempotent; a nil ticket, or one of another evaluator, is ignored. */
    method Release(ticket: Ticket?)
      requires Valid() && (ticket != null && ticket.owner == this ==> ticket in issued)
      modifies this`accounts, ticket
      ensures Valid() && issued == old(issued)
      ensures ticket == null || ticket.owner != this ==> Abs() == old(Abs())
      ensures forall i :: 0 <= i < |issued| && issued[i] == ticket ==> Abs() == Policy.Release(old(Abs()), i)
    {
      if ticket == null || ticket.owner != this || ticket.released {
        return;
      }
      ticket.released := true;
      accounts := accounts[ticket.account := Untrack(accounts[ticket.account], ticket.completion)];
    }
  }
}
