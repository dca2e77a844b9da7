/** The rate guarantees of the admission policy: what a run may start, exactness of lazy refill, and
    honesty of deferrals. */
module PolicyRate {
  import opened PolicyConfig
  import opened Policy
  import opened PolicyLaws

  // ---------------------------------------------------------------------------------------------
  // Conservation
  // ---------------------------------------------------------------------------------------------

  /** The allowance one operation gives an account: its burst at first sight, and the rate it had for
      every second of high-water time that passed. */
  function Credit(s: State, s': State, id: string): real {
    if id !in s'.accounts then 0.0
    else if id !in s.accounts then s'.accounts[id].burst
    else Seconds(s'.accounts[id].last - s.accounts[id].last) * s.accounts[id].rate
  }

  /** The operation debits a start from the account. */
  predicate Debits(s: State, op: Op, id: string)
    requires Good(s)
  {
    op.EvaluateOp? && !op.class_.UnknownClass? && Limited(s, op.class_) && op.model in s.modelPool &&
    s.modelPool[op.model].account == id && Evaluate(s, op.now, op.model, op.class_).shadow.Admit?
  }

  ghost function Allowance(s: State, ops: seq<Op>, id: string): real
    requires Good(s)
    decreases |ops|
  {
    if ops == [] then 0.0
    else StepKeepsGood(s, ops[0]); Credit(s, Step(s, ops[0]), id) + Allowance(Step(s, ops[0]), ops[1..], id)
  }

  ghost function Starts(s: State, ops: seq<Op>, id: string): nat
    requires Good(s)
    decreases |ops|
  {
    if ops == [] then 0
    else StepKeepsGood(s, ops[0]); (if Debits(s, ops[0], id) then 1 else 0) + Starts(Step(s, ops[0]), ops[1..], id)
  }

  function Tokens(s: State, id: string): real {
    if id in s.accounts then s.accounts[id].tokens else 0.0
  }

  lemma SettleCredit(a: Account, now: int)
    requires AccountOk(a)
    ensures Settle(a, now).tokens <= a.tokens + Seconds(Settle(a, now).last - a.last) * a.rate
  {
    if now > a.last {
    } else {
      assert Seconds(0) == 0.0;
    }
  }

  /** What reconfiguration does to a known account: nothing, unless some pool uses it. */
  predicate Reconfigured(a: Account, b: Account, pools: seq<Pool>, now: int, id: string) {
    if exists p :: p in pools && p.account == id
    then b.tokens <= Settle(a, now).tokens && b.last == Settle(a, now).last
    else b == a
  }

  lemma {:induction false} ApplyPoolsCredit(accounts: map<string, Account>, pools: seq<Pool>, allowed: seq<string>, now: int, id: string)
    requires PoolsOk(pools, allowed)
    requires forall x :: x in accounts ==> AccountOk(accounts[x])
    ensures var after := ApplyPools(accounts, pools, now);
      if id in accounts then id in after && Reconfigured(accounts[id], after[id], pools, now, id)
      else id in after ==> after[id].tokens <= after[id].burst
  {
    if pools != [] {
      var n := |pools| - 1;
      var p := pools[n];
      assert pools == pools[..n] + [p];
      PrefixRejects(pools[..n], [p], allowed);
      ApplyPoolsCredit(accounts, pools[..n], allowed, now, id);
      forall q | q in pools[..n] ensures q.account != p.account {
        var i :| 0 <= i < n && pools[i] == q;
        assert Disjoint(pools[i], pools[n]);
      }
      if id == p.account && id !in accounts {
        NotTouched(accounts, pools[..n], now, id);
      }
    }
  }

  lemma {:induction false} NotTouched(accounts: map<string, Account>, pools: seq<Pool>, now: int, id: string)
    requires forall q :: q in pools ==> q.account != id
    ensures id in ApplyPools(accounts, pools, now) <==> id in accounts
    ensures id in accounts ==> ApplyPools(accounts, pools, now)[id] == accounts[id]
  {
    if pools != [] {
      NotTouched(accounts, pools[..|pools| - 1], now, id);
    }
  }

  /** What one operation may do to an account: spend no more than it gives, (1 - epsilon) for a start. */
  ghost predicate Conserves(s: State, op: Op, id: string)
    requires Good(s)
  {
    Tokens(Step(s, op), id) + (if Debits(s, op, id) then 1.0 - TOKEN_EPSILON else 0.0)
      <= Tokens(s, id) + Credit(s, Step(s, op), id)
  }

  lemma EvaluateConserves(s: State, op: Op, id: string)
    requires Good(s) && op.EvaluateOp?
    ensures Conserves(s, op, id)
  {
    var EvaluateOp(now, model, c) := op;
    if !c.UnknownClass? && Limited(s, c) && model in s.modelPool && s.modelPool[model].account == id {
      SettleOk(s.accounts[id], now);
      SettleCredit(s.accounts[id], now);
    }
  }

  lemma ReconfigureConserves(s: State, op: Op, id: string)
    requires Good(s) && op.ReconfigureOp?
    ensures Conserves(s, op, id)
  {
    var ReconfigureOp(now, cfg) := op;
    if ValidConfig(cfg) && !cfg.mode.Disabled? {
      ApplyPoolsCredit(s.accounts, cfg.pools, cfg.allowed, now, id);
      if id in s.accounts {
        SettleCredit(s.accounts[id], now);
      }
    }
  }

  lemma ReleaseConserves(s: State, op: Op, id: string)
    requires Good(s) && op.ReleaseOp?
    ensures Conserves(s, op, id)
  {
  }

  lemma StepConserves(s: State, op: Op, id: string)
    requires Good(s)
    ensures Conserves(s, op, id)
  {
    match op
    case EvaluateOp(_, _, _) => EvaluateConserves(s, op, id);
    case ReleaseOp(_) => ReleaseConserves(s, op, id);
    case ReconfigureOp(_, _) => ReconfigureConserves(s, op, id);
  }

  /** Over any run, whatever the clocks do and however often pools are removed and added again: the
      tokens an account holds and the starts debited from it stay within its allowance. */
  lemma {:induction false} RunConserves(s: State, ops: seq<Op>, id: string)
    requires Good(s)
    ensures Tokens(Run(s, ops), id) + (1.0 - TOKEN_EPSILON) * Starts(s, ops, id) as real
      <= Tokens(s, id) + Allowance(s, ops, id)
    decreases |ops|
  {
    if ops != [] {
      StepKeepsGood(s, ops[0]);
      StepConserves(s, ops[0], id);
      RunConserves(Step(s, ops[0]), ops[1..], id);
    }
  }

  lemma EvaluateLast(s: State, op: Op, id: string)
    requires Good(s) && !op.ReconfigureOp? && id in s.accounts
    ensures var s' := Step(s, op);
      id in s'.accounts && s'.accounts[id].rate == s.accounts[id].rate && s'.accounts[id].burst == s.accounts[id].burst &&
      s'.accounts[id].last >= s.accounts[id].last
  {
  }

  lemma AllowanceUnfolds(s: State, ops: seq<Op>, id: string)
    requires Good(s) && ops != []
    ensures Good(Step(s, ops[0])) && Run(s, ops) == Run(Step(s, ops[0]), ops[1..])
    ensures Allowance(s, ops, id) == Credit(s, Step(s, ops[0]), id) + Allowance(Step(s, ops[0]), ops[1..], id)
  {
    StepKeepsGood(s, ops[0]);
  }

  /** The allowance between two states of an account with one rate. */
  predicate Earned(s: State, end: State, id: string, allowance: real) {
    id in s.accounts && id in end.accounts && end.accounts[id].rate == s.accounts[id].rate &&
    allowance == Seconds(end.accounts[id].last - s.accounts[id].last) * s.accounts[id].rate
  }

  lemma {:induction false} AllowanceIsElapsedTime(s: State, ops: seq<Op>, id: string)
    requires Good(s) && NoReconfigure(ops) && id in s.accounts
    ensures Earned(s, Run(s, ops), id, Allowance(s, ops, id))
    decreases |ops|
  {
    if ops == [] {
      assert Seconds(0) * s.accounts[id].rate == 0.0;
    } else {
      AllowanceUnfolds(s, ops, id);
      EvaluateLast(s, ops[0], id);
      AllowanceIsElapsedTime(Step(s, ops[0]), ops[1..], id);
      EarnedAdds(s, Step(s, ops[0]), Run(s, ops), id, Allowance(Step(s, ops[0]), ops[1..], id));
    }
  }

  lemma EarnedAdds(s: State, s': State, end: State, id: string, rest: real)
    requires id in s.accounts && id in s'.accounts && s'.accounts[id].rate == s.accounts[id].rate && Earned(s', end, id, rest)
    ensures Earned(s, end, id, Credit(s, s', id) + rest)
  {
    Distribute(s'.accounts[id].last - s.accounts[id].last, end.accounts[id].last - s'.accounts[id].last, s.accounts[id].rate);
  }

  lemma Distribute(x: int, y: int, rate: real)
    ensures Seconds(x) * rate + Seconds(y) * rate == Seconds(x + y) * rate
  {
    assert Seconds(x) + Seconds(y) == Seconds(x + y);
  }

  lemma SpentWithinAllowance(s: State, ops: seq<Op>, id: string)
    requires Good(s) && id in s.accounts
    ensures (1.0 - TOKEN_EPSILON) * Starts(s, ops, id) as real <= s.accounts[id].burst + Allowance(s, ops, id)
  {
    RunConserves(s, ops, id);
    ActiveIsTickets(s, ops);
    assert Tokens(Run(s, ops), id) >= 0.0;
  }

  /** Between reconfigurations an account starts at most its burst plus its rate times the elapsed
      high-water time, up to epsilon a start. */
  lemma StartsArePaced(s: State, ops: seq<Op>, id: string) returns (allowance: real)
    requires Good(s) && NoReconfigure(ops) && id in s.accounts
    ensures (1.0 - TOKEN_EPSILON) * Starts(s, ops, id) as real <= s.accounts[id].burst + allowance
    ensures Earned(s, Run(s, ops), id, allowance)
  {
    allowance := Allowance(s, ops, id);
    SpentWithinAllowance(s, ops, id);
    AllowanceIsElapsedTime(s, ops, id);
  }

  // ---------------------------------------------------------------------------------------------
  // Lazy refill
  // ---------------------------------------------------------------------------------------------

  function SettleAll(a: Account, times: seq<int>): Account {
    if times == [] then a else Settle(SettleAll(a, times[..|times| - 1]), times[|times| - 1])
  }

  function Latest(times: seq<int>): int
    requires times != []
  {
    var n := |times| - 1;
    if n == 0 || Latest(times[..n]) < times[n] then times[n] else Latest(times[..n])
  }

  lemma MulMonotone(x: real, y: real, r: real)
    requires x <= y && r >= 0.0
    ensures x * r <= y * r
  {
  }

  /** Two settlements are one, at the later time. */
  lemma SettleTwice(a: Account, t: int, u: int)
    requires AccountOk(a)
    ensures Settle(Settle(a, t), u) == Settle(a, if t < u then u else t)
  {
    if a.last < t < u {
      Distribute(t - a.last, u - t, a.rate);
      assert Seconds(u - t) * a.rate >= 0.0 by { MulNonneg(Seconds(u - t), a.rate); }
    }
  }

  /** Settling at any sequence of times, in any order, is settling once at the latest of them. */
  lemma {:induction false} LazyRefillIsExact(a: Account, times: seq<int>)
    requires AccountOk(a) && times != []
    ensures SettleAll(a, times) == Settle(a, Latest(times))
  {
    var n := |times| - 1;
    if n == 0 {
      assert times[..0] == [];
    } else {
      LazyRefillIsExact(a, times[..n]);
      SettleTwice(a, Latest(times[..n]), times[n]);
    }
  }

  // ---------------------------------------------------------------------------------------------
  // Deferrals
  // ---------------------------------------------------------------------------------------------

  /** The account as it would be at any later time, if only time passed. */
  predicate OnlyTimePassed(a: Account, b: Account) {
    b.last >= a.last && b.rate == a.rate && b.burst == a.burst && b.tokens == Settle(a, b.last).tokens
  }

  predicate NoDebit(s: State, ops: seq<Op>, id: string)
    requires Good(s)
    decreases |ops|
  {
    ops == [] || (!Debits(s, ops[0], id) && (StepKeepsGood(s, ops[0]); NoDebit(Step(s, ops[0]), ops[1..], id)))
  }

  lemma StepOnlyPassesTime(s: State, op: Op, id: string)
    requires Good(s) && !op.ReconfigureOp? && id in s.accounts && !Debits(s, op, id)
    ensures id in Step(s, op).accounts && OnlyTimePassed(s.accounts[id], Step(s, op).accounts[id])
  {
    SettleOk(s.accounts[id], s.accounts[id].last);
  }

  lemma OnlyTimePassedTransitive(a: Account, b: Account, c: Account)
    requires AccountOk(a) && OnlyTimePassed(a, b) && OnlyTimePassed(b, c)
    ensures OnlyTimePassed(a, c)
  {
    SettleTwice(a, b.last, c.last);
  }

  lemma {:induction false} RunOnlyPassesTime(s: State, ops: seq<Op>, id: string)
    requires Good(s) && NoReconfigure(ops) && id in s.accounts && NoDebit(s, ops, id)
    ensures id in Run(s, ops).accounts && OnlyTimePassed(s.accounts[id], Run(s, ops).accounts[id])
    decreases |ops|
  {
    if ops != [] {
      StepKeepsGood(s, ops[0]);
      StepOnlyPassesTime(s, ops[0], id);
      RunOnlyPassesTime(Step(s, ops[0]), ops[1..], id);
      OnlyTimePassedTransitive(s.accounts[id], Step(s, ops[0]).accounts[id], Run(s, ops).accounts[id]);
    }
  }

  /** The wait a deferral asks for is long enough to refill one token. */
  lemma WaitRefills(a: Account, elapsed: int)
    requires AccountOk(a) && a.tokens < 1.0 && ExactWait(a) < MAX_WAIT as real && elapsed >= Wait(a)
    ensures a.tokens + Seconds(elapsed) * a.rate >= 1.0
  {
    var share := (1.0 - a.tokens) / a.rate;
    assert Wait(a) as real >= ExactWait(a);
    assert Seconds(elapsed) >= share;
    MulMonotone(share, Seconds(elapsed), a.rate);
    assert share * a.rate == 1.0 - a.tokens;
  }

  lemma RefilledIsAdmitted(a: Account, b: Account, now: int)
    requires AccountOk(a) && a.tokens < 1.0 && ExactWait(a) < MAX_WAIT as real
    requires OnlyTimePassed(a, b) && now >= a.last + Wait(a)
    ensures Settle(b, now).tokens >= 1.0
  {
    var end := if now > b.last then now else b.last;
    SettleTwice(a, b.last, now);
    assert Settle(b, now).tokens == Settle(a, end).tokens;
    assert Wait(a) >= 1 by { PositiveWait(a); }
    WaitRefills(a, end - a.last);
  }

  lemma PositiveWait(a: Account)
    requires AccountOk(a) && a.tokens < 1.0 && ExactWait(a) < MAX_WAIT as real
    ensures Wait(a) >= 1
  {
    assert (1.0 - a.tokens) / a.rate > 0.0;
  }

  /** A request deferred for rate, with a wait that is not capped, is not deferred again at or past
      NotBefore, if nothing was admitted from the account and nothing was reconfigured in between,
      whatever else happened and whatever the clocks read. */
  lemma DeferralIsHonest(s: State, first: Op, ops: seq<Op>, again: Op)
    requires Good(s) && NoReconfigure(ops) && first.EvaluateOp? && again.EvaluateOp?
    requires !first.class_.UnknownClass? && !again.class_.UnknownClass? && again.model == first.model
    requires first.model in s.modelPool && Limited(s, first.class_)
    requires Evaluate(s, first.now, first.model, first.class_).shadow.Defer?
    requires ExactWait(Settle(s.accounts[s.modelPool[first.model].account], first.now)) < MAX_WAIT as real
    requires Good(Step(s, first)) && NoDebit(Step(s, first), ops, s.modelPool[first.model].account)
    requires again.now >= Evaluate(s, first.now, first.model, first.class_).shadow.notBefore
    ensures var s' := Run(Step(s, first), ops);
      Good(s') && !Evaluate(s', again.now, again.model, again.class_).shadow.Defer?
  {
    var id := s.modelPool[first.model].account;
    var s1 := Step(s, first);
    ActiveIsTickets(s1, ops);
    RunOnlyPassesTime(s1, ops, id);
    RunKeepsPools(s1, ops);
    var a := Settle(s.accounts[id], first.now);
    SettleOk(s.accounts[id], first.now);
    SettleOk(a, a.last);
    var b := Run(s1, ops).accounts[id];
    assert OnlyTimePassed(a, s1.accounts[id]);
    OnlyTimePassedTransitive(a, s1.accounts[id], b);
    RefilledIsAdmitted(a, b, again.now);
  }

  lemma {:induction false} RunKeepsPools(s: State, ops: seq<Op>)
    requires Good(s) && NoReconfigure(ops)
    ensures Run(s, ops).modelPool == s.modelPool && Run(s, ops).cfg == s.cfg
    decreases |ops|
  {
    if ops != [] {
      StepKeepsGood(s, ops[0]);
      RunKeepsPools(Step(s, ops[0]), ops[1..]);
    }
  }
}
