/** The research admission policy: a lazily settled token bucket per account, with reserved completion
    capacity and tickets. The functions say what each operation does to the evaluator's state. */
module Policy {
  import opened PolicyConfig

  datatype WorkClass =
    | ResearchWrite | ResearchReview | ResearchRework | ResearchAdjudication
    | BuildWork | DesignWork | MergeWork | UnknownClass

  predicate Paced(c: WorkClass) {
    c.ResearchWrite? || c.ResearchReview? || c.ResearchRework? || c.ResearchAdjudication?
  }

  predicate Completion(c: WorkClass) {
    c.ResearchReview? || c.ResearchRework? || c.ResearchAdjudication?
  }

  datatype Reason = Concurrency | ReservedCapacity

  datatype Verdict = Admit | Defer(notBefore: int) | Retry(reason: Reason, after: int) | Unmapped

  const TOKEN_EPSILON := 0.000000001
  const MAX_WAIT := 0x3FFF_FFFF_FFFF_FFFF  // math.MaxInt64 / 2

  /** `last` is the latest time seen, in nanoseconds. */
  datatype Account = Account(tokens: real, last: int, rate: real, burst: real, active: int, activeCompletion: int)

  /** A tracked dispatch: the ticket Evaluate handed out. */
  datatype Grant = Grant(account: string, completion: bool, released: bool)

  datatype State = State(
    cfg: Config,
    modelPool: map<string, Pool>,
    accounts: map<string, Account>,
    grants: seq<Grant>)

  function Min(a: real, b: real): real {
    if a <= b then a else b
  }

  function Max(a: real, b: real): real {
    if a >= b then a else b
  }

  function Seconds(nanoseconds: int): real {
    nanoseconds as real / 1_000_000_000.0
  }

  function Ceil(x: real): int {
    -(-x).Floor
  }

  function Settle(a: Account, now: int): Account {
    if now <= a.last then a
    else a.(tokens := Min(a.burst, a.tokens + Seconds(now - a.last) * a.rate), last := now)
  }

  // ---------------------------------------------------------------------------------------------
  // New and Reconfigure
  // ---------------------------------------------------------------------------------------------

  function Configured(old_: Account, p: Pool, now: int): Account {
    var a := Settle(old_, now);
    a.(rate := p.startRate, burst := p.burst as real, tokens := Min(a.tokens, p.burst as real))
  }

  function FirstSeen(p: Pool, now: int): Account {
    Account(p.burst as real, now, p.startRate, p.burst as real, 0, 0)
  }

  function ApplyPool(accounts: map<string, Account>, p: Pool, now: int): map<string, Account> {
    accounts[p.account :=
      if p.account in accounts then Configured(accounts[p.account], p, now) else FirstSeen(p, now)]
  }

  function ApplyPools(accounts: map<string, Account>, pools: seq<Pool>, now: int): map<string, Account> {
    if pools == [] then accounts
    else ApplyPool(ApplyPools(accounts, pools[..|pools| - 1], now), pools[|pools| - 1], now)
  }

  /** The pool of each model, a later pool's mapping winning. */
  function ModelPools(pools: seq<Pool>): map<string, Pool> {
    if pools == [] then map[]
    else
      var p := pools[|pools| - 1];
      ModelPools(pools[..|pools| - 1]) + map m | m in p.models :: p
  }

  function Apply(s: State, now: int, cfg: Config): State {
    if !ValidConfig(cfg) then s
    else if cfg.mode.Disabled? then s.(cfg := cfg, modelPool := map[])
    else s.(cfg := cfg, modelPool := ModelPools(cfg.pools), accounts := ApplyPools(s.accounts, cfg.pools, now))
  }

  const EMPTY := State(Config(Disabled, [], [], 0), map[], map[], [])

  // ---------------------------------------------------------------------------------------------
  // Evaluate and Release
  // ---------------------------------------------------------------------------------------------

  /** How long until a bucket holds a whole token, in nanoseconds. */
  function ExactWait(a: Account): real
    requires a.rate > 0.0
  {
    (1.0 - a.tokens) / a.rate * 1_000_000_000.0
  }

  function Wait(a: Account): int
    requires a.rate > 0.0
  {
    if ExactWait(a) < MAX_WAIT as real then Ceil(ExactWait(a)) else MAX_WAIT
  }

  function Decide(cfg: Config, p: Pool, a: Account, c: WorkClass): Verdict
    requires a.rate > 0.0
  {
    if a.active >= p.limit then Retry(Concurrency, RetryAfter(cfg))
    else if !Completion(c) && a.active - a.activeCompletion >= p.limit - p.reserved then
      Retry(ReservedCapacity, RetryAfter(cfg))
    else if a.tokens >= 1.0 - TOKEN_EPSILON then Admit
    else Defer(a.last + Wait(a))
  }

  function Debit(a: Account): Account {
    a.(tokens := Max(0.0, a.tokens - 1.0))
  }

  function Track(a: Account, c: WorkClass): Account {
    a.(active := a.active + 1, activeCompletion := a.activeCompletion + if Completion(c) then 1 else 0)
  }

  /** `verdict` is what the caller must do, `shadow` what enforcement would decide. */
  datatype Evaluated = Evaluated(state: State, verdict: Verdict, shadow: Verdict, tracked: bool)

  /** Every mapped model's account exists, with a positive rate. */
  predicate Runnable(s: State) {
    forall m :: m in s.modelPool ==>
      s.modelPool[m].account in s.accounts && s.accounts[s.modelPool[m].account].rate > 0.0
  }

  /** Work that consumes research allowance now. */
  predicate Limited(s: State, c: WorkClass) {
    Paced(c) && !s.cfg.mode.Disabled?
  }

  /** Evaluate, for a known work class. */
  function Evaluate(s: State, now: int, model: string, c: WorkClass): Evaluated
    requires Runnable(s)
  {
    if !Limited(s, c) then Evaluated(s, Admit, Admit, false)
    else if model !in s.modelPool then
      Evaluated(s, if s.cfg.mode.Observe? then Admit else Unmapped, Unmapped, false)
    else
      var p := s.modelPool[model];
      var a := Settle(s.accounts[p.account], now);
      var shadow := Decide(s.cfg, p, a, c);
      var verdict := if s.cfg.mode.Observe? then Admit else shadow;
      var debited := if shadow.Admit? then Debit(a) else a;
      var tracked := verdict.Admit?;
      Evaluated(
        s.(accounts := s.accounts[p.account := if tracked then Track(debited, c) else debited],
           grants := if tracked then s.grants + [Grant(p.account, Completion(c), false)] else s.grants),
        verdict, shadow, tracked)
  }

  function Untrack(a: Account, completion: bool): Account {
    a.(active := a.active - 1, activeCompletion := a.activeCompletion - if completion then 1 else 0)
  }

  /** Release the i-th ticket. */
  function Release(s: State, i: nat): State {
    if i >= |s.grants| || s.grants[i].released || s.grants[i].account !in s.accounts then s
    else
      var g := s.grants[i];
      s.(accounts := s.accounts[g.account := Untrack(s.accounts[g.account], g.completion)],
         grants := s.grants[i := g.(released := true)])
  }

  /** No account is forgotten, and every mapped one has its pool's rate. */
  lemma ApplyKeepsAccounts(s: State, now: int, cfg: Config)
    requires Runnable(s)
    ensures Runnable(Apply(s, now, cfg))
    ensures forall id :: id in s.accounts ==> id in Apply(s, now, cfg).accounts
  {
    if ValidConfig(cfg) && !cfg.mode.Disabled? {
      PoolAccounts(s.accounts, cfg.pools, cfg.allowed, now);
    }
  }

  lemma {:induction false} PoolAccounts(accounts: map<string, Account>, pools: seq<Pool>, allowed: seq<string>, now: int)
    requires PoolsOk(pools, allowed)
    ensures forall id :: id in accounts ==> id in ApplyPools(accounts, pools, now)
    ensures forall p :: p in pools ==>
      p.account in ApplyPools(accounts, pools, now) &&
      ApplyPools(accounts, pools, now)[p.account].rate == p.startRate &&
      ApplyPools(accounts, pools, now)[p.account].burst == p.burst as real
    ensures forall m :: m in ModelPools(pools) ==> ModelPools(pools)[m] in pools && m in ModelPools(pools)[m].models
  {
    if pools != [] {
      var n := |pools| - 1;
      assert pools == pools[..n] + [pools[n]];
      PrefixRejects(pools[..n], [pools[n]], allowed);
      PoolAccounts(accounts, pools[..n], allowed, now);
      forall p | p in pools[..n] ensures p.account != pools[n].account {
        var i :| 0 <= i < n && pools[i] == p;
        assert Disjoint(pools[i], pools[n]);
      }
    }
  }
}
