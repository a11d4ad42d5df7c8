/** Account selection and the circuit breaker, as functions of the shared state. */
module Accounts {
  /** One account's shared statistics. Times are nanoseconds. */
  datatype Stats = Stats(fails: nat, lastFailure: int, message: string)

  datatype AccountState = AccountState(id: string, enabled: bool, stats: Stats)

  /** The state all requests share. */
  datatype World = World(accounts: seq<AccountState>, sticky: nat)

  datatype Config = Config(recovery: int, maxMultiplier: int, retryChance: real)

  datatype Kind = Recoverable | Fatal

  // ----- quarantine -----

  function Pow2(n: nat): (p: nat)
    ensures p >= 1
  {
    if n == 0 then 1 else 2 * Pow2(n - 1)
  }

  function Min(a: int, b: int): int { if a <= b then a else b }

  function Max(a: int, b: int): int { if a <= b then b else a }

  /** The quarantine window after a number of failures. */
  function Window(fails: nat, base: int, cap: int): int
  {
    if fails == 0 then 0 else base * Min(Pow2(fails - 1), cap)
  }

  lemma {:induction false} Pow2Monotone(a: nat, b: nat)
    requires a <= b
    ensures Pow2(a) <= Pow2(b)
  {
    if a < b { Pow2Monotone(a, b - 1); }
  }

  lemma Scale(base: int, a: int, b: int)
    requires base >= 0 && a <= b
    ensures base * a <= base * b
  {
  }

  /** quarantineWindow. `peak` is the largest multiplier the loop ever holds. */
  method QuarantineWindow(fails: nat, base: int, cap: int) returns (window: int, ghost peak: int)
    ensures window == Window(fails, base, cap)
    ensures peak <= Max(1, cap)
  {
    peak := 0;
    if fails == 0 { return 0, 0; }
    var multiplier := 1;
    peak := 1;
    var i := 1;
    while i < fails
      invariant 1 <= i <= fails && 1 <= multiplier == Pow2(i - 1) && multiplier <= peak <= Max(1, cap)
    {
      Pow2Monotone(i - 1, fails - 1);
      if multiplier > cap {
        multiplier := cap;
        break;
      }
      if multiplier > cap / 2 {
        Pow2Monotone(i, fails - 1);
        multiplier := cap;
        peak := Max(peak, multiplier);
        break;
      }
      multiplier := multiplier * 2;
      peak := Max(peak, multiplier);
      i := i + 1;
    }
    if multiplier > cap { multiplier := cap; }
    window := base * multiplier;
  }

  /** More failures never shorten the quarantine, and it never exceeds the cap. */
  lemma WindowMonotone(a: nat, b: nat, base: int, cap: int)
    requires a <= b && base >= 0 && cap >= 0
    ensures 0 <= Window(a, base, cap) <= Window(b, base, cap) <= base * cap
  {
    if a > 0 { Pow2Monotone(a - 1, b - 1); }
    if b > 0 {
      Scale(base, 0, Min(Pow2(b - 1), cap));
      Scale(base, Min(Pow2(b - 1), cap), cap);
    }
    if a > 0 {
      Scale(base, 0, Min(Pow2(a - 1), cap));
      Scale(base, Min(Pow2(a - 1), cap), Min(Pow2(b - 1), cap));
    }
    Scale(base, 0, cap);
  }

  lemma Doubled(base: int, m: int, cap: int)
    requires base > 0
    ensures base * (2 * m) == 2 * (base * m)
    ensures 2 * m <= cap <==> 2 * (base * m) <= base * cap
  {
    if 2 * m <= cap { Scale(base, 2 * m, cap); } else { Scale(base, cap + 1, 2 * m); }
  }

  /** The window is the base after one failure, and doubles with every further one up to the cap. */
  lemma WindowDoubles(n: nat, base: int, cap: int)
    requires n > 0 && base > 0 && cap > 0
    ensures Window(1, base, cap) == base
    ensures Window(n + 1, base, cap) ==
      if 2 * Window(n, base, cap) <= base * cap then 2 * Window(n, base, cap) else base * cap
  {
    var m := Min(Pow2(n - 1), cap);
    assert Pow2(n) == 2 * Pow2(n - 1) && Pow2(0) == 1;
    Doubled(base, m, cap);
    assert Min(Pow2(n), cap) == if 2 * m <= cap then 2 * m else cap;
  }

  /** isInQuarantine; `draw` is the random number in case one is drawn. */
  predicate Quarantined(cfg: Config, a: AccountState, now: int, draw: real)
  {
    && a.stats.fails != 0
    && now - a.stats.lastFailure < Window(a.stats.fails, cfg.recovery, cfg.maxMultiplier)
    && !(draw < cfg.retryChance)
  }

  predicate Eligible(cfg: Config, a: AccountState, exclude: set<string>, now: int, draw: real)
  {
    a.enabled && a.id !in exclude && !Quarantined(cfg, a, now, draw)
  }

  // ----- the choice -----

  /** The account `k` steps behind the sticky one. */
  function At(w: World, k: nat): AccountState
    requires w.accounts != []
  {
    w.accounts[(w.sticky + k) % |w.accounts|]
  }

  /** The first of the steps `k`, `k + 1`, ... at which an account is eligible, or the number of accounts. */
  function FirstStep(cfg: Config, w: World, exclude: set<string>, now: int, draws: nat -> real, k: nat): (s: nat)
    requires w.accounts != [] && k <= |w.accounts|
    ensures k <= s <= |w.accounts|
    ensures s < |w.accounts| ==> Eligible(cfg, At(w, s), exclude, now, draws(s))
    ensures forall j :: k <= j < s ==> !Eligible(cfg, At(w, j), exclude, now, draws(j))
    decreases |w.accounts| - k
  {
    if k == |w.accounts| || Eligible(cfg, At(w, k), exclude, now, draws(k)) then k
    else FirstStep(cfg, w, exclude, now, draws, k + 1)
  }

  datatype Choice = Chosen(index: nat) | Exhausted(message: string)

  function MessageOr(message: string, default: string): string { if message == "" then default else message }

  /** GetNextAccount. A single account is chosen whatever its state, unless it was tried already. */
  function Next(cfg: Config, w: World, exclude: set<string>, now: int, draws: nat -> real): (c: Choice)
    ensures c.Chosen? ==> c.index < |w.accounts| && w.accounts[c.index].id !in exclude
  {
    var n := |w.accounts|;
    if n == 0 then Exhausted("no accounts available")
    else if n == 1 then
      var a := w.accounts[0];
      if a.id in exclude then Exhausted(MessageOr(a.stats.message, "account already tried")) else Chosen(0)
    else
      var s := FirstStep(cfg, w, exclude, now, draws, 0);
      if s < n then Chosen((w.sticky + s) % n)
      else Exhausted(MessageOr(w.accounts[(w.sticky + n - 1) % n].stats.message, "no accounts available"))
  }

  lemma Product(n: int, q: int)
    requires n >= 0
    ensures q <= -1 ==> n * q <= -n
    ensures q >= 2 ==> n * q >= 2 * n
  {
    if q <= -1 { Scale(n, q, -1); }
    if q >= 2 { Scale(n, 2, q); }
  }

  /** Going once around. */
  lemma Around(x: nat, n: nat)
    requires x < 2 * n
    ensures x % n == if x < n then x else x - n
  {
    var q := x / n;
    assert x == n * q + x % n;
    Product(n, q);
    assert q == 0 || q == 1;
  }

  /** The step at which the scan visits account `i`. */
  function StepOf(w: World, i: nat): (k: nat)
    requires w.sticky < |w.accounts| && i < |w.accounts|
    ensures k < |w.accounts|
  {
    if i >= w.sticky then i - w.sticky else i + |w.accounts| - w.sticky
  }

  /** Every account is visited. */
  lemma Visited(w: World, i: nat)
    requires w.sticky < |w.accounts| && i < |w.accounts|
    ensures At(w, StepOf(w, i)) == w.accounts[i]
  {
    Around(w.sticky + StepOf(w, i), |w.accounts|);
  }

  /** With several accounts the search fails only if none is eligible when it is visited. */
  lemma ExhaustedMeansNone(cfg: Config, w: World, exclude: set<string>, now: int, draws: nat -> real, i: nat)
    requires w.sticky < |w.accounts| && |w.accounts| > 1 && i < |w.accounts|
    requires Next(cfg, w, exclude, now, draws).Exhausted?
    ensures !Eligible(cfg, w.accounts[i], exclude, now, draws(StepOf(w, i)))
  {
    Visited(w, i);
  }

  /** What a failed search says: the message of the account in front of the sticky one, or of the single
      account, if it has one. */
  lemma ExhaustedSaysWhy(cfg: Config, w: World, exclude: set<string>, now: int, draws: nat -> real)
    requires Next(cfg, w, exclude, now, draws).Exhausted?
    ensures var n, message := |w.accounts|, Next(cfg, w, exclude, now, draws).message;
      && (n == 0 ==> message == "no accounts available")
      && (n > 0 && At(w, n - 1).stats.message != "" ==> message == At(w, n - 1).stats.message)
      && (n == 1 && At(w, 0).stats.message == "" ==> message == "account already tried")
      && (n > 1 && At(w, n - 1).stats.message == "" ==> message == "no accounts available")
  {
  }

  // ----- reports -----

  /** findAccountIndexByID. */
  function Find(accounts: seq<AccountState>, id: string): (i: int)
    ensures i == -1 || (0 <= i < |accounts| && accounts[i].id == id)
    ensures forall j :: 0 <= j < |accounts| && accounts[j].id == id ==> 0 <= i <= j
  {
    if accounts == [] then -1
    else
      var i := Find(accounts[..|accounts| - 1], id);
      if i >= 0 then i else if accounts[|accounts| - 1].id == id then |accounts| - 1 else -1
  }

  datatype Report = Success(id: string) | Failure(id: string, kind: Kind, message: string, at: int)

  /** What a report does to the statistics of the account it names. */
  function Update(s: Stats, r: Report): Stats
  {
    match r
    case Success(_) => Stats(0, 0, "")
    case Failure(_, Recoverable, message, at) => Stats(s.fails + 1, at, message)
    case Failure(_, Fatal, message, _) => s.(message := message)
  }

  /** ReportSuccess and ReportFailureAs; an unknown id changes nothing. */
  function AfterReport(w: World, r: Report): World
  {
    var i := Find(w.accounts, r.id);
    if i < 0 then w
    else
      var a := w.accounts[i];
      World(w.accounts[i := a.(stats := Update(a.stats, r))], if r.Success? then i else w.sticky)
  }

  /** The state after the reports of any requests, in the order the lock admitted them. */
  function AfterReports(w: World, rs: seq<Report>): World
  {
    if rs == [] then w else AfterReport(AfterReports(w, rs[..|rs| - 1]), rs[|rs| - 1])
  }

  predicate SuccessOf(accounts: seq<AccountState>, i: nat, r: Report) { r.Success? && Find(accounts, r.id) == i }

  predicate RecoverableFailureOf(accounts: seq<AccountState>, i: nat, r: Report)
  {
    r.Failure? && r.kind == Recoverable && Find(accounts, r.id) == i
  }

  /** The place of account `i`'s last success report, or -1. */
  function LastSuccessOf(accounts: seq<AccountState>, i: nat, rs: seq<Report>): (s: int)
    ensures -1 <= s < |rs| && (s >= 0 ==> SuccessOf(accounts, i, rs[s]))
    ensures forall j :: s < j < |rs| ==> !SuccessOf(accounts, i, rs[j])
  {
    if rs == [] then -1
    else if SuccessOf(accounts, i, rs[|rs| - 1]) then |rs| - 1
    else LastSuccessOf(accounts, i, rs[..|rs| - 1])
  }

  /** The recoverable failure reports about account `i` behind place `s`. */
  function FailuresBehind(accounts: seq<AccountState>, i: nat, rs: seq<Report>, s: int): set<int>
    requires -1 <= s
  {
    set j | s < j < |rs| && RecoverableFailureOf(accounts, i, rs[j])
  }

  predicate KnownSuccess(accounts: seq<AccountState>, r: Report) { r.Success? && Find(accounts, r.id) >= 0 }

  /** The place of the last success report about any known account, or -1. */
  function LastKnownSuccess(accounts: seq<AccountState>, rs: seq<Report>): (s: int)
    ensures -1 <= s < |rs| && (s >= 0 ==> KnownSuccess(accounts, rs[s]))
    ensures forall j :: s < j < |rs| ==> !KnownSuccess(accounts, rs[j])
  {
    if rs == [] then -1
    else if KnownSuccess(accounts, rs[|rs| - 1]) then |rs| - 1
    else LastKnownSuccess(accounts, rs[..|rs| - 1])
  }

  /** The same accounts: ids and switches. */
  predicate SameIds(a: seq<AccountState>, b: seq<AccountState>)
  {
    |a| == |b| && forall i :: 0 <= i < |a| ==> a[i].id == b[i].id && a[i].enabled == b[i].enabled
  }

  lemma {:induction false} SameFind(a: seq<AccountState>, b: seq<AccountState>, id: string)
    requires SameIds(a, b)
    ensures Find(a, id) == Find(b, id)
  {
    if a != [] { SameFind(a[..|a| - 1], b[..|b| - 1], id); }
  }

  lemma FailuresNext(accounts: seq<AccountState>, i: nat, front: seq<Report>, r: Report, s: int)
    requires -1 <= s < |front|
    ensures FailuresBehind(accounts, i, front + [r], s) ==
      FailuresBehind(accounts, i, front, s) + if RecoverableFailureOf(accounts, i, r) then {|front|} else {}
  {
    assert forall j :: 0 <= j < |front| ==> (front + [r])[j] == front[j];
  }

  /** What account `i` counts after the reports. */
  predicate CountIs(w: World, rs: seq<Report>, i: nat)
    requires i < |w.accounts|
  {
    var after, s := AfterReports(w, rs), LastSuccessOf(w.accounts, i, rs);
    && SameIds(w.accounts, after.accounts)
    && after.accounts[i].stats.fails ==
         |FailuresBehind(w.accounts, i, rs, s)| + if s < 0 then w.accounts[i].stats.fails else 0
  }

  lemma CountNext(w: World, front: seq<Report>, r: Report, i: nat)
    requires i < |w.accounts| && CountIs(w, front, i)
    ensures CountIs(w, front + [r], i)
  {
    var rs, accounts := front + [r], w.accounts;
    assert rs[..|front|] == front;
    SameFind(accounts, AfterReports(w, front).accounts, r.id);
    var s := LastSuccessOf(accounts, i, front);
    if SuccessOf(accounts, i, r) {
      assert FailuresBehind(accounts, i, rs, |front|) == {};
    } else {
      FailuresNext(accounts, i, front, r, s);
      assert |front| !in FailuresBehind(accounts, i, front, s);
    }
  }

  lemma {:induction false} CountsAre(w: World, rs: seq<Report>, i: nat)
    requires i < |w.accounts|
    ensures CountIs(w, rs, i)
  {
    if rs == [] {
      assert FailuresBehind(w.accounts, i, rs, -1) == {};
    } else {
      CountsAre(w, rs[..|rs| - 1], i);
      CountNext(w, rs[..|rs| - 1], rs[|rs| - 1], i);
      assert rs == rs[..|rs| - 1] + [rs[|rs| - 1]];
    }
  }

  /** The sticky index is in range and is that of the account named by the last success report. */
  predicate StickyIs(w: World, rs: seq<Report>)
  {
    var after, s := AfterReports(w, rs), LastKnownSuccess(w.accounts, rs);
    && SameIds(w.accounts, after.accounts)
    && after.sticky == (if s < 0 then w.sticky else Find(w.accounts, rs[s].id)) < |w.accounts|
  }

  lemma {:induction false} StickyFollows(w: World, rs: seq<Report>)
    requires w.sticky < |w.accounts|
    ensures StickyIs(w, rs)
  {
    if rs != [] {
      var front, r := rs[..|rs| - 1], rs[|rs| - 1];
      StickyFollows(w, front);
      SameFind(w.accounts, AfterReports(w, front).accounts, r.id);
    }
  }

  /** For every interleaving of reports from concurrent requests: the accounts stay; each failure counter
      is the number of recoverable failure reports behind that account's last success report, on top of the
      first count if it had no success; and the sticky index is in range and is that of the account named
      by the last success report. */
  lemma CountersAreExact(w: World, rs: seq<Report>)
    requires w.sticky < |w.accounts|
    ensures forall i :: 0 <= i < |w.accounts| ==> CountIs(w, rs, i)
    ensures StickyIs(w, rs)
  {
    StickyFollows(w, rs);
    forall i | 0 <= i < |w.accounts| ensures CountIs(w, rs, i) {
      CountsAre(w, rs, i);
    }
  }

  /** The scan visits account `a` at step `s` and finds it eligible. */
  predicate EligibleAt(cfg: Config, w: World, exclude: set<string>, now: int, draws: nat -> real, s: nat,
                       a: AccountState)
    requires w.accounts != []
  {
    At(w, s) == a && Eligible(cfg, a, exclude, now, draws(s))
  }

  /** One of several accounts is chosen only if it is eligible when visited; a single one is chosen in any
      state, unless the request has tried it already. */
  lemma ChosenIsEligible(cfg: Config, w: World, exclude: set<string>, now: int, draws: nat -> real)
    ensures var c := Next(cfg, w, exclude, now, draws);
      && (|w.accounts| == 1 ==> (c == Chosen(0) <==> w.accounts[0].id !in exclude))
      && (|w.accounts| > 1 && c.Chosen? ==>
           exists s: nat :: s < |w.accounts| && EligibleAt(cfg, w, exclude, now, draws, s, w.accounts[c.index]))
  {
    if |w.accounts| > 1 {
      var s := FirstStep(cfg, w, exclude, now, draws, 0);
      if s < |w.accounts| { assert EligibleAt(cfg, w, exclude, now, draws, s, At(w, s)); }
    }
  }
}
