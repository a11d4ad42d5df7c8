/** The account manager object, shared by all requests, and the failover loop of one request. */
module AccountManagers {
  import opened Accounts

  class Account {
    const id: string
    var enabled: bool
    var stats: Stats

    function Abs(): AccountState
      reads this
    {
      AccountState(id, enabled, stats)
    }

    constructor (id: string, enabled: bool, stats: Stats)
      ensures Abs() == AccountState(id, enabled, stats)
    {
      this.id, this.enabled, this.stats := id, enabled, stats;
    }
  }

  /** Every method holds the mutex throughout, so each is one atomic step on the shared state. */
  class Manager {
    const cfg: Config
    const accounts: seq<Account>
    var stickyIdx: nat

    /** The objects hold the state `w`; no account appears twice. */
    ghost predicate Holds(w: World)
      reads this, accounts
    {
      && stickyIdx == w.sticky
      && |accounts| == |w.accounts|
      && (forall i :: 0 <= i < |accounts| ==> accounts[i].Abs() == w.accounts[i])
      && (forall i, j :: 0 <= i < j < |accounts| ==> accounts[i] != accounts[j])
    }

    constructor (cfg: Config, accounts: seq<Account>, ghost w: World)
      requires |accounts| == |w.accounts| && w.sticky == 0
      requires forall i :: 0 <= i < |accounts| ==> accounts[i].Abs() == w.accounts[i]
      requires forall i, j :: 0 <= i < j < |accounts| ==> accounts[i] != accounts[j]
      ensures this.cfg == cfg && this.accounts == accounts && Holds(w)
    {
      this.cfg, this.accounts, stickyIdx := cfg, accounts, 0;
    }

    method FindAccountIndexByID(accountID: string, ghost w: World) returns (idx: int)
      requires Holds(w)
      ensures idx == Find(w.accounts, accountID)
    {
      for i := 0 to |accounts|
        invariant forall j :: 0 <= j < i ==> w.accounts[j].id != accountID
      {
        if accounts[i].Abs().id == accountID { return i; }
      }
      return -1;
    }

    method IsInQuarantine(a: Account, now: int, draw: real) returns (q: bool)
      ensures q == Quarantined(cfg, a.Abs(), now, draw)
    {
      if a.stats.fails == 0 { return false; }
      var window, peak := QuarantineWindow(a.stats.fails, cfg.recovery, cfg.maxMultiplier);
      if now - a.stats.lastFailure >= window { return false; }
      if draw < cfg.retryChance { return false; }
      return true;
    }

    /** nextEnabledIdx: the circular scan from the sticky index. */
    method NextEnabledIdx(exclude: set<string>, now: int, draws: nat -> real, ghost w: World) returns (idx: int)
      requires Holds(w) && accounts != []
      ensures var s := FirstStep(cfg, w, exclude, now, draws, 0);
        idx == if s < |accounts| then (stickyIdx + s) % |accounts| else -1
    {
      for i := 0 to |accounts|
        invariant FirstStep(cfg, w, exclude, now, draws, 0) == FirstStep(cfg, w, exclude, now, draws, i)
      {
        idx := (stickyIdx + i) % |accounts|;
        var acc := accounts[idx];
        assert acc.Abs() == At(w, i);
        var q := IsInQuarantine(acc, now, draws(i));
        if acc.enabled && acc.id !in exclude && !q { return; }
      }
      return -1;
    }

    method GetNextAccount(exclude: set<string>, now: int, draws: nat -> real, ghost w: World) returns (c: Choice)
      requires Holds(w)
      ensures c == Next(cfg, w, exclude, now, draws)
    {
      if |accounts| == 0 { return Exhausted("no accounts available"); }
      if |accounts| == 1 {
        var acc := accounts[0];
        assert acc.Abs() == w.accounts[0];
        if acc.id in exclude {
          var message := acc.stats.message;
          if message == "" { message := "account already tried"; }
          return Exhausted(message);
        }
        return Chosen(0);
      }
      var idx := NextEnabledIdx(exclude, now, draws, w);
      if idx >= 0 { return Chosen(idx); }
      var last := accounts[(stickyIdx + |accounts| - 1) % |accounts|];
      assert last.Abs() == w.accounts[(w.sticky + |accounts| - 1) % |accounts|];
      var message := last.stats.message;
      if message == "" { message := "no accounts available"; }
      return Exhausted(message);
    }

    method ReportSuccess(accountID: string, ghost w: World)
      requires Holds(w)
      modifies this`stickyIdx, accounts
      ensures Holds(AfterReport(w, Success(accountID)))
    {
      var idx := FindAccountIndexByID(accountID, w);
      if idx == -1 { return; }
      var acc := accounts[idx];
      assert acc.Abs() == w.accounts[idx];
      acc.stats := Stats(0, 0, "");
      if stickyIdx != idx { stickyIdx := idx; }
    }

    method ReportFailureAs(accountID: string, kind: Kind, message: string, now: int, ghost w: World) returns (k: Kind)
      requires Holds(w)
      modifies accounts
      ensures Holds(AfterReport(w, Failure(accountID, kind, message, now))) && k == kind
    {
      k := kind;
      var idx := FindAccountIndexByID(accountID, w);
      if idx == -1 { return; }
      var acc := accounts[idx];
      assert acc.Abs() == w.accounts[idx];
      acc.stats := acc.stats.(message := message);
      if kind == Recoverable { acc.stats := acc.stats.(fails := acc.stats.fails + 1, lastFailure := now); }
    }

    /** Reports of other requests, in the order the lock admits them. */
    method Interfere(reports: seq<Report>, ghost w: World)
      requires Holds(w)
      modifies this`stickyIdx, accounts
      ensures Holds(AfterReports(w, reports))
    {
      for n := 0 to |reports|
        invariant Holds(AfterReports(w, reports[..n]))
      {
        assert reports[..n + 1][..n] == reports[..n];
        match reports[n]
        case Success(id) => ReportSuccess(id, AfterReports(w, reports[..n]));
        case Failure(id, kind, message, at) =>
          var k := ReportFailureAs(id, kind, message, at, AfterReports(w, reports[..n]));
      }
      assert reports[..|reports|] == reports;
    }
  }
}
