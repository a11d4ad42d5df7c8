/** How reports decide the choice of an account: from the reports of any requests straight to the account the
    next request is given, with the quarantine window told from the reports alone. */
module Selection {
  import opened Accounts

  // ----- what the reports say about one account -----

  /** The place of account `i`'s last recoverable failure report, or -1. */
  function LastFailureOf(accounts: seq<AccountState>, i: nat, rs: seq<Report>): (f: int)
    ensures -1 <= f < |rs| && (f >= 0 ==> RecoverableFailureOf(accounts, i, rs[f]))
    ensures forall j :: f < j < |rs| ==> !RecoverableFailureOf(accounts, i, rs[j])
  {
    if rs == [] then -1
    else if RecoverableFailureOf(accounts, i, rs[|rs| - 1]) then |rs| - 1
    else LastFailureOf(accounts, i, rs[..|rs| - 1])
  }

  /** The recoverable failures of account `i` since its last success. */
  function FailureCount(w: World, rs: seq<Report>, i: nat): nat
    requires i < |w.accounts|
  {
    var s := LastSuccessOf(w.accounts, i, rs);
    |FailuresBehind(w.accounts, i, rs, s)| + if s < 0 then w.accounts[i].stats.fails else 0
  }

  /** When the last of them was reported. */
  function FailureTime(w: World, rs: seq<Report>, i: nat): int
    requires i < |w.accounts|
  {
    var f := LastFailureOf(w.accounts, i, rs);
    if f > LastSuccessOf(w.accounts, i, rs) then rs[f].at else w.accounts[i].stats.lastFailure
  }

  /** The statistics of account `i` after the reports. */
  function StatsOf(w: World, rs: seq<Report>, i: nat): (s: Stats)
    requires i < |w.accounts|
  {
    var after := AfterReports(w, rs);
    if i < |after.accounts| then after.accounts[i].stats else w.accounts[i].stats
  }

  lemma ReportTouches(w: World, front: seq<Report>, r: Report, i: nat)
    requires i < |w.accounts|
    ensures StatsOf(w, front + [r], i) ==
      if Find(w.accounts, r.id) == i then Update(StatsOf(w, front, i), r) else StatsOf(w, front, i)
  {
    assert (front + [r])[..|front|] == front;
    CountsAre(w, front, i);
    SameFind(w.accounts, AfterReports(w, front).accounts, r.id);
  }

  /** A nonzero counter comes with the time of the last failure. */
  predicate Dated(w: World, rs: seq<Report>, i: nat)
    requires i < |w.accounts|
  {
    && StatsOf(w, rs, i).fails == FailureCount(w, rs, i)
    && (FailureCount(w, rs, i) > 0 ==> StatsOf(w, rs, i).lastFailure == FailureTime(w, rs, i))
  }

  lemma CountIsZero(w: World, front: seq<Report>, r: Report, i: nat)
    requires i < |w.accounts| && SuccessOf(w.accounts, i, r)
    ensures FailureCount(w, front + [r], i) == 0
  {
    assert FailuresBehind(w.accounts, i, front + [r], |front|) == {};
  }

  lemma LastSnoc(w: World, front: seq<Report>, r: Report, i: nat)
    requires i < |w.accounts|
    ensures var s, f := LastSuccessOf(w.accounts, i, front), LastFailureOf(w.accounts, i, front);
      && LastSuccessOf(w.accounts, i, front + [r]) == (if SuccessOf(w.accounts, i, r) then |front| else s)
      && LastFailureOf(w.accounts, i, front + [r]) == if RecoverableFailureOf(w.accounts, i, r) then |front| else f
  {
    assert (front + [r])[..|front|] == front;
  }

  lemma CountSnoc(w: World, front: seq<Report>, r: Report, i: nat)
    requires i < |w.accounts|
    ensures FailureCount(w, front + [r], i) ==
      if SuccessOf(w.accounts, i, r) then 0
      else FailureCount(w, front, i) + if RecoverableFailureOf(w.accounts, i, r) then 1 else 0
  {
    LastSnoc(w, front, r, i);
    if SuccessOf(w.accounts, i, r) {
      CountIsZero(w, front, r, i);
    } else {
      var s := LastSuccessOf(w.accounts, i, front);
      FailuresNext(w.accounts, i, front, r, s);
      assert |front| !in FailuresBehind(w.accounts, i, front, s);
    }
  }

  lemma TimeSnoc(w: World, front: seq<Report>, r: Report, i: nat)
    requires i < |w.accounts| && !SuccessOf(w.accounts, i, r)
    ensures FailureTime(w, front + [r], i) ==
      if RecoverableFailureOf(w.accounts, i, r) then r.at else FailureTime(w, front, i)
  {
    LastSnoc(w, front, r, i);
    assert (front + [r])[|front|] == r;
  }

  lemma DatedNext(w: World, front: seq<Report>, r: Report, i: nat)
    requires i < |w.accounts| && Dated(w, front, i)
    ensures Dated(w, front + [r], i)
  {
    ReportTouches(w, front, r, i);
    CountSnoc(w, front, r, i);
    if !SuccessOf(w.accounts, i, r) { TimeSnoc(w, front, r, i); }
  }

  lemma {:induction false} AllDated(w: World, rs: seq<Report>, i: nat)
    requires i < |w.accounts|
    ensures Dated(w, rs, i)
  {
    if rs == [] {
      CountsAre(w, rs, i);
    } else {
      AllDated(w, rs[..|rs| - 1], i);
      DatedNext(w, rs[..|rs| - 1], rs[|rs| - 1], i);
      assert rs == rs[..|rs| - 1] + [rs[|rs| - 1]];
    }
  }

  // ----- the choice -----

  /** Account `i` has failed `n` times in a row, the last time less than the window for `n` failures ago. */
  predicate Rests(cfg: Config, w: World, rs: seq<Report>, i: nat, now: int)
    requires i < |w.accounts|
  {
    var n := FailureCount(w, rs, i);
    n > 0 && now - FailureTime(w, rs, i) < cfg.recovery * Min(Pow2(n - 1), cfg.maxMultiplier)
  }

  /** What makes account `i` fit to be chosen, given the number drawn in case it rests. */
  predicate Fit(cfg: Config, w: World, rs: seq<Report>, i: nat, exclude: set<string>, now: int, draw: real)
    requires i < |w.accounts|
  {
    && w.accounts[i].enabled && w.accounts[i].id !in exclude
    && (Rests(cfg, w, rs, i, now) ==> draw < cfg.retryChance)
  }

  lemma QuarantineOf(cfg: Config, a: AccountState, n: nat, at: int, now: int, draw: real)
    requires a.stats.fails == n && (n > 0 ==> a.stats.lastFailure == at)
    ensures Quarantined(cfg, a, now, draw) <==>
      n > 0 && now - at < cfg.recovery * Min(Pow2(n - 1), cfg.maxMultiplier) && !(draw < cfg.retryChance)
  {
  }

  lemma FitIsEligible(cfg: Config, w: World, rs: seq<Report>, i: nat, exclude: set<string>, now: int, draw: real)
    requires i < |w.accounts| && SameIds(w.accounts, AfterReports(w, rs).accounts)
    ensures Eligible(cfg, AfterReports(w, rs).accounts[i], exclude, now, draw) <==>
      Fit(cfg, w, rs, i, exclude, now, draw)
  {
    AllDated(w, rs, i);
    QuarantineOf(cfg, AfterReports(w, rs).accounts[i], FailureCount(w, rs, i), FailureTime(w, rs, i), now, draw);
  }

  /** The step `s` of the scan visits account `i`. */
  lemma StepIsOf(w: World, s: nat, i: nat)
    requires w.sticky < |w.accounts| && s < |w.accounts| && i < |w.accounts|
    ensures (w.sticky + s) % |w.accounts| == i <==> s == StepOf(w, i)
    ensures var j := (w.sticky + s) % |w.accounts|; 0 <= j < |w.accounts| && StepOf(w, j) == s
  {
    Around(w.sticky + s, |w.accounts|);
  }

  /** Account `i` is fit when the scan comes to it. */
  predicate FitInTurn(cfg: Config, w: World, rs: seq<Report>, exclude: set<string>, now: int, draws: nat -> real,
                      i: nat)
    requires i < |w.accounts|
  {
    var after := AfterReports(w, rs);
    after.sticky < |after.accounts| == |w.accounts| && Fit(cfg, w, rs, i, exclude, now, draws(StepOf(after, i)))
  }

  lemma ScanFinds(cfg: Config, w: World, rs: seq<Report>, exclude: set<string>, now: int, draws: nat -> real, i: nat)
    requires w.sticky < |w.accounts| && i < |w.accounts|
    requires var after := AfterReports(w, rs);
      SameIds(w.accounts, after.accounts) && after.sticky < |w.accounts|
    ensures var after := AfterReports(w, rs);
      var s, k := FirstStep(cfg, after, exclude, now, draws, 0), StepOf(after, i);
      && (k < s ==> !FitInTurn(cfg, w, rs, exclude, now, draws, i))
      && (k == s ==> FitInTurn(cfg, w, rs, exclude, now, draws, i))
  {
    var after := AfterReports(w, rs);
    Visited(after, i);
    FitIsEligible(cfg, w, rs, i, exclude, now, draws(StepOf(after, i)));
  }

  /** What the search comes to, by the step at which it ends. */
  lemma NextIs(cfg: Config, w: World, exclude: set<string>, now: int, draws: nat -> real)
    requires w.sticky < |w.accounts| && |w.accounts| > 1
    ensures var s, c := FirstStep(cfg, w, exclude, now, draws, 0), Next(cfg, w, exclude, now, draws);
      if s < |w.accounts| then c.Chosen? && c.index < |w.accounts| && StepOf(w, c.index) == s else c.Exhausted?
  {
    var s := FirstStep(cfg, w, exclude, now, draws, 0);
    if s < |w.accounts| { StepIsOf(w, s, 0); }
  }

  /** Account `i` is fit in its turn exactly when the scan ends there; those visited before are not. */
  predicate EndsAt(cfg: Config, w: World, rs: seq<Report>, exclude: set<string>, now: int, draws: nat -> real, s: nat,
                   i: nat)
    requires i < |w.accounts| && AfterReports(w, rs).sticky < |AfterReports(w, rs).accounts| == |w.accounts|
  {
    var k := StepOf(AfterReports(w, rs), i);
    && (k < s ==> !FitInTurn(cfg, w, rs, exclude, now, draws, i))
    && (k == s ==> FitInTurn(cfg, w, rs, exclude, now, draws, i))
  }

  lemma ScanEnds(cfg: Config, w: World, rs: seq<Report>, exclude: set<string>, now: int, draws: nat -> real)
    requires w.sticky < |w.accounts|
    ensures var after := AfterReports(w, rs);
      && SameIds(w.accounts, after.accounts) && after.sticky < |after.accounts| == |w.accounts|
      && (var s := FirstStep(cfg, after, exclude, now, draws, 0);
          forall i :: 0 <= i < |w.accounts| ==> EndsAt(cfg, w, rs, exclude, now, draws, s, i))
  {
    var after := AfterReports(w, rs);
    StickyFollows(w, rs);
    var s := FirstStep(cfg, after, exclude, now, draws, 0);
    forall i | 0 <= i < |w.accounts| ensures EndsAt(cfg, w, rs, exclude, now, draws, s, i) {
      ScanFinds(cfg, w, rs, exclude, now, draws, i);
    }
  }

  /** For every history of reports: with several accounts the next request is given the first account in
      circular order behind the last success that is fit in its turn, and none exactly when none is. */
  lemma ChoiceFollowsReports(cfg: Config, w: World, rs: seq<Report>, exclude: set<string>, now: int,
                             draws: nat -> real)
    requires w.sticky < |w.accounts| && |w.accounts| > 1
    ensures var after := AfterReports(w, rs); var c := Next(cfg, after, exclude, now, draws);
      && SameIds(w.accounts, after.accounts) && after.sticky < |after.accounts| == |w.accounts|
      && (c.Exhausted? <==>
           forall i :: 0 <= i < |w.accounts| ==> !FitInTurn(cfg, w, rs, exclude, now, draws, i))
      && (c.Chosen? ==>
           && FitInTurn(cfg, w, rs, exclude, now, draws, c.index)
           && forall j :: 0 <= j < |w.accounts| && StepOf(after, j) < StepOf(after, c.index) ==>
                !FitInTurn(cfg, w, rs, exclude, now, draws, j))
  {
    var after := AfterReports(w, rs);
    ScanEnds(cfg, w, rs, exclude, now, draws);
    NextIs(cfg, after, exclude, now, draws);
    var s := FirstStep(cfg, after, exclude, now, draws, 0);
    forall i | 0 <= i < |w.accounts|
      ensures StepOf(after, i) < s ==> !FitInTurn(cfg, w, rs, exclude, now, draws, i)
      ensures StepOf(after, i) == s ==> FitInTurn(cfg, w, rs, exclude, now, draws, i)
    {
      assert EndsAt(cfg, w, rs, exclude, now, draws, s, i);
    }
  }

  // ----- the window, in so many words -----

  /** Report `p` is a recoverable failure of account `i`, and the last report that touches its counter. */
  predicate FailedLast(accounts: seq<AccountState>, i: nat, rs: seq<Report>, p: nat)
  {
    && p < |rs| && RecoverableFailureOf(accounts, i, rs[p])
    && forall j :: p < j < |rs| ==> !SuccessOf(accounts, i, rs[j]) && !RecoverableFailureOf(accounts, i, rs[j])
  }

  lemma FailedLastIs(w: World, rs: seq<Report>, i: nat, p: nat)
    requires i < |w.accounts| && FailedLast(w.accounts, i, rs, p)
    ensures FailureTime(w, rs, i) == rs[p].at && FailureCount(w, rs, i) > 0
  {
    var s := LastSuccessOf(w.accounts, i, rs);
    assert LastFailureOf(w.accounts, i, rs) == p;
    assert s < p;
    assert p in FailuresBehind(w.accounts, i, rs, s);
  }

  /** The window for `n` failures has passed, or the draw grants an early retry. */
  predicate MayReturn(cfg: Config, n: nat, at: int, now: int, draw: real)
    requires n > 0
  {
    now - at >= cfg.recovery * Min(Pow2(n - 1), cfg.maxMultiplier) || draw < cfg.retryChance
  }

  lemma FitIs(cfg: Config, w: World, rs: seq<Report>, i: nat, p: nat, exclude: set<string>, now: int,
              draws: nat -> real)
    requires w.sticky < |w.accounts| && i < |w.accounts| && FailedLast(w.accounts, i, rs, p)
    ensures var after, n := AfterReports(w, rs), FailureCount(w, rs, i);
      && n > 0 && after.sticky < |after.accounts| == |w.accounts|
      && (FitInTurn(cfg, w, rs, exclude, now, draws, i) <==>
           w.accounts[i].enabled && w.accounts[i].id !in exclude
           && MayReturn(cfg, n, rs[p].at, now, draws(StepOf(after, i))))
  {
    FailedLastIs(w, rs, i, p);
    StickyFollows(w, rs);
    RestsUntil(cfg, w, rs, i, now, draws(StepOf(AfterReports(w, rs), i)));
  }

  lemma RestsUntil(cfg: Config, w: World, rs: seq<Report>, i: nat, now: int, draw: real)
    requires i < |w.accounts| && FailureCount(w, rs, i) > 0
    ensures MayReturn(cfg, FailureCount(w, rs, i), FailureTime(w, rs, i), now, draw) <==>
      (Rests(cfg, w, rs, i, now) ==> draw < cfg.retryChance)
  {
  }

  lemma ChosenIsFit(cfg: Config, w: World, rs: seq<Report>, exclude: set<string>, now: int, draws: nat -> real, i: nat)
    requires w.sticky < |w.accounts| && |w.accounts| > 1 && i < |w.accounts|
    ensures Next(cfg, AfterReports(w, rs), exclude, now, draws) == Chosen(i) ==>
      FitInTurn(cfg, w, rs, exclude, now, draws, i)
  {
    ChoiceFollowsReports(cfg, w, rs, exclude, now, draws);
  }

  /** Inside its window an account that failed last is not chosen among several, unless the draw made for it
      grants an early retry: whatever else was reported, whichever accounts were tried. */
  lemma FailedAccountRests(cfg: Config, w: World, rs: seq<Report>, i: nat, p: nat, exclude: set<string>,
                           now: int, draws: nat -> real)
    requires w.sticky < |w.accounts| && |w.accounts| > 1 && i < |w.accounts|
    requires FailedLast(w.accounts, i, rs, p)
    ensures var after, n := AfterReports(w, rs), FailureCount(w, rs, i);
      && n > 0 && after.sticky < |after.accounts| == |w.accounts|
      && (!MayReturn(cfg, n, rs[p].at, now, draws(StepOf(after, i))) ==>
           Next(cfg, after, exclude, now, draws) != Chosen(i))
  {
    FitIs(cfg, w, rs, i, p, exclude, now, draws);
    ChosenIsFit(cfg, w, rs, exclude, now, draws, i);
  }

  /** From the window on, or with such a draw, the search does not fail, and the account is chosen if those
      the scan visits before it are switched off or were tried. */
  lemma FailedAccountReturns(cfg: Config, w: World, rs: seq<Report>, i: nat, p: nat, exclude: set<string>,
                             now: int, draws: nat -> real)
    requires w.sticky < |w.accounts| && |w.accounts| > 1 && i < |w.accounts|
    requires w.accounts[i].enabled && w.accounts[i].id !in exclude
    requires FailedLast(w.accounts, i, rs, p)
    ensures var after, n := AfterReports(w, rs), FailureCount(w, rs, i);
      && n > 0 && after.sticky < |after.accounts| == |w.accounts|
      && (MayReturn(cfg, n, rs[p].at, now, draws(StepOf(after, i))) ==>
           && Next(cfg, after, exclude, now, draws).Chosen?
           && (AloneInFront(w, after, i, exclude) ==> Next(cfg, after, exclude, now, draws) == Chosen(i)))
  {
    FitIs(cfg, w, rs, i, p, exclude, now, draws);
    if FitInTurn(cfg, w, rs, exclude, now, draws, i) { FirstFit(cfg, w, rs, exclude, now, draws, i); }
  }

  /** The accounts the scan of `after` visits before account `i` are switched off or excluded. */
  predicate AloneInFront(w: World, after: World, i: nat, exclude: set<string>)
    requires after.sticky < |after.accounts| == |w.accounts| && i < |w.accounts|
  {
    forall j :: 0 <= j < |w.accounts| && StepOf(after, j) < StepOf(after, i) ==>
      !w.accounts[j].enabled || w.accounts[j].id in exclude
  }

  lemma FirstFit(cfg: Config, w: World, rs: seq<Report>, exclude: set<string>, now: int, draws: nat -> real, i: nat)
    requires w.sticky < |w.accounts| && |w.accounts| > 1 && i < |w.accounts|
    requires FitInTurn(cfg, w, rs, exclude, now, draws, i)
    ensures var after := AfterReports(w, rs);
      && Next(cfg, after, exclude, now, draws).Chosen?
      && after.sticky < |after.accounts| == |w.accounts|
      && (AloneInFront(w, after, i, exclude) ==> Next(cfg, after, exclude, now, draws) == Chosen(i))
  {
    ChoiceFollowsReports(cfg, w, rs, exclude, now, draws);
    var after := AfterReports(w, rs);
    var c := Next(cfg, after, exclude, now, draws);
    assert FitInTurn(cfg, w, rs, exclude, now, draws, c.index);
    SameStep(after, i, c.index);
  }

  lemma SameStep(w: World, i: nat, j: nat)
    requires w.sticky < |w.accounts| && i < |w.accounts| && j < |w.accounts|
    ensures StepOf(w, i) == StepOf(w, j) ==> i == j
  {
  }

  lemma FindFirst(accounts: seq<AccountState>)
    requires accounts != [] && forall j :: 0 < j < |accounts| ==> accounts[j].id != accounts[0].id
    ensures Find(accounts, accounts[0].id) == 0
  {
  }

  lemma FirstFails(w: World, message: string)
    requires |w.accounts| == 2 && w.accounts[0].id != w.accounts[1].id && w.accounts[0].stats == Stats(0, 0, "")
    ensures AfterReports(w, [Failure(w.accounts[0].id, Recoverable, message, 0)]) ==
      World(w.accounts[0 := w.accounts[0].(stats := Stats(1, 0, message))], w.sticky)
  {
    var r := Failure(w.accounts[0].id, Recoverable, message, 0);
    FindFirst(w.accounts);
    assert AfterReports(w, []) == w && [r][..0] == [];
  }

  lemma FirstOfTwo(cfg: Config, w: World, now: int, draws: nat -> real)
    requires |w.accounts| == 2 && w.sticky == 0
    ensures Eligible(cfg, w.accounts[0], {}, now, draws(0)) ==> Next(cfg, w, {}, now, draws) == Chosen(0)
    ensures !Eligible(cfg, w.accounts[0], {}, now, draws(0)) && Eligible(cfg, w.accounts[1], {}, now, draws(1)) ==>
      Next(cfg, w, {}, now, draws) == Chosen(1)
  {
    assert At(w, 0) == w.accounts[0] && At(w, 1) == w.accounts[1];
  }

  /** Two accounts, the first of which failed at time 0, with a base of a minute: a second later the second
      one is chosen unless the draw is low, and after a minute the first one again. */
  lemma JustFailedIsSkipped(cfg: Config, w: World, message: string, draws: nat -> real)
    requires w.sticky == 0 && |w.accounts| == 2 && w.accounts[0].id != w.accounts[1].id
    requires forall a :: a in w.accounts ==> a.enabled && a.stats == Stats(0, 0, "")
    requires cfg.recovery == 60_000_000_000 && cfg.maxMultiplier == 1440
    ensures var after := AfterReports(w, [Failure(w.accounts[0].id, Recoverable, message, 0)]);
      && Next(cfg, after, {}, 1_000_000_000, draws) == Chosen(if draws(0) < cfg.retryChance then 0 else 1)
      && Next(cfg, after, {}, 60_000_000_000, draws) == Chosen(0)
  {
    FirstFails(w, message);
    var after := AfterReports(w, [Failure(w.accounts[0].id, Recoverable, message, 0)]);
    assert w.accounts[0] in w.accounts && w.accounts[1] in w.accounts;
    assert Window(1, 60_000_000_000, 1440) == 60_000_000_000;
    FirstOfTwo(cfg, after, 1_000_000_000, draws);
    FirstOfTwo(cfg, after, 60_000_000_000, draws);
  }

  /** The message of an account is that of the last report about it, of either kind; a success clears it. */
  lemma {:induction false} MessageIsLast(w: World, rs: seq<Report>, i: nat, p: nat)
    requires i < |w.accounts| && p < |rs| && Find(w.accounts, rs[p].id) == i
    requires forall j :: p < j < |rs| ==> Find(w.accounts, rs[j].id) != i
    ensures StatsOf(w, rs, i).message == if rs[p].Failure? then rs[p].message else ""
    decreases |rs|
  {
    var front, r := rs[..|rs| - 1], rs[|rs| - 1];
    assert rs == front + [r];
    ReportTouches(w, front, r, i);
    if p < |front| {
      assert front[p] == rs[p];
      assert forall j :: p < j < |front| ==> front[j] == rs[j];
      MessageIsLast(w, front, i, p);
    }
  }
}
