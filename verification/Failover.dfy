/** The failover loop of one request, while other requests report to the same manager. Main results: it
    ends, it never tries an account twice, and under the best conditions it tries each exactly once. */
module Failover {
  import opened Options
  import opened Accounts
  import opened AccountManagers

  /** What one attempt came to. */
  datatype Outcome =
    | Succeeded
    | FatalError(message: string)
    | Broken                                   // a local failure, answered without a report
    | TryNext(status: int, message: string)    // recoverable

  /** Everything outside the loop's control: what others report before and during each attempt, how
      attempts end, the clock and the random draws. */
  datatype Weather = Weather(
    before: nat -> seq<Report>, during: nat -> seq<Report>, outcome: nat -> Outcome,
    selectAt: nat -> int, failAt: nat -> int, draws: nat -> nat -> real)

  datatype Answer = Answered | Unavailable(status: int, message: string)

  /** writeExhausted: status and message of the final error. */
  function ExhaustedAnswer(total: nat, attempted: bool, lastStatus: int, lastMessage: string, message: string): Answer
  {
    var context := if lastMessage != "" then lastMessage else message;
    if total <= 1 then
      Unavailable(if lastStatus == 0 then 503 else lastStatus, MessageOr(context, "Account unavailable"))
    else
      Unavailable(503, (if attempted then "All accounts failed after full circle."
                        else "No available accounts for this model.") +
                       if context != "" then " Error from last account: " + context else "")
  }

  /** The report an attempt makes itself. */
  function OwnReports(id: string, o: Outcome, now: int): seq<Report>
  {
    match o
    case Succeeded => [Success(id)]
    case FatalError(message) => [Failure(id, Fatal, message, now)]
    case Broken => []
    case TryNext(_, message) => [Failure(id, Recoverable, message, now)]
  }

  function Ids(accounts: seq<AccountState>): set<string> { set a | a in accounts :: a.id }

  function AsSet(ids: seq<string>): set<string> { set id | id in ids }

  predicate Distinct(ids: seq<string>) { forall i, j :: 0 <= i < j < |ids| ==> ids[i] != ids[j] }

  lemma {:induction false} ReportsKeepIds(w: World, rs: seq<Report>)
    ensures SameIds(w.accounts, AfterReports(w, rs).accounts)
  {
    if rs != [] { ReportsKeepIds(w, rs[..|rs| - 1]); }
  }

  lemma SameIdsTrans(a: seq<AccountState>, b: seq<AccountState>, c: seq<AccountState>)
    requires SameIds(a, b) && SameIds(b, c)
    ensures SameIds(a, c)
  {
  }

  lemma AfterOne(w: World, r: Report)
    ensures AfterReports(w, [r]) == AfterReport(w, r)
  {
    assert [r][..0] == [];
    assert AfterReports(w, []) == w;
  }

  // ----- the best conditions -----

  /** Distinct ids, all accounts enabled and none in quarantine when its turn comes, nobody else
      reporting, and only recoverable outcomes. */
  ghost predicate Ideal(cfg: Config, w: World, e: Weather)
  {
    && w.sticky < |w.accounts|
    && (forall i, j :: 0 <= i < j < |w.accounts| ==> w.accounts[i].id != w.accounts[j].id)
    && (forall i :: 0 <= i < |w.accounts| ==> w.accounts[i].enabled)
    && (forall k :: 0 <= k < |w.accounts| ==> !Quarantined(cfg, At(w, k), e.selectAt(k), e.draws(k)(k)))
    && (forall k :: e.before(k) == [] && e.during(k) == [] && e.outcome(k).TryNext?)
  }

  /** The state after `k` ideal rounds: the accounts behind the sticky one have failed, in order. */
  predicate AfterRounds(w0: World, w: World, tried: seq<string>)
  {
    && |tried| <= |w0.accounts| && w0.accounts != [] && SameIds(w0.accounts, w.accounts) && w.sticky == w0.sticky
    && (forall j :: 0 <= j < |tried| ==> tried[j] == At(w0, j).id)
    && (forall i :: 0 <= i < |w.accounts| && w.accounts[i].id !in tried ==> w.accounts[i] == w0.accounts[i])
  }

  /** Different steps visit different accounts. */
  lemma StepsDiffer(w: World, j: nat, k: nat)
    requires w.sticky < |w.accounts| && j < k < |w.accounts|
    ensures (w.sticky + j) % |w.accounts| != (w.sticky + k) % |w.accounts|
  {
    Around(w.sticky + j, |w.accounts|);
    Around(w.sticky + k, |w.accounts|);
  }

  /** The accounts of earlier rounds are not eligible. */
  lemma TriedIsOut(cfg: Config, w0: World, e: Weather, w: World, tried: seq<string>, j: nat)
    requires AfterRounds(w0, w, tried) && j < |tried|
    ensures w.accounts != [] && !Eligible(cfg, At(w, j), AsSet(tried), e.selectAt(|tried|), e.draws(|tried|)(j))
  {
    assert At(w, j).id == At(w0, j).id == tried[j];
    assert tried[j] in AsSet(tried);
  }

  lemma FirstStepIs(cfg: Config, w: World, exclude: set<string>, now: int, draws: nat -> real, k: nat)
    requires w.accounts != [] && k <= |w.accounts|
    requires forall j :: 0 <= j < k ==> !Eligible(cfg, At(w, j), exclude, now, draws(j))
    requires k < |w.accounts| ==> Eligible(cfg, At(w, k), exclude, now, draws(k))
    ensures FirstStep(cfg, w, exclude, now, draws, 0) == k
  {
  }

  /** The next ideal round chooses the next account in circular order, and ends after the last. */
  lemma NextRound(cfg: Config, w0: World, e: Weather, w: World, tried: seq<string>)
    requires Ideal(cfg, w0, e) && AfterRounds(w0, w, tried)
    ensures var c := Next(cfg, w, AsSet(tried), e.selectAt(|tried|), e.draws(|tried|));
      if |tried| < |w.accounts| then c == Chosen((w.sticky + |tried|) % |w.accounts|) else c.Exhausted?
  {
    var k := |tried|;
    forall j | 0 <= j < k ensures !Eligible(cfg, At(w, j), AsSet(tried), e.selectAt(k), e.draws(k)(j)) {
      TriedIsOut(cfg, w0, e, w, tried, j);
    }
    if |w.accounts| > 1 {
      if k < |w.accounts| { Fresh(cfg, w0, e, w, tried); }
      FirstStepIs(cfg, w, AsSet(tried), e.selectAt(k), e.draws(k), k);
    } else if k > 0 {
      assert tried[0] == At(w0, 0).id;
    }
  }

  lemma Fresh(cfg: Config, w0: World, e: Weather, w: World, tried: seq<string>)
    requires Ideal(cfg, w0, e) && AfterRounds(w0, w, tried) && |tried| < |w.accounts|
    ensures var k := |tried|; Eligible(cfg, At(w, k), AsSet(tried), e.selectAt(k), e.draws(k)(k))
  {
    var k := |tried|;
    forall j | 0 <= j < k ensures tried[j] != At(w, k).id {
      StepsDiffer(w0, j, k);
    }
    assert At(w, k).id !in tried && At(w, k) == At(w0, k);
  }

  /** A failure changes the statistics of one account only. */
  lemma OnlyOneChanges(w: World, id: string, message: string, now: int)
    ensures var after := AfterReport(w, Failure(id, Recoverable, message, now));
      && SameIds(w.accounts, after.accounts) && after.sticky == w.sticky
      && forall i :: 0 <= i < |w.accounts| && w.accounts[i].id != id ==> after.accounts[i] == w.accounts[i]
  {
  }

  lemma RoundAfter(cfg: Config, w0: World, e: Weather, w: World, tried: seq<string>, message: string, now: int)
    requires Ideal(cfg, w0, e) && AfterRounds(w0, w, tried) && |tried| < |w.accounts|
    ensures var id := At(w0, |tried|).id;
      AfterRounds(w0, AfterReport(w, Failure(id, Recoverable, message, now)), tried + [id])
  {
    var id := At(w0, |tried|).id;
    var all, after := tried + [id], AfterReport(w, Failure(id, Recoverable, message, now));
    OnlyOneChanges(w, id, message, now);
    assert forall t :: t in all <==> t in tried || t == id;
    forall i | 0 <= i < |after.accounts| && after.accounts[i].id !in all ensures after.accounts[i] == w0.accounts[i] {
      assert w.accounts[i].id == after.accounts[i].id;
    }
  }

  /** What is true of the attempts so far. */
  predicate Attempts(w0: World, w: World, tried: seq<string>, exclude: set<string>)
  {
    && SameIds(w0.accounts, w.accounts)
    && Distinct(tried) && exclude == AsSet(tried) && exclude <= Ids(w0.accounts)
  }

  lemma AttemptsKeep(w0: World, w: World, tried: seq<string>, exclude: set<string>, rs: seq<Report>)
    requires Attempts(w0, w, tried, exclude)
    ensures Attempts(w0, AfterReports(w, rs), tried, exclude)
  {
    ReportsKeepIds(w, rs);
    SameIdsTrans(w0.accounts, w.accounts, AfterReports(w, rs).accounts);
  }

  lemma AttemptsMore(w0: World, w: World, tried: seq<string>, exclude: set<string>, i: nat)
    requires Attempts(w0, w, tried, exclude) && i < |w.accounts| && w.accounts[i].id !in exclude
    ensures var id := w.accounts[i].id;
      Attempts(w0, w, tried + [id], exclude + {id}) && id in Ids(w0.accounts)
  {
    var id := w.accounts[i].id;
    assert w0.accounts[i] in w0.accounts;
    var all := tried + [id];
    assert id in all && forall t :: t in tried ==> t in all;
    forall j | 0 <= j < |tried| ensures tried[j] != id {
      assert tried[j] in tried;
    }
  }

  /** The report an attempt makes on the manager. */
  method ReportOutcome(m: Manager, id: string, o: Outcome, now: int, ghost w: World)
    requires m.Holds(w)
    modifies m`stickyIdx, m.accounts
    ensures m.Holds(AfterReports(w, OwnReports(id, o, now)))
  {
    match o {
      case Succeeded =>
        m.ReportSuccess(id, w);
        AfterOne(w, Success(id));
      case FatalError(message) =>
        var k := m.ReportFailureAs(id, Fatal, message, now, w);
        AfterOne(w, Failure(id, Fatal, message, now));
      case Broken =>
      case TryNext(_, message) =>
        var k := m.ReportFailureAs(id, Recoverable, message, now, w);
        AfterOne(w, Failure(id, Recoverable, message, now));
    }
  }

  // ----- one round -----

  /** The choice of round `k`. */
  function ChoiceOf(cfg: Config, e: Weather, k: nat, w: World, exclude: set<string>): Choice
  {
    Next(cfg, AfterReports(w, e.before(k)), exclude, e.selectAt(k), e.draws(k))
  }

  /** The state after a round that tried `id`. */
  function RoundWorld(e: Weather, k: nat, w: World, id: string): World
  {
    var w1 := AfterReports(AfterReports(w, e.before(k)), e.during(k));
    AfterReports(w1, OwnReports(id, e.outcome(k), e.failAt(k)))
  }

  /** What an attempt leaves behind for later requests, on top of what others reported before and during it:
      success clears the account and makes it the sticky one, a fatal error only leaves its message, a
      recoverable one also counts and is dated, a broken attempt leaves nothing; other accounts stay. */
  lemma AttemptLeaves(e: Weather, k: nat, w: World, id: string)
    ensures var w1, w' := AfterReports(AfterReports(w, e.before(k)), e.during(k)), RoundWorld(e, k, w, id);
      var i := Find(w1.accounts, id);
      && |w'.accounts| == |w1.accounts|
      && (forall j :: 0 <= j < |w1.accounts| && j != i ==> w'.accounts[j] == w1.accounts[j])
      && w'.sticky == (if i >= 0 && e.outcome(k).Succeeded? then i else w1.sticky)
      && (i >= 0 ==>
           w'.accounts[i] == w1.accounts[i].(stats :=
             match e.outcome(k)
             case Succeeded => Stats(0, 0, "")
             case FatalError(message) => w1.accounts[i].stats.(message := message)
             case Broken => w1.accounts[i].stats
             case TryNext(_, message) => Stats(w1.accounts[i].stats.fails + 1, e.failAt(k), message)))
  {
    var w1 := AfterReports(AfterReports(w, e.before(k)), e.during(k));
    match e.outcome(k)
    case Succeeded => AfterOne(w1, Success(id));
    case FatalError(message) => AfterOne(w1, Failure(id, Fatal, message, e.failAt(k)));
    case Broken =>
      var none: seq<Report> := [];
      assert AfterReports(w1, none) == w1;
    case TryNext(_, message) => AfterOne(w1, Failure(id, Recoverable, message, e.failAt(k)));
  }

  datatype Round = Stop(message: string) | Tried(id: string, outcome: Outcome)

  /** What a round comes to and the state it leaves. */
  predicate IsRound(cfg: Config, e: Weather, k: nat, exclude: set<string>, w: World, r: Round, w': World)
  {
    var c, w1 := ChoiceOf(cfg, e, k, w, exclude), AfterReports(w, e.before(k));
    if c.Exhausted? then r == Stop(c.message) && w' == w1
    else r == Tried(w1.accounts[c.index].id, e.outcome(k)) && w' == RoundWorld(e, k, w, r.id)
  }

  /** One round of the loop: select, attempt, report, while others report before and during it. */
  method TakeRound(m: Manager, e: Weather, k: nat, exclude: set<string>, ghost w: World)
    returns (r: Round, ghost w': World)
    requires m.Holds(w)
    modifies m`stickyIdx, m.accounts
    ensures m.Holds(w') && IsRound(m.cfg, e, k, exclude, w, r, w')
  {
    m.Interfere(e.before(k), w);
    ghost var w1 := AfterReports(w, e.before(k));
    var c := m.GetNextAccount(exclude, e.selectAt(k), e.draws(k), w1);
    if c.Exhausted? { return Stop(c.message), w1; }
    assert m.accounts[c.index].Abs() == w1.accounts[c.index];
    var id := m.accounts[c.index].id;
    m.Interfere(e.during(k), w1);
    ghost var w2 := AfterReports(w1, e.during(k));
    ReportOutcome(m, id, e.outcome(k), e.failAt(k), w2);
    return Tried(id, e.outcome(k)), AfterReports(w2, OwnReports(id, e.outcome(k), e.failAt(k)));
  }

  /** A round tries an account of the manager that was not tried before. */
  lemma RoundIsNew(cfg: Config, e: Weather, k: nat, w0: World, w: World, tried: seq<string>, exclude: set<string>)
    requires Attempts(w0, w, tried, exclude)
    ensures Attempts(w0, AfterReports(w, e.before(k)), tried, exclude)
    ensures var c, w1 := ChoiceOf(cfg, e, k, w, exclude), AfterReports(w, e.before(k));
      c.Chosen? ==>
        (var id := w1.accounts[c.index].id;
         id !in exclude && id in Ids(w0.accounts)
         && Attempts(w0, RoundWorld(e, k, w, id), tried + [id], exclude + {id}))
  {
    var c, w1 := ChoiceOf(cfg, e, k, w, exclude), AfterReports(w, e.before(k));
    AttemptsKeep(w0, w, tried, exclude, e.before(k));
    if c.Chosen? {
      var id := w1.accounts[c.index].id;
      AttemptsMore(w0, w1, tried, exclude, c.index);
      AttemptsKeep(w0, w1, tried + [id], exclude + {id}, e.during(k));
      AttemptsKeep(w0, AfterReports(w1, e.during(k)), tried + [id], exclude + {id},
                   OwnReports(id, e.outcome(k), e.failAt(k)));
    }
  }

  /** A round in which nobody else reports. */
  lemma QuietRound(cfg: Config, e: Weather, k: nat, w: World, exclude: set<string>, id: string)
    requires e.before(k) == [] && e.during(k) == [] && e.outcome(k).TryNext?
    ensures AfterReports(w, e.before(k)) == w
    ensures ChoiceOf(cfg, e, k, w, exclude) == Next(cfg, w, exclude, e.selectAt(k), e.draws(k))
    ensures RoundWorld(e, k, w, id) == AfterReport(w, Failure(id, Recoverable, e.outcome(k).message, e.failAt(k)))
  {
    AfterOne(w, Failure(id, Recoverable, e.outcome(k).message, e.failAt(k)));
    assert AfterReports(w, []) == w;
  }

  /** What the best conditions say about one round. */
  lemma IdealWeather(cfg: Config, w0: World, e: Weather, k: nat)
    requires Ideal(cfg, w0, e)
    ensures e.before(k) == [] && e.during(k) == [] && e.outcome(k).TryNext?
  {
  }

  lemma SameIdAt(w0: World, w: World, tried: seq<string>, k: nat)
    requires AfterRounds(w0, w, tried) && k < |w0.accounts|
    ensures |w.accounts| == |w0.accounts| && w.accounts[(w.sticky + k) % |w.accounts|].id == At(w0, k).id
  {
  }

  /** `c` is the account `k` steps behind the sticky one of `w0`, or nothing once all have been tried. */
  predicate InTurn(w0: World, w: World, k: nat, c: Choice)
    requires w0.accounts != []
  {
    if k < |w0.accounts| then c.Chosen? && c.index < |w.accounts| && w.accounts[c.index].id == At(w0, k).id
    else c.Exhausted?
  }

  lemma ChosenInTurn(cfg: Config, e: Weather, w0: World, w: World, tried: seq<string>)
    requires Ideal(cfg, w0, e) && AfterRounds(w0, w, tried)
    ensures InTurn(w0, w, |tried|, Next(cfg, w, AsSet(tried), e.selectAt(|tried|), e.draws(|tried|)))
  {
    NextRound(cfg, w0, e, w, tried);
    if |tried| < |w0.accounts| { SameIdAt(w0, w, tried, |tried|); }
  }

  /** Under the best conditions round `k` chooses the account `k` steps behind the sticky one. */
  lemma IdealChoice(cfg: Config, e: Weather, w0: World, w: World, tried: seq<string>)
    requires Ideal(cfg, w0, e) && AfterRounds(w0, w, tried)
    ensures AfterReports(w, e.before(|tried|)) == w
    ensures InTurn(w0, w, |tried|, ChoiceOf(cfg, e, |tried|, w, AsSet(tried)))
  {
    IdealWeather(cfg, w0, e, |tried|);
    ChosenInTurn(cfg, e, w0, w, tried);
    QuietRound(cfg, e, |tried|, w, AsSet(tried), "");
  }

  /** And its failure leaves the accounts behind it as they were. */
  lemma IdealFailure(cfg: Config, e: Weather, w0: World, w: World, tried: seq<string>)
    requires Ideal(cfg, w0, e) && AfterRounds(w0, w, tried) && |tried| < |w0.accounts|
    ensures var id := At(w0, |tried|).id; AfterRounds(w0, RoundWorld(e, |tried|, w, id), tried + [id])
  {
    var k := |tried|;
    IdealWeather(cfg, w0, e, k);
    QuietRound(cfg, e, k, w, AsSet(tried), At(w0, k).id);
    RoundAfter(cfg, w0, e, w, tried, e.outcome(k).message, e.failAt(k));
  }

  // ----- runs -----

  /** The state after the rounds that tried `tried`. */
  function RunWorld(e: Weather, w0: World, tried: seq<string>): World
  {
    if tried == [] then w0
    else
      var n := |tried| - 1;
      RoundWorld(e, n, RunWorld(e, w0, tried[..n]), tried[n])
  }

  /** The account of round `|tried|`, after the rounds that tried `tried`. */
  function NextChoice(cfg: Config, e: Weather, w0: World, tried: seq<string>): Option<string>
  {
    var w := RunWorld(e, w0, tried);
    var c := ChoiceOf(cfg, e, |tried|, w, AsSet(tried));
    if c.Chosen? then Some(AfterReports(w, e.before(|tried|)).accounts[c.index].id) else None
  }

  /** Round `k` followed a recoverable outcome, if any, and chose the account tried. */
  predicate RoundAt(cfg: Config, e: Weather, w0: World, tried: seq<string>, k: nat)
    requires k < |tried|
  {
    Recovers(e, k) && NextChoice(cfg, e, w0, tried[..k]) == Some(tried[k])
  }

  /** The loop can have tried exactly `tried` so far: each round chose its account, and every outcome
      before the last was recoverable. */
  predicate Rounds(cfg: Config, e: Weather, w0: World, tried: seq<string>)
  {
    forall k :: 0 <= k < |tried| ==> RoundAt(cfg, e, w0, tried, k)
  }

  /** The outcome of the last of `n` rounds, if any, was recoverable. */
  predicate Recovers(e: Weather, n: nat) { n == 0 || e.outcome(n - 1).TryNext? }

  /** Status and message of the last of `n` attempts. */
  function LastError(e: Weather, n: nat): (int, string)
  {
    if n > 0 && e.outcome(n - 1).TryNext? then (e.outcome(n - 1).status, e.outcome(n - 1).message) else (0, "")
  }

  /** The message of the selection that fails after the rounds that tried `tried`. */
  function WhyExhausted(cfg: Config, e: Weather, w0: World, tried: seq<string>): string
  {
    var c := ChoiceOf(cfg, e, |tried|, RunWorld(e, w0, tried), AsSet(tried));
    if c.Exhausted? then c.message else ""
  }

  /** A complete run: it ends with an answer to the client after an attempt that was not recoverable, or
      with the exhaustion error, built from the last attempt, when no account is left. */
  predicate IsRun(cfg: Config, e: Weather, w0: World, tried: seq<string>, answer: Answer)
  {
    && Rounds(cfg, e, w0, tried)
    && if Recovers(e, |tried|) then
         && NextChoice(cfg, e, w0, tried).None?
         && answer == ExhaustedAnswer(|w0.accounts|, |tried| > 0, LastError(e, |tried|).0, LastError(e, |tried|).1,
                                      WhyExhausted(cfg, e, w0, tried))
       else answer == Answered
  }

  lemma AsSetSnoc(tried: seq<string>, id: string)
    ensures AsSet(tried + [id]) == AsSet(tried) + {id}
  {
    assert id in tried + [id] && forall t :: t in tried ==> t in tried + [id];
  }

  lemma RunWorldSnoc(e: Weather, w0: World, front: seq<string>, id: string)
    ensures RunWorld(e, w0, front + [id]) == RoundWorld(e, |front|, RunWorld(e, w0, front), id)
  {
    assert (front + [id])[..|front|] == front;
  }

  lemma RoundsFront(cfg: Config, e: Weather, w0: World, tried: seq<string>, front: seq<string>, id: string)
    requires Rounds(cfg, e, w0, tried) && tried == front + [id]
    ensures Rounds(cfg, e, w0, front) && NextChoice(cfg, e, w0, front) == Some(id)
  {
    forall k | 0 <= k < |front| ensures RoundAt(cfg, e, w0, front, k) {
      assert RoundAt(cfg, e, w0, tried, k);
      assert tried[..k] == front[..k];
    }
    assert RoundAt(cfg, e, w0, tried, |front|);
    assert tried[..|front|] == front;
  }

  lemma AttemptsNext(cfg: Config, e: Weather, w0: World, front: seq<string>, id: string)
    requires Attempts(w0, RunWorld(e, w0, front), front, AsSet(front)) && NextChoice(cfg, e, w0, front) == Some(id)
    ensures Attempts(w0, RunWorld(e, w0, front + [id]), front + [id], AsSet(front + [id]))
  {
    RoundIsNew(cfg, e, |front|, w0, RunWorld(e, w0, front), front, AsSet(front));
    RunWorldSnoc(e, w0, front, id);
    AsSetSnoc(front, id);
  }

  /** Whatever others report, the accounts tried are different accounts of the manager. */
  lemma {:induction false} RoundsAreNew(cfg: Config, e: Weather, w0: World, tried: seq<string>)
    requires Rounds(cfg, e, w0, tried)
    ensures Attempts(w0, RunWorld(e, w0, tried), tried, AsSet(tried))
    decreases |tried|
  {
    if tried != [] {
      var front, id := tried[..|tried| - 1], tried[|tried| - 1];
      assert tried == front + [id];
      RoundsFront(cfg, e, w0, tried, front, id);
      RoundsAreNew(cfg, e, w0, front);
      AttemptsNext(cfg, e, w0, front, id);
    }
  }

  /** After any rounds the next choice is an account not tried yet. */
  lemma NextIsNew(cfg: Config, e: Weather, w0: World, tried: seq<string>)
    requires Rounds(cfg, e, w0, tried)
    ensures var next := NextChoice(cfg, e, w0, tried);
      next.Some? ==> next.value !in AsSet(tried) && next.value in Ids(w0.accounts)
  {
    RoundsAreNew(cfg, e, w0, tried);
    RoundIsNew(cfg, e, |tried|, w0, RunWorld(e, w0, tried), tried, AsSet(tried));
  }

  lemma DistinctFront(ids: seq<string>, front: seq<string>, last: string)
    requires Distinct(ids) && ids == front + [last]
    ensures Distinct(front) && last !in AsSet(front)
  {
    assert ids[|front|] == last;
    assert forall i :: 0 <= i < |front| ==> ids[i] == front[i];
  }

  lemma {:induction false} SetSize(ids: seq<string>)
    requires Distinct(ids)
    ensures |AsSet(ids)| == |ids|
    decreases |ids|
  {
    if ids != [] {
      var front, last := ids[..|ids| - 1], ids[|ids| - 1];
      assert ids == front + [last];
      DistinctFront(ids, front, last);
      SetSize(front);
      AsSetSnoc(front, last);
    }
  }

  lemma {:induction false} IdCount(accounts: seq<AccountState>)
    ensures |Ids(accounts)| <= |accounts|
  {
    if accounts != [] {
      var front, last := accounts[..|accounts| - 1], accounts[|accounts| - 1];
      IdCount(front);
      assert accounts == front + [last];
      assert Ids(accounts) == Ids(front) + {last.id};
    }
  }

  /** Under any weather a run makes at most one attempt per account, and no account twice. */
  lemma RunIsBounded(cfg: Config, e: Weather, w0: World, tried: seq<string>, answer: Answer)
    requires IsRun(cfg, e, w0, tried, answer)
    ensures Distinct(tried) && AsSet(tried) <= Ids(w0.accounts) && |tried| <= |w0.accounts|
  {
    RoundsAreNew(cfg, e, w0, tried);
    SetSize(tried);
    IdCount(w0.accounts);
    Subset(AsSet(tried), Ids(w0.accounts));
  }

  lemma Subset(a: set<string>, b: set<string>)
    requires a <= b
    ensures |a| <= |b|
  {
    assert b == a + (b - a);
  }

  lemma IdealNext(cfg: Config, e: Weather, w0: World, front: seq<string>, id: string)
    requires Ideal(cfg, w0, e) && AfterRounds(w0, RunWorld(e, w0, front), front)
    requires NextChoice(cfg, e, w0, front) == Some(id)
    ensures AfterRounds(w0, RoundWorld(e, |front|, RunWorld(e, w0, front), id), front + [id])
  {
    IdealChoice(cfg, e, w0, RunWorld(e, w0, front), front);
    IdealFailure(cfg, e, w0, RunWorld(e, w0, front), front);
  }

  lemma IdealStep(cfg: Config, e: Weather, w0: World, front: seq<string>, id: string)
    requires Ideal(cfg, w0, e) && AfterRounds(w0, RunWorld(e, w0, front), front)
    requires NextChoice(cfg, e, w0, front) == Some(id)
    ensures AfterRounds(w0, RunWorld(e, w0, front + [id]), front + [id])
  {
    IdealNext(cfg, e, w0, front, id);
    RunWorldSnoc(e, w0, front, id);
  }

  lemma {:induction false} IdealRounds(cfg: Config, e: Weather, w0: World, tried: seq<string>)
    requires Ideal(cfg, w0, e) && Rounds(cfg, e, w0, tried)
    ensures AfterRounds(w0, RunWorld(e, w0, tried), tried)
    decreases |tried|
  {
    if tried != [] {
      var front, id := tried[..|tried| - 1], tried[|tried| - 1];
      assert tried == front + [id];
      RoundsFront(cfg, e, w0, tried, front, id);
      IdealRounds(cfg, e, w0, front);
      IdealStep(cfg, e, w0, front, id);
    }
  }

  // ----- the exhaustion message -----

  /** The state in which the selection after the rounds that tried `tried` happens. */
  function FinalWorld(e: Weather, w0: World, tried: seq<string>): World
  {
    AfterReports(RunWorld(e, w0, tried), e.before(|tried|))
  }

  /** The message a failed selection among several accounts makes of one of them. */
  function Shown(a: AccountState): string { MessageOr(a.stats.message, "no accounts available") }

  /** The accounts show different messages. */
  predicate Telling(accounts: seq<AccountState>)
  {
    forall i, j :: 0 <= i < j < |accounts| ==> Shown(accounts[i]) != Shown(accounts[j])
  }

  /** The account of the last attempt. */
  function LastTried(w: World, tried: seq<string>): int
    requires tried != []
  {
    Find(w.accounts, tried[|tried| - 1])
  }

  lemma FoundAgain(w0: World, w: World, id: string)
    requires SameIds(w0.accounts, w.accounts) && id in Ids(w0.accounts)
    ensures Find(w.accounts, id) >= 0
  {
    var a :| a in w0.accounts && a.id == id;
    var i :| 0 <= i < |w0.accounts| && w0.accounts[i] == a;
    assert w.accounts[i].id == id;
  }

  lemma LastIsKnown(cfg: Config, e: Weather, w0: World, tried: seq<string>)
    requires Rounds(cfg, e, w0, tried) && tried != []
    ensures var w := FinalWorld(e, w0, tried);
      SameIds(w0.accounts, w.accounts) && LastTried(w, tried) >= 0
  {
    RoundsAreNew(cfg, e, w0, tried);
    AttemptsKeep(w0, RunWorld(e, w0, tried), tried, AsSet(tried), e.before(|tried|));
    assert tried[|tried| - 1] in AsSet(tried);
    FoundAgain(w0, FinalWorld(e, w0, tried), tried[|tried| - 1]);
  }

  /** With several accounts the message of the failed selection is the last attempted account's if that
      is the account in front of the sticky one, and, where the accounts show different messages, only if. */
  lemma ExhaustionMessageIff(cfg: Config, e: Weather, w0: World, tried: seq<string>, answer: Answer)
    requires |w0.accounts| > 1 && tried != [] && IsRun(cfg, e, w0, tried, answer) && answer.Unavailable?
    ensures var w := FinalWorld(e, w0, tried);
      && |w.accounts| > 1 && LastTried(w, tried) >= 0
      && WhyExhausted(cfg, e, w0, tried) == Shown(At(w, |w.accounts| - 1))
      && (At(w, |w.accounts| - 1) == w.accounts[LastTried(w, tried)] ==>
           WhyExhausted(cfg, e, w0, tried) == Shown(w.accounts[LastTried(w, tried)]))
      && (Telling(w.accounts) ==>
           (WhyExhausted(cfg, e, w0, tried) == Shown(w.accounts[LastTried(w, tried)]) <==>
            At(w, |w.accounts| - 1) == w.accounts[LastTried(w, tried)]))
  {
    var w := FinalWorld(e, w0, tried);
    var n := |w.accounts|;
    LastIsKnown(cfg, e, w0, tried);
    FailedSelection(cfg, w, AsSet(tried), e.selectAt(|tried|), e.draws(|tried|));
    if Telling(w.accounts) { TellApart(w.accounts, (w.sticky + (n - 1)) % n, LastTried(w, tried)); }
  }

  lemma FailedSelection(cfg: Config, w: World, exclude: set<string>, now: int, draws: nat -> real)
    requires |w.accounts| > 1 && Next(cfg, w, exclude, now, draws).Exhausted?
    ensures Next(cfg, w, exclude, now, draws).message == Shown(At(w, |w.accounts| - 1))
  {
  }

  lemma TellApart(accounts: seq<AccountState>, i: nat, j: nat)
    requires Telling(accounts) && i < |accounts| && j < |accounts|
    ensures Shown(accounts[i]) == Shown(accounts[j]) <==> accounts[i] == accounts[j]
  {
    if i < j {
      assert Shown(accounts[i]) != Shown(accounts[j]);
    } else if j < i {
      assert Shown(accounts[j]) != Shown(accounts[i]);
    }
  }

  lemma FirstChoice(cfg: Config, e: Weather, w0: World)
    ensures |w0.accounts| == 1 ==> NextChoice(cfg, e, w0, []) == Some(w0.accounts[0].id)
    ensures |w0.accounts| == 0 ==>
      NextChoice(cfg, e, w0, []) == None && WhyExhausted(cfg, e, w0, []) == "no accounts available"
  {
    ReportsKeepIds(w0, e.before(0));
    assert AsSet([]) == {};
  }

  lemma ExhaustedSays(total: nat, attempted: bool, status: int, last: string, message: string)
    ensures var a := ExhaustedAnswer(total, attempted, status, last, message);
      var shown := if last != "" then last else message;
      && a.Unavailable?
      && (total <= 1 && status != 0 ==> a.status == status) && (total > 1 || status == 0 ==> a.status == 503)
      && (total <= 1 ==> a.message == if shown != "" then shown else "Account unavailable")
      && (total > 1 && shown != "" ==>
           a.message == (if attempted then "All accounts failed after full circle."
                         else "No available accounts for this model.") + " Error from last account: " + shown)
  {
  }

  /** A single account is tried once, and its own error is the answer, status and message. Without accounts
      the answer is 503; with several it is 503 whatever their errors were, naming the last one. */
  lemma GivingUp(cfg: Config, e: Weather, w0: World, tried: seq<string>, answer: Answer)
    requires IsRun(cfg, e, w0, tried, answer) && answer.Unavailable?
    ensures |w0.accounts| == 0 ==> tried == [] && answer == Unavailable(503, "no accounts available")
    ensures |w0.accounts| == 1 ==>
      && tried == [w0.accounts[0].id] && e.outcome(0).TryNext?
      && answer.status == (if e.outcome(0).status == 0 then 503 else e.outcome(0).status)
      && (e.outcome(0).message != "" ==> answer.message == e.outcome(0).message)
    ensures |w0.accounts| > 1 ==>
      && answer.status == 503 && (tried != [] ==> e.outcome(|tried| - 1).TryNext?)
      && (tried != [] && e.outcome(|tried| - 1).message != "" ==>
           answer.message == "All accounts failed after full circle." + " Error from last account: " +
                             e.outcome(|tried| - 1).message)
  {
    RunIsBounded(cfg, e, w0, tried, answer);
    LastAnswer(cfg, e, w0, tried, answer);
    FirstChoice(cfg, e, w0);
    var (status, last) := LastError(e, |tried|);
    ExhaustedSays(|w0.accounts|, |tried| > 0, status, last, WhyExhausted(cfg, e, w0, tried));
    if |w0.accounts| == 1 {
      assert RoundAt(cfg, e, w0, tried, 0);
      assert tried[..0] == [];
    }
  }

  /** Two accounts, the second switched off with an old message: the first is tried and fails, and the
      failed selection gives the second one's message, which the client sees if the failure had none. */
  lemma WrongAccountNamed(cfg: Config, e: Weather, w0: World, status: int, message: string)
    requires w0 == World([AccountState("a", true, Stats(0, 0, "")), AccountState("b", false, Stats(1, 0, "old"))], 0)
    requires e.before(0) == [] && e.during(0) == [] && e.before(1) == [] && e.outcome(0) == TryNext(status, message)
    ensures WhyExhausted(cfg, e, w0, ["a"]) == "old"
    ensures IsRun(cfg, e, w0, ["a"], Unavailable(503,
      "All accounts failed after full circle." + " Error from last account: " +
      if message != "" then message else "old"))
  {
    var first, b := AccountState("a", true, Stats(1, e.failAt(0), message)), w0.accounts[1];
    assert [w0.accounts[0]] == w0.accounts[..1] && w0.accounts[..0] == [];
    assert Find(w0.accounts[..1], "a") == 0;
    assert At(w0, 0) == w0.accounts[0];
    QuietRound(cfg, e, 0, w0, {}, "a");
    var tried := ["a"];
    assert tried[..0] == [] && AsSet([]) == {};
    assert NextChoice(cfg, e, w0, []) == Some("a");
    var w1 := World([first, b], 0);
    assert RunWorld(e, w0, tried) == w1;
    assert AsSet(tried) == {"a"};
    assert AfterReports(w1, []) == w1;
    assert At(w1, 0) == first && At(w1, 1) == b;
  }

  /** The message of the selection that fails after every one of `n` accounts had its turn. */
  function FullCircleMessage(e: Weather, n: nat): string
  {
    MessageOr(LastError(e, n).1, if n == 1 then "account already tried" else "no accounts available")
  }

  lemma QuietFailure(cfg: Config, e: Weather, w0: World, front: seq<string>, id: string)
    requires Ideal(cfg, w0, e)
    ensures var k := |front|;
      && e.outcome(k).TryNext?
      && RunWorld(e, w0, front + [id]) ==
           AfterReport(RunWorld(e, w0, front), Failure(id, Recoverable, e.outcome(k).message, e.failAt(k)))
  {
    IdealWeather(cfg, w0, e, |front|);
    RunWorldSnoc(e, w0, front, id);
    QuietRound(cfg, e, |front|, RunWorld(e, w0, front), AsSet(front), id);
  }

  predicate DistinctIds(accounts: seq<AccountState>)
  {
    forall i, j :: 0 <= i < j < |accounts| ==> accounts[i].id != accounts[j].id
  }

  /** Where the rounds stand when one account is left. */
  lemma OneLeft(cfg: Config, e: Weather, w0: World, w: World, front: seq<string>)
    requires Ideal(cfg, w0, e) && AfterRounds(w0, w, front) && |front| < |w0.accounts|
    ensures |w.accounts| == |w0.accounts| && DistinctIds(w.accounts) && At(w, |front|).id == At(w0, |front|).id
  {
    SameIdAt(w0, w, front, |front|);
    StillDistinct(w0.accounts, w.accounts);
  }

  /** After the last ideal failure the account in front of the sticky one carries its message. */
  lemma IdealMessage(cfg: Config, e: Weather, w0: World, front: seq<string>)
    requires Ideal(cfg, w0, e) && AfterRounds(w0, RunWorld(e, w0, front), front) && |front| + 1 == |w0.accounts|
    ensures var k := |front|; var w := RunWorld(e, w0, front + [At(w0, k).id]);
      |w.accounts| == k + 1 && e.outcome(k).TryNext? && At(w, k).stats.message == e.outcome(k).message
  {
    var k, w := |front|, RunWorld(e, w0, front);
    QuietFailure(cfg, e, w0, front, At(w0, k).id);
    OneLeft(cfg, e, w0, w, front);
    FailureIsStored(w, k, e.outcome(k).message, e.failAt(k));
  }

  lemma StillDistinct(a: seq<AccountState>, b: seq<AccountState>)
    requires SameIds(a, b) && DistinctIds(a)
    ensures DistinctIds(b)
  {
  }

  lemma FailureIsStored(w: World, k: nat, message: string, now: int)
    requires k < |w.accounts| && DistinctIds(w.accounts)
    ensures var w' := AfterReport(w, Failure(At(w, k).id, Recoverable, message, now));
      |w'.accounts| == |w.accounts| && At(w', k).stats.message == message
  {
  }

  /** With all accounts enabled and none quarantined when its turn comes, nobody else reporting and only
      recoverable failures, a run tries every account exactly once, in circular order from the sticky one,
      and then gives up. */
  lemma IdealRun(cfg: Config, e: Weather, w0: World, tried: seq<string>, answer: Answer)
    requires Ideal(cfg, w0, e) && IsRun(cfg, e, w0, tried, answer)
    ensures answer.Unavailable? && |tried| == |w0.accounts|
    ensures forall k :: 0 <= k < |tried| ==> tried[k] == At(w0, k).id
  {
    IdealRounds(cfg, e, w0, tried);
    IdealChoice(cfg, e, w0, RunWorld(e, w0, tried), tried);
    assert |tried| > 0 ==> e.outcome(|tried| - 1).TryNext?;
  }

  lemma FullCircleEnds(cfg: Config, e: Weather, w0: World, tried: seq<string>)
    requires Ideal(cfg, w0, e) && Rounds(cfg, e, w0, tried) && |tried| == |w0.accounts|
    requires tried[|tried| - 1] == At(w0, |tried| - 1).id
    ensures var k, w := |tried| - 1, RunWorld(e, w0, tried);
      |w.accounts| == k + 1 && e.outcome(k).TryNext? && At(w, k).stats.message == e.outcome(k).message
  {
    var front, id := tried[..|tried| - 1], tried[|tried| - 1];
    assert tried == front + [id];
    RoundsFront(cfg, e, w0, tried, front, id);
    IdealRounds(cfg, e, w0, front);
    IdealMessage(cfg, e, w0, front);
  }

  /** What a failed selection says when nobody reported since the rounds. */
  lemma QuietMessage(cfg: Config, e: Weather, w0: World, tried: seq<string>)
    requires e.before(|tried|) == [] && NextChoice(cfg, e, w0, tried).None?
    requires RunWorld(e, w0, tried).accounts != []
    ensures var w := RunWorld(e, w0, tried); var n := |w.accounts|;
      WhyExhausted(cfg, e, w0, tried) ==
      MessageOr(At(w, n - 1).stats.message, if n == 1 then "account already tried" else "no accounts available")
  {
    QuietSelection(cfg, RunWorld(e, w0, tried), AsSet(tried), e.selectAt(|tried|), e.draws(|tried|));
    assert AfterReports(RunWorld(e, w0, tried), []) == RunWorld(e, w0, tried);
  }

  lemma QuietSelection(cfg: Config, w: World, exclude: set<string>, now: int, draws: nat -> real)
    requires w.accounts != []
    requires Next(cfg, w, exclude, now, draws).Exhausted?
    ensures var n := |w.accounts|;
      Next(cfg, w, exclude, now, draws).message ==
      MessageOr(At(w, n - 1).stats.message, if n == 1 then "account already tried" else "no accounts available")
  {
  }

  /** After a full circle under the best conditions the last attempted account is the one in front of the
      sticky one, and both messages the client may see are that of its failure. */
  lemma FullCircleAnswer(cfg: Config, e: Weather, w0: World, tried: seq<string>, answer: Answer)
    requires Ideal(cfg, w0, e) && IsRun(cfg, e, w0, tried, answer)
    ensures var n := |w0.accounts|; var (status, message) := LastError(e, n);
      && |tried| == n > 0 && tried[n - 1] == At(w0, n - 1).id
      && WhyExhausted(cfg, e, w0, tried) == FullCircleMessage(e, n)
      && answer == ExhaustedAnswer(n, true, status, message, FullCircleMessage(e, n))
  {
    IdealRun(cfg, e, w0, tried, answer);
    IdealWeather(cfg, w0, e, |tried|);
    FullCircleEnds(cfg, e, w0, tried);
    LastAnswer(cfg, e, w0, tried, answer);
    QuietMessage(cfg, e, w0, tried);
  }

  lemma LastAnswer(cfg: Config, e: Weather, w0: World, tried: seq<string>, answer: Answer)
    requires IsRun(cfg, e, w0, tried, answer) && answer.Unavailable?
    ensures NextChoice(cfg, e, w0, tried).None?
    ensures answer == ExhaustedAnswer(|w0.accounts|, |tried| > 0, LastError(e, |tried|).0, LastError(e, |tried|).1,
                                      WhyExhausted(cfg, e, w0, tried))
  {
  }

  // ----- the loop -----

  lemma RoundsSnoc(cfg: Config, e: Weather, w0: World, tried: seq<string>, id: string)
    requires Rounds(cfg, e, w0, tried) && Recovers(e, |tried|) && NextChoice(cfg, e, w0, tried) == Some(id)
    ensures Rounds(cfg, e, w0, tried + [id])
    ensures RunWorld(e, w0, tried + [id]) == RoundWorld(e, |tried|, RunWorld(e, w0, tried), id)
  {
    var all := tried + [id];
    RunWorldSnoc(e, w0, tried, id);
    forall k | 0 <= k < |all| ensures RoundAt(cfg, e, w0, all, k) {
      if k < |tried| {
        assert RoundAt(cfg, e, w0, tried, k);
        assert all[..k] == tried[..k];
      } else {
        assert all[..k] == tried;
      }
    }
  }

  /** A round is the run's next choice. */
  lemma RoundIsChoice(cfg: Config, e: Weather, w0: World, tried: seq<string>, r: Round, w': World)
    requires IsRound(cfg, e, |tried|, AsSet(tried), RunWorld(e, w0, tried), r, w')
    ensures r.Stop? ==> NextChoice(cfg, e, w0, tried).None? && r.message == WhyExhausted(cfg, e, w0, tried)
    ensures r.Tried? ==>
      && NextChoice(cfg, e, w0, tried) == Some(r.id) && r.outcome == e.outcome(|tried|)
      && w' == RoundWorld(e, |tried|, RunWorld(e, w0, tried), r.id)
  {
  }

  /** What a round means for the run: it ends the run, or is its next attempt. */
  lemma RoundExtends(cfg: Config, e: Weather, w0: World, tried: seq<string>, r: Round, w': World)
    requires Rounds(cfg, e, w0, tried) && Recovers(e, |tried|)
    requires IsRound(cfg, e, |tried|, AsSet(tried), RunWorld(e, w0, tried), r, w')
    ensures r.Stop? ==> NextChoice(cfg, e, w0, tried).None? && r.message == WhyExhausted(cfg, e, w0, tried)
    ensures r.Tried? ==> r.outcome == e.outcome(|tried|) && Rounds(cfg, e, w0, tried + [r.id])
                         && w' == RunWorld(e, w0, tried + [r.id]) && r.id !in AsSet(tried) && r.id in Ids(w0.accounts)
  {
    RoundIsChoice(cfg, e, w0, tried, r, w');
    if r.Tried? {
      NextIsNew(cfg, e, w0, tried);
      RoundsSnoc(cfg, e, w0, tried, r.id);
    }
  }

  /** failoverMessages. The loop ends under any weather and makes a run. */
  method FailoverMessages(m: Manager, e: Weather, ghost w0: World)
    returns (tried: seq<string>, answer: Answer, ghost w: World)
    requires m.Holds(w0)
    modifies m`stickyIdx, m.accounts
    ensures m.Holds(w) && IsRun(m.cfg, e, w0, tried, answer)
  {
    w, tried := w0, [];
    var exclude: set<string> := {};
    var lastStatus, lastMessage, attempted := 0, "", false;
    while true
      invariant m.Holds(w) && w == RunWorld(e, w0, tried) && exclude == AsSet(tried)
      invariant Rounds(m.cfg, e, w0, tried) && Recovers(e, |tried|)
      invariant attempted == (|tried| > 0) && (lastStatus, lastMessage) == LastError(e, |tried|)
      decreases Ids(w0.accounts) - exclude
    {
      var r;
      r, w := TakeRound(m, e, |tried|, exclude, w);
      RoundExtends(m.cfg, e, w0, tried, r, w);
      if r.Stop? {
        answer := ExhaustedAnswer(|m.accounts|, attempted, lastStatus, lastMessage, r.message);
        return;
      }
      attempted := true;
      AsSetSnoc(tried, r.id);
      tried := tried + [r.id];
      if !r.outcome.TryNext? {
        answer := Answered;
        return;
      }
      exclude := exclude + {r.id};
      lastStatus, lastMessage := r.outcome.status, r.outcome.message;
    }
  }
}
