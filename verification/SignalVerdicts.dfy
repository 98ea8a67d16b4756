/** What status a risk cycle gives each signal, told from its type and from what its checks answer. */
module SignalVerdicts {
  import opened Sums
  import opened RiskPipeline
  import opened Signals
  import opened SignalRuns
  import opened SignalInvariant

  predicate Changing(check: Check) {
    check.result.Modify? && check.result.changes != map[]
  }

  /** Some check answers so, and every check before it let the signal on. */
  predicate FirstStop(checks: seq<Check>, answers: CheckResult -> bool) {
    exists k :: 0 <= k < |checks| && answers(checks[k].result) && forall j :: 0 <= j < k ==> GoesOn(checks[j])
  }

  function Refusing(): CheckResult -> bool {
    (r: CheckResult) => r.Reject?
  }

  function Raising(): CheckResult -> bool {
    (r: CheckResult) => r.Broken?
  }

  /** A signal of a missing strategy is rejected, and without a portfolio nothing is decided. An exit
    * is rejected by no check, and is held up only by a check meant for exits that raises. Any other
    * signal is rejected, or held up, by the first check that does not let it on. What none holds up
    * is modified exactly when a check that ran changes something. */
  predicate RightStatus(signalType: string, env: Evaluation, status: Status) {
    if !env.strategyFound then status == RiskRejected
    else if !env.contextRead then status == Pending
    else if signalType == "exit" || signalType == "scale_out" then ExitStatus(env.checks, status)
    else EntryStatus(env.checks, status)
  }

  predicate ExitStatus(checks: seq<Check>, status: Status) {
    if exists c :: c in checks && c.appliesToExits && c.result.Broken? then status == Pending
    else if exists c :: c in checks && c.appliesToExits && Changing(c) then status == RiskModified
    else status == RiskApproved
  }

  predicate EntryStatus(checks: seq<Check>, status: Status) {
    && (status == RiskRejected <==> FirstStop(checks, Refusing()))
    && (status == Pending <==> FirstStop(checks, Raising()))
    && (status == RiskModified <==> (forall c :: c in checks ==> GoesOn(c)) && exists c :: c in checks && Changing(c))
    && (status == RiskApproved <==> (forall c :: c in checks ==> GoesOn(c)) && forall c :: c in checks ==> !Changing(c))
  }

  function StatusAfter(judged: Option<Judgement>): Status {
    if judged.None? then Pending else StatusFor(judged.value.verdict)
  }

  lemma EntryHeldUpIff(checks: seq<Check>)
    ensures JudgeEntry(checks).None? <==> FirstStop(checks, Raising())
  {
    var f := First(checks, Stops(checks), 0);
    assert forall j :: 0 <= j < f ==> !Stops(checks)(checks[j]);
    if k :| 0 <= k < |checks| && Raising()(checks[k].result) && forall j :: 0 <= j < k ==> GoesOn(checks[j]) {
      assert Stops(checks)(checks[k]);
    }
    if f < |checks| && checks[f].result.Broken? {
      assert Raising()(checks[f].result);
    }
  }

  lemma EntryRefusedIff(checks: seq<Check>)
    ensures JudgeEntry(checks).Some? && JudgeEntry(checks).value.verdict == Rejected <==> FirstStop(checks, Refusing())
  {
    EntryRejectedIff(checks);
    assert FirstStop(checks, Refusing())
      <==> exists k :: 0 <= k < |checks| && checks[k].result.Reject? && forall j :: 0 <= j < k ==> GoesOn(checks[j]) by {
      if k :| 0 <= k < |checks| && checks[k].result.Reject? && forall j :: 0 <= j < k ==> GoesOn(checks[j]) {
        assert Refusing()(checks[k].result);
      }
    }
  }

  lemma EntryChangedIff(checks: seq<Check>)
    ensures JudgeEntry(checks).Some? && JudgeEntry(checks).value.verdict == Modified
            <==> (forall c :: c in checks ==> GoesOn(c)) && exists c :: c in checks && Changing(c)
  {
    EntryModifiedIff(checks);
    assert (exists c :: c in checks && Changing(c)) <==> exists k :: 0 <= k < |checks| && ChangesOf(checks[k]) != map[] by {
      if c :| c in checks && Changing(c) {
        var k :| 0 <= k < |checks| && checks[k] == c;
        assert ChangesOf(checks[k]) != map[];
      }
      if k :| 0 <= k < |checks| && ChangesOf(checks[k]) != map[] {
        assert checks[k] in checks && Changing(checks[k]);
      }
    }
  }

  lemma EntryPassesIff(checks: seq<Check>)
    ensures (forall c :: c in checks ==> GoesOn(c)) <==> !FirstStop(checks, Refusing()) && !FirstStop(checks, Raising())
  {
    var f := First(checks, Stops(checks), 0);
    assert forall j :: 0 <= j < f ==> !Stops(checks)(checks[j]);
    if f < |checks| {
      assert !GoesOn(checks[f]) && checks[f] in checks;
      assert Refusing()(checks[f].result) || Raising()(checks[f].result);
    }
  }

  lemma EntriesAreRight(checks: seq<Check>)
    ensures EntryStatus(checks, StatusAfter(JudgeEntry(checks)))
  {
    EntryHeldUpIff(checks);
    EntryRefusedIff(checks);
    EntryChangedIff(checks);
    EntryPassesIff(checks);
  }

  lemma ExitsAreRight(checks: seq<Check>)
    ensures ExitStatus(checks, StatusAfter(JudgeExit(checks)))
  {
    ExitVerdict(checks);
    assert (exists c :: c in checks && c.appliesToExits && ChangesOf(c) != map[])
      <==> exists c :: c in checks && c.appliesToExits && Changing(c) by {
      if c :| c in checks && c.appliesToExits && Changing(c) {
        assert ChangesOf(c) != map[];
      }
      if c :| c in checks && c.appliesToExits && ChangesOf(c) != map[] {
        assert Changing(c);
      }
    }
  }

  lemma JudgedRight(signalType: string, env: Evaluation)
    ensures RightStatus(signalType, env, StatusAfter(Judge(signalType, env)))
  {
    EntriesAreRight(env.checks);
    ExitsAreRight(env.checks);
  }

  /** The evaluation of one pending signal. */
  lemma EvaluationIsRight(s: State, i: nat, env: Evaluation)
    requires i < |s.signals| && s.signals[i].status == Pending && !HasDecision(s, i)
    ensures RightStatus(s.signals[i].signalType, env, Evaluate(s, i, env).signals[i].status)
  {
    JudgedRight(s.signals[i].signalType, env);
  }

  /** Later turns leave a row alone. */
  lemma {:induction false} TurnsLeave(s: State, turn: (State, nat) -> State, i: nat, n: nat)
    requires forall t: State, j: nat :: Touches(t, turn(t, j), j)
    requires i < n && i < |Iterate(s, turn, i + 1).signals|
    ensures i < |Iterate(s, turn, n).signals| && Iterate(s, turn, n).signals[i] == Iterate(s, turn, i + 1).signals[i]
  {
    if n > i + 1 {
      TurnsLeave(s, turn, i, n - 1);
      var t := Iterate(s, turn, n - 1);
      assert Touches(t, turn(t, n - 1), n - 1);
    }
  }

  /** The row as its turn finds it, and the tables it is decided on. */
  lemma BeforeItsTurn(s: State, env: nat -> Evaluation, i: nat)
    requires Consistent(s) && i < |s.signals|
    ensures var before := RiskSweep(s, env, i);
            && |before.signals| == |s.signals| && before.signals[i] == s.signals[i]
            && (s.signals[i].status == Pending ==> !HasDecision(before, i))
  {
    RiskSweepMoves(s, env, i);
    RiskSweepKeeps(s, env, i);
    assert RowFits(RiskSweep(s, env, i), i);
  }

  lemma AfterItsTurn(s: State, env: nat -> Evaluation, i: nat)
    requires Consistent(s) && i < |s.signals|
    ensures var after := RiskSweep(s, env, i + 1);
            && |after.signals| == |s.signals|
            && if s.signals[i].status == Pending then RightStatus(s.signals[i].signalType, env(i), after.signals[i].status)
               else after.signals[i] == s.signals[i]
  {
    BeforeItsTurn(s, env, i);
    RiskSweepMoves(s, env, i + 1);
    var before := RiskSweep(s, env, i);
    assert RiskSweep(s, env, i + 1) == RiskTurn(env)(before, i);
    if s.signals[i].status == Pending {
      EvaluationIsRight(before, i, env(i));
    }
  }

  lemma LaterTurnsLeave(s: State, env: nat -> Evaluation, i: nat)
    requires i < |s.signals| == |RiskSweep(s, env, i + 1).signals|
    ensures var after := RiskSweep(s, env, |s.signals|);
            |after.signals| == |s.signals| && after.signals[i] == RiskSweep(s, env, i + 1).signals[i]
  {
    forall t: State, j: nat ensures Touches(t, RiskTurn(env)(t, j), j) {
      RiskTurnTouches(t, env, j);
    }
    IterateMoves(s, RiskTurn(env), |s.signals|);
    if i + 1 < |s.signals| {
      TurnsLeave(s, RiskTurn(env), i, |s.signals|);
    }
  }

  /** In every risk cycle from consistent tables, every pending signal ends in the status that its
    * type and its own checks call for, and every other signal keeps its own. */
  lemma CycleIsRight(s: State, c: Config, env: nat -> Evaluation, i: nat)
    requires Consistent(s) && i < |s.signals|
    ensures var after := Step(s, c, RiskCycle(env));
            && |after.signals| == |s.signals|
            && if s.signals[i].status == Pending then RightStatus(s.signals[i].signalType, env(i), after.signals[i].status)
               else after.signals[i] == s.signals[i]
  {
    AfterItsTurn(s, env, i);
    LaterTurnsLeave(s, env, i);
  }

  /** So in every run: an exit whose strategy exists and whose portfolio can be read is never
    * rejected by a cycle, whatever its checks answer. */
  lemma ExitsAreNeverRejected(c: Config, actions: seq<Action>, env: nat -> Evaluation, i: nat)
    requires i < |Run(c, actions).signals|
    requires var row := Run(c, actions).signals[i];
             row.status == Pending && (row.signalType == "exit" || row.signalType == "scale_out")
    requires env(i).strategyFound && env(i).contextRead
    ensures var after := Step(Run(c, actions), c, RiskCycle(env));
            && |after.signals| == |Run(c, actions).signals|
            && after.signals[i].status in {Pending, RiskApproved, RiskModified}
            && (after.signals[i].status == Pending <==> exists check :: check in env(i).checks && check.appliesToExits && check.result.Broken?)
  {
    RunsStayConsistent(c, actions);
    CycleIsRight(Run(c, actions), c, env, i);
  }
}
