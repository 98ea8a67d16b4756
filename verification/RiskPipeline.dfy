/** The order in which risk checks run and what their outcomes add up to. */
module RiskPipeline {
  import opened Sums

  /** A value in a modification dictionary: one that reads as a number, or something else. */
  datatype Value = Number(n: real) | Other

  type Changes = map<string, Value>

  /** `Broken` is a check that raises. */
  datatype CheckResult = Pass | Reject(reason: string) | Modify(changes: Changes) | Broken

  datatype Check = Check(name: string, appliesToExits: bool, result: CheckResult)

  datatype Verdict = Approved | Modified | Rejected

  /** What goes into a decision row; no judgement means an exception left none. */
  datatype Judgement = Judgement(verdict: Verdict, passed: seq<string>, failedCheck: Option<string>, changes: Changes)

  predicate IsExit(signalType: string) {
    signalType == "exit" || signalType == "scale_out"
  }

  /** The check lets the signal go on to the next one. */
  predicate GoesOn(check: Check) {
    check.result.Pass? || check.result.Modify?
  }

  function ChangesOf(check: Check): Changes {
    if check.result.Modify? then check.result.changes else map[]
  }

  function Names(checks: seq<Check>): (names: seq<string>)
    ensures |names| == |checks|
    ensures forall k :: 0 <= k < |checks| ==> names[k] == checks[k].name
  {
    seq(|checks|, k requires 0 <= k < |checks| => checks[k].name)
  }

  /** Later checks overwrite the keys earlier ones set. */
  function Union(checks: seq<Check>): Changes {
    if checks == [] then map[] else Union(checks[..|checks| - 1]) + ChangesOf(checks[|checks| - 1])
  }

  function ExitChecks(checks: seq<Check>): seq<Check> {
    if checks == [] then []
    else ExitChecks(checks[..|checks| - 1]) + if checks[|checks| - 1].appliesToExits then [checks[|checks| - 1]] else []
  }

  function Stops(checks: seq<Check>): Check -> bool {
    (c: Check) => !GoesOn(c)
  }

  function Accepted(passed: seq<string>, changes: Changes): Judgement {
    Judgement(if changes == map[] then Approved else Modified, passed, None, changes)
  }

  /** Entries: the first check that does not let the signal on decides; if all do, the union of
    * their changes tells approved from modified. */
  function JudgeEntry(checks: seq<Check>): Option<Judgement> {
    var k := First(checks, Stops(checks), 0);
    if k == |checks| then Some(Accepted(Names(checks), Union(checks)))
    else if checks[k].result.Broken? then None
    else Some(Judgement(Rejected, Names(checks[..k]), Some(checks[k].name), map[]))
  }

  /** Exits: only the checks meant for exits run, and a rejection is passed over. */
  function JudgeExit(checks: seq<Check>): Option<Judgement> {
    var applied := ExitChecks(checks);
    if exists c :: c in applied && c.result.Broken? then None
    else Some(Accepted(["exit_fast_path"] + Names(applied), Union(applied)))
  }

  /** Changes that gather nothing mean that every check that modified, modified nothing. */
  lemma {:induction false} UnionIsEmptyIff(checks: seq<Check>)
    ensures Union(checks) == map[] <==> forall k :: 0 <= k < |checks| ==> ChangesOf(checks[k]) == map[]
  {
    if checks != [] {
      var last := |checks| - 1;
      UnionIsEmptyIff(checks[..last]);
      var before, added := Union(checks[..last]), ChangesOf(checks[last]);
      assert (before + added).Keys == before.Keys + added.Keys;
      assert forall m: Changes :: m == map[] <==> m.Keys == {};
      assert forall k :: 0 <= k < last ==> checks[..last][k] == checks[k];
    }
  }

  lemma {:induction false} UnionKeys(checks: seq<Check>, key: string)
    ensures key in Union(checks) <==> exists c :: c in checks && key in ChangesOf(c)
  {
    if checks != [] {
      var last := |checks| - 1;
      UnionKeys(checks[..last], key);
      assert checks == checks[..last] + [checks[last]];
    }
  }

  /** The last check that sets a key has the last word on it. */
  lemma {:induction false} LastChangeWins(checks: seq<Check>, k: nat, key: string)
    requires k < |checks| && key in ChangesOf(checks[k])
    requires forall j :: k < j < |checks| ==> key !in ChangesOf(checks[j])
    ensures key in Union(checks) && Union(checks)[key] == ChangesOf(checks[k])[key]
  {
    var last := |checks| - 1;
    if k < last {
      LastChangeWins(checks[..last], k, key);
    }
  }

  // ---- The loops ----

  /** Adds a check's changes, if it has any. */
  method Gather(changes: Changes, check: Check) returns (gathered: Changes)
    ensures gathered == changes + ChangesOf(check)
  {
    gathered := changes;
    if check.result.Modify? && check.result.changes != map[] {
      gathered := changes + check.result.changes;
    }
  }

  /** The check loop for entries. */
  method RunChecks(checks: seq<Check>) returns (judgement: Option<Judgement>)
    ensures judgement == JudgeEntry(checks)
  {
    var passed, changes := [], map[];
    for n := 0 to |checks|
      invariant First(checks, Stops(checks), 0) >= n
      invariant passed == Names(checks[..n]) && changes == Union(checks[..n])
    {
      assert checks[..n + 1][..n] == checks[..n];
      match checks[n].result {
        case Broken =>
          return None;
        case Reject(reason) =>
          assert First(checks, Stops(checks), 0) == n;
          return Some(Judgement(Rejected, passed, Some(checks[n].name), map[]));
        case _ =>
          passed := passed + [checks[n].name];
          changes := Gather(changes, checks[n]);
      }
    }
    assert checks[..|checks|] == checks;
    return Some(Judgement(if changes != map[] then Modified else Approved, passed, None, changes));
  }

  /** The loop of the exit fast path: runs the checks meant for exits, whatever they answer. */
  method RunExitLoop(checks: seq<Check>) returns (broken: bool, passed: seq<string>, changes: Changes)
    ensures broken <==> exists c :: c in ExitChecks(checks) && c.result.Broken?
    ensures !broken ==> passed == Names(ExitChecks(checks)) && changes == Union(ExitChecks(checks))
  {
    passed, changes := [], map[];
    for n := 0 to |checks|
      invariant forall c :: c in ExitChecks(checks[..n]) ==> !c.result.Broken?
      invariant passed == Names(ExitChecks(checks[..n])) && changes == Union(ExitChecks(checks[..n]))
    {
      ExitChecksStep(checks, n);
      if checks[n].appliesToExits {
        if checks[n].result.Broken? {
          ExitChecksAre(checks, checks[n]);
          return true, passed, changes;
        }
        changes := Gather(changes, checks[n]);
        passed := passed + [checks[n].name];
      }
    }
    assert checks[..|checks|] == checks;
    broken := false;
  }

  /** The fast path for exits. */
  method RunExitChecks(checks: seq<Check>) returns (judgement: Option<Judgement>)
    ensures judgement == JudgeExit(checks)
  {
    var broken, passed, changes := RunExitLoop(checks);
    if broken {
      return None;
    }
    return Some(Judgement(if changes != map[] then Modified else Approved, ["exit_fast_path"] + passed, None, changes));
  }

  lemma ExitChecksStep(checks: seq<Check>, n: nat)
    requires n < |checks|
    ensures var before, after := ExitChecks(checks[..n]), ExitChecks(checks[..n + 1]);
            if checks[n].appliesToExits
            then after == before + [checks[n]] && Names(after) == Names(before) + [checks[n].name]
                 && Union(after) == Union(before) + ChangesOf(checks[n])
            else after == before
  {
    assert checks[..n + 1][..n] == checks[..n];
    var before := ExitChecks(checks[..n]);
    assert (before + [checks[n]])[..|before|] == before;
  }

  lemma {:induction false} ExitChecksAre(checks: seq<Check>, c: Check)
    ensures c in ExitChecks(checks) <==> c in checks && c.appliesToExits
  {
    if checks != [] {
      var last := |checks| - 1;
      ExitChecksAre(checks[..last], c);
      assert checks == checks[..last] + [checks[last]];
    }
  }

  // ---- What the verdicts mean ----

  /** A signal that is not an exit is rejected exactly when some check rejects it and every check
    * before that one let it on. */
  lemma EntryRejectedIff(checks: seq<Check>)
    ensures JudgeEntry(checks).Some? && JudgeEntry(checks).value.verdict == Rejected
            <==> exists k :: 0 <= k < |checks| && checks[k].result.Reject? && forall j :: 0 <= j < k ==> GoesOn(checks[j])
  {
    var f := First(checks, Stops(checks), 0);
    if k :| 0 <= k < |checks| && checks[k].result.Reject? && forall j :: 0 <= j < k ==> GoesOn(checks[j]) {
      assert Stops(checks)(checks[k]);
    }
    if f < |checks| && checks[f].result.Reject? {
      assert forall j :: 0 <= j < f ==> !Stops(checks)(checks[j]);
    }
  }

  /** It is modified exactly when every check lets it on and at least one changes something. */
  lemma EntryModifiedIff(checks: seq<Check>)
    ensures JudgeEntry(checks).Some? && JudgeEntry(checks).value.verdict == Modified
            <==> (forall k :: 0 <= k < |checks| ==> GoesOn(checks[k])) && exists k :: 0 <= k < |checks| && ChangesOf(checks[k]) != map[]
  {
    var f := First(checks, Stops(checks), 0);
    UnionIsEmptyIff(checks);
    assert forall j :: 0 <= j < f ==> !Stops(checks)(checks[j]);
    if f < |checks| {
      assert Stops(checks)(checks[f]);
    }
  }

  /** An exit is never rejected by a check. It gets a decision unless a check meant for exits
    * raises, and is modified exactly when one of those changes something. */
  lemma ExitVerdict(checks: seq<Check>)
    ensures JudgeExit(checks).Some? <==> forall c :: c in checks && c.appliesToExits ==> !c.result.Broken?
    ensures JudgeExit(checks).Some? ==>
      && JudgeExit(checks).value.verdict != Rejected
      && (JudgeExit(checks).value.verdict == Modified <==> exists c :: c in checks && c.appliesToExits && ChangesOf(c) != map[])
  {
    var applied := ExitChecks(checks);
    forall c ensures c in applied <==> c in checks && c.appliesToExits {
      ExitChecksAre(checks, c);
    }
    assert forall c :: c in applied <==> exists k :: 0 <= k < |applied| && applied[k] == c;
    UnionIsEmptyIff(applied);
  }
}
