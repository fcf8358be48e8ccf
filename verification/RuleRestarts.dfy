/**
 Reaping, saving and restarting over whole runs: none of it can be told from the verdicts.
 */
module RuleRestarts {
  import opened Types
  import opened Rules
  import C = Client
  import RuleMirror

  /** The operations of a run that a user asked for. */
  function Requested(ops: seq<Timed>): seq<Timed>
    decreases |ops|
  {
    if ops == [] then []
    else
      Requested(ops[..|ops| - 1])
      + if ops[|ops| - 1].op.AddOp? || ops[|ops| - 1].op.RemoveOp? then [ops[|ops| - 1]] else []
  }

  lemma {:induction false} UnexpiredTwice(rules: seq<Rule>, now: int, later: int)
    requires now <= later
    ensures Unexpired(Unexpired(rules, now), later) == Unexpired(rules, later)
  {
    if rules == [] {
    } else {
      UnexpiredTwice(rules[1..], now, later);
    }
  }

  lemma {:induction false} UnexpiredAppend(rules: seq<Rule>, last: Rule, t: int)
    ensures Unexpired(rules + [last], t) == Unexpired(rules, t) + Unexpired([last], t)
  {
    if rules == [] {
      assert rules + [last] == [last];
    } else {
      assert (rules + [last])[1..] == rules[1..] + [last];
      UnexpiredAppend(rules[1..], last, t);
    }
  }

  lemma {:induction false} OtherRulesCommute(rules: seq<Rule>, exe: PathBuf, action: RuleAction, t: int)
    ensures Unexpired(OtherRules(rules, exe, action), t) == OtherRules(Unexpired(rules, t), exe, action)
  {
    if rules == [] {
    } else {
      OtherRulesCommute(rules[1..], exe, action, t);
    }
  }

  lemma {:induction false} WithoutRuleCommutes(rules: seq<Rule>, id: nat, t: int)
    ensures Unexpired(C.WithoutRule(rules, id), t) == C.WithoutRule(Unexpired(rules, t), id)
  {
    if rules == [] {
    } else {
      WithoutRuleCommutes(rules[1..], id, t);
    }
  }

  predicate Alike(a: seq<Rule>, b: seq<Rule>, t: int) {
    Unexpired(a, t) == Unexpired(b, t)
  }

  /** The rules a restart would find in the file. */
  function OnDisk(s: Store): seq<Rule> {
    if s.disk.Some? then s.disk.value.rules else []
  }

  lemma AddAlike(s: Store, r: Store, input: RuleInput, now: int, t: int)
    requires s.nextId == r.nextId && Alike(s.rules, r.rules, t)
    ensures Alike(Added(s, input, now, true).rules, Added(r, input, now, true).rules, t)
  {
    var rule := NewRule(s.nextId, input, now);
    OtherRulesCommute(s.rules, input.exePath, input.action, t);
    OtherRulesCommute(r.rules, input.exePath, input.action, t);
    UnexpiredAppend(OtherRules(s.rules, input.exePath, input.action), rule, t);
    UnexpiredAppend(OtherRules(r.rules, input.exePath, input.action), rule, t);
  }

  lemma RemoveAlike(s: Store, r: Store, id: nat, t: int)
    requires Sound(s.nextId, s.rules) && Sound(r.nextId, r.rules) && Alike(s.rules, r.rules, t)
    ensures Alike(Removed(s, id, true).rules, Removed(r, id, true).rules, t)
  {
    RuleMirror.RemovedIsWithout(s, id);
    RuleMirror.RemovedIsWithout(r, id);
    WithoutRuleCommutes(s.rules, id, t);
    WithoutRuleCommutes(r.rules, id, t);
  }

  lemma RemoveDisk(s: Store, id: nat, t: int)
    requires Alike(OnDisk(s), s.rules, t)
    ensures Alike(OnDisk(Removed(s, id, true)), Removed(s, id, true).rules, t)
  {
    IndexOfIdFinds(s.rules, id);
  }

  lemma RestartAlike(s: Store, now: int, t: int)
    requires now <= t && Alike(OnDisk(s), s.rules, t)
    ensures Alike(LoadedFrom(s.disk, now).rules, s.rules, t)
  {
    UnexpiredTwice(OnDisk(s), now, t);
  }

  lemma StepDisk(s: Store, op: Op, now: int, t: int)
    requires now <= t && Alike(OnDisk(s), s.rules, t)
    ensures Alike(OnDisk(Step(s, op, now)), Step(s, op, now).rules, t)
  {
    match op
    case AddOp(_) =>
    case RemoveOp(id) => RemoveDisk(s, id, t);
    case ReapOp => UnexpiredTwice(s.rules, now, t);
    case SaveOp =>
    case RestartOp => RestartAlike(s, now, t);
  }

  lemma UnrequestedAlike(s: Store, op: Op, now: int, t: int)
    requires now <= t && Alike(OnDisk(s), s.rules, t) && !op.AddOp? && !op.RemoveOp?
    ensures Alike(Step(s, op, now).rules, s.rules, t)
  {
    match op
    case ReapOp => UnexpiredTwice(s.rules, now, t);
    case SaveOp =>
    case RestartOp => RestartAlike(s, now, t);
  }

  lemma {:induction false} FileKeepsUp(ops: seq<Timed>, t: int)
    requires forall i :: 0 <= i < |ops| ==> ops[i].now <= t
    ensures Alike(OnDisk(Run(ops)), Run(ops).rules, t)
    decreases |ops|
  {
    if ops == [] {
    } else {
      var init, last := ops[..|ops| - 1], ops[|ops| - 1];
      FileKeepsUp(init, t);
      StepDisk(Run(init), last.op, last.now, t);
    }
  }

  lemma RequestedStep(s: Store, r: Store, op: Op, now: int, t: int)
    requires op.AddOp? || op.RemoveOp?
    requires Sound(s.nextId, s.rules) && Sound(r.nextId, r.rules)
    requires s.nextId == r.nextId && Alike(s.rules, r.rules, t)
    ensures Alike(Step(s, op, now).rules, Step(r, op, now).rules, t)
  {
    match op
    case AddOp(input) => AddAlike(s, r, input, now, t);
    case RemoveOp(id) => RemoveAlike(s, r, id, t);
  }

  /** Over every run of requests, reaps, saves and restarts up to time `t`: the rules in force at
      `t`, and the next id, are those of the run of the requests alone. */
  lemma {:induction false} OnlyRequestsMatter(ops: seq<Timed>, t: int)
    requires forall i :: 0 <= i < |ops| ==> ops[i].now <= t
    ensures Unexpired(Run(ops).rules, t) == Unexpired(Run(Requested(ops)).rules, t)
    ensures Run(ops).nextId == Run(Requested(ops)).nextId
    decreases |ops|
  {
    if ops == [] {
    } else {
      var init, last := ops[..|ops| - 1], ops[|ops| - 1];
      OnlyRequestsMatter(init, t);
      SoundInEveryRun(init);
      StepIsSound(Run(init), last.op, last.now);
      var asked := Requested(init);
      if last.op.AddOp? || last.op.RemoveOp? {
        assert Requested(ops)[..|asked|] == asked && Requested(ops)[|asked|] == last;
        SoundInEveryRun(asked);
        StepIsSound(Run(asked), last.op, last.now);
        RequestedStep(Run(init), Run(asked), last.op, last.now, t);
      } else {
        assert Requested(ops) == asked;
        FileKeepsUp(init, t);
        UnrequestedAlike(Run(init), last.op, last.now, t);
      }
    }
  }

  /** Hence no verdict depends on when rules were reaped or how often the daemon was restarted.
      (Default induction over `ops` gets in the way of this proof.) */
  lemma {:induction false} VerdictsIgnoreRestarts(ops: seq<Timed>, exe: PathBuf, t: int)
    requires forall i :: 0 <= i < |ops| ==> ops[i].now <= t
    ensures IsBlocked(Run(ops).rules, exe, t) <==> IsBlocked(Run(Requested(ops)).rules, exe, t)
  {
    OnlyRequestsMatter(ops, t);
    DroppingExpiredIsInvisible(Run(ops).rules, t, exe, t);
    DroppingExpiredIsInvisible(Run(Requested(ops)).rules, t, exe, t);
  }
}
