// How much room below 2^63 the quota needs to be safe: as much as it is proved
// safe with.
module QuotaRoom {
  import opened Wrappers
  import opened ComputeQuota
  import opened OrganisationUsage
  import opened QuotaTransactions

  predicate StepAtMost(most: nat, step: Step) {
    step.Act? && step.action.Ask? ==> DesiredAtMost(most, step.action.mutation)
  }

  ghost predicate StepsAtMost(most: nat, steps: seq<Step>) {
    forall i :: 0 <= i < |steps| ==> StepAtMost(most, steps[i])
  }

  // Every run in which no more than so many resources are desired at once is safe.
  ghost predicate Safe(policy: CloudPolicy, parse: QuantityParser, most: nat) {
    forall orgs, steps, end ::
      CommittedWithin(policy.limits, System(orgs, map[])) && StepsAtMost(most, steps)
      && Run(policy, parse, System(orgs, map[]), steps, end)
      ==> CommittedWithin(policy.limits, end)
  }

  // With limits that allow two stacks, every such run is safe exactly when the
  // resource limit and the most that is desired add up without overflow.
  lemma SafetyExactly(policy: CloudPolicy, parse: QuantityParser, most: nat)
    requires RoomToCount(policy.limits) && policy.limits.maxStacks >= 2 && most <= MAX_INT64
    ensures Safe(policy, parse, most) <==> policy.limits.maxStackResources + most <= MAX_INT64
  {
    if policy.limits.maxStackResources + most <= MAX_INT64 {
      forall orgs, steps, end |
        CommittedWithin(policy.limits, System(orgs, map[])) && StepsAtMost(most, steps)
        && Run(policy, parse, System(orgs, map[]), steps, end)
        ensures CommittedWithin(policy.limits, end)
      {
        assert forall i :: 0 <= i < |steps| ==> StepAtMost(most, steps[i]);
        QuotaSafety(policy, parse, orgs, steps, end);
      }
    } else {
      var orgs, steps, end := Overrun(policy, parse, most);
    }
  }

  // ---- An unsafe run ----

  // One stack that fills its limit.
  ghost function Full(limits: ComputeLimits): Organisation
    requires RoomToCount(limits)
  {
    var n: nat := limits.maxStackResources;
    Organisation(map["a" := n], 0, 0)
  }

  ghost function FullUsage(limits: ComputeLimits): ComputeUsage {
    ComputeUsage(1, limits.maxStackResources, 0, 0)
  }

  // One transaction, which holds the organisation's lock.
  ghost function Holding(org: Organisation, pending: seq<Mutation>, request: Request): System {
    System(map["o" := org], map[0 := Transaction("o", true, pending, request)])
  }

  lemma FullUsed(limits: ComputeLimits)
    requires RoomToCount(limits)
    ensures Total(Full(limits).stacks) == limits.maxStackResources && |Full(limits).stacks| == 1
  {
    TotalWithout(Full(limits).stacks, "a");
    assert Full(limits).stacks - {"a"} == map[];
  }

  lemma Prepend(policy: CloudPolicy, parse: QuantityParser, most: nat, s: System, step: Step, s': System,
                steps: seq<Step>, end: System) returns (all: seq<Step>)
    requires Enabled(s, step) && Next(policy, parse, s, step) == s' && StepAtMost(most, step)
    requires Run(policy, parse, s', steps, end) && StepsAtMost(most, steps)
    ensures Run(policy, parse, s, all, end) && StepsAtMost(most, all)
  {
    all := [step] + steps;
    assert all[1..] == steps;
  }

  // It asks for another stack with the most that is desired, is admitted, and commits.
  lemma Overrun(policy: CloudPolicy, parse: QuantityParser, most: nat)
      returns (orgs: map<string, Organisation>, steps: seq<Step>, end: System)
    requires RoomToCount(policy.limits) && policy.limits.maxStacks >= 2
    requires most <= MAX_INT64 < policy.limits.maxStackResources + most
    ensures CommittedWithin(policy.limits, System(orgs, map[])) && StepsAtMost(most, steps)
    ensures Run(policy, parse, System(orgs, map[]), steps, end) && !CommittedWithin(policy.limits, end)
  {
    var org, m := Full(policy.limits), NewStack("b", most);
    orgs := map["o" := org];
    FullUsed(policy.limits);
    steps, end := Closes(policy, parse, most, org, m);
    steps := ReadsAll(policy, parse, most, org, m, steps, end);
    steps := Opens(policy, parse, most, org, m, steps, end);
    StackTotals(org, m);
    assert end.orgs["o"] == Apply(org, m) && !WithinLimits(policy.limits, Apply(org, m));
  }

  lemma Closes(policy: CloudPolicy, parse: QuantityParser, most: nat, org: Organisation, m: Mutation)
      returns (steps: seq<Step>, end: System)
    requires RoomToCount(policy.limits) && policy.limits.maxStacks >= 2 && m == NewStack("b", most)
    requires most <= MAX_INT64 < policy.limits.maxStackResources + most
    ensures StepsAtMost(most, steps) && end == System(map["o" := Apply(org, m)], map[])
    ensures Run(policy, parse, Holding(org, [], Reading(m, 4, FullUsage(policy.limits))), steps, end)
  {
    var asking := Holding(org, [], Reading(m, 4, FullUsage(policy.limits)));
    var admitted, written := Holding(org, [], Admitted(m)), Holding(org, [m], Idle);
    end := System(map["o" := Apply(org, m)], map[]);
    VerdictWraps(policy, parse, m);
    Committing(policy, parse, org, m);
    assert Run(policy, parse, end, [], end) && StepsAtMost(most, []);
    steps := Prepend(policy, parse, most, written, Act(0, Commit), end, [], end);
    Writing(policy, parse, org, m);
    steps := Prepend(policy, parse, most, admitted, Act(0, Write), written, steps, end);
    Deciding(policy, parse, org, Reading(m, 4, FullUsage(policy.limits)));
    steps := Prepend(policy, parse, most, asking, Act(0, Decide), admitted, steps, end);
  }

  lemma Deciding(policy: CloudPolicy, parse: QuantityParser, org: Organisation, request: Request)
    requires request.Reading? && request.counts == 4 && Verdict(policy, parse, request).Success?
    ensures Enabled(Holding(org, [], request), Act(0, Decide))
    ensures Next(policy, parse, Holding(org, [], request), Act(0, Decide)) ==
            Holding(org, [], Admitted(request.mutation))
  {
    assert View(Holding(org, [], request), 0) == org;
  }

  lemma Writing(policy: CloudPolicy, parse: QuantityParser, org: Organisation, m: Mutation)
    ensures Enabled(Holding(org, [], Admitted(m)), Act(0, Write))
    ensures Next(policy, parse, Holding(org, [], Admitted(m)), Act(0, Write)) == Holding(org, [m], Idle)
  {
    assert View(Holding(org, [], Admitted(m)), 0) == org && [] + [m] == [m];
  }

  lemma Committing(policy: CloudPolicy, parse: QuantityParser, org: Organisation, m: Mutation)
    ensures Enabled(Holding(org, [m], Idle), Act(0, Commit))
    ensures Next(policy, parse, Holding(org, [m], Idle), Act(0, Commit)) == System(map["o" := Apply(org, m)], map[])
  {
    var s := Holding(org, [m], Idle);
    assert [m][..0] == [] && ApplyAll(org, []) == org;
    assert View(s, 0) == Apply(org, m);
    assert s.transactions - {0} == map[] && s.orgs["o" := Apply(org, m)] == map["o" := Apply(org, m)];
  }

  lemma VerdictWraps(policy: CloudPolicy, parse: QuantityParser, m: Mutation)
    requires RoomToCount(policy.limits) && policy.limits.maxStacks >= 2
    requires m.NewStack? && m.resources <= MAX_INT64 < policy.limits.maxStackResources + m.resources
    ensures Verdict(policy, parse, Reading(m, 4, FullUsage(policy.limits))).Success?
  {}

  lemma ReadsAll(policy: CloudPolicy, parse: QuantityParser, most: nat, org: Organisation, m: Mutation,
                 rest: seq<Step>, end: System) returns (steps: seq<Step>)
    requires RoomToCount(policy.limits) && org == Full(policy.limits) && m.NewStack?
    requires StepsAtMost(most, rest)
    requires Run(policy, parse, Holding(org, [], Reading(m, 4, FullUsage(policy.limits))), rest, end)
    ensures StepsAtMost(most, steps)
    ensures Run(policy, parse, Holding(org, [], Reading(m, 0, NOTHING_READ)), steps, end)
  {
    var n := policy.limits.maxStackResources;
    var s1 := Holding(org, [], Reading(m, 1, ComputeUsage(1, 0, 0, 0)));
    var s2 := Holding(org, [], Reading(m, 2, ComputeUsage(1, n, 0, 0)));
    var s3 := Holding(org, [], Reading(m, 3, ComputeUsage(1, n, 0, 0)));
    var s4 := Holding(org, [], Reading(m, 4, ComputeUsage(1, n, 0, 0)));
    FullUsed(policy.limits);
    ReadsOne(policy, parse, org, Reading(m, 3, ComputeUsage(1, n, 0, 0)), Reading(m, 4, ComputeUsage(1, n, 0, 0)));
    steps := Prepend(policy, parse, most, s3, Act(0, ReadCount), s4, rest, end);
    ReadsOne(policy, parse, org, Reading(m, 2, ComputeUsage(1, n, 0, 0)), Reading(m, 3, ComputeUsage(1, n, 0, 0)));
    steps := Prepend(policy, parse, most, s2, Act(0, ReadCount), s3, steps, end);
    ReadsOne(policy, parse, org, Reading(m, 1, ComputeUsage(1, 0, 0, 0)), Reading(m, 2, ComputeUsage(1, n, 0, 0)));
    steps := Prepend(policy, parse, most, s1, Act(0, ReadCount), s2, steps, end);
    ReadsOne(policy, parse, org, Reading(m, 0, NOTHING_READ), Reading(m, 1, ComputeUsage(1, 0, 0, 0)));
    var s0 := Holding(org, [], Reading(m, 0, NOTHING_READ));
    steps := Prepend(policy, parse, most, s0, Act(0, ReadCount), s1, steps, end);
  }

  lemma ReadsOne(policy: CloudPolicy, parse: QuantityParser, org: Organisation, before: Request, after: Request)
    requires before.Reading? && before.counts < 4 && after == WithNextCount(before, org)
    ensures Enabled(Holding(org, [], before), Act(0, ReadCount))
    ensures Next(policy, parse, Holding(org, [], before), Act(0, ReadCount)) == Holding(org, [], after)
  {
    assert View(Holding(org, [], before), 0) == org;
  }

  lemma Opens(policy: CloudPolicy, parse: QuantityParser, most: nat, org: Organisation, m: Mutation,
              rest: seq<Step>, end: System) returns (steps: seq<Step>)
    requires m == NewStack("b", most) && "b" !in org.stacks && StepsAtMost(most, rest)
    requires Run(policy, parse, Holding(org, [], Reading(m, 0, NOTHING_READ)), rest, end)
    ensures StepsAtMost(most, steps) && Run(policy, parse, System(map["o" := org], map[]), steps, end)
  {
    var s0 := System(map["o" := org], map[]);
    var s1 := System(map["o" := org], map[0 := Transaction("o", false, [], Idle)]);
    var s2 := Holding(org, [], Reading(m, 0, NOTHING_READ));
    assert View(s1, 0) == org && LockFree(s1, 0);
    assert Next(policy, parse, s1, Act(0, Ask(m))) == s2;
    steps := Prepend(policy, parse, most, s1, Act(0, Ask(m)), s2, rest, end);
    assert Next(policy, parse, s0, Begin(0, "o")) == s1;
    steps := Prepend(policy, parse, most, s0, Begin(0, "o"), s1, steps, end);
  }
}
