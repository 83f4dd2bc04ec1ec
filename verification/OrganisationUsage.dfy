// What an organisation really holds, what a mutation does to it, and how the
// projected usage relates to recounting it.
module OrganisationUsage {
  import opened Wrappers
  import opened ComputeQuota

  // Stack id to number of persisted resources, with volume and addon counts.
  datatype Organisation = Organisation(stacks: map<string, nat>, volumes: nat, addons: nat)

  datatype Mutation =
    | NewStack(id: string, resources: nat)
    | NewResources(id: string, resources: nat)
    | OneMoreResource(id: string)
    | ResourceInPlace(id: string)
    | NewVolume(size: string)
    | NewAddon(addon: AddonSpec)
    | ChangedAddon(addon: AddonSpec)

  // Rows of a stack that is gone cannot be written: such a mutation does nothing.
  function Apply(org: Organisation, m: Mutation): Organisation {
    match m
    case NewStack(id, n) => org.(stacks := org.stacks[id := n])
    case NewResources(id, n) => if id in org.stacks then org.(stacks := org.stacks[id := n]) else org
    case OneMoreResource(id) => if id in org.stacks then org.(stacks := org.stacks[id := org.stacks[id] + 1]) else org
    case ResourceInPlace(_) => org
    case NewVolume(_) => org.(volumes := org.volumes + 1)
    case NewAddon(_) => org.(addons := org.addons + 1)
    case ChangedAddon(_) => org
  }

  // The mutation touches what exists and creates what does not.
  predicate Applicable(org: Organisation, m: Mutation) {
    match m
    case NewStack(id, _) => id !in org.stacks
    case NewResources(id, _) => id in org.stacks && id != ""
    case OneMoreResource(id) => id in org.stacks
    case ResourceInPlace(id) => id in org.stacks
    case _ => true
  }

  ghost function Total(counts: map<string, nat>): nat {
    if counts == map[] then 0
    else
      var k :| k in counts;
      counts[k] + Total(counts - {k})
  }

  ghost function ResourcesWithout(org: Organisation, omitted: string): nat {
    Total(if omitted == "" then org.stacks else org.stacks - {omitted})
  }

  ghost predicate Countable(org: Organisation) {
    |org.stacks| <= MAX_INT64 && Total(org.stacks) <= MAX_INT64 && org.volumes <= MAX_INT64 && org.addons <= MAX_INT64
  }

  // The four counts the usage store reads.
  ghost function Usage(org: Organisation, omitted: string): ComputeUsage
    requires Countable(org)
  {
    TotalShrinks(org.stacks - {omitted}, org.stacks);
    ComputeUsage(|org.stacks|, ResourcesWithout(org, omitted), org.volumes, org.addons)
  }

  function Omitted(m: Mutation): string {
    match m
    case NewResources(id, _) => id
    case _ => ""
  }

  // Resources a mutation contributes beyond those counted without the omitted stack.
  function Added(m: Mutation): nat {
    match m
    case NewStack(_, n) => n
    case NewResources(_, n) => n
    case OneMoreResource(_) => 1
    case _ => 0
  }

  function AddedStacks(m: Mutation): nat {
    if m.NewStack? then 1 else 0
  }

  predicate StackMutation(m: Mutation) {
    m.NewStack? || m.NewResources? || m.OneMoreResource? || m.ResourceInPlace?
  }

  // The request a service sends to the policy before a mutation.
  function ChangeOf(m: Mutation): StackLimitChange
    requires StackMutation(m)
    requires (m.NewStack? || m.NewResources?) ==> m.resources <= MAX_INT64
  {
    match m
    case NewStack(_, n) => StackLimitChange(CreateStack, "", n)
    case NewResources(id, n) => StackLimitChange(ReplaceStack, id, n)
    case OneMoreResource(_) => StackLimitChange(AddResource, "", 0)
    case ResourceInPlace(_) => StackLimitChange(UpdateResource, "", 0)
  }

  predicate DesiredFits(m: Mutation) {
    (m.NewStack? || m.NewResources?) ==> m.resources <= MAX_INT64
  }

  // The admission check that guards a mutation.
  function Admit(policy: CloudPolicy, parse: QuantityParser, usage: UsageReader, m: Mutation): Result<(), ServiceError>
    requires DesiredFits(m)
  {
    match m
    case NewVolume(size) => ValidateVolumeLimits(policy, parse, usage, size)
    case NewAddon(addon) => ValidatePostgresAddonLimits(policy, parse, usage, true, addon)
    case ChangedAddon(addon) => ValidatePostgresAddonLimits(policy, parse, usage, false, addon)
    case _ => ValidateStackLimits(policy.limits, usage, ChangeOf(m))
  }

  ghost predicate StacksWithin(limits: ComputeLimits, org: Organisation) {
    |org.stacks| <= limits.maxStacks && Total(org.stacks) <= limits.maxStackResources
  }

  ghost predicate WithinLimits(limits: ComputeLimits, org: Organisation) {
    && StacksWithin(limits, org)
    && org.volumes <= limits.maxVolumes
    && org.addons <= limits.maxAddons
  }

  // ---- Sums over maps ----

  lemma {:induction false} TotalWithout(counts: map<string, nat>, k: string)
    requires k in counts
    ensures Total(counts) == counts[k] + Total(counts - {k})
  {
    var j :| j in counts && Total(counts) == counts[j] + Total(counts - {j});
    if j != k {
      TotalWithout(counts - {j}, k);
      TotalWithout(counts - {k}, j);
      assert counts - {j} - {k} == counts - {k} - {j};
    }
  }

  lemma TotalUpdated(counts: map<string, nat>, k: string, n: nat)
    ensures Total(counts[k := n]) == n + Total(counts - {k})
  {
    TotalWithout(counts[k := n], k);
    assert counts[k := n] - {k} == counts - {k};
  }

  lemma SizeUpdated(counts: map<string, nat>, k: string, n: nat)
    ensures |counts[k := n]| == |counts| + (if k in counts then 0 else 1)
    ensures k !in counts ==> counts - {k} == counts
  {
    var keys := counts.Keys;
    assert counts[k := n].Keys == keys + {k};
    if k in keys {
      assert keys + {k} == keys;
    } else {
      assert counts - {k} == counts;
    }
  }

  ghost predicate CountsShrink(fewer: map<string, nat>, more: map<string, nat>) {
    fewer.Keys <= more.Keys && forall k :: k in fewer ==> fewer[k] <= more[k]
  }

  lemma {:induction false} TotalShrinks(fewer: map<string, nat>, more: map<string, nat>)
    requires CountsShrink(fewer, more)
    ensures Total(fewer) <= Total(more)
    ensures |fewer| <= |more|
    decreases |more|
  {
    if more == map[] {
      assert fewer == map[];
    } else {
      var k :| k in more;
      SizeWithout(more, k);
      TotalWithout(more, k);
      TotalShrinks(fewer - {k}, more - {k});
      if k in fewer {
        TotalWithout(fewer, k);
        SizeWithout(fewer, k);
      } else {
        assert fewer - {k} == fewer;
      }
    }
  }

  lemma SizeWithout(counts: map<string, nat>, k: string)
    requires k in counts
    ensures |counts - {k}| == |counts| - 1
  {
    assert (counts - {k}).Keys == counts.Keys - {k};
  }

  // ---- Deletions ----

  ghost predicate Shrinks(fewer: Organisation, more: Organisation) {
    CountsShrink(fewer.stacks, more.stacks) && fewer.volumes <= more.volumes && fewer.addons <= more.addons
  }

  lemma ShrinkingKeepsLimits(limits: ComputeLimits, fewer: Organisation, more: Organisation)
    requires Shrinks(fewer, more) && WithinLimits(limits, more)
    ensures WithinLimits(limits, fewer)
  {
    TotalShrinks(fewer.stacks, more.stacks);
  }

  lemma ApplyMonotone(fewer: Organisation, more: Organisation, m: Mutation)
    requires Shrinks(fewer, more)
    ensures Shrinks(Apply(fewer, m), Apply(more, m))
  {}

  // ---- The projection is the recount ----

  // Projecting usage and recounting after the mutation commute.
  lemma ProjectionIsRecount(org: Organisation, m: Mutation)
    requires StackMutation(m) && DesiredFits(m)
    requires Countable(org) && Applicable(org, m) && Countable(Apply(org, m))
    ensures StackUsageAfterChange(Usage(org, Omitted(m)), ChangeOf(m)) == Success(Usage(Apply(org, m), ""))
  {
    StackTotals(org, m);
  }

  lemma StackTotals(org: Organisation, m: Mutation)
    requires StackMutation(m) && Applicable(org, m)
    ensures |Apply(org, m).stacks| == |org.stacks| + AddedStacks(m)
    ensures Total(Apply(org, m).stacks) ==
            ResourcesWithout(org, Omitted(m)) + Added(m)
  {
    match m
    case NewStack(id, n) =>
      TotalUpdated(org.stacks, id, n);
      SizeUpdated(org.stacks, id, n);
    case NewResources(id, n) =>
      TotalUpdated(org.stacks, id, n);
      SizeUpdated(org.stacks, id, n);
    case OneMoreResource(id) =>
      TotalUpdated(org.stacks, id, org.stacks[id] + 1);
      SizeUpdated(org.stacks, id, org.stacks[id] + 1);
      TotalWithout(org.stacks, id);
    case _ =>
  }

  ghost function Store(org: Organisation): (reader: UsageReader)
    requires Countable(org)
  {
    omitted => Success(Usage(org, omitted))
  }

  // Exactly when the verdict is right. A 64-bit total that overflows wraps to a
  // negative number and passes its check, so the verdict is wrong just when a
  // total overflows and no total that does not overflow exceeds its limit.
  lemma AdmissionIsExact(policy: CloudPolicy, parse: QuantityParser, org: Organisation, m: Mutation)
    requires StackMutation(m) && DesiredFits(m)
    requires Countable(org) && Applicable(org, m)
    requires policy.limits.maxStacks > 0 && policy.limits.maxStackResources > 0
    ensures (Admit(policy, parse, Store(org), m).Success? <==> StacksWithin(policy.limits, Apply(org, m)))
       <==> VerdictIsReliable(policy.limits, |Apply(org, m).stacks|, Total(Apply(org, m).stacks))
  {
    StackTotals(org, m);
    VerdictOnWrappedTotals(policy, parse, org, m);
  }

  predicate VerdictIsReliable(limits: ComputeLimits, stacks: nat, resources: nat) {
    || (stacks <= MAX_INT64 && resources <= MAX_INT64)
    || limits.maxStacks < stacks <= MAX_INT64
    || limits.maxStackResources < resources <= MAX_INT64
  }

  function Wrapped(total: int): Int64
    requires -MAX_INT64 - 1 <= total < TWO_TO_64
  {
    if total > MAX_INT64 then total - TWO_TO_64 else total
  }

  lemma VerdictOnWrappedTotals(policy: CloudPolicy, parse: QuantityParser, org: Organisation, m: Mutation)
    requires StackMutation(m) && DesiredFits(m)
    requires Countable(org) && Applicable(org, m)
    ensures |Apply(org, m).stacks| < TWO_TO_64 && Total(Apply(org, m).stacks) < TWO_TO_64
    ensures Admit(policy, parse, Store(org), m) ==
            if Wrapped(|Apply(org, m).stacks|) > policy.limits.maxStacks then Failure(ComputeQuotaExceeded(Stacks))
            else if Wrapped(Total(Apply(org, m).stacks)) > policy.limits.maxStackResources
                then Failure(ComputeQuotaExceeded(StackResources))
            else Success(())
  {
    ProjectionWraps(org, m);
    assert Store(org)(Omitted(m)) == Success(Usage(org, Omitted(m)));
  }

  lemma ProjectionWraps(org: Organisation, m: Mutation)
    requires StackMutation(m) && DesiredFits(m)
    requires Countable(org) && Applicable(org, m)
    ensures |Apply(org, m).stacks| < TWO_TO_64 && Total(Apply(org, m).stacks) < TWO_TO_64
    ensures var projected := StackUsageAfterChange(Usage(org, Omitted(m)), ChangeOf(m));
            && projected.Success?
            && projected.value.stacks == Wrapped(|Apply(org, m).stacks|)
            && projected.value.stackResources == Wrapped(Total(Apply(org, m).stacks))
  {
    StackTotals(org, m);
    TotalShrinks(org.stacks - {Omitted(m)}, org.stacks);
    ProjectedTotals(Usage(org, Omitted(m)), m);
  }

  lemma ProjectedTotals(usage: ComputeUsage, m: Mutation)
    requires StackMutation(m) && DesiredFits(m)
    requires usage.stacks >= 0 && usage.stackResources >= 0
    ensures StackUsageAfterChange(usage, ChangeOf(m)) ==
            Success(usage.(stacks := Wrapped(usage.stacks + AddedStacks(m)),
                           stackResources := Wrapped(usage.stackResources + Added(m))))
  {}

  // Two resources plus 2^63 - 1 desired ones pass a limit of ten.
  lemma OverflowAdmits(policy: CloudPolicy, parse: QuantityParser)
    requires policy.limits.maxStacks == 3 && policy.limits.maxStackResources == 10
    ensures var org := Organisation(map["a" := 2], 0, 0);
            var m := NewStack("b", MAX_INT64);
            && Countable(org)
            && Admit(policy, parse, Store(org), m).Success?
            && !StacksWithin(policy.limits, Apply(org, m))
  {
    var org := Organisation(map["a" := 2], 0, 0);
    var m := NewStack("b", MAX_INT64);
    TotalWithout(org.stacks, "a");
    assert org.stacks - {"a"} == map[];
    StackTotals(org, m);
  }

  // An update in place, and a replacement that does not grow the stack, is
  // never refused.
  lemma NotGrowingIsAdmitted(policy: CloudPolicy, parse: QuantityParser, org: Organisation, m: Mutation)
    requires Countable(org) && WithinLimits(policy.limits, org) && Applicable(org, m)
    requires m.ResourceInPlace? || (m.NewResources? && m.resources <= org.stacks[m.id])
    ensures DesiredFits(m)
    ensures Admit(policy, parse, Store(org), m) == Success(())
  {
    TotalWithout(org.stacks, m.id);
    StackTotals(org, m);
  }

  // A new volume is admitted exactly when its size is within the configured
  // limit and so is the volume count after it, except that the count of 2^63 - 1
  // volumes, once more, wraps and passes.
  lemma VolumeAdmissionIsExact(policy: CloudPolicy, parse: QuantityParser, org: Organisation, size: string)
    requires NewStackdomeCloudPolicy(parse, policy.limits) == Some(policy)
    requires Countable(org) && policy.limits.maxVolumes >= 0
    ensures var admitted := Admit(policy, parse, Store(org), NewVolume(size)).Success?;
            var fits := parse(size).Some? && 0 < parse(size).value <= parse(policy.limits.maxVolumeSize).value;
            var within := Apply(org, NewVolume(size)).volumes <= policy.limits.maxVolumes;
            && (admitted <==> fits && (within || org.volumes == MAX_INT64))
            && ((admitted <==> fits && within) <==> !fits || org.volumes < MAX_INT64)
  {}
}
