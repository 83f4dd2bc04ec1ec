// The limits part of the Stackdome Cloud configuration, and what an accepted
// configuration guarantees the policy built from it.
module CloudConfig {
  import opened Wrappers
  import opened ComputeQuota

  datatype LimitField =
    | MaxStacks | MaxStackResources | Replicas | MaxVolumes | MaxVolumeSize | VolumeStorageClass
    | MaxAddons | PostgresInstances | MaxPostgresStorageSize
    | PostgresCPURequest | PostgresCPULimit | PostgresMemoryRequest | PostgresMemoryLimit | ConcurrentBuilds

  datatype ConfigError =
    | NotPositive(field: LimitField)
    | NotAQuantity(field: LimitField)
    | Required(field: LimitField)
    | NotAKubernetesName(field: LimitField)
    | Exceeds(request: LimitField, limit: LimitField)

  function ValidatePositiveQuantity(parse: QuantityParser, field: LimitField, value: string): Option<ConfigError> {
    if parse(value).None? then Some(NotAQuantity(field))
    else if parse(value).value <= 0 then Some(NotPositive(field))
    else None
  }

  function ValidateRequestAndLimit(parse: QuantityParser,
                                   requestField: LimitField, request: string,
                                   limitField: LimitField, limit: string): Option<ConfigError> {
    var badRequest := ValidatePositiveQuantity(parse, requestField, request);
    var badLimit := ValidatePositiveQuantity(parse, limitField, limit);
    if badRequest.Some? then badRequest
    else if badLimit.Some? then badLimit
    else if parse(request).value > parse(limit).value then Some(Exceeds(requestField, limitField))
    else None
  }

  // The checks on the limits, in the order they are made; the first failure is returned.
  function ValidateLimits(parse: QuantityParser, isDNSName: string -> bool, c: ComputeLimits): Option<ConfigError> {
    var volumeSize := ValidatePositiveQuantity(parse, MaxVolumeSize, c.maxVolumeSize);
    var storageSize := ValidatePositiveQuantity(parse, MaxPostgresStorageSize, c.maxPostgresStorageSize);
    var cpu := ValidateRequestAndLimit(parse, PostgresCPURequest, c.postgresCPURequest, PostgresCPULimit,
                                       c.postgresCPULimit);
    var memory := ValidateRequestAndLimit(parse, PostgresMemoryRequest, c.postgresMemoryRequest, PostgresMemoryLimit,
                                          c.postgresMemoryLimit);
    if c.maxStacks <= 0 then Some(NotPositive(MaxStacks))
    else if c.maxStackResources <= 0 then Some(NotPositive(MaxStackResources))
    else if c.replicasPerStackResource <= 0 then Some(NotPositive(Replicas))
    else if c.maxVolumes <= 0 then Some(NotPositive(MaxVolumes))
    else if volumeSize.Some? then volumeSize
    else if c.volumeStorageClass == "" then Some(Required(VolumeStorageClass))
    else if !isDNSName(c.volumeStorageClass) then Some(NotAKubernetesName(VolumeStorageClass))
    else if c.maxAddons <= 0 then Some(NotPositive(MaxAddons))
    else if c.postgresInstances <= 0 then Some(NotPositive(PostgresInstances))
    else if storageSize.Some? then storageSize
    else if cpu.Some? then cpu
    else if memory.Some? then memory
    else if c.concurrentBuilds <= 0 then Some(NotPositive(ConcurrentBuilds))
    else None
  }

  // What addon defaulting leaves of a spec.
  function Defaulted(limits: ComputeLimits, addon: AddonSpec): AddonSpec {
    var unset := NoResourcesChosen(addon);
    addon.(instances := if addon.instances == 0 then limits.postgresInstances else addon.instances,
           cpuLimit := if unset then limits.postgresCPULimit else addon.cpuLimit,
           memoryLimit := if unset then limits.postgresMemoryLimit else addon.memoryLimit,
           cpuRequest := limits.postgresCPURequest,
           memoryRequest := limits.postgresMemoryRequest)
  }

  predicate NoResourcesChosen(addon: AddonSpec) {
    addon.cpuRequest == "" && addon.cpuLimit == "" && addon.memoryRequest == "" && addon.memoryLimit == ""
  }

  class PostgresAddon {
    var instances: int
    var storageSize: string
    var cpuRequest: string
    var cpuLimit: string
    var memoryRequest: string
    var memoryLimit: string

    function Spec(): AddonSpec
      reads this
    {
      AddonSpec(instances, storageSize, cpuRequest, cpuLimit, memoryRequest, memoryLimit)
    }
  }

  method ApplyPostgresAddonDefaults(limits: ComputeLimits, addon: PostgresAddon)
    modifies addon
    ensures addon.Spec() == Defaulted(limits, old(addon.Spec()))
  {
    if addon.instances == 0 {
      addon.instances := limits.postgresInstances;
    }
    var resourcesUnset := addon.cpuRequest == "" && addon.cpuLimit == "" && addon.memoryRequest == ""
        && addon.memoryLimit == "";
    if resourcesUnset {
      addon.cpuLimit := limits.postgresCPULimit;
      addon.memoryLimit := limits.postgresMemoryLimit;
    }
    addon.cpuRequest := limits.postgresCPURequest;
    addon.memoryRequest := limits.postgresMemoryRequest;
  }

  // An accepted configuration never makes the policy constructor panic, and
  // its limits are positive, with requests no larger than limits.
  lemma AcceptedConfigIsSafe(parse: QuantityParser, isDNSName: string -> bool, limits: ComputeLimits)
    requires ValidateLimits(parse, isDNSName, limits).None?
    ensures var built := NewStackdomeCloudPolicy(parse, limits);
            && built.Some?
            && built.value.limits == limits
            && 0 < built.value.cpuRequest <= built.value.cpuLimit
            && 0 < built.value.memoryRequest <= built.value.memoryLimit
            && built.value.maxVolumeSize > 0 && built.value.maxPostgresStorageSize > 0
    ensures limits.maxStacks > 0 && limits.maxStackResources > 0 && limits.maxVolumes > 0 && limits.maxAddons > 0
  {
    assert ValidateRequestAndLimit(parse, PostgresCPURequest, limits.postgresCPURequest, PostgresCPULimit,
                                   limits.postgresCPULimit).None?;
    assert ValidateRequestAndLimit(parse, PostgresMemoryRequest, limits.postgresMemoryRequest, PostgresMemoryLimit,
                                   limits.postgresMemoryLimit).None?;
  }

  // Defaulting happens again inside the transaction. The second time changes
  // something only if the configured requests are empty, the client chose a
  // request and no limit, and there is a configured limit to fill in.
  lemma DefaultingTwice(limits: ComputeLimits, addon: AddonSpec)
    ensures Defaulted(limits, Defaulted(limits, addon)) == Defaulted(limits, addon) <==>
            !(&& limits.postgresCPURequest == "" && limits.postgresMemoryRequest == ""
              && (addon.cpuRequest != "" || addon.memoryRequest != "")
              && addon.cpuLimit == "" && addon.memoryLimit == ""
              && (limits.postgresCPULimit != "" || limits.postgresMemoryLimit != ""))
  {}

  // An accepted configuration has no empty request, as "" is not a quantity.
  lemma AcceptedDefaultingTwice(parse: QuantityParser, isDNSName: string -> bool, limits: ComputeLimits,
                                addon: AddonSpec)
    requires ValidateLimits(parse, isDNSName, limits).None? && parse("").None?
    ensures Defaulted(limits, Defaulted(limits, addon)) == Defaulted(limits, addon)
  {
    DefaultingTwice(limits, addon);
    AcceptedConfigIsSafe(parse, isDNSName, limits);
  }

  // The verdict on a defaulted addon, decided by what the client chose: count,
  // instances and storage are checked as such, requests never fail, and the
  // limits fail exactly when some resource was chosen and they do not match.
  lemma DefaultedAddonVerdict(policy: CloudPolicy, parse: QuantityParser, usage: UsageReader, creates: bool,
                              addon: AddonSpec)
    requires NewStackdomeCloudPolicy(parse, policy.limits) == Some(policy)
    requires policy.limits.postgresInstances > 0
    requires usage("").Success?
    ensures var verdict := ValidatePostgresAddonLimits(policy, parse, usage, creates, Defaulted(policy.limits, addon));
            var count := usage("").value.addons;
            verdict.Success? <==>
            && (if creates then Plus(count, 1) else count) <= policy.limits.maxAddons
            && (addon.instances == 0 || addon.instances == policy.limits.postgresInstances)
            && Positive(parse, addon.storageSize) && parse(addon.storageSize).value <= policy.maxPostgresStorageSize
            && (NoResourcesChosen(addon) ||
                (parse(addon.cpuLimit) == Some(policy.cpuLimit)
                 && parse(addon.memoryLimit) == Some(policy.memoryLimit)))
  {}

  // With no resources and no instance count chosen, only the addon count or
  // the storage size can be the reason for a refusal.
  lemma UnchosenAddonRefusals(policy: CloudPolicy, parse: QuantityParser, usage: UsageReader, creates: bool,
                              addon: AddonSpec)
    requires NewStackdomeCloudPolicy(parse, policy.limits) == Some(policy)
    requires usage("").Success?
    requires NoResourcesChosen(addon) && addon.instances == 0
    ensures ValidatePostgresAddonLimits(policy, parse, usage, creates, Defaulted(policy.limits, addon)) in
            {Success(()), Failure(ComputeQuotaExceeded(Addons)), Failure(BadRequest(AddonStorage)),
             Failure(ComputeQuotaExceeded(AddonStorage))}
  {}

  predicate NoLarger(parse: QuantityParser, request: string, limit: string) {
    Positive(parse, request) && Positive(parse, limit) && parse(request).value <= parse(limit).value
  }

  // Exactly which limits are accepted.
  lemma AcceptedExactly(parse: QuantityParser, isDNSName: string -> bool, c: ComputeLimits)
    ensures ValidateLimits(parse, isDNSName, c).None? <==>
            && c.maxStacks > 0 && c.maxStackResources > 0 && c.replicasPerStackResource > 0
            && c.maxVolumes > 0 && Positive(parse, c.maxVolumeSize)
            && c.volumeStorageClass != "" && isDNSName(c.volumeStorageClass)
            && c.maxAddons > 0 && c.postgresInstances > 0 && Positive(parse, c.maxPostgresStorageSize)
            && NoLarger(parse, c.postgresCPURequest, c.postgresCPULimit)
            && NoLarger(parse, c.postgresMemoryRequest, c.postgresMemoryLimit)
            && c.concurrentBuilds > 0
  {}

  // The quantity under a field that holds one, and the number under one that holds a number.
  function QuantityAt(c: ComputeLimits, field: LimitField): Option<string> {
    match field
    case MaxVolumeSize => Some(c.maxVolumeSize)
    case MaxPostgresStorageSize => Some(c.maxPostgresStorageSize)
    case PostgresCPURequest => Some(c.postgresCPURequest)
    case PostgresCPULimit => Some(c.postgresCPULimit)
    case PostgresMemoryRequest => Some(c.postgresMemoryRequest)
    case PostgresMemoryLimit => Some(c.postgresMemoryLimit)
    case _ => None
  }

  function NumberAt(c: ComputeLimits, field: LimitField): Option<int> {
    match field
    case MaxStacks => Some(c.maxStacks)
    case MaxStackResources => Some(c.maxStackResources)
    case Replicas => Some(c.replicasPerStackResource)
    case MaxVolumes => Some(c.maxVolumes)
    case MaxAddons => Some(c.maxAddons)
    case PostgresInstances => Some(c.postgresInstances)
    case ConcurrentBuilds => Some(c.concurrentBuilds)
    case _ => None
  }

  // A refusal names a field and what is wrong with it.
  lemma RefusalHasReason(parse: QuantityParser, isDNSName: string -> bool, c: ComputeLimits)
    requires ValidateLimits(parse, isDNSName, c).Some?
    ensures match ValidateLimits(parse, isDNSName, c).value
            case NotPositive(field) =>
              || (NumberAt(c, field).Some? && NumberAt(c, field).value <= 0)
              || (&& QuantityAt(c, field).Some? && parse(QuantityAt(c, field).value).Some?
                  && parse(QuantityAt(c, field).value).value <= 0)
            case NotAQuantity(field) => QuantityAt(c, field).Some? && parse(QuantityAt(c, field).value).None?
            case Required(field) => field.VolumeStorageClass? && c.volumeStorageClass == ""
            case NotAKubernetesName(field) =>
              field.VolumeStorageClass? && c.volumeStorageClass != "" && !isDNSName(c.volumeStorageClass)
            case Exceeds(request, limit) =>
              && (|| (request, limit) == (PostgresCPURequest, PostgresCPULimit)
                  || (request, limit) == (PostgresMemoryRequest, PostgresMemoryLimit))
              && QuantityAt(c, request).Some? && QuantityAt(c, limit).Some?
              && Positive(parse, QuantityAt(c, request).value) && Positive(parse, QuantityAt(c, limit).value)
              && parse(QuantityAt(c, request).value).value > parse(QuantityAt(c, limit).value).value
  {}
}
