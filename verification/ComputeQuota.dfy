// The Stackdome Cloud compute policy: usage projection, admission checks and
// PostgreSQL addon defaults, over the 64-bit counters the policy computes with.
module ComputeQuota {
  import opened Wrappers

  const MAX_INT64: int := 0x7FFF_FFFF_FFFF_FFFF
  const TWO_TO_64: int := 0x1_0000_0000_0000_0000

  type Int64 = x: int | -MAX_INT64 - 1 <= x <= MAX_INT64

  // 64-bit signed addition, which wraps around.
  function Plus(x: Int64, y: Int64): Int64 {
    if x + y > MAX_INT64 then x + y - TWO_TO_64
    else if x + y < -MAX_INT64 - 1 then x + y + TWO_TO_64
    else x + y
  }

  datatype ComputeUsage = ComputeUsage(stacks: Int64, stackResources: Int64, volumes: Int64, addons: Int64)

  datatype ComputeLimits = ComputeLimits(
    maxStacks: Int64,
    maxStackResources: Int64,
    replicasPerStackResource: int,
    maxVolumes: Int64,
    maxVolumeSize: string,
    volumeStorageClass: string,
    maxAddons: Int64,
    postgresInstances: int,
    maxPostgresStorageSize: string,
    postgresCPURequest: string,
    postgresCPULimit: string,
    postgresMemoryRequest: string,
    postgresMemoryLimit: string,
    concurrentBuilds: int)

  datatype Limit = Stacks | StackResources | Volumes | VolumeSize | Addons | AddonInstances | AddonStorage
                 | AddonCPURequest | AddonCPULimit | AddonMemoryRequest | AddonMemoryLimit

  datatype ServiceError = GeneralError | UnprocessableEntity | NotFound
                        | BadRequest(field: Limit) | ComputeQuotaExceeded(limit: Limit)

  // Operations arrive as strings; any other string is Unsupported.
  datatype StackLimitOperation = CreateStack | ReplaceStack | AddResource | UpdateResource | Unsupported(name: string)

  datatype StackLimitChange = StackLimitChange(
    operation: StackLimitOperation,
    replacedStackID: string,
    desiredResourceCount: Int64)

  // Persisted usage turned into the totals after the requested mutation.
  function StackUsageAfterChange(current: ComputeUsage, change: StackLimitChange): Result<ComputeUsage, ServiceError> {
    if (change.operation.CreateStack? || change.operation.ReplaceStack?) && change.desiredResourceCount < 0 then
      Failure(UnprocessableEntity)
    else match change.operation
      case CreateStack =>
        Success(current.(stacks := Plus(current.stacks, 1),
                         stackResources := Plus(current.stackResources, change.desiredResourceCount)))
      case ReplaceStack =>
        Success(current.(stackResources := Plus(current.stackResources, change.desiredResourceCount)))
      case AddResource =>
        Success(current.(stackResources := Plus(current.stackResources, 1)))
      case UpdateResource => Success(current)
      case Unsupported(_) => Failure(GeneralError)
  }

  // What the usage store answers, given the id of the stack whose resources
  // are left out of the count ("" leaves out none).
  type UsageReader = string -> Result<ComputeUsage, ServiceError>

  function ValidateStackLimits(limits: ComputeLimits, usage: UsageReader, change: StackLimitChange)
    : Result<(), ServiceError>
  {
    if change.operation.Unsupported? then
      Failure(GeneralError)
    else if change.operation.ReplaceStack? && change.replacedStackID == "" then
      Failure(GeneralError)
    else
      var replaced := if change.operation.ReplaceStack? then change.replacedStackID else "";
      match usage(replaced)
      case Failure(e) => Failure(e)
      case Success(current) =>
        match StackUsageAfterChange(current, change)
        case Failure(e) => Failure(e)
        case Success(proposed) =>
          if proposed.stacks > limits.maxStacks then Failure(ComputeQuotaExceeded(Stacks))
          else if proposed.stackResources > limits.maxStackResources then Failure(ComputeQuotaExceeded(StackResources))
          else Success(())
  }

  // Kubernetes quantities, as far as the policy looks at them: a parse that may
  // fail and yields a totally ordered number with a sign.
  type QuantityParser = string -> Option<int>

  predicate Positive(parse: QuantityParser, text: string) {
    parse(text).Some? && parse(text).value > 0
  }

  // The configured limits with their quantities parsed.
  datatype CloudPolicy = CloudPolicy(
    limits: ComputeLimits,
    maxVolumeSize: int,
    maxPostgresStorageSize: int,
    cpuRequest: int,
    cpuLimit: int,
    memoryRequest: int,
    memoryLimit: int)

  // None stands for the panic of a limit that is not a positive quantity.
  function NewStackdomeCloudPolicy(parse: QuantityParser, limits: ComputeLimits): Option<CloudPolicy> {
    if && Positive(parse, limits.maxVolumeSize)
       && Positive(parse, limits.maxPostgresStorageSize)
       && Positive(parse, limits.postgresCPURequest)
       && Positive(parse, limits.postgresCPULimit)
       && Positive(parse, limits.postgresMemoryRequest)
       && Positive(parse, limits.postgresMemoryLimit)
    then
      Some(CloudPolicy(
             limits,
             parse(limits.maxVolumeSize).value,
             parse(limits.maxPostgresStorageSize).value,
             parse(limits.postgresCPURequest).value,
             parse(limits.postgresCPULimit).value,
             parse(limits.postgresMemoryRequest).value,
             parse(limits.postgresMemoryLimit).value))
    else
      None
  }

  function ValidateVolumeLimits(policy: CloudPolicy, parse: QuantityParser, usage: UsageReader, size: string)
    : Result<(), ServiceError>
  {
    match usage("")
    case Failure(e) => Failure(e)
    case Success(current) =>
      if Plus(current.volumes, 1) > policy.limits.maxVolumes then Failure(ComputeQuotaExceeded(Volumes))
      else if !Positive(parse, size) then Failure(BadRequest(VolumeSize))
      else if parse(size).value > policy.maxVolumeSize then Failure(ComputeQuotaExceeded(VolumeSize))
      else Success(())
  }

  datatype AddonSpec = AddonSpec(
    instances: int,
    storageSize: string,
    cpuRequest: string,
    cpuLimit: string,
    memoryRequest: string,
    memoryLimit: string)

  function RequireExactPostgresResource(parse: QuantityParser, field: Limit, value: string, expected: int)
    : Result<(), ServiceError>
  {
    if !Positive(parse, value) then Failure(BadRequest(field))
    else if parse(value).value != expected then Failure(ComputeQuotaExceeded(field))
    else Success(())
  }

  function ValidatePostgresAddonLimits(policy: CloudPolicy, parse: QuantityParser, usage: UsageReader,
                                       createsAddon: bool, addon: AddonSpec)
    : Result<(), ServiceError>
  {
    match usage("")
    case Failure(e) => Failure(e)
    case Success(current) =>
      var addonCount := if createsAddon then Plus(current.addons, 1) else current.addons;
      if addonCount > policy.limits.maxAddons then Failure(ComputeQuotaExceeded(Addons))
      else if addon.instances != policy.limits.postgresInstances then Failure(ComputeQuotaExceeded(AddonInstances))
      else if !Positive(parse, addon.storageSize) then Failure(BadRequest(AddonStorage))
      else if parse(addon.storageSize).value > policy.maxPostgresStorageSize
          then Failure(ComputeQuotaExceeded(AddonStorage))
      else
        var cpuRequest := RequireExactPostgresResource(parse, AddonCPURequest, addon.cpuRequest, policy.cpuRequest);
        var cpuLimit := RequireExactPostgresResource(parse, AddonCPULimit, addon.cpuLimit, policy.cpuLimit);
        var memoryRequest := RequireExactPostgresResource(parse, AddonMemoryRequest, addon.memoryRequest,
                                                          policy.memoryRequest);
        var memoryLimit := RequireExactPostgresResource(parse, AddonMemoryLimit, addon.memoryLimit, policy.memoryLimit);
        if cpuRequest.Failure? then cpuRequest
        else if cpuLimit.Failure? then cpuLimit
        else if memoryRequest.Failure? then memoryRequest
        else memoryLimit
  }

  // ---- Refusals ----

  predicate Malformed(change: StackLimitChange) {
    change.operation.Unsupported? || (change.operation.ReplaceStack? && change.replacedStackID == "")
  }

  // When usage cannot be read nothing is admitted: the reader's error is passed
  // on, but for a malformed change, which is refused before anything is read.
  lemma FailedReadRefuses(policy: CloudPolicy, parse: QuantityParser, usage: UsageReader, e: ServiceError,
                          change: StackLimitChange, size: string, createsAddon: bool, addon: AddonSpec)
    requires forall omitted :: usage(omitted) == Failure(e)
    ensures ValidateStackLimits(policy.limits, usage, change) == Failure(if Malformed(change) then GeneralError else e)
    ensures ValidateVolumeLimits(policy, parse, usage, size) == Failure(e)
    ensures ValidatePostgresAddonLimits(policy, parse, usage, createsAddon, addon) == Failure(e)
  {}

  // A malformed change, and a negative number of desired resources, are refused whatever the usage.
  lemma BadChangeRefused(limits: ComputeLimits, usage: UsageReader, change: StackLimitChange)
    requires forall omitted :: usage(omitted).Success?
    ensures Malformed(change) ==> ValidateStackLimits(limits, usage, change) == Failure(GeneralError)
    ensures !Malformed(change) && change.desiredResourceCount < 0 &&
            (change.operation.CreateStack? || change.operation.ReplaceStack?) ==>
              ValidateStackLimits(limits, usage, change) == Failure(UnprocessableEntity)
  {
    if !Malformed(change) {
      var omitted := if change.operation.ReplaceStack? then change.replacedStackID else "";
      assert usage(omitted).Success?;
    }
  }

  // Exactly when a volume gets each verdict: the count first, then the size.
  lemma VolumeVerdictExactly(policy: CloudPolicy, parse: QuantityParser, usage: UsageReader, size: string)
    requires NewStackdomeCloudPolicy(parse, policy.limits) == Some(policy) && usage("").Success?
    ensures var verdict := ValidateVolumeLimits(policy, parse, usage, size);
            var fits := Plus(usage("").value.volumes, 1) <= policy.limits.maxVolumes;
            var positive := parse(size).Some? && parse(size).value > 0;
            var small := positive && parse(size).value <= parse(policy.limits.maxVolumeSize).value;
            && (verdict == Failure(ComputeQuotaExceeded(Volumes)) <==> !fits)
            && (verdict == Failure(BadRequest(VolumeSize)) <==> fits && !positive)
            && (verdict == Failure(ComputeQuotaExceeded(VolumeSize)) <==> fits && positive && !small)
            && (verdict == Success(()) <==> fits && small)
  {}

  // The verdict is a refusal of this field: not a positive quantity, or not what is required.
  predicate RefusesField(verdict: Result<(), ServiceError>, field: Limit) {
    verdict == Failure(BadRequest(field)) || verdict == Failure(ComputeQuotaExceeded(field))
  }

  // Exactly when an addon gets each verdict: the count, the instances and the
  // storage first, then the four resources in turn, each of which must be what is configured.
  lemma AddonVerdictExactly(policy: CloudPolicy, parse: QuantityParser, usage: UsageReader, creates: bool,
                            addon: AddonSpec)
    requires NewStackdomeCloudPolicy(parse, policy.limits) == Some(policy) && usage("").Success?
    ensures var verdict := ValidatePostgresAddonLimits(policy, parse, usage, creates, addon);
            var count := usage("").value.addons;
            var fits := (if creates then Plus(count, 1) else count) <= policy.limits.maxAddons;
            var sized := fits && addon.instances == policy.limits.postgresInstances;
            var stored := sized && Positive(parse, addon.storageSize);
            var basics := stored &&
              parse(addon.storageSize).value <= parse(policy.limits.maxPostgresStorageSize).value;
            var one := basics && parse(addon.cpuRequest) == parse(policy.limits.postgresCPURequest);
            var two := one && parse(addon.cpuLimit) == parse(policy.limits.postgresCPULimit);
            var three := two && parse(addon.memoryRequest) == parse(policy.limits.postgresMemoryRequest);
            var four := three && parse(addon.memoryLimit) == parse(policy.limits.postgresMemoryLimit);
            && (verdict == Failure(ComputeQuotaExceeded(Addons)) <==> !fits)
            && (verdict == Failure(ComputeQuotaExceeded(AddonInstances)) <==> fits && !sized)
            && (verdict == Failure(BadRequest(AddonStorage)) <==> sized && !stored)
            && (verdict == Failure(ComputeQuotaExceeded(AddonStorage)) <==> stored && !basics)
            && (RefusesField(verdict, AddonCPURequest) <==> basics && !one)
            && (RefusesField(verdict, AddonCPULimit) <==> one && !two)
            && (RefusesField(verdict, AddonMemoryRequest) <==> two && !three)
            && (RefusesField(verdict, AddonMemoryLimit) <==> three && !four)
            && (verdict == Success(()) <==> four)
  {}

  // Such a refusal says whether the value is a positive quantity at all.
  lemma ResourceRefusal(parse: QuantityParser, field: Limit, value: string, expected: int)
    requires expected > 0
    ensures var verdict := RequireExactPostgresResource(parse, field, value, expected);
            && (verdict == Success(()) <==> parse(value) == Some(expected))
            && (verdict == Failure(BadRequest(field)) <==> !Positive(parse, value))
            && (verdict.Failure? ==> RefusesField(verdict, field))
  {}
}
