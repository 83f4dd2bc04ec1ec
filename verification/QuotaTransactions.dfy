// Transactions that lock an organisation, read its usage one count at a time,
// ask the policy, write, and commit or abort, interleaved with each other and
// with deletions that take no lock.
module QuotaTransactions {
  import opened Wrappers
  import opened ComputeQuota
  import opened OrganisationUsage

  // Reading has taken the organisation's row lock and so far read the first
  // `counts` of: stacks, stack resources, volumes, addons.
  datatype Request =
    | Idle
    | Reading(mutation: Mutation, counts: nat, usage: ComputeUsage)
    | Admitted(mutation: Mutation)

  datatype Transaction = Transaction(org: string, locked: bool, pending: seq<Mutation>, request: Request)

  datatype System = System(orgs: map<string, Organisation>, transactions: map<nat, Transaction>)

  datatype Action = Ask(mutation: Mutation) | ReadCount | Decide | Write | Discard | Commit | Abort

  datatype Step =
    | Begin(t: nat, org: string)
    | Act(t: nat, action: Action)
    | Delete(org: string, survivor: Organisation)

  const NOTHING_READ := ComputeUsage(0, 0, 0, 0)

  ghost function ApplyAll(org: Organisation, ms: seq<Mutation>): Organisation {
    if ms == [] then org else Apply(ApplyAll(org, ms[..|ms| - 1]), ms[|ms| - 1])
  }

  // A transaction's statements see what is committed when they run, and its own writes.
  ghost function View(s: System, t: nat): Organisation
    requires t in s.transactions && s.transactions[t].org in s.orgs
  {
    ApplyAll(s.orgs[s.transactions[t].org], s.transactions[t].pending)
  }

  ghost predicate LockFree(s: System, t: nat)
    requires t in s.transactions
  {
    forall u :: u in s.transactions && u != t && s.transactions[u].org == s.transactions[t].org ==>
        !s.transactions[u].locked
  }

  // New stacks get fresh ids.
  predicate WellFormed(org: Organisation, m: Mutation) {
    (m.NewStack? ==> m.id !in org.stacks) && (m.NewResources? ==> m.id != "")
  }

  predicate DesiredAtMost(most: nat, m: Mutation) {
    (m.NewStack? || m.NewResources?) ==> m.resources <= most
  }

  // On top of the limit, the desired count stays below 2^63.
  predicate HasRoom(limits: ComputeLimits, m: Mutation) {
    (m.NewStack? || m.NewResources?) ==> limits.maxStackResources + m.resources <= MAX_INT64
  }

  predicate StepHasRoom(limits: ComputeLimits, step: Step) {
    step.Act? && step.action.Ask? ==> HasRoom(limits, step.action.mutation)
  }

  // No limit is at the very top of the counter range.
  ghost predicate RoomToCount(limits: ComputeLimits) {
    && 0 <= limits.maxStacks < MAX_INT64
    && 0 <= limits.maxStackResources < MAX_INT64
    && 0 <= limits.maxVolumes < MAX_INT64
    && 0 <= limits.maxAddons < MAX_INT64
  }

  ghost predicate Possible(s: System, t: nat, action: Action)
    requires t in s.transactions && s.transactions[t].org in s.orgs
  {
    var request := s.transactions[t].request;
    match action
    case Ask(m) => request.Idle? && LockFree(s, t) && WellFormed(View(s, t), m)
    case ReadCount => request.Reading? && request.counts < 4
    case Decide => request.Reading? && request.counts == 4
    case Write => request.Admitted?
    case Discard => request.Admitted?
    case Commit => request.Idle?
    case Abort => true
  }

  ghost predicate Enabled(s: System, step: Step) {
    match step
    case Begin(t, org) => t !in s.transactions && org in s.orgs
    case Act(t, action) => t in s.transactions && s.transactions[t].org in s.orgs && Possible(s, t, action)
    case Delete(org, survivor) => org in s.orgs && Shrinks(survivor, s.orgs[org])
  }

  // The store's counters are 64-bit; a count is read into them as it is.
  ghost function Counter(n: nat): Int64 {
    if n <= MAX_INT64 then n else MAX_INT64
  }

  ghost function WithNextCount(r: Request, view: Organisation): Request
    requires r.Reading? && r.counts < 4
  {
    var read :=
      match r.counts
      case 0 => r.usage.(stacks := Counter(|view.stacks|))
      case 1 => r.usage.(stackResources := Counter(ResourcesWithout(view, Omitted(r.mutation))))
      case 2 => r.usage.(volumes := Counter(view.volumes))
      case _ => r.usage.(addons := Counter(view.addons));
    Reading(r.mutation, r.counts + 1, read)
  }

  ghost function Verdict(policy: CloudPolicy, parse: QuantityParser, r: Request): Result<(), ServiceError>
    requires r.Reading?
  {
    if DesiredFits(r.mutation) then Admit(policy, parse, _ => Success(r.usage), r.mutation)
        else Failure(UnprocessableEntity)
  }

  // The transaction after an action that leaves it open.
  ghost function Moved(txn: Transaction, view: Organisation, action: Action): Transaction
    requires action.ReadCount? ==> txn.request.Reading? && txn.request.counts < 4
    requires action.Decide? ==> txn.request.Reading?
    requires action.Write? ==> txn.request.Admitted?
  {
    match action
    case Ask(m) => txn.(locked := true, request := Reading(m, 0, NOTHING_READ))
    case ReadCount => txn.(request := WithNextCount(txn.request, view))
    case Decide => txn.(request := Admitted(txn.request.mutation))
    case Write => txn.(pending := txn.pending + [txn.request.mutation], request := Idle)
    case _ => txn.(request := Idle)
  }

  // Committing, aborting and a refusal all end the transaction.
  ghost predicate Ends(policy: CloudPolicy, parse: QuantityParser, txn: Transaction, action: Action)
    requires action.Decide? ==> txn.request.Reading?
  {
    action.Commit? || action.Abort? || (action.Decide? && Verdict(policy, parse, txn.request).Failure?)
  }

  ghost function Next(policy: CloudPolicy, parse: QuantityParser, s: System, step: Step): System
    requires Enabled(s, step)
  {
    match step
    case Begin(t, org) => s.(transactions := s.transactions[t := Transaction(org, false, [], Idle)])
    case Delete(org, survivor) => s.(orgs := s.orgs[org := survivor])
    case Act(t, action) =>
      var txn := s.transactions[t];
      if Ends(policy, parse, txn, action) then
        System(if action.Commit? then s.orgs[txn.org := View(s, t)] else s.orgs, s.transactions - {t})
      else
        s.(transactions := s.transactions[t := Moved(txn, View(s, t), action)])
  }

  // ---- The invariant ----

  // What has been read so far is at least what a recount would find now.
  ghost predicate Covers(limits: ComputeLimits, r: Request, view: Organisation)
    requires r.Reading?
  {
    && r.counts <= 4
    && (0 < r.counts ==> |view.stacks| <= r.usage.stacks <= limits.maxStacks)
    && (1 < r.counts ==>
        ResourcesWithout(view, Omitted(r.mutation)) <= r.usage.stackResources <= limits.maxStackResources)
    && (2 < r.counts ==> view.volumes <= r.usage.volumes <= limits.maxVolumes)
    && (3 < r.counts ==> view.addons <= r.usage.addons <= limits.maxAddons)
  }

  ghost predicate RequestInvariant(limits: ComputeLimits, r: Request, view: Organisation) {
    match r
    case Idle => true
    case Reading(m, _, _) => WellFormed(view, m) && HasRoom(limits, m) && Covers(limits, r, view)
    case Admitted(m) => WithinLimits(limits, Apply(view, m))
  }

  ghost predicate TransactionInvariant(limits: ComputeLimits, s: System, t: nat)
    requires t in s.transactions
  {
    var txn := s.transactions[t];
    && txn.org in s.orgs
    && (!txn.locked ==> txn.pending == [] && txn.request.Idle?)
    && (txn.locked ==> LockFree(s, t))
    && WithinLimits(limits, View(s, t))
    && RequestInvariant(limits, txn.request, View(s, t))
  }

  ghost predicate CommittedWithin(limits: ComputeLimits, s: System) {
    forall org :: org in s.orgs ==> WithinLimits(limits, s.orgs[org])
  }

  ghost predicate Invariant(limits: ComputeLimits, s: System) {
    CommittedWithin(limits, s) && forall t :: t in s.transactions ==> TransactionInvariant(limits, s, t)
  }

  // ---- Its parts survive ----

  lemma {:induction false} ViewShrinks(fewer: Organisation, more: Organisation, ms: seq<Mutation>)
    requires Shrinks(fewer, more)
    ensures Shrinks(ApplyAll(fewer, ms), ApplyAll(more, ms))
  {
    if ms != [] {
      ViewShrinks(fewer, more, ms[..|ms| - 1]);
      ApplyMonotone(ApplyAll(fewer, ms[..|ms| - 1]), ApplyAll(more, ms[..|ms| - 1]), ms[|ms| - 1]);
    }
  }

  lemma RequestSurvivesShrinking(limits: ComputeLimits, r: Request, fewer: Organisation, more: Organisation)
    requires Shrinks(fewer, more) && RequestInvariant(limits, r, more)
    ensures RequestInvariant(limits, r, fewer)
  {
    match r
    case Idle =>
    case Reading(m, _, _) =>
      TotalShrinks(fewer.stacks, more.stacks);
      TotalShrinks(fewer.stacks - {Omitted(m)}, more.stacks - {Omitted(m)});
    case Admitted(m) =>
      ApplyMonotone(fewer, more, m);
      ShrinkingKeepsLimits(limits, Apply(fewer, m), Apply(more, m));
  }

  lemma ReadingCovers(limits: ComputeLimits, r: Request, view: Organisation)
    requires RoomToCount(limits) && WithinLimits(limits, view)
    requires r.Reading? && r.counts < 4 && Covers(limits, r, view)
    ensures Covers(limits, WithNextCount(r, view), view)
  {
    TotalShrinks(view.stacks - {Omitted(r.mutation)}, view.stacks);
  }

  // The verdict on usage read earlier still bounds the mutation's effect now,
  // and none of the policy's additions wrapped around.
  lemma AdmittedFits(policy: CloudPolicy, parse: QuantityParser, r: Request, view: Organisation)
    requires RoomToCount(policy.limits) && WithinLimits(policy.limits, view)
    requires r.Reading? && r.counts == 4 && Covers(policy.limits, r, view)
        && WellFormed(view, r.mutation) && HasRoom(policy.limits, r.mutation)
    requires Verdict(policy, parse, r).Success?
    ensures WithinLimits(policy.limits, Apply(view, r.mutation))
  {
    var m := r.mutation;
    if StackMutation(m) && Applicable(view, m) {
      StackTotals(view, m);
      NoWrapping(policy.limits, r, view);
    }
  }

  // Every total the policy computes for a request in a reachable state is the
  // mathematical one: stacks and their resources, volumes and addons.
  lemma NoWrapping(limits: ComputeLimits, r: Request, view: Organisation)
    requires RoomToCount(limits) && WithinLimits(limits, view)
    requires r.Reading? && r.counts == 4 && Covers(limits, r, view)
        && WellFormed(view, r.mutation) && HasRoom(limits, r.mutation)
    ensures TotalsAreSums(r)
  {}

  ghost predicate TotalsAreSums(r: Request)
    requires r.Reading?
  {
    && DesiredFits(r.mutation)
    && Plus(r.usage.volumes, 1) == r.usage.volumes + 1
    && Plus(r.usage.addons, 1) == r.usage.addons + 1
    && (StackMutation(r.mutation) ==>
          var projected := StackUsageAfterChange(r.usage, ChangeOf(r.mutation));
          && projected.Success?
          && projected.value.stacks == r.usage.stacks + AddedStacks(r.mutation)
          && projected.value.stackResources == r.usage.stackResources + Added(r.mutation))
  }

  // A transaction other than the one that moved keeps its invariant when the
  // committed organisations only shrink and the locks taken do not concern it.
  lemma OthersUntouched(limits: ComputeLimits, s: System, s': System, u: nat)
    requires u in s.transactions && u in s'.transactions && s'.transactions[u] == s.transactions[u]
    requires TransactionInvariant(limits, s, u)
    requires s.transactions[u].org in s'.orgs
    requires Shrinks(s'.orgs[s.transactions[u].org], s.orgs[s.transactions[u].org])
    requires s.transactions[u].locked ==> LockFree(s', u)
    ensures TransactionInvariant(limits, s', u)
  {
    var txn := s.transactions[u];
    ViewShrinks(s'.orgs[txn.org], s.orgs[txn.org], txn.pending);
    ShrinkingKeepsLimits(limits, View(s', u), View(s, u));
    RequestSurvivesShrinking(limits, txn.request, View(s', u), View(s, u));
  }

  // ---- One step, then every run ----

  lemma MoverKeepsInvariant(policy: CloudPolicy, parse: QuantityParser, s: System, t: nat, action: Action)
    requires RoomToCount(policy.limits) && Invariant(policy.limits, s) && Enabled(s, Act(t, action))
    requires StepHasRoom(policy.limits, Act(t, action))
    requires !Ends(policy, parse, s.transactions[t], action)
    ensures TransactionInvariant(policy.limits, Next(policy, parse, s, Act(t, action)), t)
  {
    var s' := Next(policy, parse, s, Act(t, action));
    var txn, view := s.transactions[t], View(s, t);
    var ms := s'.transactions[t].pending;
    match action
    case ReadCount => ReadingCovers(policy.limits, txn.request, view);
    case Decide => AdmittedFits(policy, parse, txn.request, view);
    case Write =>
      assert ms[..|ms| - 1] == txn.pending;
      assert View(s', t) == Apply(view, txn.request.mutation);
    case Ask(_) => assert View(s', t) == view;
    case Discard => assert View(s', t) == view;
    case _ =>
  }

  // While u holds the lock of an organisation, no other transaction of that
  // organisation can ask for it or has anything to commit.
  lemma HolderKeepsInvariant(policy: CloudPolicy, parse: QuantityParser, s: System, t: nat, action: Action, u: nat)
    requires Enabled(s, Act(t, action))
    requires u in s.transactions && u != t && s.transactions[u].locked
    requires TransactionInvariant(policy.limits, s, t) && TransactionInvariant(policy.limits, s, u)
    ensures TransactionInvariant(policy.limits, Next(policy, parse, s, Act(t, action)), u)
  {
    var s' := Next(policy, parse, s, Act(t, action));
    if s.transactions[t].org == s.transactions[u].org {
      assert !s.transactions[t].locked && s.transactions[t].pending == [];
      assert View(s, t) == s.orgs[s.transactions[t].org];
    }
    assert LockFree(s', u);
    OthersUntouched(policy.limits, s, s', u);
  }

  lemma OtherKeepsInvariant(policy: CloudPolicy, parse: QuantityParser, s: System, t: nat, action: Action, u: nat)
    requires Enabled(s, Act(t, action))
    requires u in s.transactions && u != t
    requires TransactionInvariant(policy.limits, s, t) && TransactionInvariant(policy.limits, s, u)
    ensures TransactionInvariant(policy.limits, Next(policy, parse, s, Act(t, action)), u)
  {
    if s.transactions[u].locked {
      HolderKeepsInvariant(policy, parse, s, t, action, u);
    } else {
      var s' := Next(policy, parse, s, Act(t, action));
      assert View(s', u) == s'.orgs[s.transactions[u].org];
      assert View(s, u) == s.orgs[s.transactions[u].org];
    }
  }

  lemma ActKeepsInvariant(policy: CloudPolicy, parse: QuantityParser, s: System, t: nat, action: Action)
    requires RoomToCount(policy.limits) && Invariant(policy.limits, s) && Enabled(s, Act(t, action))
    requires StepHasRoom(policy.limits, Act(t, action))
    ensures Invariant(policy.limits, Next(policy, parse, s, Act(t, action)))
  {
    var s' := Next(policy, parse, s, Act(t, action));
    assert TransactionInvariant(policy.limits, s, t);
    forall u | u in s'.transactions ensures TransactionInvariant(policy.limits, s', u) {
      if u != t {
        OtherKeepsInvariant(policy, parse, s, t, action, u);
      } else {
        MoverKeepsInvariant(policy, parse, s, t, action);
      }
    }
  }

  lemma DeleteKeepsInvariant(limits: ComputeLimits, s: System, org: string, survivor: Organisation)
    requires Invariant(limits, s) && org in s.orgs && Shrinks(survivor, s.orgs[org])
    ensures Invariant(limits, s.(orgs := s.orgs[org := survivor]))
  {
    var s' := s.(orgs := s.orgs[org := survivor]);
    ShrinkingKeepsLimits(limits, survivor, s.orgs[org]);
    forall u | u in s'.transactions ensures TransactionInvariant(limits, s', u) {
      assert TransactionInvariant(limits, s, u);
      OthersUntouched(limits, s, s', u);
    }
  }

  lemma BeginKeepsInvariant(limits: ComputeLimits, s: System, t: nat, org: string)
    requires Invariant(limits, s) && t !in s.transactions && org in s.orgs
    ensures Invariant(limits, s.(transactions := s.transactions[t := Transaction(org, false, [], Idle)]))
  {
    var s' := s.(transactions := s.transactions[t := Transaction(org, false, [], Idle)]);
    assert View(s', t) == s.orgs[org];
    forall u | u in s'.transactions && u != t ensures TransactionInvariant(limits, s', u) {
      assert TransactionInvariant(limits, s, u);
      OthersUntouched(limits, s, s', u);
    }
  }

  lemma StepKeepsInvariant(policy: CloudPolicy, parse: QuantityParser, s: System, step: Step)
    requires RoomToCount(policy.limits) && Invariant(policy.limits, s)
    requires Enabled(s, step) && StepHasRoom(policy.limits, step)
    ensures Invariant(policy.limits, Next(policy, parse, s, step))
  {
    match step
    case Begin(t, org) => BeginKeepsInvariant(policy.limits, s, t, org);
    case Delete(org, survivor) => DeleteKeepsInvariant(policy.limits, s, org, survivor);
    case Act(t, action) => ActKeepsInvariant(policy, parse, s, t, action);
  }

  ghost predicate Run(policy: CloudPolicy, parse: QuantityParser, s: System, steps: seq<Step>, end: System)
    decreases |steps|
  {
    if steps == [] then end == s
    else Enabled(s, steps[0]) && Run(policy, parse, Next(policy, parse, s, steps[0]), steps[1..], end)
  }

  ghost predicate RunHasRoom(limits: ComputeLimits, steps: seq<Step>) {
    forall i :: 0 <= i < |steps| ==> StepHasRoom(limits, steps[i])
  }

  lemma {:induction false} RunKeepsInvariant(policy: CloudPolicy, parse: QuantityParser, s: System, steps: seq<Step>,
                                             end: System)
    requires RoomToCount(policy.limits) && RunHasRoom(policy.limits, steps)
    requires Invariant(policy.limits, s) && Run(policy, parse, s, steps, end)
    ensures Invariant(policy.limits, end)
    decreases |steps|
  {
    if steps != [] {
      StepKeepsInvariant(policy, parse, s, steps[0]);
      RunKeepsInvariant(policy, parse, Next(policy, parse, s, steps[0]), steps[1..], end);
    }
  }

  // Quota safety: whatever transactions and deletions interleave, committed
  // organisations that start within the limits stay within them.
  lemma QuotaSafety(policy: CloudPolicy, parse: QuantityParser, orgs: map<string, Organisation>, steps: seq<Step>,
                    end: System)
    requires RoomToCount(policy.limits) && RunHasRoom(policy.limits, steps)
    requires CommittedWithin(policy.limits, System(orgs, map[]))
    requires Run(policy, parse, System(orgs, map[]), steps, end)
    ensures CommittedWithin(policy.limits, end)
  {
    RunKeepsInvariant(policy, parse, System(orgs, map[]), steps, end);
  }

  // No reachable decision is taken on a total that wrapped around.
  lemma DecisionsNeverWrap(policy: CloudPolicy, parse: QuantityParser, orgs: map<string, Organisation>,
                           steps: seq<Step>, end: System, t: nat)
    requires RoomToCount(policy.limits) && RunHasRoom(policy.limits, steps)
    requires CommittedWithin(policy.limits, System(orgs, map[]))
    requires Run(policy, parse, System(orgs, map[]), steps, end)
    requires Enabled(end, Act(t, Decide))
    ensures TotalsAreSums(end.transactions[t].request)
  {
    RunKeepsInvariant(policy, parse, System(orgs, map[]), steps, end);
    assert TransactionInvariant(policy.limits, end, t);
    NoWrapping(policy.limits, end.transactions[t].request, View(end, t));
  }

  // ---- What one step does ----

  // Committed organisations change by commits and deletions only, and a commit
  // makes them what the transaction saw with its own writes. Commits, aborts and
  // refusals end their transaction; no step concerns another one.
  lemma StepEffects(policy: CloudPolicy, parse: QuantityParser, s: System, step: Step)
    requires Enabled(s, step)
    ensures var s' := Next(policy, parse, s, step);
            && s'.orgs.Keys == s.orgs.Keys
            && (forall org :: org in s.orgs ==>
                  s'.orgs[org] ==
                  if step.Act? && step.action.Commit? && s.transactions[step.t].org == org then View(s, step.t)
                  else if step.Delete? && step.org == org then step.survivor
                  else s.orgs[org])
            && (forall u :: u in s.transactions && !(step.Act? && step.t == u) ==>
                  u in s'.transactions && s'.transactions[u] == s.transactions[u])
            && (step.Act? ==>
                  (step.t !in s'.transactions <==>
                   || step.action.Commit? || step.action.Abort?
                   || (step.action.Decide? && Verdict(policy, parse, s.transactions[step.t].request).Failure?)))
  {}

  // Only what was admitted is written, once, after what was written before; only
  // a positive verdict admits; and asking takes the lock, which is then kept.
  lemma ActEffects(policy: CloudPolicy, parse: QuantityParser, s: System, t: nat, action: Action)
    requires Enabled(s, Act(t, action)) && t in Next(policy, parse, s, Act(t, action)).transactions
    ensures var before, after := s.transactions[t], Next(policy, parse, s, Act(t, action)).transactions[t];
            && after.org == before.org && after.locked == (before.locked || action.Ask?)
            && after.pending == before.pending +
                 (if action.Write? && before.request.Admitted? then [before.request.mutation] else [])
            && (after.request.Admitted? ==>
                  && action.Decide? && before.request.Reading? && before.request.counts == 4
                  && before.request.mutation == after.request.mutation
                  && Verdict(policy, parse, before.request).Success?)
  {
    assert s.transactions[t].pending + [] == s.transactions[t].pending;
  }

  // Four reads of an organisation that does not change are its usage without the
  // stack that is replaced.
  lemma FourReadsAreUsage(m: Mutation, view: Organisation)
    requires Countable(view)
    ensures var r := Reading(m, 0, NOTHING_READ);
            WithNextCount(WithNextCount(WithNextCount(WithNextCount(r, view), view), view), view) ==
            Reading(m, 4, Usage(view, Omitted(m)))
  {
    TotalShrinks(view.stacks - {Omitted(m)}, view.stacks);
  }
}
