// Request contexts, and the hooks a transaction runs when it commits or rolls back.
module TransactionHooks {
  import opened Wrappers

  // ---- Contexts ----

  datatype Key = TransactionKey | HooksKey | OtherKey(name: string)

  datatype Value =
    | Transaction(id: nat)
    | Registered(hooks: PostCommitHooks)
    | CompletedTransaction
    | OtherValue(text: string)

  datatype Context =
    | Background
    | WithValue(parent: Context, key: Key, value: Value)
    | WithCancel(parent: Context, cancel: nat)
    | WithoutCancel(parent: Context)

  function Lookup(ctx: Context, key: Key): Option<Value> {
    match ctx
    case Background => None
    case WithValue(parent, k, v) => if k == key then Some(v) else Lookup(parent, key)
    case WithCancel(parent, _) => Lookup(parent, key)
    case WithoutCancel(parent) => Lookup(parent, key)
  }

  // A context is cancelled by any fired cancel above it that is not cut off.
  predicate Cancelled(ctx: Context, fired: set<nat>) {
    match ctx
    case Background => false
    case WithValue(parent, _, _) => Cancelled(parent, fired)
    case WithCancel(parent, cancel) => cancel in fired || Cancelled(parent, fired)
    case WithoutCancel(_) => false
  }

  // The values of a context, the innermost first, and the cancels that reach it.
  function ValuesOf(ctx: Context): seq<(Key, Value)> {
    match ctx
    case Background => []
    case WithValue(parent, key, value) => [(key, value)] + ValuesOf(parent)
    case WithCancel(parent, _) => ValuesOf(parent)
    case WithoutCancel(parent) => ValuesOf(parent)
  }

  function CancelsOf(ctx: Context): set<nat> {
    match ctx
    case Background => {}
    case WithValue(parent, _, _) => CancelsOf(parent)
    case WithCancel(parent, cancel) => CancelsOf(parent) + {cancel}
    case WithoutCancel(_) => {}
  }

  function FirstValue(values: seq<(Key, Value)>, key: Key): Option<Value> {
    if values == [] then None
    else if values[0].0 == key then Some(values[0].1)
    else FirstValue(values[1..], key)
  }

  // A key is looked up as its innermost value, and a context is cancelled by any
  // cancel that reaches it.
  lemma {:induction false} LookupIsInnermost(ctx: Context, key: Key)
    ensures Lookup(ctx, key) == FirstValue(ValuesOf(ctx), key)
  {
    match ctx
    case Background =>
    case WithValue(parent, k, v) =>
      LookupIsInnermost(parent, key);
      assert ([(k, v)] + ValuesOf(parent))[1..] == ValuesOf(parent);
    case WithCancel(parent, _) => LookupIsInnermost(parent, key);
    case WithoutCancel(parent) => LookupIsInnermost(parent, key);
  }

  lemma {:induction false} CancelledExactly(ctx: Context, fired: set<nat>)
    ensures Cancelled(ctx, fired) <==> exists cancel :: cancel in fired && cancel in CancelsOf(ctx)
  {
    match ctx
    case Background =>
    case WithValue(parent, _, _) => CancelledExactly(parent, fired);
    case WithCancel(parent, _) => CancelledExactly(parent, fired);
    case WithoutCancel(_) =>
  }

  function TxFromContext(ctx: Context): Option<nat> {
    match Lookup(ctx, TransactionKey)
    case Some(Transaction(id)) => Some(id)
    case _ => None
  }

  function HooksFromContext(ctx: Context): Option<PostCommitHooks> {
    match Lookup(ctx, HooksKey)
    case Some(Registered(hooks)) => Some(hooks)
    case _ => None
  }

  function ContextAfterTransaction(ctx: Context): Context {
    WithValue(WithoutCancel(ctx), TransactionKey, CompletedTransaction)
  }

  // Compensations see no finished transaction and no cancellation, under any
  // nesting, and every other value as it was.
  lemma CompensationContext(ctx: Context, key: Key, fired: set<nat>)
    ensures TxFromContext(ContextAfterTransaction(ctx)).None?
    ensures !Cancelled(ContextAfterTransaction(ctx), fired)
    ensures key != TransactionKey ==> Lookup(ContextAfterTransaction(ctx), key) == Lookup(ctx, key)
  {}

  // The context a transaction's body runs under when the transaction is begun for it.
  function OwnedContext(ctx: Context, tx: nat, hooks: PostCommitHooks): Context {
    WithValue(WithValue(ctx, TransactionKey, Transaction(tx)), HooksKey, Registered(hooks))
  }

  // A compensation is outside every transaction and yet still finds the hooks of
  // the finished one: what it defers or registers there is kept, not run.
  lemma CompensationsFindFinishedHooks(ctx: Context, tx: nat, hooks: PostCommitHooks)
    ensures var after := ContextAfterTransaction(OwnedContext(ctx, tx, hooks));
            TxFromContext(after).None? && HooksFromContext(after) == Some(hooks)
  {
    OwnedContextHasBoth(ctx, tx, hooks);
    CompensationContext(OwnedContext(ctx, tx, hooks), HooksKey, {});
  }

  lemma OwnedContextHasBoth(ctx: Context, tx: nat, hooks: PostCommitHooks)
    ensures TxFromContext(OwnedContext(ctx, tx, hooks)) == Some(tx)
    ensures HooksFromContext(OwnedContext(ctx, tx, hooks)) == Some(hooks)
  {
    assert Lookup(OwnedContext(ctx, tx, hooks), TransactionKey) ==
           Lookup(WithValue(ctx, TransactionKey, Transaction(tx)), TransactionKey);
  }

  // ---- Hooks ----

  datatype Outcome = Returned | Failed(error: string) | Panicked(reason: string)

  // One attempt at a hook: the external state it leaves, however it ends, and
  // what it adds to the hooks its context finds, compensations and post-commit hooks.
  datatype Attempt<W> = Attempt(world: W, outcome: Outcome, registered: seq<nat>, deferred: seq<nat>)

  // Hooks are closures, named by number; what they do is given from outside.
  type Behaviour<!W> = (Context, nat, W) -> Attempt<W>

  datatype HookError = HookFailed(error: string) | HookPanicked(reason: string)

  // A panic is recovered and counts as an error.
  function ErrorsOf(outcome: Outcome): seq<HookError> {
    match outcome
    case Returned => []
    case Failed(e) => [HookFailed(e)]
    case Panicked(r) => [HookPanicked(r)]
  }

  // The external state and the errors a rollback leaves, and the post-commit
  // hooks deferred on the way.
  datatype Rolled<W> = Rolled(world: W, errors: seq<HookError>, deferred: seq<nat>)

  // Hooks attempted from the last registered to the first.
  function Rollback<W>(ctx: Context, behave: Behaviour<W>, hooks: seq<nat>, world: W): Rolled<W> {
    if hooks == [] then Rolled(world, [], [])
    else
      var attempt := behave(ctx, hooks[|hooks| - 1], world);
      var rest := Rollback(ctx, behave, hooks[..|hooks| - 1], attempt.world);
      Rolled(rest.world, ErrorsOf(attempt.outcome) + rest.errors, attempt.deferred + rest.deferred)
  }

  // A post-commit hook has no error to return; it can only panic.
  function Hooked(outcome: Outcome): Outcome {
    if outcome.Panicked? then outcome else Returned
  }

  datatype Acted<W> = Acted(world: W, outcome: Outcome)

  // What running post-commit hooks leaves, and what they register and defer.
  datatype HooksRun<W> = HooksRun(world: W, outcome: Outcome, registered: seq<nat>, deferred: seq<nat>) {
    function Effect(): Acted<W> {
      Acted(world, outcome)
    }
  }

  // Post-commit hooks in registration order, up to the first that panics.
  function RunAll<W>(ctx: Context, behave: Behaviour<W>, hooks: seq<nat>, world: W): HooksRun<W> {
    if hooks == [] then HooksRun(world, Returned, [], [])
    else
      var attempt := behave(ctx, hooks[0], world);
      if attempt.outcome.Panicked? then
        HooksRun(attempt.world, attempt.outcome, attempt.registered, attempt.deferred)
      else
        var rest := RunAll(ctx, behave, hooks[1..], attempt.world);
        HooksRun(rest.world, rest.outcome, attempt.registered + rest.registered, attempt.deferred + rest.deferred)
  }

  function Reversed(hooks: seq<nat>): (r: seq<nat>)
    ensures |r| == |hooks| && forall i :: 0 <= i < |hooks| ==> r[i] == hooks[|hooks| - 1 - i]
  {
    if hooks == [] then [] else [hooks[|hooks| - 1]] + Reversed(hooks[..|hooks| - 1])
  }

  // A rollback that goes on after these errors and deferred hooks.
  function After<W>(errors: seq<HookError>, deferred: seq<nat>, rest: Rolled<W>): Rolled<W> {
    Rolled(rest.world, errors + rest.errors, deferred + rest.deferred)
  }

  lemma OneRolledBack<W>(ctx: Context, behave: Behaviour<W>, left: seq<nat>, world: W, errors: seq<HookError>,
                         deferred: seq<nat>, attempted: seq<nat>)
    requires left != []
    ensures var n := |left| - 1;
            var attempt := behave(ctx, left[n], world);
            && After(errors, deferred, Rollback(ctx, behave, left, world)) ==
               After(errors + ErrorsOf(attempt.outcome), deferred + attempt.deferred,
                     Rollback(ctx, behave, left[..n], attempt.world))
            && attempted + Reversed(left) == attempted + [left[n]] + Reversed(left[..n])
  {
    var n := |left| - 1;
    var attempt := behave(ctx, left[n], world);
    var rest := Rollback(ctx, behave, left[..n], attempt.world);
    assert errors + (ErrorsOf(attempt.outcome) + rest.errors) == errors + ErrorsOf(attempt.outcome) + rest.errors;
    assert deferred + (attempt.deferred + rest.deferred) == deferred + attempt.deferred + rest.deferred;
  }

  // Hooks run after others that have registered and deferred these.
  function AfterHooks<W>(registered: seq<nat>, deferred: seq<nat>, rest: HooksRun<W>): HooksRun<W> {
    HooksRun(rest.world, rest.outcome, registered + rest.registered, deferred + rest.deferred)
  }

  lemma OneRun<W>(ctx: Context, behave: Behaviour<W>, left: seq<nat>, world: W, registered: seq<nat>,
                  deferred: seq<nat>)
    requires left != []
    ensures var attempt := behave(ctx, left[0], world);
            AfterHooks(registered, deferred, RunAll(ctx, behave, left, world)) ==
            if attempt.outcome.Panicked? then
              HooksRun(attempt.world, attempt.outcome, registered + attempt.registered, deferred + attempt.deferred)
            else
              AfterHooks(registered + attempt.registered, deferred + attempt.deferred,
                         RunAll(ctx, behave, left[1..], attempt.world))
  {
    var attempt := behave(ctx, left[0], world);
    var rest := RunAll(ctx, behave, left[1..], attempt.world);
    assert registered + (attempt.registered + rest.registered) == registered + attempt.registered + rest.registered;
    assert deferred + (attempt.deferred + rest.deferred) == deferred + attempt.deferred + rest.deferred;
  }

  class PostCommitHooks {
    var hooks: seq<nat>
    var rollbackHooks: seq<nat>

    constructor ()
      ensures hooks == [] && rollbackHooks == []
    {
      hooks, rollbackHooks := [], [];
    }

    // Only the hooks that were there when the call began are run: what they
    // register and defer is kept, and not run.
    method Run<W>(ctx: Context, behave: Behaviour<W>, start: W) returns (world: W, outcome: Outcome)
      modifies this
      ensures var ran := RunAll(ctx, behave, old(hooks), start);
              && Acted(world, outcome) == ran.Effect()
              && hooks == old(hooks) + ran.deferred && rollbackHooks == old(rollbackHooks) + ran.registered
    {
      var running := hooks;
      ghost var registered, deferred := [], [];
      world := start;
      var i := 0;
      while i < |running|
        invariant i <= |running|
        invariant hooks == running + deferred && rollbackHooks == old(rollbackHooks) + registered
        invariant AfterHooks(registered, deferred, RunAll(ctx, behave, running[i..], world)) ==
                  RunAll(ctx, behave, running, start)
      {
        OneRun(ctx, behave, running[i..], world, registered, deferred);
        assert running[i..][1..] == running[i + 1..];
        var attempt := behave(ctx, running[i], world);
        registered, deferred := registered + attempt.registered, deferred + attempt.deferred;
        hooks, rollbackHooks := hooks + attempt.deferred, rollbackHooks + attempt.registered;
        world := attempt.world;
        if attempt.outcome.Panicked? {
          return world, attempt.outcome;
        }
        i := i + 1;
      }
      outcome := Returned;
    }

    // Every hook registered before the call is attempted once, last first,
    // whatever hooks fail, panic, register or defer meanwhile. What they register
    // is gone afterwards; what they defer is kept, and not run.
    method RunRollback<W>(ctx: Context, behave: Behaviour<W>, start: W)
      returns (errors: seq<HookError>, world: W, ghost attempted: seq<nat>)
      modifies this
      ensures attempted == Reversed(old(rollbackHooks))
      ensures var rolled := Rollback(ctx, behave, old(rollbackHooks), start);
              world == rolled.world && errors == rolled.errors && hooks == old(hooks) + rolled.deferred
      ensures rollbackHooks == []
    {
      ghost var left, deferred := rollbackHooks, [];
      errors, world, attempted := [], start, [];
      var index := |rollbackHooks| - 1;
      while index >= 0
        invariant -1 <= index && |left| == index + 1 && left <= rollbackHooks
        invariant hooks == old(hooks) + deferred
        invariant attempted + Reversed(left) == Reversed(old(rollbackHooks))
        invariant After(errors, deferred, Rollback(ctx, behave, left, world)) ==
                  Rollback(ctx, behave, old(rollbackHooks), start)
      {
        var hook := rollbackHooks[index];
        var attempt := behave(ctx, hook, world);
        OneRolledBack(ctx, behave, left, world, errors, deferred, attempted);
        attempted, deferred := attempted + [hook], deferred + attempt.deferred;
        hooks, rollbackHooks := hooks + attempt.deferred, rollbackHooks + attempt.registered;
        errors := errors + ErrorsOf(attempt.outcome);
        world := attempt.world;
        index := index - 1;
        left := left[..index + 1];
      }
      rollbackHooks := [];
    }
  }

  function HooksIn(ctx: Context): set<PostCommitHooks> {
    if HooksFromContext(ctx).Some? then {HooksFromContext(ctx).value} else {}
  }

  // Registered with the outermost transaction, or an error outside one.
  method OnRollback(ctx: Context, hook: nat) returns (ok: bool)
    modifies HooksIn(ctx)
    ensures ok == HooksFromContext(ctx).Some?
    ensures ok ==> HooksFromContext(ctx).value.rollbackHooks == old(HooksFromContext(ctx).value.rollbackHooks) + [hook]
    ensures ok ==> HooksFromContext(ctx).value.hooks == old(HooksFromContext(ctx).value.hooks)
  {
    var found := HooksFromContext(ctx);
    if found.Some? {
      found.value.rollbackHooks := found.value.rollbackHooks + [hook];
      return true;
    }
    return false;
  }

  // Kept until the outermost transaction commits, or run at once outside one.
  method OnPostCommit<W>(ctx: Context, hook: nat, behave: Behaviour<W>, start: W) returns (world: W, outcome: Outcome)
    modifies HooksIn(ctx)
    ensures HooksFromContext(ctx).Some? ==>
              && HooksFromContext(ctx).value.hooks == old(HooksFromContext(ctx).value.hooks) + [hook]
              && HooksFromContext(ctx).value.rollbackHooks == old(HooksFromContext(ctx).value.rollbackHooks)
              && world == start && outcome == Returned
    ensures HooksFromContext(ctx).None? ==>
              var attempt := behave(ctx, hook, start); world == attempt.world && outcome == Hooked(attempt.outcome)
  {
    var found := HooksFromContext(ctx);
    if found.Some? {
      found.value.hooks := found.value.hooks + [hook];
      return start, Returned;
    }
    var attempt := behave(ctx, hook, start);
    return attempt.world, Hooked(attempt.outcome);
  }
}
