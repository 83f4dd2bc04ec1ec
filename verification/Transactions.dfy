// Programs that run in transactions, nested ones included, and what the
// transaction executor makes of them.
module Transactions {
  import opened Wrappers
  import opened TransactionHooks

  // What runs in a transaction: an external action that registers its
  // compensation once it is done, one that registers it beforehand, a post-commit
  // hook, an error, a panic, steps in sequence, a step whose error the caller
  // ignores, and a call of the executor. begins and commits say whether the
  // database would begin and commit there.
  datatype Program =
    | ActThenRegister(action: nat, compensation: nat)
    | RegisterThenAct(action: nat, compensation: nat)
    | Defer(hook: nat)
    | Raise(error: string)
    | Panic(reason: string)
    | Then(first: Program, second: Program)
    | Ignoring(body: Program)
    | InTransaction(begins: bool, commits: bool, body: Program)

  // What external actions and hooks do to the external state. Hooks here do not
  // look at their context.
  datatype Environment<!W> = Environment(act: (nat, W) -> Acted<W>, hook: (nat, W) -> Attempt<W>)

  function InAnyContext<W>(hook: (nat, W) -> Attempt<W>): Behaviour<W> {
    (_: Context, h: nat, world: W) => hook(h, world)
  }

  datatype Event = Began | Committed | RolledBack

  const NO_OUTER_TRANSACTION := "rollback hook requires an outer transaction"
  const CANNOT_BEGIN := "failed to begin transaction"
  const CANNOT_COMMIT := "failed to commit transaction"

  // The external state left, how the program ended, what it registered with the
  // hooks it found, and what the database was asked for.
  datatype Ran<W> = Ran(world: W, outcome: Outcome, postCommit: seq<nat>, compensations: seq<nat>, log: seq<Event>)

  // A program run under a context with or without a transaction, and with or without hooks.
  function Execute<W>(env: Environment<W>, inTx: bool, hasHooks: bool, program: Program, world: W): Ran<W>
    decreases program
  {
    match program
    case ActThenRegister(a, c) =>
      var acted := env.act(a, world);
      if !acted.outcome.Returned? then Ran(acted.world, acted.outcome, [], [], [])
      else if !hasHooks then Ran(acted.world, Failed(NO_OUTER_TRANSACTION), [], [], [])
      else Ran(acted.world, Returned, [], [c], [])
    case RegisterThenAct(a, c) =>
      if !hasHooks then Ran(world, Failed(NO_OUTER_TRANSACTION), [], [], [])
      else
        var acted := env.act(a, world);
        Ran(acted.world, acted.outcome, [], [c], [])
    case Defer(h) =>
      if hasHooks then Ran(world, Returned, [h], [], [])
      else Ran(env.hook(h, world).world, Hooked(env.hook(h, world).outcome), [], [], [])
    case Raise(e) => Ran(world, Failed(e), [], [], [])
    case Panic(r) => Ran(world, Panicked(r), [], [], [])
    case Then(first, second) =>
      var one := Execute(env, inTx, hasHooks, first, world);
      if !one.outcome.Returned? then one
      else
        var two := Execute(env, inTx, hasHooks, second, one.world);
        Ran(two.world, two.outcome, one.postCommit + two.postCommit, one.compensations + two.compensations,
            one.log + two.log)
    case Ignoring(body) =>
      var done := Execute(env, inTx, hasHooks, body, world);
      if done.outcome.Failed? then done.(outcome := Returned) else done
    case InTransaction(begins, commits, body) =>
      if inTx then Execute(env, true, hasHooks, body, world)
      else if !begins then Ran(world, Failed(CANNOT_BEGIN), [], [], [])
      else Ended(env, commits, Execute(env, true, true, body, world))
  }

  // How the owner of a transaction ends it: after a commit the post-commit hooks
  // run and no compensation does; otherwise every compensation runs and no
  // post-commit hook does.
  function Ended<W>(env: Environment<W>, commits: bool, done: Ran<W>): Ran<W> {
    if done.outcome.Returned? && commits then
      var ran := RunAll(Background, InAnyContext(env.hook), done.postCommit, done.world);
      Ran(ran.world, ran.outcome, [], [], [Began] + done.log + [Committed])
    else
      var rolled := Rollback(Background, InAnyContext(env.hook), done.compensations, done.world);
      var outcome := if done.outcome.Returned? then Failed(CANNOT_COMMIT) else done.outcome;
      Ran(rolled.world, outcome, [], [], [Began] + done.log + [RolledBack])
  }

  // ---- The executor ----

  class Database {
    var log: seq<Event>
    var next: nat

    constructor ()
      ensures log == [] && next == 0
    {
      log, next := [], 0;
    }

    method Begin(ok: bool) returns (tx: Option<nat>)
      modifies this`log, this`next
      ensures tx.Some? == ok && log == old(log) + if ok then [Began] else []
    {
      if !ok {
        return None;
      }
      log, next := log + [Began], next + 1;
      return Some(next);
    }

    method End(event: Event)
      modifies this`log
      ensures log == old(log) + [event]
    {
      log := log + [event];
    }
  }

  // A transaction found in the context is joined: nothing is begun, committed or
  // rolled back, and errors and panics pass to the owner.
  method WithTransaction<W>(env: Environment<W>, db: Database, ctx: Context, begins: bool, commits: bool,
                            body: Program, start: W)
    returns (world: W, outcome: Outcome)
    modifies db, HooksIn(ctx)
    ensures var ran := Execute(env, TxFromContext(ctx).Some?, HooksFromContext(ctx).Some?,
                               InTransaction(begins, commits, body), start);
            && Acted(world, outcome) == Acted(ran.world, ran.outcome)
            && db.log == old(db.log) + ran.log
            && (HooksFromContext(ctx).Some? ==>
                  && HooksFromContext(ctx).value.hooks == old(HooksFromContext(ctx).value.hooks) + ran.postCommit
                  && HooksFromContext(ctx).value.rollbackHooks ==
                     old(HooksFromContext(ctx).value.rollbackHooks) + ran.compensations)
    decreases body, 2
  {
    if TxFromContext(ctx).Some? {
      world, outcome := Perform(env, db, ctx, body, start);
      return;
    }
    world, outcome := RunOwned(env, db, ctx, begins, commits, body, start);
    assert HooksFromContext(ctx).Some? ==>
        && old(HooksFromContext(ctx).value.hooks) + [] == HooksFromContext(ctx).value.hooks
        && old(HooksFromContext(ctx).value.rollbackHooks) + [] == HooksFromContext(ctx).value.rollbackHooks;
  }

  // A transaction begun here, with hooks of its own.
  method RunOwned<W>(env: Environment<W>, db: Database, ctx: Context, begins: bool, commits: bool, body: Program,
                     start: W)
    returns (world: W, outcome: Outcome)
    modifies db
    ensures var ran := Execute(env, false, HooksFromContext(ctx).Some?, InTransaction(begins, commits, body), start);
            Acted(world, outcome) == Acted(ran.world, ran.outcome) && db.log == old(db.log) + ran.log
    decreases body, 1
  {
    var tx := db.Begin(begins);
    if tx.None? {
      return start, Failed(CANNOT_BEGIN);
    }
    var owned := new PostCommitHooks();
    var txCtx := OwnedContext(ctx, tx.value, owned);
    OwnedContextHasBoth(ctx, tx.value, owned);
    world, outcome := Perform(env, db, txCtx, body, start);
    ghost var done := Execute(env, true, true, body, start);
    world, outcome := EndOwned(env, db, txCtx, owned, commits, world, outcome, done);
  }

  // The owner's part after the body: commit and post-commit hooks, or rollback and compensations.
  method EndOwned<W>(env: Environment<W>, db: Database, txCtx: Context, owned: PostCommitHooks, commits: bool,
                     reached: W, ended: Outcome, ghost done: Ran<W>)
    returns (world: W, outcome: Outcome)
    requires done.world == reached && done.outcome == ended
    requires owned.hooks == done.postCommit && owned.rollbackHooks == done.compensations
    modifies db, owned
    ensures Acted(world, outcome) == Acted(Ended(env, commits, done).world, Ended(env, commits, done).outcome)
    ensures db.log == old(db.log) + [if ended.Returned? && commits then Committed else RolledBack]
  {
    if ended.Returned? && commits {
      db.End(Committed);
      world, outcome := owned.Run(txCtx, InAnyContext(env.hook), reached);
      RunsInAnyContext(txCtx, Background, env.hook, done.postCommit, reached);
    } else {
      db.End(RolledBack);
      RollsBackInAnyContext(ContextAfterTransaction(txCtx), Background, env.hook, owned.rollbackHooks, reached);
      var errors;
      ghost var attempted;
      errors, world, attempted := owned.RunRollback(ContextAfterTransaction(txCtx), InAnyContext(env.hook), reached);
      outcome := if ended.Returned? then Failed(CANNOT_COMMIT) else ended;
    }
  }

  method Perform<W>(env: Environment<W>, db: Database, ctx: Context, program: Program, start: W)
    returns (world: W, outcome: Outcome)
    modifies db, HooksIn(ctx)
    ensures var ran := Execute(env, TxFromContext(ctx).Some?, HooksFromContext(ctx).Some?, program, start);
            && Acted(world, outcome) == Acted(ran.world, ran.outcome)
            && db.log == old(db.log) + ran.log
            && (HooksFromContext(ctx).Some? ==>
                  && HooksFromContext(ctx).value.hooks == old(HooksFromContext(ctx).value.hooks) + ran.postCommit
                  && HooksFromContext(ctx).value.rollbackHooks ==
                     old(HooksFromContext(ctx).value.rollbackHooks) + ran.compensations)
    decreases program, 0
  {
    match program
    case ActThenRegister(a, c) =>
      var acted := env.act(a, start);
      world, outcome := acted.world, acted.outcome;
      if outcome.Returned? {
        var ok := OnRollback(ctx, c);
        outcome := if ok then Returned else Failed(NO_OUTER_TRANSACTION);
      }
    case RegisterThenAct(a, c) =>
      var ok := OnRollback(ctx, c);
      if !ok {
        return start, Failed(NO_OUTER_TRANSACTION);
      }
      var acted := env.act(a, start);
      return acted.world, acted.outcome;
    case Defer(h) =>
      world, outcome := OnPostCommit(ctx, h, InAnyContext(env.hook), start);
    case Raise(e) =>
      return start, Failed(e);
    case Panic(r) =>
      return start, Panicked(r);
    case Then(first, second) =>
      world, outcome := Perform(env, db, ctx, first, start);
      if outcome.Returned? {
        world, outcome := Perform(env, db, ctx, second, world);
      }
    case Ignoring(body) =>
      world, outcome := Perform(env, db, ctx, body, start);
      outcome := if outcome.Failed? then Returned else outcome;
    case InTransaction(begins, commits, body) =>
      world, outcome := WithTransaction(env, db, ctx, begins, commits, body, start);
  }

  lemma {:induction false} RunsInAnyContext<W>(one: Context, other: Context, hook: (nat, W) -> Attempt<W>,
                                               hooks: seq<nat>, world: W)
    ensures RunAll(one, InAnyContext(hook), hooks, world) == RunAll(other, InAnyContext(hook), hooks, world)
  {
    if hooks != [] {
      RunsInAnyContext(one, other, hook, hooks[1..], hook(hooks[0], world).world);
    }
  }

  lemma {:induction false} RollsBackInAnyContext<W>(one: Context, other: Context, hook: (nat, W) -> Attempt<W>,
                                                    hooks: seq<nat>, world: W)
    ensures Rollback(one, InAnyContext(hook), hooks, world) == Rollback(other, InAnyContext(hook), hooks, world)
  {
    if hooks != [] {
      RollsBackInAnyContext(one, other, hook, hooks[..|hooks| - 1], hook(hooks[|hooks| - 1], world).world);
    }
  }

  // ---- Nesting ----

  // Inside a transaction nothing is begun, committed or rolled back, however
  // deeply executor calls nest.
  lemma {:induction false} NestedTouchesNothing<W>(env: Environment<W>, hasHooks: bool, program: Program, world: W)
    ensures Execute(env, true, hasHooks, program, world).log == []
  {
    match program
    case Then(first, second) =>
      NestedTouchesNothing(env, hasHooks, first, world);
      NestedTouchesNothing(env, hasHooks, second, Execute(env, true, hasHooks, first, world).world);
    case Ignoring(body) => NestedTouchesNothing(env, hasHooks, body, world);
    case InTransaction(_, _, body) => NestedTouchesNothing(env, hasHooks, body, world);
    case _ =>
  }

  // The program without its executor calls.
  function Flattened(program: Program): Program {
    match program
    case Then(first, second) => Then(Flattened(first), Flattened(second))
    case Ignoring(body) => Ignoring(Flattened(body))
    case InTransaction(_, _, body) => Flattened(body)
    case _ => program
  }

  // So inside a transaction they make no difference, whatever the database would do.
  lemma {:induction false} NestingIsTransparent<W>(env: Environment<W>, hasHooks: bool, program: Program, world: W)
    ensures Execute(env, true, hasHooks, program, world) == Execute(env, true, hasHooks, Flattened(program), world)
  {
    match program
    case Then(first, second) =>
      NestingIsTransparent(env, hasHooks, first, world);
      NestingIsTransparent(env, hasHooks, second, Execute(env, true, hasHooks, first, world).world);
    case Ignoring(body) => NestingIsTransparent(env, hasHooks, body, world);
    case InTransaction(_, _, body) => NestingIsTransparent(env, hasHooks, body, world);
    case _ =>
  }

  // One transaction after the other, each begun and then ended once.
  predicate OneAtATime(log: seq<Event>) {
    log != [] ==> |log| >= 2 && log[0].Began? && !log[1].Began? && OneAtATime(log[2..])
  }

  lemma {:induction false} OneAtATimeAppend(first: seq<Event>, second: seq<Event>)
    requires OneAtATime(first) && OneAtATime(second)
    ensures OneAtATime(first + second)
  {
    if first == [] {
      assert first + second == second;
    } else {
      OneAtATimeAppend(first[2..], second);
      assert (first + second)[2..] == first[2..] + second;
    }
  }

  // Under any context, a program ends every transaction it begins, and before it begins another.
  lemma {:induction false} TransactionsAreEnded<W>(env: Environment<W>, inTx: bool, hasHooks: bool, program: Program,
                                                   world: W)
    ensures OneAtATime(Execute(env, inTx, hasHooks, program, world).log)
    decreases program
  {
    match program
    case Then(first, second) =>
      var one := Execute(env, inTx, hasHooks, first, world);
      TransactionsAreEnded(env, inTx, hasHooks, first, world);
      TransactionsAreEnded(env, inTx, hasHooks, second, one.world);
      OneAtATimeAppend(one.log, Execute(env, inTx, hasHooks, second, one.world).log);
    case Ignoring(body) => TransactionsAreEnded(env, inTx, hasHooks, body, world);
    case InTransaction(begins, commits, body) =>
      TransactionsAreEnded(env, true, hasHooks, body, world);
      NestedTouchesNothing(env, true, body, world);
    case _ =>
  }

  // ---- What hooks register while they run ----

  // Hooks that do the same and end the same, whatever they register or defer.
  ghost predicate SameHooks<W(!new)>(env: Environment<W>, other: Environment<W>) {
    && (forall a, w :: env.act(a, w) == other.act(a, w))
    && (forall h, w :: env.hook(h, w).world == other.hook(h, w).world)
    && (forall h, w :: env.hook(h, w).outcome == other.hook(h, w).outcome)
  }

  // What hooks register or defer while they run has no effect: under any
  // context and for any program, the external state, the outcome, what the program
  // registers and what the database is asked for are the same without it.
  lemma {:induction false} HooksRegisterForNothing<W(!new)>(env: Environment<W>, other: Environment<W>, inTx: bool,
                                                            hasHooks: bool, program: Program, world: W)
    requires SameHooks(env, other)
    ensures Execute(env, inTx, hasHooks, program, world) == Execute(other, inTx, hasHooks, program, world)
    decreases program
  {
    match program
    case ActThenRegister(a, c) => assert env.act(a, world) == other.act(a, world);
    case RegisterThenAct(a, c) => assert env.act(a, world) == other.act(a, world);
    case Defer(h) => assert env.hook(h, world).world == other.hook(h, world).world;
    case Then(first, second) =>
      HooksRegisterForNothing(env, other, inTx, hasHooks, first, world);
      HooksRegisterForNothing(env, other, inTx, hasHooks, second, Execute(env, inTx, hasHooks, first, world).world);
    case Ignoring(body) => HooksRegisterForNothing(env, other, inTx, hasHooks, body, world);
    case InTransaction(_, commits, body) =>
      HooksRegisterForNothing(env, other, true, if inTx then hasHooks else true, body, world);
      EndsTheSame(env, other, commits, Execute(env, true, true, body, world));
    case _ =>
  }

  lemma EndsTheSame<W(!new)>(env: Environment<W>, other: Environment<W>, commits: bool, done: Ran<W>)
    requires SameHooks(env, other)
    ensures Ended(env, commits, done) == Ended(other, commits, done)
  {
    RunsTheSame(env, other, done.postCommit, done.world);
    RollsBackTheSame(env, other, done.compensations, done.world);
  }

  lemma {:induction false} RunsTheSame<W(!new)>(env: Environment<W>, other: Environment<W>, hooks: seq<nat>, world: W)
    requires SameHooks(env, other)
    ensures RunAll(Background, InAnyContext(env.hook), hooks, world).Effect() ==
            RunAll(Background, InAnyContext(other.hook), hooks, world).Effect()
  {
    if hooks != [] {
      assert env.hook(hooks[0], world).world == other.hook(hooks[0], world).world;
      RunsTheSame(env, other, hooks[1..], env.hook(hooks[0], world).world);
    }
  }

  lemma {:induction false} RollsBackTheSame<W(!new)>(env: Environment<W>, other: Environment<W>, hooks: seq<nat>,
                                                     world: W)
    requires SameHooks(env, other)
    ensures Rollback(Background, InAnyContext(env.hook), hooks, world).world ==
            Rollback(Background, InAnyContext(other.hook), hooks, world).world
  {
    if hooks != [] {
      var n := |hooks| - 1;
      assert env.hook(hooks[n], world).world == other.hook(hooks[n], world).world;
      RollsBackTheSame(env, other, hooks[..n], env.hook(hooks[n], world).world);
    }
  }

  // A compensation is outside every transaction and still finds hooks. There a
  // deferred hook is kept, not run, and a registration succeeds, while outside
  // both the hook runs at once and the registration is refused. The hooks it finds
  // have ended: nothing runs them again.
  lemma CompensationRegistersForNothing<W>(env: Environment<W>, a: nat, h: nat, world: W)
    ensures Execute(env, false, true, Defer(h), world) == Ran(world, Returned, [h], [], [])
    ensures Execute(env, false, true, RegisterThenAct(a, h), world).compensations == [h]
    ensures Execute(env, false, false, Defer(h), world).world == env.hook(h, world).world
    ensures Execute(env, false, false, RegisterThenAct(a, h), world) ==
            Ran(world, Failed(NO_OUTER_TRANSACTION), [], [], [])
  {}
}
