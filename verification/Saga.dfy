// What running compensations in reverse order restores.
module Saga {
  import opened TransactionHooks
  import opened Transactions

  // Each completed action registered a compensation that, from the state the
  // action left, gives back the state it found: worlds[i] is the state before
  // action i.
  ghost predicate EachUndoes<W>(ctx: Context, behave: Behaviour<W>, compensations: seq<nat>, worlds: seq<W>) {
    |worlds| == |compensations| + 1 &&
    forall i :: 0 <= i < |compensations| ==> behave(ctx, compensations[i], worlds[i + 1]).world == worlds[i]
  }

  // Failing after any number of actions restores the state before the first.
  lemma {:induction false} SagaRestores<W>(ctx: Context, behave: Behaviour<W>, compensations: seq<nat>, worlds: seq<W>)
    requires EachUndoes(ctx, behave, compensations, worlds)
    ensures Rollback(ctx, behave, compensations, worlds[|compensations|]).world == worlds[0]
  {
    var n := |compensations|;
    if n > 0 {
      assert worlds[..n][n - 1] == worlds[n - 1];
      SagaRestores(ctx, behave, compensations[..n - 1], worlds[..n]);
    }
  }

  // ---- Programs ----

  // Along the path the program takes from world, each action is undone by its
  // compensation from whatever the action left; one that registers only once it
  // is done leaves nothing when it fails.
  predicate UndoneFrom<W(==)>(env: Environment<W>, program: Program, world: W) {
    match program
    case ActThenRegister(a, c) =>
      var acted := env.act(a, world);
      if acted.outcome.Returned? then env.hook(c, acted.world).world == world else acted.world == world
    case RegisterThenAct(a, c) => env.hook(c, env.act(a, world).world).world == world
    case Then(first, second) =>
      && UndoneFrom(env, first, world)
      && var one := Execute(env, true, true, first, world);
         one.outcome.Returned? ==> UndoneFrom(env, second, one.world)
    case Ignoring(body) => UndoneFrom(env, body, world)
    case InTransaction(_, _, body) => UndoneFrom(env, body, world)
    case _ => true
  }

  lemma RollbackAppend<W>(ctx: Context, behave: Behaviour<W>, earlier: seq<nat>, later: seq<nat>, world: W)
    ensures Rollback(ctx, behave, earlier + later, world).world ==
            Rollback(ctx, behave, earlier, Rollback(ctx, behave, later, world).world).world
  {
    GroupsRolledBack(ctx, behave, earlier, later, world);
  }

  // One hook on its own, and a group of later hooks before a group of earlier
  // ones: between them these say what a rollback does, errors and deferred hooks
  // in the order of execution.
  lemma OneHookRolledBack<W>(ctx: Context, behave: Behaviour<W>, hook: nat, world: W)
    ensures var attempt := behave(ctx, hook, world);
            Rollback(ctx, behave, [hook], world) ==
            Rolled(attempt.world,
                   match attempt.outcome
                   case Returned => []
                   case Failed(e) => [HookFailed(e)]
                   case Panicked(r) => [HookPanicked(r)],
                   attempt.deferred)
  {
    assert [hook][..0] == [];
  }

  lemma {:induction false} GroupsRolledBack<W>(ctx: Context, behave: Behaviour<W>, earlier: seq<nat>, later: seq<nat>,
                                               world: W)
    ensures var first := Rollback(ctx, behave, later, world);
            Rollback(ctx, behave, earlier + later, world) ==
            After(first.errors, first.deferred, Rollback(ctx, behave, earlier, first.world))
    decreases |later|
  {
    if later == [] {
      assert earlier + later == earlier;
    } else {
      var n := |later| - 1;
      var all := earlier + later;
      assert all[|all| - 1] == later[n] && all[..|all| - 1] == earlier + later[..n];
      var attempt := behave(ctx, later[n], world);
      var rest := Rollback(ctx, behave, later[..n], attempt.world);
      GroupsRolledBack(ctx, behave, earlier, later[..n], attempt.world);
      AfterAssociates(ErrorsOf(attempt.outcome), attempt.deferred, rest.errors, rest.deferred,
                      Rollback(ctx, behave, earlier, rest.world));
    }
  }

  lemma AfterAssociates<W>(e1: seq<HookError>, d1: seq<nat>, e2: seq<HookError>, d2: seq<nat>, rest: Rolled<W>)
    ensures After(e1, d1, After(e2, d2, rest)) == After(e1 + e2, d1 + d2, rest)
  {
    assert e1 + (e2 + rest.errors) == e1 + e2 + rest.errors;
    assert d1 + (d2 + rest.deferred) == d1 + d2 + rest.deferred;
  }

  // However far a program got, and whatever errors were ignored on the way,
  // its compensations give back the state it started from.
  lemma {:induction false} ProgramRestored<W>(ctx: Context, env: Environment<W>, program: Program, world: W)
    requires UndoneFrom(env, program, world)
    ensures var done := Execute(env, true, true, program, world);
            Rollback(ctx, InAnyContext(env.hook), done.compensations, done.world).world == world
  {
    match program
    case ActThenRegister(a, c) => assert [c][..0] == [];
    case RegisterThenAct(a, c) => assert [c][..0] == [];
    case Then(first, second) =>
      var one := Execute(env, true, true, first, world);
      ProgramRestored(ctx, env, first, world);
      if one.outcome.Returned? {
        var two := Execute(env, true, true, second, one.world);
        ProgramRestored(ctx, env, second, one.world);
        RollbackAppend(ctx, InAnyContext(env.hook), one.compensations, two.compensations, two.world);
      }
    case Ignoring(body) => ProgramRestored(ctx, env, body, world);
    case InTransaction(_, _, body) => ProgramRestored(ctx, env, body, world);
    case _ =>
  }

  // How a transaction fails that does not commit: as its body did, errors staying
  // errors and panics panics, and with an error of its own just when it cannot
  // begin, or when its body returned and it cannot commit.
  function OwnFailure(begins: bool, body: Outcome): Outcome {
    if !begins then Failed(CANNOT_BEGIN)
    else match body
      case Returned => Failed(CANNOT_COMMIT)
      case Failed(e) => Failed(e)
      case Panicked(r) => Panicked(r)
  }

  // All or nothing, for any program run in a new transaction: it commits exactly
  // when the database lets it and the body returns; then its actions and its
  // post-commit hooks have happened, and otherwise nothing has, and the caller
  // learns why.
  lemma AllOrNothing<W>(env: Environment<W>, hasHooks: bool, begins: bool, commits: bool, body: Program, world: W)
    requires UndoneFrom(env, body, world)
    ensures var ran := Execute(env, false, hasHooks, InTransaction(begins, commits, body), world);
            var done := Execute(env, true, true, body, world);
            && (Committed in ran.log <==> begins && commits && done.outcome.Returned?)
            && (Committed in ran.log ==>
                  Acted(ran.world, ran.outcome) ==
                  RunAll(Background, InAnyContext(env.hook), done.postCommit, done.world).Effect())
            && (Committed !in ran.log ==> ran.world == world && !ran.outcome.Returned?)
            && (Committed !in ran.log ==> ran.outcome == OwnFailure(begins, done.outcome))
  {
    NestedTouchesNothing(env, true, body, world);
    ProgramRestored(Background, env, body, world);
  }

  method RunProgram<W>(env: Environment<W>, db: Database, ctx: Context, begins: bool, commits: bool, body: Program,
                       start: W)
    returns (world: W, outcome: Outcome)
    requires TxFromContext(ctx).None? && UndoneFrom(env, body, start) && db.log == []
    modifies db, HooksIn(ctx)
    ensures Committed in db.log <==> begins && commits && Execute(env, true, true, body, start).outcome.Returned?
    ensures Committed !in db.log ==>
              world == start && outcome == OwnFailure(begins, Execute(env, true, true, body, start).outcome)
  {
    world, outcome := WithTransaction(env, db, ctx, begins, commits, body, start);
    AllOrNothing(env, HooksFromContext(ctx).Some?, begins, commits, body, start);
  }

  // ---- Compensations that may fail ----

  type State<V> = map<string, V>

  // The same value under a key, or none in both.
  ghost predicate SameAt<V>(s: State<V>, t: State<V>, key: string) {
    (key in s <==> key in t) && (key in s ==> s[key] == t[key])
  }

  // An action on one key, whose compensation touches that key only, however it
  // ends, and restores what was there if it returns without error.
  ghost predicate KeyedStep<V(!new)>(ctx: Context, behave: Behaviour<State<V>>, compensation: nat, key: string,
                                     before: State<V>, after: State<V>) {
    && (forall k :: k != key ==> SameAt(after, before, k))
    && (forall s, k :: k != key ==> SameAt(behave(ctx, compensation, s).world, s, k))
    && (forall s :: behave(ctx, compensation, s).outcome.Returned? ==>
        SameAt(behave(ctx, compensation, s).world, before, key))
  }

  ghost predicate KeyedSaga<V(!new)>(ctx: Context, behave: Behaviour<State<V>>, compensations: seq<nat>,
                                     keys: seq<string>, states: seq<State<V>>) {
    && |keys| == |compensations| && |states| == |compensations| + 1
    && (forall i, j :: 0 <= i < j < |keys| ==> keys[i] != keys[j])
    && (forall i :: 0 <= i < |keys| ==> KeyedStep(ctx, behave, compensations[i], keys[i], states[i], states[i + 1]))
  }

  // The state in which compensation i is attempted during a rollback.
  ghost function AttemptedIn<W>(ctx: Context, behave: Behaviour<W>, compensations: seq<nat>, world: W, i: nat): W
    requires i < |compensations|
  {
    var n := |compensations|;
    if i == n - 1 then world
    else AttemptedIn(ctx, behave, compensations[..n - 1], behave(ctx, compensations[n - 1], world).world, i)
  }

  ghost predicate Compensated<W>(ctx: Context, behave: Behaviour<W>, compensations: seq<nat>, world: W, i: nat)
    requires i < |compensations|
  {
    behave(ctx, compensations[i], AttemptedIn(ctx, behave, compensations, world, i)).outcome.Returned?
  }

  // From any state: keys of no action stay, and the key of every compensation
  // that returns gets back what its action found.
  lemma {:induction false} KeysGivenBack<V(!new)>(
    ctx: Context, behave: Behaviour<State<V>>, compensations: seq<nat>, keys: seq<string>, states: seq<State<V>>,
        state: State<V>)
    requires KeyedSaga(ctx, behave, compensations, keys, states)
    ensures var end := Rollback(ctx, behave, compensations, state).world;
            && (forall k :: k !in keys ==> SameAt(end, state, k))
            && (forall i :: 0 <= i < |keys| && Compensated(ctx, behave, compensations, state, i) ==>
                SameAt(end, states[i], keys[i]))
  {
    var n := |compensations|;
    if n > 0 {
      var attempt := behave(ctx, compensations[n - 1], state);
      var earlier := compensations[..n - 1];
      assert KeyedStep(ctx, behave, compensations[n - 1], keys[n - 1], states[n - 1], states[n]);
      EarlierSteps(ctx, behave, compensations, keys, states);
      KeysGivenBack(ctx, behave, earlier, keys[..n - 1], states[..n], attempt.world);
      var end := Rollback(ctx, behave, earlier, attempt.world).world;
      assert end == Rollback(ctx, behave, compensations, state).world;
      assert keys[n - 1] !in keys[..n - 1];
      forall i | 0 <= i < n && Compensated(ctx, behave, compensations, state, i)
          ensures SameAt(end, states[i], keys[i]) {
        if i < n - 1 {
          assert Compensated(ctx, behave, earlier, attempt.world, i);
          assert states[..n][i] == states[i] && keys[..n - 1][i] == keys[i];
        }
      }
      forall k | k !in keys ensures SameAt(end, state, k) {
        assert k != keys[n - 1] && k !in keys[..n - 1];
        assert SameAt(end, attempt.world, k) && SameAt(attempt.world, state, k);
      }
    }
  }

  lemma EarlierSteps<V(!new)>(ctx: Context, behave: Behaviour<State<V>>, compensations: seq<nat>, keys: seq<string>,
                              states: seq<State<V>>)
    requires KeyedSaga(ctx, behave, compensations, keys, states) && |compensations| > 0
    ensures var n := |compensations|; KeyedSaga(ctx, behave, compensations[..n - 1], keys[..n - 1], states[..n])
  {
    var n := |compensations|;
    forall i | 0 <= i < n - 1
      ensures KeyedStep(ctx, behave, compensations[..n - 1][i], keys[..n - 1][i], states[..n][i], states[..n][i + 1])
    {
      assert KeyedStep(ctx, behave, compensations[i], keys[i], states[i], states[i + 1]);
    }
  }

  // Actions on disjoint keys: what action i found under its key is what was
  // there at the start, and keys of no action never changed.
  lemma {:induction false} KeysUntilThen<V(!new)>(
    ctx: Context, behave: Behaviour<State<V>>, compensations: seq<nat>, keys: seq<string>, states: seq<State<V>>,
        i: nat, key: string)
    requires KeyedSaga(ctx, behave, compensations, keys, states)
    requires i <= |keys| && forall j :: 0 <= j < i ==> keys[j] != key
    ensures SameAt(states[i], states[0], key)
  {
    if i > 0 {
      KeysUntilThen(ctx, behave, compensations, keys, states, i - 1, key);
      assert KeyedStep(ctx, behave, compensations[i - 1], keys[i - 1], states[i - 1], states[i]);
      assert key != keys[i - 1] && SameAt(states[i], states[i - 1], key);
    }
  }

  // The saga theorem for disjoint keys: after the rollback every key whose
  // compensation returned holds what it held before the transaction, even if
  // other compensations failed or panicked, and so does every other key.
  lemma DisjointKeysRestored<V(!new)>(ctx: Context, behave: Behaviour<State<V>>, compensations: seq<nat>,
                                      keys: seq<string>, states: seq<State<V>>)
    requires KeyedSaga(ctx, behave, compensations, keys, states)
    ensures var last := states[|compensations|];
            var end := Rollback(ctx, behave, compensations, last).world;
            && (forall i :: 0 <= i < |keys| && Compensated(ctx, behave, compensations, last, i) ==>
                SameAt(end, states[0], keys[i]))
            && (forall k :: k !in keys ==> SameAt(end, states[0], k))
  {
    var last := states[|compensations|];
    var end := Rollback(ctx, behave, compensations, last).world;
    KeysGivenBack(ctx, behave, compensations, keys, states, last);
    forall i | 0 <= i < |keys| && Compensated(ctx, behave, compensations, last, i)
        ensures SameAt(end, states[0], keys[i]) {
      KeysUntilThen(ctx, behave, compensations, keys, states, i, keys[i]);
    }
    forall k | k !in keys ensures SameAt(end, states[0], k) {
      KeysUntilThen(ctx, behave, compensations, keys, states, |keys|, k);
    }
  }

  lemma AttemptedEarlier<W>(ctx: Context, behave: Behaviour<W>, compensations: seq<nat>, world: W, i: nat)
    requires i < |compensations| - 1
    ensures var n := |compensations|;
            Compensated(ctx, behave, compensations, world, i) <==>
            Compensated(ctx, behave, compensations[..n - 1], behave(ctx, compensations[n - 1], world).world, i)
  {}

  ghost predicate AllCompensated<W>(ctx: Context, behave: Behaviour<W>, compensations: seq<nat>, world: W) {
    forall i :: 0 <= i < |compensations| ==> Compensated(ctx, behave, compensations, world, i)
  }

  lemma AllCompensatedEarlier<W>(ctx: Context, behave: Behaviour<W>, compensations: seq<nat>, world: W)
    requires compensations != []
    ensures var n := |compensations|;
            var attempt := behave(ctx, compensations[n - 1], world);
            AllCompensated(ctx, behave, compensations, world) <==>
            attempt.outcome.Returned? && AllCompensated(ctx, behave, compensations[..n - 1], attempt.world)
  {
    var n := |compensations|;
    var attempt := behave(ctx, compensations[n - 1], world);
    var earlier := compensations[..n - 1];
    assert Compensated(ctx, behave, compensations, world, n - 1) <==> attempt.outcome.Returned?;
    if AllCompensated(ctx, behave, compensations, world) {
      forall i | 0 <= i < n - 1 ensures Compensated(ctx, behave, earlier, attempt.world, i) {
        assert Compensated(ctx, behave, compensations, world, i);
        AttemptedEarlier(ctx, behave, compensations, world, i);
      }
    }
    if attempt.outcome.Returned? && AllCompensated(ctx, behave, earlier, attempt.world) {
      forall i | 0 <= i < n ensures Compensated(ctx, behave, compensations, world, i) {
        if i < n - 1 {
          assert Compensated(ctx, behave, earlier, attempt.world, i);
          AttemptedEarlier(ctx, behave, compensations, world, i);
        }
      }
    }
  }

  // No error is reported exactly when every compensation returned.
  lemma {:induction false} ErrorsAreReported<W>(ctx: Context, behave: Behaviour<W>, compensations: seq<nat>, world: W)
    ensures Rollback(ctx, behave, compensations, world).errors == [] <==>
        AllCompensated(ctx, behave, compensations, world)
  {
    var n := |compensations|;
    if n > 0 {
      var attempt := behave(ctx, compensations[n - 1], world);
      var earlier := Rollback(ctx, behave, compensations[..n - 1], attempt.world);
      ErrorsAreReported(ctx, behave, compensations[..n - 1], attempt.world);
      assert ErrorsOf(attempt.outcome) + earlier.errors == [] <==> attempt.outcome.Returned? && earlier.errors == [];
      AllCompensatedEarlier(ctx, behave, compensations, world);
    }
  }

  // So a rollback that reports no error restores the whole state.
  lemma CleanRollbackRestores<V(!new)>(ctx: Context, behave: Behaviour<State<V>>, compensations: seq<nat>,
                                       keys: seq<string>, states: seq<State<V>>)
    requires KeyedSaga(ctx, behave, compensations, keys, states)
    requires Rollback(ctx, behave, compensations, states[|compensations|]).errors == []
    ensures Rollback(ctx, behave, compensations, states[|compensations|]).world == states[0]
  {
    var end := Rollback(ctx, behave, compensations, states[|compensations|]).world;
    ErrorsAreReported(ctx, behave, compensations, states[|compensations|]);
    DisjointKeysRestored(ctx, behave, compensations, keys, states);
    forall k ensures SameAt(end, states[0], k) {
      if k in keys {
        var i :| 0 <= i < |keys| && keys[i] == k;
        assert Compensated(ctx, behave, compensations, states[|compensations|], i);
      }
    }
    forall k ensures k in end <==> k in states[0] {
      assert SameAt(end, states[0], k);
    }
    forall k | k in end ensures end[k] == states[0][k] {
      assert SameAt(end, states[0], k);
    }
  }
}
