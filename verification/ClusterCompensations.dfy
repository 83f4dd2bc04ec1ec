// The two compensations that the cluster service registers, as actions on which
// cluster is registered with which credentials.
module ClusterCompensations {
  import opened Wrappers
  import opened ClusterManager
  import opened TransactionHooks
  import opened Transactions
  import opened Saga

  type View = map<string, Credentials>

  function ViewOf(r: Registry): View {
    map id | id in r.registered :: r.registered[id].credentials
  }

  // The view after an operation, and whether the operation succeeded.
  datatype Changed = Changed(view: View, ok: bool)

  function AfterRegister(libs: Libraries, v: View, id: string, c: Credentials): Changed {
    if id in v then Changed(v, true)
    else if Connected(libs, c).None? then Changed(v, false)
    else Changed(v[id := Connected(libs, c).value.0], true)
  }

  function AfterUnregister(v: View, id: string, removes: bool): Changed {
    if id in v && !removes then Changed(v, false) else Changed(v - {id}, true)
  }

  function AfterReRegister(libs: Libraries, v: View, id: string, c: Credentials, removes: bool): Changed {
    var first := AfterUnregister(v, id, removes);
    if first.ok then AfterRegister(libs, first.view, id, c) else first
  }

  // These are what the manager's operations do to the view of its registry.
  lemma ManagerRefinesView(libs: Libraries, fns: seq<nat>, r: Registry, id: string, c: Credentials, removes: bool)
    ensures var after := Register(libs, fns, r, id, c);
            Changed(ViewOf(after.0), after.1) == AfterRegister(libs, ViewOf(r), id, c)
    ensures var after := Unregister(r, id, removes);
            Changed(ViewOf(after.0), after.1) == AfterUnregister(ViewOf(r), id, removes)
  {
    assert ViewOf(Register(libs, fns, r, id, c).0) == AfterRegister(libs, ViewOf(r), id, c).view;
    assert ViewOf(Unregister(r, id, removes).0) == AfterUnregister(ViewOf(r), id, removes).view;
  }

  function AsAction(after: Changed): Acted<View> {
    Acted(after.view, if after.ok then Returned else Failed("cluster manager"))
  }

  function AsAttempt(after: Changed): Attempt<View> {
    Attempt(after.view, AsAction(after).outcome, [], [])
  }

  // Action 0 registers a new cluster and compensation 0 unregisters it, if the
  // supervisor removes its service then; the rest is given.
  function Creating(libs: Libraries, id: string, c: Credentials, removesBack: bool, others: Environment<View>)
    : Environment<View>
  {
    Environment((a, v) => if a == 0 then AsAction(AfterRegister(libs, v, id, c)) else others.act(a, v),
                (h, v) => if h == 0 then AsAttempt(AfterUnregister(v, id, removesBack)) else others.hook(h, v))
  }

  // Action 0 registers a cluster again with new credentials, and compensation 0
  // with the previous ones; the supervisor removes the service or not, each time.
  function Updating(libs: Libraries, id: string, previous: Credentials, c: Credentials, removes: bool,
                    removesBack: bool, others: Environment<View>): Environment<View>
  {
    Environment((a, v) => if a == 0 then AsAction(AfterReRegister(libs, v, id, c, removes)) else others.act(a, v),
                (h, v) => if h == 0 then AsAttempt(AfterReRegister(libs, v, id, previous, removesBack))
                          else others.hook(h, v))
  }

  // ---- What the compensations give back ----

  function CreatedAndBack(libs: Libraries, v: View, id: string, c: Credentials, removesBack: bool): View {
    AfterUnregister(AfterRegister(libs, v, id, c).view, id, removesBack).view
  }

  function UpdatedAndBack(libs: Libraries, v: View, id: string, previous: Credentials, c: Credentials, removes: bool,
                          removesBack: bool): View
  {
    AfterReRegister(libs, AfterReRegister(libs, v, id, c, removes).view, id, previous, removesBack).view
  }

  // Unregistering gives back what registering found exactly when, if the cluster
  // was registered before, the service is not removed, and otherwise it is, or
  // there was nothing to register.
  predicate CreationGoesBack(libs: Libraries, v: View, id: string, c: Credentials, removesBack: bool) {
    if id in v then !removesBack else removesBack || Connected(libs, c).None?
  }

  // The cluster is registered after the update, whether it failed or not.
  predicate StaysRegistered(libs: Libraries, v: View, id: string, c: Credentials, removes: bool) {
    (id in v && !removes) || Connected(libs, c).Some?
  }

  // Registering the previous credentials again gives back what the update found
  // exactly when those were registered, or, if they do not connect, nothing was;
  // and when the service of a cluster registered after the update is not removed,
  // exactly when the update had changed nothing.
  predicate UpdateGoesBack(libs: Libraries, v: View, id: string, previous: Credentials, c: Credentials, removes: bool,
                           removesBack: bool)
  {
    if removesBack || !StaysRegistered(libs, v, id, c, removes) then
      if Connected(libs, previous).None? then id !in v else id in v && v[id] == Connected(libs, previous).value.0
    else
      id in v && (!removes || v[id] == Connected(libs, c).value.0)
  }

  lemma CreatedAndBackExactly(libs: Libraries, v: View, id: string, c: Credentials, removesBack: bool)
    ensures CreatedAndBack(libs, v, id, c, removesBack) == v <==> CreationGoesBack(libs, v, id, c, removesBack)
  {
    var back := CreatedAndBack(libs, v, id, c, removesBack);
    if id in v {
      assert back == if removesBack then v - {id} else v;
    } else if removesBack || Connected(libs, c).None? {
      assert back == v;
    } else {
      assert id in back;
    }
  }

  lemma UpdatedAndBackExactly(libs: Libraries, v: View, id: string, previous: Credentials, c: Credentials,
                              removes: bool, removesBack: bool)
    ensures UpdatedAndBack(libs, v, id, previous, c, removes, removesBack) == v <==>
            UpdateGoesBack(libs, v, id, previous, c, removes, removesBack)
  {
    var updated := AfterReRegister(libs, v, id, c, removes).view;
    UpdatedIs(libs, v, id, c, removes);
    if removesBack || id !in updated {
      assert updated - {id} == v - {id};
      ReplacedIsSame(v, id, Connected(libs, previous));
    } else {
      assert UpdatedAndBack(libs, v, id, previous, c, removes, removesBack) == updated;
    }
  }

  lemma UpdatedIs(libs: Libraries, v: View, id: string, c: Credentials, removes: bool)
    ensures var updated := AfterReRegister(libs, v, id, c, removes).view;
            && updated - {id} == v - {id}
            && (id in updated <==> StaysRegistered(libs, v, id, c, removes))
            && (id in updated ==>
                  (updated == v <==> id in v && (!removes || v[id] == Connected(libs, c).value.0)))
  {
    var updated := AfterReRegister(libs, v, id, c, removes).view;
    if Connected(libs, c).Some? && (id in v ==> removes) {
      ReplacedIsSame(v, id, Connected(libs, c));
      assert updated == (v - {id})[id := Connected(libs, c).value.0];
    }
  }

  lemma ReplacedIsSame(v: View, id: string, made: Option<(Credentials, RestConfig, Client)>)
    ensures (if made.None? then v - {id} else (v - {id})[id := made.value.0]) == v <==>
            if made.None? then id !in v else id in v && v[id] == made.value.0
  {
    if made.None? {
      assert id !in v ==> v - {id} == v;
    } else {
      var w := (v - {id})[id := made.value.0];
      if id in v && v[id] == made.value.0 {
        assert w == v;
      }
      assert w == v ==> v[id] == w[id];
    }
  }

  // ---- In transactions ----

  // The compensation of a creation undoes it, failed or not, exactly then.
  lemma CreationIsUndone(libs: Libraries, id: string, c: Credentials, removesBack: bool, others: Environment<View>,
                         v: View)
    ensures UndoneFrom(Creating(libs, id, c, removesBack, others), RegisterThenAct(0, 0), v) <==>
            CreationGoesBack(libs, v, id, c, removesBack)
  {
    CreationSteps(libs, id, c, removesBack, others, v);
    GuardedIsUndone(Creating(libs, id, c, removesBack, others), 0, 0, v,
                    CreatedAndBack(libs, v, id, c, removesBack));
    CreatedAndBackExactly(libs, v, id, c, removesBack);
  }

  lemma CreationSteps(libs: Libraries, id: string, c: Credentials, removesBack: bool, others: Environment<View>,
                      v: View)
    ensures var env, created := Creating(libs, id, c, removesBack, others), AfterRegister(libs, v, id, c);
            && env.act(0, v) == AsAction(created)
            && env.hook(0, created.view).world == CreatedAndBack(libs, v, id, c, removesBack)
  {
    var env, created := Creating(libs, id, c, removesBack, others), AfterRegister(libs, v, id, c);
    assert env.hook(0, created.view) == AsAttempt(AfterUnregister(created.view, id, removesBack));
  }

  // The compensation of an update undoes it, failed at either half or not, exactly then.
  lemma UpdateIsUndone(libs: Libraries, id: string, previous: Credentials, c: Credentials, removes: bool,
                       removesBack: bool, others: Environment<View>, v: View)
    ensures UndoneFrom(Updating(libs, id, previous, c, removes, removesBack, others), RegisterThenAct(0, 0), v) <==>
            UpdateGoesBack(libs, v, id, previous, c, removes, removesBack)
  {
    UpdateSteps(libs, id, previous, c, removes, removesBack, others, v);
    GuardedIsUndone(Updating(libs, id, previous, c, removes, removesBack, others), 0, 0, v,
                    UpdatedAndBack(libs, v, id, previous, c, removes, removesBack));
    UpdatedAndBackExactly(libs, v, id, previous, c, removes, removesBack);
  }

  lemma UpdateSteps(libs: Libraries, id: string, previous: Credentials, c: Credentials, removes: bool,
                    removesBack: bool, others: Environment<View>, v: View)
    ensures var env := Updating(libs, id, previous, c, removes, removesBack, others);
            var updated := AfterReRegister(libs, v, id, c, removes);
            && env.act(0, v) == AsAction(updated)
            && env.hook(0, updated.view).world == UpdatedAndBack(libs, v, id, previous, c, removes, removesBack)
  {
    var env := Updating(libs, id, previous, c, removes, removesBack, others);
    var updated := AfterReRegister(libs, v, id, c, removes);
    assert env.hook(0, updated.view) == AsAttempt(AfterReRegister(libs, updated.view, id, previous, removesBack));
  }

  lemma GuardedIsUndone<W>(env: Environment<W>, a: nat, h: nat, world: W, back: W)
    requires env.hook(h, env.act(a, world).world).world == back
    ensures UndoneFrom(env, RegisterThenAct(a, h), world) <==> back == world
  {}

  // A transaction that creates a cluster and then does not commit, failing
  // anywhere in what follows: the registered clusters are as they were exactly
  // when the compensation undoes the creation.
  lemma FailedCreationExactly(libs: Libraries, id: string, c: Credentials, removesBack: bool,
                              others: Environment<View>, hasHooks: bool, commits: bool, rest: Program, v: View)
    requires var created := AfterRegister(libs, v, id, c);
             created.ok ==> UndoneFrom(Creating(libs, id, c, removesBack, others), rest, created.view)
    ensures var ran := Execute(Creating(libs, id, c, removesBack, others), false, hasHooks,
                               InTransaction(true, commits, Then(RegisterThenAct(0, 0), rest)), v);
            Committed !in ran.log ==> (ran.world == v <==> CreationGoesBack(libs, v, id, c, removesBack))
  {
    CreationSteps(libs, id, c, removesBack, others, v);
    GuardedRollsBack(Creating(libs, id, c, removesBack, others), hasHooks, commits, 0, 0, rest, v,
                     AsAction(AfterRegister(libs, v, id, c)));
    CreatedAndBackExactly(libs, v, id, c, removesBack);
  }

  // The same for a transaction that updates a cluster.
  lemma FailedUpdateExactly(libs: Libraries, id: string, previous: Credentials, c: Credentials, removes: bool,
                            removesBack: bool, others: Environment<View>, hasHooks: bool, commits: bool,
                            rest: Program, v: View)
    requires var updated := AfterReRegister(libs, v, id, c, removes);
             updated.ok ==>
               UndoneFrom(Updating(libs, id, previous, c, removes, removesBack, others), rest, updated.view)
    ensures var ran := Execute(Updating(libs, id, previous, c, removes, removesBack, others), false, hasHooks,
                               InTransaction(true, commits, Then(RegisterThenAct(0, 0), rest)), v);
            Committed !in ran.log ==>
              (ran.world == v <==> UpdateGoesBack(libs, v, id, previous, c, removes, removesBack))
  {
    UpdateSteps(libs, id, previous, c, removes, removesBack, others, v);
    GuardedRollsBack(Updating(libs, id, previous, c, removes, removesBack, others), hasHooks, commits, 0, 0, rest, v,
                     AsAction(AfterReRegister(libs, v, id, c, removes)));
    UpdatedAndBackExactly(libs, v, id, previous, c, removes, removesBack);
  }

  // In particular, a cluster created under a fresh id is gone after the failure
  // if its service is removed.
  lemma FailedCreationLeavesNothing(libs: Libraries, id: string, c: Credentials, others: Environment<View>,
                                    hasHooks: bool, begins: bool, commits: bool, rest: Program, v: View)
    requires id !in v
    requires var created := AfterRegister(libs, v, id, c);
             created.ok ==> UndoneFrom(Creating(libs, id, c, true, others), rest, created.view)
    ensures var ran := Execute(Creating(libs, id, c, true, others), false, hasHooks,
                               InTransaction(begins, commits, Then(RegisterThenAct(0, 0), rest)), v);
            Committed !in ran.log ==> ran.world == v
  {
    if begins {
      FailedCreationExactly(libs, id, c, true, others, hasHooks, commits, rest, v);
    }
  }

  // A guarded action first, then a program that is undone: when the transaction
  // does not commit, what is left is what the action's compensation makes of what
  // the action left.
  lemma GuardedRollsBack<W>(env: Environment<W>, hasHooks: bool, commits: bool, a: nat, h: nat, rest: Program, world: W,
                            acted: Acted<W>)
    requires env.act(a, world) == acted && (acted.outcome.Returned? ==> UndoneFrom(env, rest, acted.world))
    ensures var ran := Execute(env, false, hasHooks, InTransaction(true, commits, Then(RegisterThenAct(a, h), rest)),
                               world);
            Committed !in ran.log ==> ran.world == env.hook(h, acted.world).world
  {
    var behave := InAnyContext(env.hook);
    var done := Execute(env, true, true, Then(RegisterThenAct(a, h), rest), world);
    NestedTouchesNothing(env, true, Then(RegisterThenAct(a, h), rest), world);
    OneCompensation(env, h, acted.world);
    if acted.outcome.Returned? {
      var two := Execute(env, true, true, rest, acted.world);
      assert done.world == two.world && done.compensations == [h] + two.compensations;
      ProgramRestored(Background, env, rest, acted.world);
      RollbackAppend(Background, behave, [h], two.compensations, two.world);
    }
  }

  lemma OneCompensation<W>(env: Environment<W>, h: nat, world: W)
    ensures Rollback(Background, InAnyContext(env.hook), [h], world).world == env.hook(h, world).world
  {
    assert [h][..0] == [];
  }
}
