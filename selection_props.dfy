/**
 * Properties of the shard-selection state machine: what `using` restores
 * and releases, what it leaves alone, and where queries inside it go.
 */
module SelectionProps {
  import opened Wrappers
  import opened ShardNames
  import opened Selection

  /** Number of `using` calls an action makes, at any depth. */
  function Calls(a: Action): nat
    decreases a
  {
    match a
    case Nested(_, body) => 1 + BlockCalls(body)
    case _ => 0
  }

  function BlockCalls(body: seq<Action>): nat
    decreases body
  {
    if body == [] then 0 else Calls(body[0]) + BlockCalls(body[1..])
  }

  /** Number of `setup` calls an action makes, at any depth. */
  function Setups(a: Action): nat
    decreases a
  {
    match a
    case Configure(_) => 1
    case Nested(_, body) => BlockSetups(body)
    case _ => 0
  }

  function BlockSetups(body: seq<Action>): nat
    decreases body
  {
    if body == [] then 0 else Setups(body[0]) + BlockSetups(body[1..])
  }

  /**
   * `after` is reachable from `before` by running a block that makes `calls`
   * calls to `using` and `setups` calls to `setup`: without a `setup` the
   * handler is untouched, once installed a handler stays installed,
   * connections were released at most once per `using` call, earlier routing
   * decisions are kept, and a selection in stored form stays in stored form.
   */
  predicate Follows(before: State, after: State, calls: nat, setups: nat)
  {
    && (setups == 0 ==> after.handler == before.handler)
    && (before.handler.Some? ==> after.handler.Some?)
    && before.releases <= after.releases <= before.releases + calls
    && before.routed <= after.routed
    && (Normalised(before.current) ==> Normalised(after.current))
  }

  lemma {:induction false} ActionFrame(st: State, a: Action)
    ensures Follows(st, ExecAction(st, a).state, Calls(a), Setups(a))
    decreases a
  {
    match a
    case SetShard(_) =>
    case Configure(_) =>
    case Query =>
    case Raise =>
    case Nested(shard, body) => UsingFrame(st, shard, body);
  }

  lemma {:induction false} BlockFrame(st: State, body: seq<Action>)
    ensures Follows(st, ExecBlock(st, body).state, BlockCalls(body), BlockSetups(body))
    decreases body, 0
  {
    if body != [] {
      var s := ExecAction(st, body[0]);
      ActionFrame(st, body[0]);
      if s.outcome.Normal? {
        BlockFrame(s.state, body[1..]);
      }
    }
  }

  /** One `using` call releases at most once per `using` call it makes, itself included. */
  lemma {:induction false} UsingFrame(st: State, shard: Option<Name>, body: seq<Action>)
    ensures Follows(st, RunUsing(st, shard, body).state, 1 + BlockCalls(body), BlockSetups(body))
    decreases body, 1
  {
    BlockFrame(Select(st, shard), body);
  }

  /**
   * The two exits of `using`. If the selection at exit is the saved one, or
   * the release can be routed, the saved selection is back, the block's
   * outcome, normal or raised, is the call's, and one release was made
   * exactly when the selection at exit differed from the saved one. Otherwise the release raises
   * `SetupError`: the selection at exit stays and nothing is released.
   */
  lemma UsingRestores(st: State, shard: Option<Name>, body: seq<Action>)
    requires Normalised(st.current)
    ensures var inner := ExecBlock(Select(st, shard), body);
            var r := RunUsing(st, shard, body);
      if inner.state.current == st.current || Route(inner.state.current, inner.state.handler).Ok?
      then && r.state.current == st.current
           && r.outcome == inner.outcome
           && r.state.releases == inner.state.releases + (if inner.state.current != st.current then 1 else 0)
      else && r.state.current == inner.state.current
           && r.state.releases == inner.state.releases
           && r.outcome == Raised(SetupError(NotSetupMessage))
  {
    CastFixesNormalised(st.current);
  }

  /**
   * Once a handler is installed, `using` always restores the selection it
   * found and passes on its block's outcome, at any nesting depth.
   */
  lemma UsingRestoresAfterSetup(st: State, shard: Option<Name>, body: seq<Action>)
    requires Normalised(st.current)
    requires st.handler.Some?
    ensures RunUsing(st, shard, body).state.current == st.current
    ensures RunUsing(st, shard, body).outcome == ExecBlock(Select(st, shard), body).outcome
  {
    BlockFrame(Select(st, shard), body);
    UsingRestores(st, shard, body);
  }

  /** A block that never assigns the selection itself (it may still call `using`). */
  predicate Scoped(body: seq<Action>)
  {
    forall i :: 0 <= i < |body| ==> !body[i].SetShard?
  }

  /**
   * A scoped block leaves the selection where it found it, unless a nested
   * `using` could not release before `setup` and raised `SetupError`; once a
   * handler is installed it always does.
   */
  lemma {:induction false} ScopedBlockKeepsSelection(st: State, body: seq<Action>)
    requires Normalised(st.current)
    requires Scoped(body)
    ensures var r := ExecBlock(st, body);
      r.state.current == st.current || r.outcome == Raised(SetupError(NotSetupMessage))
    ensures st.handler.Some? ==> ExecBlock(st, body).state.current == st.current
    decreases body
  {
    if body != [] {
      var s := ExecAction(st, body[0]);
      ActionFrame(st, body[0]);
      assert s.state.current == st.current || s.outcome == Raised(SetupError(NotSetupMessage)) by {
        match body[0]
        case Configure(_) =>
        case Query =>
        case Raise =>
        case Nested(shard, inner) => UsingRestores(st, shard, inner);
      }
      assert st.handler.Some? ==> s.state.current == st.current by {
        if st.handler.Some? && body[0].Nested? {
          UsingRestoresAfterSetup(st, body[0].shard, body[0].body);
        }
      }
      if s.outcome.Normal? {
        assert Scoped(body[1..]) by {
          forall i | 0 <= i < |body[1..]| ensures !body[1..][i].SetShard? {
            assert body[1..][i] == body[i + 1];
          }
        }
        ScopedBlockKeepsSelection(s.state, body[1..]);
      }
    }
  }

  /**
   * After `setup`, for a scoped block, `using(shard)` adds exactly one
   * release to those of its block when `shard` differs from the selection on
   * entry, and none otherwise.
   */
  lemma UsingReleasesIffChanged(st: State, shard: Option<Name>, body: seq<Action>)
    requires Normalised(st.current)
    requires st.handler.Some?
    requires Scoped(body)
    ensures RunUsing(st, shard, body).state.releases
         == ExecBlock(Select(st, shard), body).state.releases + (if Cast(shard) != st.current then 1 else 0)
  {
    ScopedBlockKeepsSelection(Select(st, shard), body);
    BlockFrame(Select(st, shard), body);
  }

  /**
   * After `setup`, `using(:shard1) { using('shard1') { body } }`: the inner
   * call releases nothing, so only the outer one may, and only when the
   * selection on entry was another one.
   */
  lemma SameShardNestedReleasesNothing(st: State, outer: Name, inner: Name, body: seq<Action>)
    requires Normalised(st.current)
    requires st.handler.Some?
    requires outer.chars == inner.chars
    requires Scoped(body)
    ensures RunUsing(st, Some(outer), [Nested(Some(inner), body)]).state.releases
         == ExecBlock(Select(st, Some(outer)), body).state.releases + (if Cast(Some(outer)) != st.current then 1 else 0)
  {
    var entered := Select(st, Some(outer));
    CastIdentifies(outer, inner);
    assert Select(entered, Some(inner)) == entered;
    UsingReleasesIffChanged(entered, Some(inner), body);
    assert Scoped([Nested(Some(inner), body)]);
    UsingReleasesIffChanged(st, Some(outer), [Nested(Some(inner), body)]);
  }

  /** A block made only of queries and raises. */
  predicate QueriesOnly(body: seq<Action>)
  {
    forall i :: 0 <= i < |body| ==> body[i].Query? || body[i].Raise?
  }

  /**
   * Every query of a queries-only block goes where `connection_handler`
   * points for the selection at hand; nothing but the routing log changes,
   * and a routing failure on the first query is the block's outcome.
   */
  lemma {:induction false} QueriesFollowRoute(st: State, body: seq<Action>)
    requires QueriesOnly(body)
    ensures var r := ExecBlock(st, body);
      && r.state.current == st.current
      && r.state.handler == st.handler
      && r.state.releases == st.releases
      && st.routed <= r.state.routed
      && (forall i :: |st.routed| <= i < |r.state.routed| ==> Route(st.current, st.handler) == Ok(r.state.routed[i]))
      && (r.outcome.Raised? ==> r.outcome.error == BodyError || Route(st.current, st.handler) == Err(r.outcome.error))
      && (body != [] && body[0].Query? && Route(st.current, st.handler).Err? ==> r.outcome == Raised(Route(st.current, st.handler).error))
    decreases body
  {
    if body != [] {
      var s := ExecAction(st, body[0]);
      if s.outcome.Normal? {
        assert QueriesOnly(body[1..]) by {
          forall i | 0 <= i < |body[1..]| ensures body[1..][i].Query? || body[1..][i].Raise? {
            assert body[1..][i] == body[i + 1];
          }
        }
        QueriesFollowRoute(s.state, body[1..]);
      }
    }
  }

  /**
   * After `setup`, every query inside `using(name)` goes to the installed
   * handler's connection handler for the Symbol form of `name`, and never to
   * the default one; `'shard1'` and `:shard1` route identically.
   */
  lemma SelectedShardRoutesToHandler(st: State, h: Handler, name: Name, body: seq<Action>)
    requires st.handler == Some(h)
    requires QueriesOnly(body)
    ensures var r := RunUsing(st, Some(name), body).state;
      && st.routed <= r.routed
      && (forall i :: |st.routed| <= i < |r.routed| ==> r.routed[i] == ShardHandle(h, Sym(name.chars)))
      && RunUsing(st, Some(name), body).outcome != Raised(SetupError(NotSetupMessage))
  {
    QueriesFollowRoute(Select(st, Some(name)), body);
  }

  /**
   * With no shard selected every query goes to the default handler, and no
   * `SetupError` is raised whether or not `setup` ran.
   */
  lemma NoShardRoutesToMaster(st: State, body: seq<Action>)
    requires st.current.None?
    requires QueriesOnly(body)
    ensures var r := ExecBlock(st, body);
      && st.routed <= r.state.routed
      && (forall i :: |st.routed| <= i < |r.state.routed| ==> r.state.routed[i] == Master)
      && (r.outcome.Raised? ==> r.outcome.error == BodyError)
  {
    QueriesFollowRoute(st, body);
  }

  /**
   * Before `setup`, the first query inside `using(name)` raises `SetupError`
   * out of `using`, nothing is routed, and `name` is selected afterwards:
   * either it already was, or the release raises too and skips the
   * write-back.
   */
  lemma QueryBeforeSetupRaises(st: State, name: Name, rest: seq<Action>)
    requires st.handler.None?
    requires Normalised(st.current)
    ensures var s := RunUsing(st, Some(name), [Query] + rest);
      && s.outcome == Raised(SetupError(NotSetupMessage))
      && s.state.current == Cast(Some(name))
      && s.state.routed == st.routed
      && s.state.releases == st.releases
  {
    var body := [Query] + rest;
    assert body[0] == Query;
    UsingRestores(st, Some(name), body);
  }

  /**
   * Before `setup`, `using(name)` around queries and raises, entered from
   * another selection, ends with `SetupError` from the release and leaves
   * `name` selected, even for an empty block: `using(:s1) { }` from no
   * selection leaves `:s1` selected.
   */
  lemma UsingBeforeSetupKeepsShard(st: State, name: Name, body: seq<Action>)
    requires st.handler.None?
    requires Normalised(st.current)
    requires Cast(Some(name)) != st.current
    requires QueriesOnly(body)
    ensures var s := RunUsing(st, Some(name), body);
      && s.outcome == Raised(SetupError(NotSetupMessage))
      && s.state.current == Cast(Some(name))
      && s.state.releases == st.releases
      && s.state.routed == st.routed
  {
    var entered := Select(st, Some(name));
    QueriesFollowRoute(entered, body);
  }

  /**
   * With the write-back made unconditional, `using` restores the selection
   * it found on every exit, before `setup` too, and it is `using` as written
   * wherever the release was not needed or could be routed.
   */
  lemma RestoringUsingAlwaysRestores(st: State, shard: Option<Name>, body: seq<Action>)
    requires Normalised(st.current)
    ensures RunUsingRestoring(st, shard, body).state.current == st.current
    ensures var exit := ExecBlock(Select(st, shard), body).state;
      exit.current == st.current || Route(exit.current, exit.handler).Ok?
      ==> RunUsingRestoring(st, shard, body) == RunUsing(st, shard, body)
  {
    CastFixesNormalised(st.current);
  }

  /**
   * A block runs its actions in order and stops at the first raise: running
   * `a + b` is running `a`, then, only if `a` ended normally, running `b`
   * from where `a` left off.
   */
  lemma {:induction false} ExecBlockAppend(st: State, a: seq<Action>, b: seq<Action>)
    ensures ExecBlock(st, a + b)
         == (var s := ExecBlock(st, a); if s.outcome.Raised? then s else ExecBlock(s.state, b))
    decreases a
  {
    if a == [] {
      assert a + b == b;
    } else {
      assert (a + b)[0] == a[0];
      assert (a + b)[1..] == a[1..] + b;
      var s := ExecAction(st, a[0]);
      if s.outcome.Normal? {
        ExecBlockAppend(s.state, a[1..], b);
      }
    }
  }
}
