/**
 * `ShardHandler::Model` for one execution context: the selected shard, the
 * class-wide handler installed by `setup`, a count of the times active
 * connections were released, and the handlers queries were routed to.
 * Every method is proved against the state machine of module Selection.
 */
module ShardModel {
  import opened Wrappers
  import opened ShardNames
  import opened Selection
  import SelectionProps

  class Model {
    var current: Option<Name>    // the context's current shard slot
    var handler: Option<Handler> // the class-wide handler; None until `setup`
    var releases: nat            // calls made to release active connections
    var routed: seq<ConnHandle>  // where each query so far was routed

    /** The selection is only ever stored in Symbol form. */
    ghost predicate Valid()
      reads this
    {
      Normalised(current)
    }

    /** The fields as a value of the specification's state. */
    function Snapshot(): State
      reads this
    {
      State(current, handler, releases, routed)
    }

    /** A fresh context: no shard selected and no `setup` yet. */
    constructor ()
      ensures Valid()
      ensures Snapshot() == State(None, None, 0, [])
    {
      current := None;
      handler := None;
      releases := 0;
      routed := [];
    }

    /** `setup(config)`: install a handler built from `config`, replacing any earlier one. */
    method Setup(config: Config)
      modifies this`handler
      ensures handler == Some(Handler(config))
      ensures Snapshot() == old(Snapshot()).(handler := Some(Handler(config)))
    {
      handler := Some(Handler(config));
    }

    /** `current_shard`: the stored selection, always in Symbol form. */
    function CurrentShard(): (r: Option<Name>)
      requires Valid()
      reads this
      ensures Normalised(r)
      ensures r.None? <==> ConnectionHandler() == Ok(Master)
    {
      current
    }

    /** `current_shard = name`: store `nil`, or the Symbol form of a String or Symbol. */
    method SetCurrentShard(name: Option<Name>)
      modifies this`current
      ensures Valid()
      ensures CurrentShard() == Cast(name)
      ensures Snapshot() == Select(old(Snapshot()), name)
    {
      current := Cast(name);
    }

    /**
     * `connection_handler`: the default handler when no shard is selected,
     * `SetupError` when a shard is selected before `setup`, and otherwise
     * the installed handler's connection handler for the current shard.
     */
    function ConnectionHandler(): (r: Result<ConnHandle, Error>)
      reads this
      ensures r == Ok(Master) <==> current.None?
      ensures r.Err? <==> current.Some? && handler.None?
      ensures r.Err? ==> r.error == SetupError(NotSetupMessage)
      ensures r.Ok? && current.Some? ==> r.value == ShardHandle(handler.value, current.value)
    {
      Route(current, handler)
    }

    /**
     * The ORM's release of active connections, which it performs on the
     * handler `connection_handler` returns: it raises where that routing
     * fails, and otherwise adds one to the count of releases.
     */
    method ClearActiveConnections() returns (r: Result<ConnHandle, Error>)
      modifies this`releases
      ensures r == Route(current, handler)
      ensures releases == if r.Ok? then old(releases) + 1 else old(releases)
    {
      r := ConnectionHandler();
      if r.Ok? {
        releases := releases + 1;
      }
    }

    /**
     * `using(shard) { body }`: on every exit, normal or raised, connections
     * are released when the selection at exit differs from the saved one,
     * and the saved selection is written back unless that release raised.
     * Once a handler is installed the saved selection is always back, and a
     * block that calls no `setup` leaves the handler as it was.
     */
    method Using(shard: Option<Name>, body: seq<Action>) returns (outcome: Outcome)
      requires Valid()
      modifies this
      ensures Valid()
      ensures Step(Snapshot(), outcome) == RunUsing(old(Snapshot()), shard, body)
      ensures old(handler).Some? ==> current == old(current)
      ensures SelectionProps.BlockSetups(body) == 0 ==> handler == old(handler)
      decreases body, 1
    {
      SelectionProps.UsingFrame(Snapshot(), shard, body);
      if handler.Some? {
        SelectionProps.UsingRestoresAfterSetup(Snapshot(), shard, body);
      }
      var saved := CurrentShard();
      SetCurrentShard(shard);
      outcome := RunBlock(body);
      if saved != CurrentShard() {
        var released := ClearActiveConnections();
        if released.Err? {
          outcome := Raised(released.error);
          return;
        }
      }
      SetCurrentShard(saved);
      CastFixesNormalised(saved);
    }

    /** Run a block's actions in order, stopping at the first that raises. */
    method RunBlock(body: seq<Action>) returns (outcome: Outcome)
      requires Valid()
      modifies this
      ensures Valid()
      ensures Step(Snapshot(), outcome) == ExecBlock(old(Snapshot()), body)
      decreases body, 0
    {
      var i := 0;
      while i < |body|
        invariant 0 <= i <= |body|
        invariant Valid()
        invariant ExecBlock(old(Snapshot()), body) == ExecBlock(Snapshot(), body[i..])
      {
        assert body[i..][0] == body[i] && body[i..][1..] == body[i + 1..];
        outcome := Perform(body[i]);
        if outcome.Raised? {
          return;
        }
        i := i + 1;
      }
      outcome := Normal;
    }

    /** One action of a block. */
    method Perform(a: Action) returns (outcome: Outcome)
      requires Valid()
      modifies this
      ensures Valid()
      ensures Step(Snapshot(), outcome) == ExecAction(old(Snapshot()), a)
      decreases a
    {
      match a
      case SetShard(name) =>
        SetCurrentShard(name);
        outcome := Normal;
      case Configure(config) =>
        Setup(config);
        outcome := Normal;
      case Query =>
        var r := ConnectionHandler();
        if r.Ok? {
          routed := routed + [r.value];
          outcome := Normal;
        } else {
          outcome := Raised(r.error);
        }
      case Raise =>
        outcome := Raised(BodyError);
      case Nested(shard, inner) =>
        outcome := Using(shard, inner);
    }
  }
}
