/**
 * The shard-selection state machine of `ShardHandler::Model`, as values:
 * the state one execution context sees, the routing decision made before
 * every query, and the meaning of a `using` block.
 */
module Selection {
  import opened Wrappers
  import opened ShardNames

  /** Connection settings of one shard (adapter, database, username, ...). */
  type Settings = map<string, string>

  /** What `setup` receives: shard name to its connection settings. */
  type Config = map<string, Settings>

  /** The handler `setup` builds from a configuration. */
  datatype Handler = Handler(config: Config)

  /** A connection handler as the ORM receives it from `connection_handler`. */
  datatype ConnHandle =
    | Master                                    // the ORM's own default handler (`super`)
    | ShardHandle(handler: Handler, shard: Name) // what `handler` gives for `shard`

  const NotSetupMessage: string := "the model was not setup"

  datatype Error =
    | SetupError(message: string)  // raised by `connection_handler`
    | BodyError                    // anything the block itself raises

  /**
   * What one execution context sees: its selected shard, the class-wide
   * handler (absent until `setup`), how many times active connections were
   * released, and the handlers that queries were routed to, in order.
   */
  datatype State = State(
    current: Option<Name>,
    handler: Option<Handler>,
    releases: nat,
    routed: seq<ConnHandle>)

  /** `use_master_connection?`: no shard is selected, in whichever form a name would be given. */
  predicate UseMasterConnection(current: Option<Name>): (b: bool)
    ensures b <==> Cast(current).None?
  {
    current.None?
  }

  /** `connection_handler`: the handler a query issued now is routed to. */
  function Route(current: Option<Name>, handler: Option<Handler>): (r: Result<ConnHandle, Error>)
    ensures r == Ok(Master) <==> current.None?
    ensures r.Err? <==> current.Some? && handler.None?
    ensures r.Err? ==> r.error == SetupError(NotSetupMessage)
    ensures r.Ok? && current.Some? ==> r.value == ShardHandle(handler.value, current.value)
  {
    if UseMasterConnection(current) then Ok(Master)
    else if handler.None? then Err(SetupError(NotSetupMessage))
    else Ok(ShardHandle(handler.value, current.value))
  }

  /** One step of a block passed to `using`. */
  datatype Action =
    | SetShard(name: Option<Name>)               // `current_shard = name`
    | Configure(config: Config)                  // `setup(config)`
    | Query                                      // a query through the model
    | Raise                                      // the block raises
    | Nested(shard: Option<Name>, body: seq<Action>) // `using(shard) { body }`

  datatype Outcome = Normal | Raised(error: Error)

  datatype Step = Step(state: State, outcome: Outcome)

  /** The state after `current_shard = name`: the new selection is stored in Symbol form and nothing else changes. */
  function Select(st: State, name: Option<Name>): (r: State)
    ensures Normalised(r.current)
    ensures r.current.None? <==> name.None?
    ensures name.Some? ==> r.current.value.chars == name.value.chars
    ensures r.(current := st.current) == st
  {
    st.(current := Cast(name))
  }

  /** A block made only of assignments of the selection and `setup` calls. */
  predicate Quiet(body: seq<Action>)
  {
    forall i :: 0 <= i < |body| ==> body[i].SetShard? || body[i].Configure?
  }

  /**
   * The effect of one action. Assigning the selection and `setup` never
   * raise; only a `using` call releases connections; only the setter and a
   * `using` call leave a different selection behind.
   */
  function ExecAction(st: State, a: Action): (s: Step)
    ensures a.SetShard? || a.Configure? ==> s.outcome == Normal
    ensures !a.Nested? ==> s.state.releases == st.releases
    ensures a.SetShard? || a.Nested? || s.state.current == st.current
    decreases a
  {
    match a
    case SetShard(name) => Step(Select(st, name), Normal)
    case Configure(config) => Step(st.(handler := Some(Handler(config))), Normal)
    case Query =>
      (match Route(st.current, st.handler)
       case Ok(h) => Step(st.(routed := st.routed + [h]), Normal)
       case Err(e) => Step(st, Raised(e)))
    case Raise => Step(st, Raised(BodyError))
    case Nested(shard, body) => RunUsing(st, shard, body)
  }

  /**
   * A block runs its actions in order and stops at the first one that
   * raises: an empty block changes nothing, and a block made only of
   * assignments and `setup` calls runs to the end.
   */
  function ExecBlock(st: State, body: seq<Action>): (s: Step)
    ensures body == [] ==> s == Step(st, Normal)
    ensures Quiet(body) ==> s.outcome == Normal
    decreases body, 0
  {
    if body == [] then Step(st, Normal)
    else
      var s := ExecAction(st, body[0]);
      if s.outcome.Raised? then s else ExecBlock(s.state, body[1..])
  }

  /**
   * `using(shard) { body }`: save the selection, select `shard` and run the
   * block. On every exit, if the selection at exit differs from the saved
   * one, release active connections, then select the saved value again.
   * The ORM releases through `connection_handler`, so the release is routed
   * for the selection at exit: when that routing fails, the release raises
   * out of the `ensure`, its error replaces the block's outcome, and the
   * saved selection is never written back. Otherwise the block's outcome,
   * normal or raised, is the outcome of the call.
   */
  function RunUsing(st: State, shard: Option<Name>, body: seq<Action>): (s: Step)
    ensures var exit := ExecBlock(Select(st, shard), body).state;
      && s.state.handler == exit.handler
      && s.state.routed == exit.routed
      && exit.releases <= s.state.releases <= exit.releases + 1
      && (s.state.current == Cast(st.current) || s.outcome == Raised(SetupError(NotSetupMessage)))
    decreases body, 1
  {
    var saved := st.current;
    var inner := ExecBlock(Select(st, shard), body);
    var exit := inner.state;
    if saved == exit.current then
      Step(Select(exit, saved), inner.outcome)
    else
      match Route(exit.current, exit.handler)
      case Err(e) => Step(exit, Raised(e))
      case Ok(_) => Step(Select(exit.(releases := exit.releases + 1), saved), inner.outcome)
  }

  /**
   * `using` with its write-back made unconditional, as placing it inside
   * `ensure` intends: the saved selection is selected again on every exit,
   * even when the release raises.
   */
  function RunUsingRestoring(st: State, shard: Option<Name>, body: seq<Action>): (s: Step)
    ensures s.outcome == RunUsing(st, shard, body).outcome
    ensures s.state.(current := RunUsing(st, shard, body).state.current) == RunUsing(st, shard, body).state
  {
    var r := RunUsing(st, shard, body);
    Step(Select(r.state, st.current), r.outcome)
  }
}
