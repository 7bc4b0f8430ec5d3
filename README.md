# Shard selection in `ShardHandler::Model`, modelled in Dafny

`ShardHandler::Model` is an abstract ORM model class that sends a model's queries to one
of several configured databases ("shards"). Each execution context has its own current-shard slot. `setup`
installs one class-wide handler built from a configuration. `connection_handler` is the
hook the ORM calls before every query. `using(shard) { ... }` selects a shard for the
length of a block. On every exit from the block it releases active connections when the
selection at exit differs from the saved one, and then puts the previous selection back.
The exception is a release that raises, which happens for a shard selected before `setup`:
then the previous selection is not put back.

The project has five modules:

- `Wrappers` (`wrappers.dfy`): `Option` and `Result`.
- `ShardNames` (`shard_names.dfy`): shard names as a String (`Str`) or a Symbol (`Sym`).
  `to_sym` is `ToSym`. The cast done by `current_shard=` is `Cast`.
- `Selection` (`selection.dfy`): the state machine as values. `State` holds the
  selection, the handler, a release counter and a log of where each query was routed.
  `Route` is `connection_handler` together with `use_master_connection?`. The block given
  to `using` is a sequence of `Action`s: `SetShard`, `Configure` (a call to `setup`),
  `Query`, `Raise` and `Nested(shard, body)` (a nested `using`). `ExecAction`, `ExecBlock`
  and `RunUsing` give their meaning, including the `ensure` path taken when the block raises.
- `SelectionProps` (`selection_props.dfy`): lemmas about that state machine. They cover
  restoration, the release rule, what a block leaves alone, and where queries go.
- `ShardModel` (`model.dfy`): the class `Model`. Its fields are the current shard, the
  handler, the release count and the routing log. Its methods are proved against
  `Selection`. `Using`, `RunBlock` and `Perform` are mutually recursive, so a nested
  `using` inside a block is a real recursive call.

Modelling choices:

- The ORM's default handler (what `super` returns) is the constant `ConnHandle.Master`.
- `clear_active_connections!` is performed by the ORM on the handler that
  `connection_handler` returns, so the model routes it through the same decision. Where
  that routing succeeds the release increments the `releases` counter. Where it fails, a
  shard selected before `setup`, the release raises `SetupError` from inside the `ensure`.
  That error replaces the block's outcome, and line 92 never runs.
- The handler's lookup `connection_handler_for(shard)` is the symbolic result
  `ShardHandle(handler, shard)`. The model says which handler was asked and for which
  Symbol. It says nothing more about the result.
- A query is an action that calls `connection_handler`. If that raises, the error is
  the block's outcome. Otherwise the returned handler is appended to the log.

## Model

| member | source | states |
|---|---|---|
| `ShardNames.ToSym` | lib/shard_handler/model.rb:54 | `to_sym` gives a Symbol with the same text, and a Symbol is returned unchanged |
| `ShardNames.Cast` | lib/shard_handler/model.rb:53-55 | the setter's cast: `nil` stays `nil`, a String or Symbol becomes a Symbol with the same text, and the result is always in stored (Symbol) form |
| `ShardNames.CastIdempotent` | lib/shard_handler/model.rb:54 | casting an already cast value changes nothing |
| `ShardNames.CastFixesNormalised` | lib/shard_handler/model.rb:92 | writing back a stored selection through the setter gives exactly that selection, so `using`'s restore is exact |
| `ShardNames.CastIdentifies` | lib/shard_handler/model.rb:53-55 | two names select the same shard if and only if their texts agree, so `'shard1'` and `:shard1` read back identically |
| `Selection.Route` | lib/shard_handler/model.rb:63-71 | the default handler is chosen if and only if no shard is selected (`use_master_connection?`, lines 99-101). `SetupError("the model was not setup")` is raised if and only if a shard is selected and `setup` never ran. Otherwise the result is the installed handler's handler for the current shard, never the default one |
| `Selection.UseMasterConnection` | lib/shard_handler/model.rb:99-101 | the default connection is used exactly when no shard is selected, in whichever form a name would be given |
| `Selection.Select` | lib/shard_handler/model.rb:54 | the setter applied to a state: the new selection is in Symbol form with the text of the name set, absent exactly when `nil` was set, and nothing else changes |
| `Selection.ExecAction` | lib/shard_handler/model.rb:81 | one step of the block: assigning the selection and `setup` never raise, only a `using` call releases connections, and only the setter and a `using` call leave a different selection behind |
| `Selection.ExecBlock` | lib/shard_handler/model.rb:81 | an empty block changes nothing, and a block of assignments and `setup` calls runs to the end. `SelectionProps.ExecBlockAppend` states the running order |
| `Selection.RunUsing` | lib/shard_handler/model.rb:78-93 | the reference for `using`. It adds at most one release to the block's, the handler and routing log are the block's, and the saved selection is back unless the outcome is `SetupError`. Its exact exits are stated by `SelectionProps.UsingRestores` |
| `Selection.RunUsingRestoring` | lib/shard_handler/model.rb:82-92 | `using` with an unconditional write-back: the same outcome and the same state as `using` as written, except for the selection |
| `SelectionProps.ExecBlockAppend` | lib/shard_handler/model.rb:81 | a block runs its actions in order and stops at the first raise: running `a + b` is running `a` and then, only if `a` ended normally, `b` from the state `a` left |
| `SelectionProps.ActionFrame` | lib/shard_handler/model.rb:78-93 | one block action keeps earlier routing and the stored form of the selection. It changes the handler only through a `setup` it makes, and an installed handler stays installed. It releases at most once per `using` call it makes |
| `SelectionProps.BlockFrame` | lib/shard_handler/model.rb:78-93 | the same for a whole block, normal or raised, whatever its nesting |
| `SelectionProps.UsingFrame` | lib/shard_handler/model.rb:78-93 | a `using` call releases connections at most once per `using` call, itself included, and changes the handler only through a `setup` inside its block |
| `SelectionProps.UsingRestores` | lib/shard_handler/model.rb:78-93 | the two exits of `using`, for any block. If the selection at exit is the saved one, or the release can be routed, the saved selection is back, the block's outcome (returned or raised) is the call's, and one release was made exactly when the selection at exit differed from the saved one (line 91). Otherwise the release raises `SetupError` (lines 66-68 reached from line 91), nothing is released, and the selection at exit stays |
| `SelectionProps.UsingRestoresAfterSetup` | lib/shard_handler/model.rb:78-93 | once a handler is installed, `using` always restores the selection it found and passes on its block's outcome, at any nesting depth. This holds for unknown shard names only because the model takes the handler to serve every name and the release on it never to fail |
| `SelectionProps.ScopedBlockKeepsSelection` | lib/shard_handler/model.rb:78-93 | a block that does not assign the selection itself, nested `using` calls included at any depth, ends with the selection it started with, unless a nested release raised `SetupError`. After `setup` it always does |
| `SelectionProps.UsingReleasesIffChanged` | lib/shard_handler/model.rb:83-91 | after `setup`, for such a block, `using(shard)` adds one release exactly when `shard` differs from the selection on entry, and none otherwise |
| `SelectionProps.SameShardNestedReleasesNothing` | lib/shard_handler/model.rb:83-91 | after `setup`, `using(:shard1) { using('shard1') { body } }`: the inner call releases nothing, and the outer one releases once only if another shard was selected before |
| `SelectionProps.QueriesFollowRoute` | lib/shard_handler/model.rb:63-71 | each query of a queries-only block is routed where `connection_handler` points for the selection at hand. Only the routing log changes, and a routing failure on the first query is the block's outcome |
| `SelectionProps.SelectedShardRoutesToHandler` | lib/shard_handler/model.rb:63-71 | after `setup`, every query inside `using(name)` goes to the handler's handler for the Symbol form of `name`, never to the default, and no `SetupError` arises |
| `SelectionProps.NoShardRoutesToMaster` | lib/shard_handler/model.rb:63-64 | with no shard selected every query goes to the default handler and no `SetupError` is raised, whether `setup` ran or not |
| `SelectionProps.QueryBeforeSetupRaises` | lib/shard_handler/model.rb:66-68 | inside `using(name)` without `setup`, the first query raises `SetupError` out of `using`, and nothing is routed or released. Afterwards `name` is selected: either it already was, or the release raises too and skips the write-back |
| `SelectionProps.RestoringUsingAlwaysRestores` | lib/shard_handler/model.rb:82-92 | with an unconditional write-back, `using` restores the selection it found on every exit, before `setup` too. It equals `using` as written whenever the selection at exit is the saved one or the release can be routed |
| `SelectionProps.UsingBeforeSetupKeepsShard` | lib/shard_handler/model.rb:78-93 | before `setup`, `using(name)` around queries and raises, entered from another selection, ends in `SetupError` from the release and leaves `name` selected. This holds even for an empty block |
| `ShardModel.Model.Setup` | lib/shard_handler/model.rb:38-41 | the handler becomes one built from the new config, replacing any earlier one. Nothing else changes, in particular the selection |
| `ShardModel.Model.CurrentShard` | lib/shard_handler/model.rb:46-48 | the stored selection is in Symbol form, and it is absent exactly when `connection_handler` gives the default handler (`use_master_connection?`, lines 99-101) |
| `ShardModel.Model.SetCurrentShard` | lib/shard_handler/model.rb:53-55 | reading the selection afterwards gives the cast of the value set, and nothing else changes |
| `ShardModel.Model.ConnectionHandler` | lib/shard_handler/model.rb:63-71 | on the class's fields: the default handler if and only if no shard is selected. `SetupError("the model was not setup")` if and only if a shard is selected before `setup`. Otherwise the installed handler's handler for the current shard |
| `ShardModel.Model.ClearActiveConnections` | lib/shard_handler/model.rb:91 | the release is routed like a query: it raises where routing fails, and otherwise adds one to the count of releases |
| `ShardModel.Model.Using` | lib/shard_handler/model.rb:78-93 | the new state and the outcome are exactly those of `RunUsing`. After `setup` the selection is as before the call. A block that calls no `setup` leaves the handler as it was |
| `ShardModel.Model.RunBlock` | lib/shard_handler/model.rb:81 | the block's actions run in order until one raises. The state and outcome are those of `ExecBlock` |
| `ShardModel.Model.Perform` | lib/shard_handler/model.rb:81 | one action of the block, a `setup` included, has the effect `ExecAction` gives it |

## Left out

- Isolation between threads: the model has a single execution context. The per-thread slot is the field `current`.
- The internals of `Handler`, `Cache` and `ThreadRegistry` are not part of this model. This includes the handler's own `setup` call (line 40), which caches connection handlers.
- `ShardModel.Model.ConnectionHandler`: the result for a selected shard is the symbolic term `ShardHandle(handler, shard)`. `connection_handler` (lines 63-71) checks only that `setup` ran and leaves unknown names to the handler. The model treats every name as served by the handler, including a name missing from the configuration, and it treats the release on the handler's result as never failing. So after `setup`, `SelectionProps.UsingRestoresAfterSetup` and `SelectionProps.UsingReleasesIffChanged` hold for unknown names because of this assumption.
- `ShardModel.Model.Setup`: the model never fails. A failure while building or setting up the handler is not modelled, because it happens inside `Handler`, which this model leaves out.
- `ShardModel.Model.Using`: the block's return value is not modelled. Only whether the block returned normally or raised is kept.
- ORM integration: inheritance from the ORM base class, `abstract_class`, the private `establish_connection`, and what `super` and `clear_active_connections!` do inside the ORM. These are calls into a library outside this code.
- The `handler` reader (lines 30-32) is not modelled, and neither is the error Ruby raises for reading the class variable before `setup`. The field `handler` is read directly.
- Arguments to `current_shard=` other than `nil`, a String or a Symbol, for which `to_sym` raises, are not modelled. Shard names are typed as `Name`.
- The class variable is shared by every subclass of `ShardHandler::Model`. The model has one class, so one `setup` and one handler.
- `Selection.ExecBlock`: a block cannot rescue an exception raised inside it. A raise always ends the block, including a `SetupError` from a nested `using` whose release failed.
- `SelectionProps.UsingReleasesIffChanged`: proved after `setup` only. Before `setup` a release to another shard raises instead of counting, which `SelectionProps.UsingBeforeSetupKeepsShard` states.
- `SelectionProps.SameShardNestedReleasesNothing`: proved after `setup` only, for the same reason.
- `ShardModel.Model.Setup`: a handler is the value of its configuration, so two `setup` calls with equal configurations give equal handlers. The code builds a new object each time, and the model cannot tell the two apart.
- `Selection.Settings`: connection settings map text to text. A setting given as `nil` has no value in the model.
- The release goes through `connection_handler` because the ORM performs `clear_active_connections!` on the handler that hook returns. The ORM is not part of this model.
- Queries, SQL and connection pools are left out, because they are database I/O. A query is only its routing decision.

## Findings

| source | as written | input that shows it | evidently intended | confidence | as-written member | corrected member |
|---|---|---|---|---|---|---|
| lib/shard_handler/model.rb:91-92 | the write-back of the saved selection follows the release in the same `ensure`, so a release that raises skips it. The ORM releases through `connection_handler`, which raises `SetupError` for a shard selected before `setup` | `using(:s1) { }` before `setup`, from no selection: it raises `SetupError` and leaves `:s1` selected for the context. Later queries outside any `using` then raise `SetupError`, and after `setup` they go to `:s1` instead of the default handler | `using` restores the saved selection on every exit | medium, not executed; it rests on the ORM performing `clear_active_connections!` through `connection_handler` | `SelectionProps.UsingBeforeSetupKeepsShard` | `SelectionProps.RestoringUsingAlwaysRestores` |

`Selection.RunUsing` and `ShardModel.Model.Using` keep the behaviour as written. `Selection.RunUsingRestoring` is the corrected definition, and after `setup` the two agree (`SelectionProps.UsingRestoresAfterSetup`).
