# fsm: a verified model of a finite-state-machine engine

This project models the Go package `fsm` (file `fsm.go`). The package has two parts:

- The registry `FSM` holds a rule table `from -> to -> handler` and a table of per-state entry and exit hooks (`FSMState`). Rules are added through a fluent builder, `From(a).To(b).Then(h)`. The builder passes the selected pair from call to call through two fields, `currentState` and `toState`.
- A `Machine` caches its current state. `Goto(s)` looks up the rule for (current, s). Then it calls the current state's exit hook, the transition handler and s's entry hook, in that order. Only after that does it move to s.

Two modules:

- `FsmSpec` (`fsm_spec.dfy`) works on values. It defines the tables as maps and gives each builder step as a function on them. It also defines the permission lookup `GetHandleFunc` and one `Goto` step as a function. That function returns the result, the calls made (a trace of `Exit`, `Handle` and `Enter` events) and the next state. The lemmas are stated here.
- `Fsm` (`fsm.dfy`) has the classes `FSMState`, `FSM` and `Machine`, with the Go fields. Their methods update those fields in place. The `ensures` of `From`, `Then`, `SetStateFuncs` and `Machine.Goto` tie the new state to a `FsmSpec` function of the old one. The other methods and the constructors state their new fields directly. `FSM.GetHandleFunc` is `FsmSpec.GetHandleFunc` on the `rules` field. `OnlineOfflineScenario` replays the scenario of `fsm_test.go`, leaving out its `Special` call.

Modelling choices:

- States are a type parameter `S` with equality (Go's `State interface{}`).
- Handlers `H` and hooks `K` are opaque identifiers. Go's nil function value is `None`.
- Whether a handler call returns an error is the answer of an oracle parameter `fails`.
- Go panics become preconditions:
  - `Then` requires a prior `From`. Without one it writes into a nil map.
  - `Goto` requires `GotoDefined`: the target differs from the current state and the stored handler is not nil. Otherwise line 24 calls a nil function.

Facts about `fsm.go` that the model keeps:

- `fsm.go` has no set of "special" states. `fsm_test.go` calls `Special` (fsm_test.go:69), but `fsm.go` does not define it.
- A `Machine` holds only `State` and `FSM` (fsm.go:8-11). It keeps no reference to the object whose state it tracks. Hooks and handlers take no context argument, although `fsm_test.go` passes context-taking hooks (fsm_test.go:38-45).
- Hooks return nothing, so a hook cannot stop a transition.
- `To` records no rule; only `Then` does.
- A `Goto` to the current state is not a no-op. The code runs the exit hook and then calls the nil handler that `GetHandleFunc` returns for a self-pair, which panics.

## Model

| member | source | states |
|---|---|---|
| FsmSpec.GetHandleFunc | fsm.go:63-72 | a self-transition is allowed with no handler; for from != to, the lookup succeeds iff a rule is stored and then returns the stored handler; otherwise the error is NotPermitted(from, to) |
| FsmSpec.WithSource | fsm.go:105-113 | `From(s)` adds a destination table for s only if s has none, keeps every existing source's table, and changes the answer of no lookup |
| FsmSpec.WithRule | fsm.go:121-124 | `Then(fn)` stores fn for the selected pair; after it the pair is permitted with fn (no handler for a self-pair), and every other pair's rule and lookup are unchanged |
| FsmSpec.WithStateFuncs | fsm.go:95-103 | `SetStateFuncs` gives s a record holding exactly the two given hooks (even nil), and every other state keeps its record |
| FsmSpec.Register | fsm.go:105-124 | after a sequence of `From(a).To(b).Then(h)` chains, every registered pair has a rule and no source is dropped |
| FsmSpec.RegisterLookup | fsm.go:105-124 | after any sequence of chains, a pair a != b is permitted with the handler of its last registration; a never-registered pair answers as before |
| FsmSpec.Goto | fsm.go:13-36 | no rule: NotPermitted, no call, state unchanged; otherwise calls are in the order exit, handler, entry; the state becomes the target iff the handler succeeds, and after a success the trace is the full transition; a failing handler returns HandlerFailed after the exit hook and handler ran, and the entry hook is not called |
| FsmSpec.FailedGotoIsPrefix | fsm.go:18-27 | the calls made by a Goto whose handler fails are a prefix of the successful transition's calls and end with the handler: the exit hook is not undone |
| Fsm.FSMState.constructor | fsm.go:98 | a new hook record has both hooks nil |
| Fsm.FSMState.SetOnEnter | fsm.go:43-46 | replaces the entry hook only and returns the same record |
| Fsm.FSMState.SetOnExit | fsm.go:48-51 | replaces the exit hook only and returns the same record |
| Fsm.FSM.constructor | fsm.go:74-80 | `NewFSM`: no rules, no hooks, nothing selected |
| Fsm.FSM.GetHandleFunc | fsm.go:63-72 | the lookup of FsmSpec.GetHandleFunc on the `rules` field |
| Fsm.FSM.GetStateOnFuncs | fsm.go:89-93 | reports a record exactly when the state has hooks, and that record holds the state's hooks |
| Fsm.FSM.SetStateFuncs | fsm.go:95-103 | the hook table becomes WithStateFuncs of the old one; an existing record is reused and a missing one is created fresh; afterwards GetStateOnFuncs reports s; rules and selection are unchanged |
| Fsm.FSM.From | fsm.go:105-113 | the rules become WithSource of the old rules, both currentState and toState become s, and the registry is returned for chaining |
| Fsm.FSM.To | fsm.go:115-119 | only toState changes; no rule is added |
| Fsm.FSM.Then | fsm.go:121-124 | given a prior From, the rules become WithRule of the old rules for the selected pair; the selection is unchanged |
| Fsm.FSM.Machine | fsm.go:82-87 | a new Machine in state s that shares this registry |
| Fsm.Machine.constructor | fsm.go:83-86 | the `&Machine{State: s, FSM: fsm}` literal: the given state and registry |
| Fsm.Machine.Goto | fsm.go:13-36 | result, calls made and new cached state are those of FsmSpec.Goto on the registry's tables |

## Left out

- The commented-out prototype `main` (fsm.go:126-159) is dead code and is not modelled.
- Error messages: `fmt.Errorf` formatting is one `NotPermitted(from, to)` value.
- The variadic `args` passed to hooks and handlers are not modelled. Hooks and handlers are not executed either: a call is a trace event, and a handler's outcome is the `fails` oracle.
- Hooks and handlers are assumed not to reconfigure the registry or the Machine while `Goto` runs.
- Go map capacity hints (fsm.go:76-77, 108) are not modelled.
- The pointer identity of `FSMState` is modelled only as far as `SetStateFuncs` reusing a state's record. Records reached through `GetStateOnFuncs` can be changed with `SetOnEnter`/`SetOnExit`, and `HookTable` reflects that change.
- FsmSpec.Goto: the panicking cases of fsm.go:24 are excluded by `GotoDefined`, not modelled. These are a target equal to the current state and a stored nil handler. In the self-target case the Go code runs the exit hook before it panics.
- Fsm.Machine.Goto: the same two panicking cases are excluded by the same `GotoDefined` precondition.
- Fsm.FSM.Then: a call without a prior `From` panics in Go and is excluded by the precondition.
- The API that `fsm_test.go` uses but `fsm.go` does not define is not modelled: `Special` (fsm_test.go:69), context-taking hooks that return errors (fsm_test.go:38-45), and `IMachine` and `MachineAbs`, which `Mission` embeds (fsm_test.go:15-20).
- Concurrency: the code has none.
