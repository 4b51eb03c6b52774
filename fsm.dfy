/** The objects of fsm.go: the hook record FSMState, the registry FSM with its
    fluent builder, and the Machine that drives transitions. Each method updates
    its fields in place, as the Go methods do. From, Then, SetStateFuncs and
    Machine.Goto are specified by value-level functions of FsmSpec; the other
    methods and the constructors state their new fields directly. */
module Fsm {
  import opened FsmSpec

  /** `FSMState`: the entry and exit hooks of one state. */
  class FSMState<K> {
    var onEnter: Option<K>
    var onExit: Option<K>

    /** `&FSMState{}`: both hooks nil. */
    constructor ()
      ensures onEnter == None && onExit == None
    {
      onEnter := None;
      onExit := None;
    }

    /** Replaces the entry hook; returns the same record for chaining. */
    method SetOnEnter(fn: Option<K>) returns (ft: FSMState<K>)
      modifies this
      ensures ft == this
      ensures onEnter == fn && onExit == old(onExit)
    {
      onEnter := fn;
      ft := this;
    }

    /** Replaces the exit hook; returns the same record for chaining. */
    method SetOnExit(fn: Option<K>) returns (ft: FSMState<K>)
      modifies this
      ensures ft == this
      ensures onExit == fn && onEnter == old(onEnter)
    {
      onExit := fn;
      ft := this;
    }
  }

  /** The registry: the rule table, the builder's selection (`currentState`,
      `toState`; `None` is Go's nil interface before any `From`/`To`) and the
      hook records. */
  class FSM<S(==, !new), H, K> {
    var rules: Rules<S, H>
    var currentState: Option<S>
    var toState: Option<S>
    var states: map<S, FSMState<K>>

    /** A selected source has a destination table, and once a source is
        selected so is a destination; every state has its own hook record. */
    ghost predicate Valid()
      reads this
    {
      (currentState.Some? ==> currentState.value in rules && toState.Some?) &&
      (forall a, b :: a in states && b in states && a != b ==> states[a] != states[b])
    }

    /** The hook records read as values. */
    function HookTable(): Hooks<S, K>
      reads this, states.Values
    {
      map s | s in states :: StateFuncs(states[s].onEnter, states[s].onExit)
    }

    /** `NewFSM`: no rule, no hook, nothing selected. */
    constructor ()
      ensures Valid()
      ensures rules == map[] && states == map[]
      ensures currentState == None && toState == None
    {
      rules := map[];
      states := map[];
      currentState := None;
      toState := None;
    }

    /** The permission check on the `rules` field. */
    function GetHandleFunc(from: S, to: S): (r: Result<Option<H>, Error<S, H>>)
      reads this
      ensures r == FsmSpec.GetHandleFunc(rules, from, to)
    {
      FsmSpec.GetHandleFunc(rules, from, to)
    }

    /** The hook record of s, if s has one; it holds s's hooks. */
    function GetStateOnFuncs(s: S): (r: Option<FSMState<K>>)
      reads this, states.Values
      ensures r.Some? <==> s in HookTable()
      ensures r.Some? ==> r.value == states[s]
      ensures r.Some? ==> HookTable()[s] == StateFuncs(r.value.onEnter, r.value.onExit)
    {
      if s in states then Some(states[s]) else None
    }

    /** Creates the record of s if absent (and reuses it otherwise), then
        replaces both of its hooks. */
    method SetStateFuncs(s: S, onExit: Option<K>, onEnter: Option<K>)
      requires Valid()
      modifies this, states.Values
      ensures Valid()
      ensures rules == old(rules) && currentState == old(currentState) && toState == old(toState)
      ensures GetStateOnFuncs(s).Some?
      ensures s in states && states == old(states)[s := states[s]]
      ensures if s in old(states) then states[s] == old(states[s]) else fresh(states[s])
      ensures HookTable() == WithStateFuncs(old(HookTable()), s, onExit, onEnter)
    {
      var ft: FSMState<K>;
      if s in states {
        ft := states[s];
      } else {
        ft := new FSMState();
        states := states[s := ft];
      }
      ft.onEnter := onEnter;
      ft.onExit := onExit;
    }

    /** Selects s as source and destination, giving it a destination table
        unless it has one. */
    method From(s: S) returns (f: FSM<S, H, K>)
      requires Valid()
      modifies this
      ensures Valid() && f == this
      ensures rules == WithSource(old(rules), s)
      ensures currentState == Some(s) && toState == Some(s)
      ensures states == old(states)
    {
      if s !in rules {
        rules := rules[s := map[]];
      }
      currentState := Some(s);
      toState := Some(s);
      f := this;
    }

    /** Selects s as destination; adds no rule. */
    method To(s: S) returns (f: FSM<S, H, K>)
      requires Valid()
      modifies this
      ensures Valid() && f == this
      ensures toState == Some(s)
      ensures rules == old(rules) && currentState == old(currentState) && states == old(states)
    {
      toState := Some(s);
      f := this;
    }

    /** Stores fn for the selected pair. Without a prior `From` the Go code
        writes into a nil map and panics, hence the precondition. */
    method Then(fn: Option<H>)
      requires Valid() && currentState.Some?
      modifies this
      ensures Valid()
      ensures currentState == old(currentState) && toState == old(toState) && states == old(states)
      ensures rules == WithRule(old(rules), currentState.value, toState.value, fn)
    {
      rules := rules[currentState.value := rules[currentState.value][toState.value := fn]];
    }

    /** A Machine in state s over this registry. */
    method Machine(s: S) returns (m: Machine<S, H, K>)
      ensures fresh(m)
      ensures m.State == s && m.fsm == this
    {
      m := new Machine(s, this);
    }
  }

  /** A Machine caches its current state and shares its registry. */
  class Machine<S(==, !new), H, K> {
    var State: S
    var fsm: FSM<S, H, K>

    constructor (s: S, f: FSM<S, H, K>)
      ensures State == s && fsm == f
    {
      State := s;
      fsm := f;
    }

    /** Looks up the rule, then calls the exit hook of the current state, the
        handler and the entry hook of s, and only then moves to s. `fails`
        answers whether a handler call returns an error; `trace` lists the
        calls made. */
    method Goto(s: S, fails: (H, S, S) -> bool) returns (err: Outcome<Error<S, H>>, trace: seq<Event<S, H, K>>)
      requires GotoDefined(fsm.rules, State, s)
      modifies this`State
      ensures var step := FsmSpec.Goto(fsm.rules, fsm.HookTable(), old(State), s, fails);
              err == step.result && trace == step.trace && State == step.state
    {
      var fn := fsm.GetHandleFunc(State, s);
      if fn.Err? {
        return Fail(fn.error), [];
      }
      trace := [];
      var exitFuncs := fsm.GetStateOnFuncs(State);
      if exitFuncs.Some? && exitFuncs.value.onExit.Some? {
        trace := trace + [Exit(State, exitFuncs.value.onExit.value)];
      }
      var h := fn.value.value;
      trace := trace + [Handle(State, s, h)];
      if fails(h, State, s) {
        return Fail(HandlerFailed(h, State, s)), trace;
      }
      var enterFuncs := fsm.GetStateOnFuncs(s);
      if enterFuncs.Some? && enterFuncs.value.onEnter.Some? {
        trace := trace + [Enter(s, enterFuncs.value.onEnter.value)];
      }
      State := s;
      err := Pass;
    }
  }

  /** The scenario of fsm_test.go without its `Special` part: Offline (0) and
      Online (10), an exit hook on Online, an entry hook on Offline, a rule
      Online -> Offline. */
  method OnlineOfflineScenario() {
    var offline, online := 0, 10;
    var f := new FSM<int, string, string>();
    f.SetStateFuncs(online, Some("exitCall"), None);
    f.SetStateFuncs(offline, None, Some("enterCall"));
    var g := f.From(online);
    g := g.To(offline);
    g.Then(Some("ChangeStatus"));

    var m := f.Machine(online);
    var never := (h: string, a: int, b: int) => false;
    var err, trace := m.Goto(offline, never);
    assert err == Pass && m.State == offline;
    assert trace == [Exit(online, "exitCall"), Handle(online, offline, "ChangeStatus"), Enter(offline, "enterCall")];

    err, trace := m.Goto(online, never);
    assert err == Fail(NotPermitted(offline, online)) && trace == [] && m.State == offline;
  }
}
