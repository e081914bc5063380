/**
 * `HookHandler.handle` / `_process` on one thread's state, and the `HookMeta` registration
 * step that runs when a handler class body is executed.
 */
module Handler {
  import opened Wrappers
  import opened Text
  import opened Records
  import opened Registry
  import opened HookState
  import opened DispatchSpec

  /**
   * One thread's dispatcher: the `get_hook_queue()` deque, `hook_vars`, the invocation log
   * and the callbacks registered with `on_commit`. The collaborators are fixed in `cfg`.
   */
  class HookHandler {
    const cfg: Config
    var queue: seq<Entry>
    var vars: HookVars
    var log: seq<Effect>
    var pending: seq<Deferred>

    ghost function State(): (r: St)
      reads this
    {
      St(queue, vars, log, pending)
    }

    /** A thread's first use: an empty queue (created lazily) and `HookVars()` at depth 0. */
    constructor (cfg: Config)
      ensures this.cfg == cfg
      ensures State() == St([], Cleared(0), [], [])
    {
      this.cfg := cfg;
      queue := [];
      vars := Cleared(0);
      log := [];
      pending := [];
    }

    /**
     * `handle(event, model, new_records=..., old_records=..., **kwargs)`: append the entry,
     * return at once if the queue held one already, else pop and process entries until the
     * queue is empty. `raised` tells whether an exception propagated out of the call.
     */
    method Handle(e: Entry, stack: nat) returns (raised: bool)
      modifies this
      ensures Out(State(), raised) == HandleSpec(cfg, old(State()), e, stack)
      ensures old(queue) == [] && !raised ==> queue == []
      decreases stack, 4, 0
    {
      ghost var st0 := State();
      queue := queue + [e];
      if |queue| > 1 {
        return false;
      }
      raised := false;
      while queue != []
        invariant (queue == [e] && State() == st0.(queue := [e]) && !raised)
               || (queue == [] && Out(State(), raised) == HandleSpec(cfg, st0, e, stack))
        decreases |queue|
      {
        var head := queue[0];
        queue := queue[1..];
        assert head == e && State() == st0;
        raised := Process(head, stack);
        ProcessKeeps(cfg, st0, e, stack);
        if raised {
          return;
        }
      }
    }

    /**
     * `_process` for one popped entry: install the context, sort the registrations, run the
     * loop now or leave it for `on_commit`, and clear the context in `finally`.
     */
    method Process(e: Entry, stack: nat) returns (raised: bool)
      modifies this
      ensures Out(State(), raised) == ProcessSpec(cfg, old(State()), e, stack)
      ensures vars == Cleared(old(vars).depth)
      decreases stack, 3, 0
    {
      ghost var st0 := State();
      vars := vars.(depth := vars.depth + 1);
      vars := vars.(news := e.news, olds := e.olds, event := Some(e.event), model := Some(e.model));
      ghost var st1 := State();
      assert st1 == st0.(vars := Installed(e, st0.vars));
      var hooks := SortByPriority(cfg.hooks(e.model, e.event));
      ghost var r: Out;
      if cfg.inAtomic && StartsWith(e.event, "after_") {
        pending := pending + [Deferred(hooks, e.news, e.olds, e.kwargs)];
        raised := false;
        r := Out(State(), raised);
        assert r == Out(st1.(pending := st1.pending + [Deferred(hooks, e.news, e.olds, e.kwargs)]), false);
      } else {
        var newLocal := if e.news.Some? then e.news.value else [];
        var oldLocal := if e.olds.Some? then e.olds.value else [];
        // a non-empty `old_records` is the same list as `hook_vars.old`
        var shared := e.olds.Some? && e.olds.value != [];
        if |oldLocal| < |newLocal| {
          oldLocal := oldLocal + seq(|newLocal| - |oldLocal|, _ => None);
          if shared {
            vars := vars.(olds := Some(oldLocal));
          }
        }
        assert newLocal == NewLocal(e.news) && oldLocal == PadOld(newLocal, NewLocal(e.olds));
        assert State() == st1.(vars := Padded(e, st1.vars));
        raised := Execute(hooks, newLocal, oldLocal, e.kwargs, stack);
        r := Out(State(), raised);
      }
      vars := Cleared(vars.depth - 1);
      assert Out(State(), raised) == Out(r.st.(vars := Cleared(r.st.vars.depth - 1)), r.raised);
      ProcessKeeps(cfg, st0, e, stack);
    }

    /**
     * The `_execute` loop: gate each registration on its condition and call the ones that pass;
     * a preload, check or handler construction that raises ends the loop with the exception.
     */
    method Execute(hooks: seq<Registration>, news: seq<Item>, olds: seq<Item>, kwargs: Kwargs, stack: nat) returns (raised: bool)
      modifies this
      ensures Out(State(), raised) == ExecSpec(cfg, old(State()), hooks, news, olds, kwargs, stack)
      decreases stack, 2, |hooks|
    {
      ghost var st0 := State();
      var i := 0;
      while i < |hooks|
        invariant 0 <= i <= |hooks|
        invariant ExecSpec(cfg, st0, hooks, news, olds, kwargs, stack) == ExecSpec(cfg, State(), hooks[i..], news, olds, kwargs, stack)
      {
        var reg := hooks[i];
        assert hooks[i..][0] == reg && hooks[i..][1..] == hooks[i + 1..];
        var withRelated := news;
        if reg.selectRelated.Some? && reg.selectRelated.value != [] {
          if cfg.preloadRaises(news, reg.selectRelated.value) {
            return true;
          }
          withRelated := cfg.preload(news, reg.selectRelated.value);
        }
        var gate := Holds(true);
        if reg.condition.Some? {
          gate := EvalChecks(cfg.check, reg.condition.value, withRelated, olds);
        }
        if gate == Raises {
          return true;
        }
        if gate == Holds(true) {
          // `handler_cls()` and `getattr(handler, method_name)`, outside the `try`
          if !cfg.instantiates(reg.handler, reg.methodName) {
            return true;
          }
          Invoke(Invocation(reg.handler, reg.methodName, withRelated, olds, kwargs, vars), stack);
        }
        i := i + 1;
      }
      return false;
    }

    /** Call one handler method; an exception it raises is logged and swallowed. */
    method Invoke(inv: Invocation, stack: nat)
      modifies this
      ensures State() == InvokeSpec(cfg, old(State()), inv, stack)
      decreases stack, 1, 0
    {
      var reaction := cfg.react(inv);
      log := log + [Invoked(inv)];
      ghost var st1 := State();
      var failed := false;
      var i := 0;
      while i < |reaction.nested| && !failed
        invariant 0 <= i <= |reaction.nested|
        invariant NestedSpec(cfg, st1, reaction.nested, stack) ==
          if failed then Out(State(), true) else NestedSpec(cfg, State(), reaction.nested[i..], stack)
        decreases |reaction.nested| - i
      {
        assert reaction.nested[i..][0] == reaction.nested[i] && reaction.nested[i..][1..] == reaction.nested[i + 1..];
        if stack == 0 {
          failed := true;
        } else {
          failed := Handle(reaction.nested[i], stack - 1);
        }
        i := i + 1;
      }
      if failed || reaction.raises {
        log := log + [Logged(inv.handler, inv.methodName)];
      }
    }
  }

  // ---------------------------------------------------------------------------------------
  // HookMeta
  // ---------------------------------------------------------------------------------------

  /** A key of `HookMeta._registered`: `(model_cls, event, cls, method_name)`. */
  datatype Key = Key(model: ModelId, event: string, cls: HandlerClass, methodName: string)

  /** One `(method_name, (model, event, condition, priority))` pair met in a class body. */
  datatype Decl = Decl(methodName: string, spec: HookSpec, selectRelated: Option<seq<string>>)

  function KeyOf(cls: HandlerClass, d: Decl): (r: Key) {
    Key(d.spec.model, d.spec.event, cls, d.methodName)
  }

  function CallKey(c: RegisterCall): (r: Key) {
    Key(c.model, c.event, c.reg.handler, c.reg.methodName)
  }

  /** The `register_hook` call for `d` in class `cls`. */
  function CallFor(cls: HandlerClass, d: Decl): (r: RegisterCall) {
    RegisterCall(d.spec.model, d.spec.event, Registration(cls, d.methodName, d.spec.condition, d.spec.priority, d.selectRelated))
  }

  /**
   * What the registration loop does with the declarations `ds` of class `cls`, given the
   * keys `seen` before it: the `register_hook` calls, and the keys afterwards.
   */
  function Registrations(seen: set<Key>, cls: HandlerClass, ds: seq<Decl>): (seq<RegisterCall>, set<Key>) {
    if ds == [] then ([], seen)
    else
      var (calls, keys) := Registrations(seen, cls, ds[..|ds| - 1]);
      var d := ds[|ds| - 1];
      if KeyOf(cls, d) in keys then (calls, keys) else (calls + [CallFor(cls, d)], keys + {KeyOf(cls, d)})
  }

  /** The keys afterwards are the keys before plus the key of every declaration. */
  lemma {:induction false} RegisteredKeys(seen: set<Key>, cls: HandlerClass, ds: seq<Decl>)
    ensures Registrations(seen, cls, ds).1 == seen + set d | d in ds :: KeyOf(cls, d)
  {
    if ds != [] {
      var init := ds[..|ds| - 1];
      var d := ds[|ds| - 1];
      RegisteredKeys(seen, cls, init);
      assert ds == init + [d];
      assert (set x | x in ds :: KeyOf(cls, x)) == (set x | x in init :: KeyOf(cls, x)) + {KeyOf(cls, d)};
    }
  }

  /**
   * Each `register_hook` call is for a key that was not registered before, is registered
   * afterwards, and is not the key of any other call: every key is registered at most once.
   */
  lemma {:induction false} CallsOncePerKey(seen: set<Key>, cls: HandlerClass, ds: seq<Decl>)
    ensures forall c :: c in Registrations(seen, cls, ds).0 ==> CallKey(c) !in seen && CallKey(c) in Registrations(seen, cls, ds).1
    ensures forall i, j :: 0 <= i < j < |Registrations(seen, cls, ds).0| ==>
      CallKey(Registrations(seen, cls, ds).0[i]) != CallKey(Registrations(seen, cls, ds).0[j])
  {
    if ds != [] {
      var init := ds[..|ds| - 1];
      var d := ds[|ds| - 1];
      CallsOncePerKey(seen, cls, init);
      RegisteredKeys(seen, cls, init);
      assert CallKey(CallFor(cls, d)) == KeyOf(cls, d);
    }
  }

  /** Each call is the one for the first declaration with its key; later duplicates are dropped. */
  lemma {:induction false} CallsFromFirstDecl(seen: set<Key>, cls: HandlerClass, ds: seq<Decl>)
    ensures forall c :: c in Registrations(seen, cls, ds).0 ==>
      exists k :: 0 <= k < |ds| && c == CallFor(cls, ds[k]) && forall l :: 0 <= l < k ==> KeyOf(cls, ds[l]) != CallKey(c)
  {
    if ds != [] {
      var init := ds[..|ds| - 1];
      var d := ds[|ds| - 1];
      CallsFromFirstDecl(seen, cls, init);
      RegisteredKeys(seen, cls, init);
      var calls := Registrations(seen, cls, init).0;
      forall c | c in Registrations(seen, cls, ds).0
        ensures exists k :: 0 <= k < |ds| && c == CallFor(cls, ds[k]) && forall l :: 0 <= l < k ==> KeyOf(cls, ds[l]) != CallKey(c)
      {
        if c in calls {
          var k :| 0 <= k < |init| && c == CallFor(cls, init[k]) && forall l :: 0 <= l < k ==> KeyOf(cls, init[l]) != CallKey(c);
          assert ds[k] == init[k];
          assert forall l :: 0 <= l < k ==> ds[l] == init[l];
        } else {
          assert c == CallFor(cls, d) && KeyOf(cls, d) !in Registrations(seen, cls, init).1;
          assert CallKey(c) == KeyOf(cls, d);
          forall l | 0 <= l < |ds| - 1
            ensures KeyOf(cls, ds[l]) != CallKey(c)
          {
            assert ds[l] == init[l] && init[l] in init;
          }
        }
      }
    }
  }

  /** What `HookMeta` has done so far: the `register_hook` calls and `_registered`. */
  datatype MetaState = MetaState(calls: seq<RegisterCall>, keys: set<Key>)

  /** One iteration of the inner registration loop. */
  function Step(s: MetaState, cls: HandlerClass, d: Decl): (r: MetaState) {
    if KeyOf(cls, d) in s.keys then s
    else MetaState(s.calls + [CallFor(cls, d)], s.keys + {KeyOf(cls, d)})
  }

  /** The registration loop over `ds`, one iteration at a time. */
  function Fold(s: MetaState, cls: HandlerClass, ds: seq<Decl>): (r: MetaState)
    decreases |ds|
  {
    if ds == [] then s else Fold(Step(s, cls, ds[0]), cls, ds[1..])
  }

  lemma {:induction false} FoldAppend(s: MetaState, cls: HandlerClass, a: seq<Decl>, b: seq<Decl>)
    ensures Fold(s, cls, a + b) == Fold(Fold(s, cls, a), cls, b)
    decreases |a|
  {
    if a == [] {
      assert a + b == b;
    } else {
      assert (a + b)[0] == a[0] && (a + b)[1..] == a[1..] + b;
      FoldAppend(Step(s, cls, a[0]), cls, a[1..], b);
    }
  }

  /** Running the loop is appending the calls `Registrations` lists and taking its keys. */
  lemma {:induction false} FoldIsRegistrations(calls: seq<RegisterCall>, seen: set<Key>, cls: HandlerClass, ds: seq<Decl>)
    ensures Fold(MetaState(calls, seen), cls, ds) ==
      MetaState(calls + Registrations(seen, cls, ds).0, Registrations(seen, cls, ds).1)
  {
    if ds == [] {
      assert calls + [] == calls;
    } else {
      var init := ds[..|ds| - 1];
      var d := ds[|ds| - 1];
      assert ds == init + [d];
      FoldAppend(MetaState(calls, seen), cls, init, [d]);
      FoldIsRegistrations(calls, seen, cls, init);
      var r := Registrations(seen, cls, init);
      assert calls + r.0 + [CallFor(cls, d)] == calls + (r.0 + [CallFor(cls, d)]);
    }
  }

  /** The `HookMeta` metaclass, with its class-level `_registered` set. */
  class HookMeta {
    var registered: set<Key>

    constructor ()
      ensures registered == {}
    {
      registered := {};
    }

    /**
     * `HookMeta.__new__(name, bases, namespace)`: create the class, then, for each decorated
     * function in the class body and each of its `hooks_hooks` tuples, register the
     * `(model, event, cls, method_name)` key unless it is already registered.
     */
    method New(name: string, namespace: seq<(string, PyFunction)>, registry: RegistryLog) returns (cls: HandlerClass)
      modifies this, registry
      ensures fresh(cls) && cls.name == name && cls.wraps == null
      ensures MetaState(registry.calls, registered) ==
        MetaState(old(registry.calls) + Registrations(old(registered), cls, Flatten(old(Snapshot(namespace)))).0,
                  Registrations(old(registered), cls, Flatten(old(Snapshot(namespace)))).1)
    {
      ghost var body := Snapshot(namespace);
      ghost var ds := Flatten(body);
      cls := new HandlerClass(name, null);
      ghost var s0 := MetaState(registry.calls, registered);
      var i := 0;
      assert body[i..] == body;
      while i < |namespace|
        invariant 0 <= i <= |namespace|
        invariant forall k :: 0 <= k < |namespace| ==> AttrsOf(namespace[k]) == body[k]
        invariant Fold(s0, cls, ds) == Fold(MetaState(registry.calls, registered), cls, Flatten(body[i..]))
      {
        var (methodName, fn) := namespace[i];
        assert AttrsOf(namespace[i]) == body[i];
        ghost var cur := MetaState(registry.calls, registered);
        FlattenAt(body, i);
        FoldAppend(cur, cls, DeclsIn(body[i]), Flatten(body[i + 1..]));
        RegisterFunction(cls, methodName, fn, registry);
        i := i + 1;
      }
      assert body[i..] == [];
      FoldIsRegistrations(old(registry.calls), old(registered), cls, ds);
    }

    /** The inner loop of `__new__`: register each `hooks_hooks` tuple of `fn` whose key is new. */
    method RegisterFunction(cls: HandlerClass, methodName: string, fn: PyFunction, registry: RegistryLog)
      modifies this, registry
      ensures MetaState(registry.calls, registered) ==
        Fold(MetaState(old(registry.calls), old(registered)), cls,
             if fn.hooksHooks.Some? then DeclsOf(methodName, fn.hooksHooks.value, fn.selectRelatedFields) else [])
    {
      if fn.hooksHooks.Some? {
        var specs := fn.hooksHooks.value;
        ghost var s0 := MetaState(registry.calls, registered);
        var j := 0;
        while j < |specs|
          invariant 0 <= j <= |specs|
          invariant Fold(s0, cls, DeclsOf(methodName, specs, fn.selectRelatedFields)) ==
            Fold(MetaState(registry.calls, registered), cls, DeclsOf(methodName, specs[j..], fn.selectRelatedFields))
        {
          var spec := specs[j];
          var key := Key(spec.model, spec.event, cls, methodName);
          assert specs[j..][0] == spec && specs[j..][1..] == specs[j + 1..];
          if key !in registered {
            registry.RegisterHook(RegisterCall(spec.model, spec.event,
              Registration(cls, methodName, spec.condition, spec.priority, fn.selectRelatedFields)));
            registered := registered + {key};
          }
          j := j + 1;
        }
      }
    }
  }

  /** The declarations one function contributes, in `hooks_hooks` order. */
  function DeclsOf(methodName: string, specs: seq<HookSpec>, selectRelated: Option<seq<string>>): (r: seq<Decl>) {
    if specs == [] then []
    else [Decl(methodName, specs[0], selectRelated)] + DeclsOf(methodName, specs[1..], selectRelated)
  }

  /** What `__new__` reads of one class attribute: its name and the two decorator attributes. */
  datatype Attrs = Attrs(methodName: string, hooksHooks: Option<seq<HookSpec>>, selectRelated: Option<seq<string>>)

  function AttrsOf(entry: (string, PyFunction)): (r: Attrs)
    reads entry.1
  {
    Attrs(entry.0, entry.1.hooksHooks, entry.1.selectRelatedFields)
  }

  /** The class body as values, in namespace order. */
  ghost function Snapshot(namespace: seq<(string, PyFunction)>): (r: seq<Attrs>)
    reads set i | 0 <= i < |namespace| :: namespace[i].1
    ensures |r| == |namespace|
    ensures forall k :: 0 <= k < |namespace| ==> r[k] == AttrsOf(namespace[k])
  {
    if namespace == [] then [] else [AttrsOf(namespace[0])] + Snapshot(namespace[1..])
  }

  /** The declarations one attribute contributes: none unless it carries `hooks_hooks`. */
  function DeclsIn(a: Attrs): (r: seq<Decl>) {
    if a.hooksHooks.Some? then DeclsOf(a.methodName, a.hooksHooks.value, a.selectRelated) else []
  }

  /** Unfolding `Flatten` at position `i` of the class body. */
  lemma FlattenAt(body: seq<Attrs>, i: int)
    requires 0 <= i < |body|
    ensures Flatten(body[i..]) == DeclsIn(body[i]) + Flatten(body[i + 1..])
  {
    assert body[i..][0] == body[i] && body[i..][1..] == body[i + 1..];
  }

  /** All declarations of a class body, in namespace order. */
  function Flatten(body: seq<Attrs>): (r: seq<Decl>) {
    if body == [] then [] else DeclsIn(body[0]) + Flatten(body[1..])
  }
}
