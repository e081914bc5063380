/**
 * What one thread's dispatch does, as functions over the dispatch state: the queue of
 * `HookHandler.handle`, the hook context (`hook_vars`), the log of handler invocations and
 * the callbacks left for `on_commit`.
 *
 * The handler methods themselves are user code; what one of them does that matters to the
 * dispatcher is given by `Config.react`: the `handle` calls it makes (in order) and whether
 * it raises. A `handle` issued from inside a hook runs at once, because the outer `handle`
 * popped its entry before processing it; `stack` bounds how deep such nesting may go
 * (Python's recursion limit), and a `handle` beyond it raises `RecursionError` inside the
 * hook that issued it.
 */
module DispatchSpec {
  import opened Wrappers
  import opened Text
  import opened Records
  import opened Registry
  import opened HookState
  import Decorators

  /** The `**kwargs` passed through `handle` to every handler method. */
  type Kwargs = map<string, Value>

  /** One queue entry: `(cls, event, model, new_records, old_records, kwargs)`. */
  datatype Entry = Entry(
    cls: HandlerClass,
    event: string,
    model: ModelId,
    news: Option<seq<Item>>,
    olds: Option<seq<Item>>,
    kwargs: Kwargs)

  /** What `condition.check(new, old)` does: answer, or raise. */
  datatype CheckOutcome = Holds(b: bool) | Raises

  /** One call of a handler method, with the hook context it can observe through `Hook`. */
  datatype Invocation = Invocation(
    handler: HandlerClass,
    methodName: string,
    news: seq<Item>,
    olds: seq<Item>,
    kwargs: Kwargs,
    context: HookVars)

  /** What a handler method does when called: the `handle` calls it issues, and whether it then raises. */
  datatype Reaction = Reaction(nested: seq<Entry>, raises: bool)

  /**
   * The collaborators of `_process`: `get_hooks`, `condition.check`, `_apply_select_related`
   * (what it returns, and whether it raises), `handler_cls()` with `getattr(handler,
   * method_name)` (whether they succeed), the handler methods, and `conn.in_atomic_block`.
   */
  datatype Config = Config(
    hooks: (ModelId, string) -> seq<Registration>,
    check: (Condition, Item, Item) -> CheckOutcome,
    preload: (seq<Item>, seq<string>) -> seq<Item>,
    preloadRaises: (seq<Item>, seq<string>) -> bool,
    instantiates: (HandlerClass, string) -> bool,
    react: Invocation -> Reaction,
    inAtomic: bool)

  /** An observable step: a handler method was called, or its exception was logged and swallowed. */
  datatype Effect = Invoked(inv: Invocation) | Logged(handler: HandlerClass, methodName: string)

  /** The `_execute` closure handed to `transaction.on_commit`, with what it captured. */
  datatype Deferred = Deferred(hooks: seq<Registration>, news: Option<seq<Item>>, olds: Option<seq<Item>>, kwargs: Kwargs)

  /** The state of one thread's dispatch. */
  datatype St = St(queue: seq<Entry>, vars: HookVars, log: seq<Effect>, pending: seq<Deferred>)

  /** The state after a step, and whether the step raised. */
  datatype Out = Out(st: St, raised: bool)

  // ---------------------------------------------------------------------------------------
  // Ordering: `sorted(get_hooks(model, event), key=lambda x: x[3])`
  // ---------------------------------------------------------------------------------------

  predicate SortedByPriority(s: seq<Registration>) {
    forall i, j :: 0 <= i < j < |s| ==> s[i].priority <= s[j].priority
  }

  /** The registrations of `s` with priority `p`, in their order in `s`. */
  function WithPriority(s: seq<Registration>, p: int): (r: seq<Registration>) {
    if s == [] then []
    else (if s[0].priority == p then [s[0]] else []) + WithPriority(s[1..], p)
  }

  /** Puts `x` after every element of the sorted `s` whose priority is not greater than its own. */
  function Insert(s: seq<Registration>, x: Registration): (r: seq<Registration>) {
    if s == [] then [x]
    else if s[0].priority > x.priority then [x] + s
    else [s[0]] + Insert(s[1..], x)
  }

  /** Python's `sorted` on the priority key: a stable sort. */
  function SortByPriority(s: seq<Registration>): (r: seq<Registration>) {
    if s == [] then []
    else Insert(SortByPriority(s[..|s| - 1]), s[|s| - 1])
  }

  lemma {:induction false} InsertPermutes(s: seq<Registration>, x: Registration)
    ensures multiset(Insert(s, x)) == multiset(s) + multiset{x}
  {
    if s != [] && s[0].priority <= x.priority {
      InsertPermutes(s[1..], x);
      assert s == [s[0]] + s[1..];
    }
  }

  /** Putting an element no higher than all of a sorted list in front of it keeps it sorted. */
  lemma SortedCons(y: Registration, r: seq<Registration>)
    requires SortedByPriority(r)
    requires forall k :: 0 <= k < |r| ==> y.priority <= r[k].priority
    ensures SortedByPriority([y] + r)
  {
    forall i, j | 0 <= i < j < |[y] + r|
      ensures ([y] + r)[i].priority <= ([y] + r)[j].priority
    {
      if i > 0 {
        assert ([y] + r)[i] == r[i - 1];
      }
      assert ([y] + r)[j] == r[j - 1];
    }
  }

  lemma {:induction false} InsertSorted(s: seq<Registration>, x: Registration)
    requires SortedByPriority(s)
    ensures SortedByPriority(Insert(s, x))
  {
    if s == [] {
    } else if s[0].priority > x.priority {
      SortedCons(x, s);
    } else {
      var t := s[1..];
      assert SortedByPriority(t) by {
        forall i, j | 0 <= i < j < |t|
          ensures t[i].priority <= t[j].priority
        {
          assert t[i] == s[i + 1] && t[j] == s[j + 1];
        }
      }
      InsertSorted(t, x);
      InsertPermutes(t, x);
      var r := Insert(t, x);
      forall k | 0 <= k < |r|
        ensures s[0].priority <= r[k].priority
      {
        assert r[k] in multiset(r);
        if r[k] != x {
          assert r[k] in multiset(t);
          var j :| 0 <= j < |t| && t[j] == r[k];
          assert s[j + 1] == r[k];
        }
      }
      SortedCons(s[0], r);
    }
  }

  lemma {:induction false} SortByPriorityPermutes(s: seq<Registration>)
    ensures SortedByPriority(SortByPriority(s))
    ensures multiset(SortByPriority(s)) == multiset(s)
  {
    if s != [] {
      SortByPriorityPermutes(s[..|s| - 1]);
      InsertSorted(SortByPriority(s[..|s| - 1]), s[|s| - 1]);
      InsertPermutes(SortByPriority(s[..|s| - 1]), s[|s| - 1]);
      assert s == s[..|s| - 1] + [s[|s| - 1]];
    }
  }

  lemma {:induction false} WithPriorityAppend(a: seq<Registration>, b: seq<Registration>, p: int)
    ensures WithPriority(a + b, p) == WithPriority(a, p) + WithPriority(b, p)
  {
    if a != [] {
      assert (a + b)[1..] == a[1..] + b;
      WithPriorityAppend(a[1..], b, p);
    } else {
      assert a + b == b;
    }
  }

  lemma SortedTail(s: seq<Registration>)
    requires SortedByPriority(s) && s != []
    ensures SortedByPriority(s[1..])
  {
    forall i, j | 0 <= i < j < |s| - 1
      ensures s[1..][i].priority <= s[1..][j].priority
    {
      assert s[1..][i] == s[i + 1] && s[1..][j] == s[j + 1];
    }
  }

  /** In a sorted list whose first priority is above `p`, nothing has priority `p`. */
  lemma {:induction false} NoneWithLowerPriority(s: seq<Registration>, p: int)
    requires SortedByPriority(s) && s != [] && s[0].priority > p
    ensures WithPriority(s, p) == []
  {
    if |s| > 1 {
      SortedTail(s);
      NoneWithLowerPriority(s[1..], p);
    }
  }

  lemma {:induction false} InsertStable(s: seq<Registration>, x: Registration, p: int)
    requires SortedByPriority(s)
    ensures WithPriority(Insert(s, x), p) == WithPriority(s, p) + (if x.priority == p then [x] else [])
  {
    if s == [] {
    } else if s[0].priority > x.priority {
      if x.priority == p {
        NoneWithLowerPriority(s, p);
      }
      assert ([x] + s)[1..] == s;
    } else {
      SortedTail(s);
      InsertStable(s[1..], x, p);
      assert ([s[0]] + Insert(s[1..], x))[1..] == Insert(s[1..], x);
    }
  }

  /**
   * The sort is stable: for every priority, the registrations with that priority come out
   * in their registry order.
   */
  lemma {:induction false} SortByPriorityStable(s: seq<Registration>, p: int)
    ensures WithPriority(SortByPriority(s), p) == WithPriority(s, p)
  {
    if s != [] {
      var init := s[..|s| - 1];
      var last := s[|s| - 1];
      var sorted := SortByPriority(init);
      assert SortedByPriority(sorted) by {
        SortByPriorityPermutes(init);
      }
      InsertStable(sorted, last, p);
      SortByPriorityStable(init, p);
      assert s == init + [last];
      WithPriorityAppend(init, [last], p);
      assert [last][1..] == [];
    }
  }

  // ---------------------------------------------------------------------------------------
  // The record lists handed to hooks
  // ---------------------------------------------------------------------------------------

  /** `new_records or []`: a missing or empty list becomes the empty list. */
  function NewLocal(news: Option<seq<Item>>): (r: seq<Item>)
    ensures news.Some? ==> r == news.value
    ensures news.None? ==> r == []
  {
    if news.Some? then news.value else []
  }

  /** `old_local`, padded with `None` up to the length of `new_local`; a longer one is kept whole. */
  function PadOld(news: seq<Item>, olds: seq<Item>): (r: seq<Item>)
    ensures |r| == if |olds| < |news| then |news| else |olds|
    ensures r[..|olds|] == olds
    ensures forall i :: |olds| <= i < |r| ==> r[i] == None
  {
    if |olds| < |news| then olds + seq(|news| - |olds|, _ => None) else olds
  }

  // ---------------------------------------------------------------------------------------
  // Gating a registration on its condition
  // ---------------------------------------------------------------------------------------

  /**
   * `any([condition.check(n, o) for n, o in zip(news, olds)])`: every pair is checked in
   * order, and the first check that raises stops the list comprehension.
   */
  function EvalChecks(check: (Condition, Item, Item) -> CheckOutcome, c: Condition, news: seq<Item>, olds: seq<Item>): (r: CheckOutcome)
    decreases |news|
  {
    if news == [] || olds == [] then Holds(false)
    else
      match check(c, news[0], olds[0])
      case Raises => Raises
      case Holds(b) =>
        match EvalChecks(check, c, news[1..], olds[1..])
        case Raises => Raises
        case Holds(rest) => Holds(b || rest)
  }

  /** A zipped pair `(news[i], olds[i])`. */
  predicate Paired(news: seq<Item>, olds: seq<Item>, i: int) {
    0 <= i < |news| && i < |olds|
  }

  /**
   * The checks raise exactly when the check of some zipped pair raises, and otherwise they
   * hold exactly when the check of some zipped pair is true.
   */
  lemma {:induction false} EvalChecksMeaning(check: (Condition, Item, Item) -> CheckOutcome, c: Condition, news: seq<Item>, olds: seq<Item>)
    ensures EvalChecks(check, c, news, olds) == Raises <==>
      exists i :: Paired(news, olds, i) && check(c, news[i], olds[i]) == Raises
    ensures EvalChecks(check, c, news, olds) == Holds(true) <==>
      (forall i :: Paired(news, olds, i) ==> check(c, news[i], olds[i]) != Raises) &&
      (exists i :: Paired(news, olds, i) && check(c, news[i], olds[i]) == Holds(true))
    decreases |news|
  {
    if news != [] && olds != [] {
      EvalChecksMeaning(check, c, news[1..], olds[1..]);
      forall i | Paired(news[1..], olds[1..], i)
        ensures check(c, news[1..][i], olds[1..][i]) == check(c, news[i + 1], olds[i + 1])
      {
      }
      if check(c, news[0], olds[0]) == Raises {
        assert Paired(news, olds, 0);
      }
      forall i | Paired(news, olds, i) && i > 0
        ensures Paired(news[1..], olds[1..], i - 1)
      {
      }
      if check(c, news[0], olds[0]) == Holds(true) {
        assert Paired(news, olds, 0);
      }
    }
  }

  /** A registration without a condition always runs; with one, it runs when the checks hold. */
  function Gate(check: (Condition, Item, Item) -> CheckOutcome, condition: Option<Condition>, news: seq<Item>, olds: seq<Item>): (r: CheckOutcome) {
    if condition.None? then Holds(true) else EvalChecks(check, condition.value, news, olds)
  }

  /** With an empty batch a conditional registration is skipped and an unconditional one still runs. */
  lemma EmptyBatchGate(check: (Condition, Item, Item) -> CheckOutcome, condition: Option<Condition>, olds: seq<Item>)
    ensures Gate(check, condition, [], olds) == (if condition.None? then Holds(true) else Holds(false))
  {
  }

  /** The new records a registration sees: preloaded when it names `select_related` fields. */
  function WithRelated(cfg: Config, reg: Registration, news: seq<Item>): (r: seq<Item>) {
    if reg.selectRelated.Some? && reg.selectRelated.value != [] then cfg.preload(news, reg.selectRelated.value)
    else news
  }

  function GateOf(cfg: Config, reg: Registration, news: seq<Item>, olds: seq<Item>): (r: CheckOutcome) {
    Gate(cfg.check, reg.condition, WithRelated(cfg, reg, news), olds)
  }

  /** `_apply_select_related` is called for the registration, and raises. */
  predicate PreloadRaises(cfg: Config, reg: Registration, news: seq<Item>) {
    reg.selectRelated.Some? && reg.selectRelated.value != [] && cfg.preloadRaises(news, reg.selectRelated.value)
  }

  /**
   * What the loop makes of one registration before the `try`: the preload, the checks, then
   * `handler_cls()` and `getattr` for a registration that passes. `Raises` when one of them
   * raises (the exception leaves `_execute`), else whether the method is called.
   */
  function StepOf(cfg: Config, reg: Registration, news: seq<Item>, olds: seq<Item>): (r: CheckOutcome) {
    if PreloadRaises(cfg, reg, news) then Raises
    else
      match GateOf(cfg, reg, news, olds)
      case Raises => Raises
      case Holds(run) => if run && !cfg.instantiates(reg.handler, reg.methodName) then Raises else Holds(run)
  }

  /** The context `_process` installs for `e` on top of `v`. */
  function Installed(e: Entry, v: HookVars): (r: HookVars) {
    HookVars(e.news, e.olds, Some(e.event), Some(e.model), v.depth + 1)
  }

  /**
   * The context while `_execute` runs. A non-empty `old_records` is the very list `old_local`
   * names, so padding `old_local` pads the context's `old` too; an empty or missing one is
   * replaced by a fresh list and the context keeps it.
   */
  function Padded(e: Entry, v: HookVars): (r: HookVars) {
    if e.olds.Some? && e.olds.value != [] then v.(olds := Some(PadOld(NewLocal(e.news), e.olds.value))) else v
  }

  /**
   * While the loop runs, `Hook.old` is the padded list the handlers receive as
   * `old_records` whenever the entry's old list is not empty, and the entry's own list (or
   * `None`) otherwise; the rest of the installed context is untouched.
   */
  lemma PaddedOld(e: Entry, v: HookVars)
    ensures var w := Padded(e, Installed(e, v));
      w.news == e.news && w.event == Some(e.event) && w.model == Some(e.model) && w.depth == v.depth + 1 &&
      (e.olds.Some? && e.olds.value != [] ==> w.olds == Some(PadOld(NewLocal(e.news), NewLocal(e.olds)))) &&
      (e.olds.None? || e.olds.value == [] ==> w.olds == e.olds)
  {
  }

  /** Whether `_process` hands its loop to `on_commit` instead of running it. */
  predicate Defers(cfg: Config, event: string) {
    cfg.inAtomic && StartsWith(event, "after_")
  }

  // ---------------------------------------------------------------------------------------
  // The dispatch itself
  // ---------------------------------------------------------------------------------------

  /** `HookHandler.handle`: enqueue, return if the queue already held an entry, else drain. */
  function HandleSpec(cfg: Config, st: St, e: Entry, stack: nat): (r: Out)
    decreases stack, 4, 0
  {
    if st.queue != [] then Out(st.(queue := st.queue + [e]), false)
    else ProcessSpec(cfg, st, e, stack)
  }

  /** `HookHandler._process` for one popped entry, including its `finally`. */
  function ProcessSpec(cfg: Config, st: St, e: Entry, stack: nat): (r: Out)
    decreases stack, 3, 0
  {
    var hooks := SortByPriority(cfg.hooks(e.model, e.event));
    var st1 := st.(vars := Installed(e, st.vars));
    var r :=
      if Defers(cfg, e.event) then Out(st1.(pending := st1.pending + [Deferred(hooks, e.news, e.olds, e.kwargs)]), false)
      else
        var news := NewLocal(e.news);
        ExecSpec(cfg, st1.(vars := Padded(e, st1.vars)), hooks, news, PadOld(news, NewLocal(e.olds)), e.kwargs, stack);
    Out(r.st.(vars := Cleared(r.st.vars.depth - 1)), r.raised)
  }

  /** The loop of `_execute` over the sorted registrations. */
  function ExecSpec(cfg: Config, st: St, hooks: seq<Registration>, news: seq<Item>, olds: seq<Item>, kwargs: Kwargs, stack: nat): (r: Out)
    decreases stack, 2, |hooks|
  {
    if hooks == [] then Out(st, false)
    else
      var reg := hooks[0];
      match StepOf(cfg, reg, news, olds)
      case Raises => Out(st, true)
      case Holds(run) =>
        var st1 := if run then InvokeSpec(cfg, st, Invocation(reg.handler, reg.methodName, WithRelated(cfg, reg, news), olds, kwargs, st.vars), stack) else st;
        ExecSpec(cfg, st1, hooks[1..], news, olds, kwargs, stack)
  }

  /** One handler call inside `try`/`except Exception`: whatever it raises is logged, never propagated. */
  function InvokeSpec(cfg: Config, st: St, inv: Invocation, stack: nat): (r: St)
    decreases stack, 1, 0
  {
    var reaction := cfg.react(inv);
    var r := NestedSpec(cfg, st.(log := st.log + [Invoked(inv)]), reaction.nested, stack);
    if r.raised || reaction.raises then r.st.(log := r.st.log + [Logged(inv.handler, inv.methodName)])
    else r.st
  }

  /** The `handle` calls a handler method makes, in order, up to the first one that raises. */
  function NestedSpec(cfg: Config, st: St, reqs: seq<Entry>, stack: nat): (r: Out)
    decreases stack, 0, |reqs|
  {
    if reqs == [] then Out(st, false)
    else if stack == 0 then Out(st, true)
    else
      var r := HandleSpec(cfg, st, reqs[0], stack - 1);
      if r.raised then r else NestedSpec(cfg, r.st, reqs[1..], stack)
  }

  // ---------------------------------------------------------------------------------------
  // Properties of the dispatch
  // ---------------------------------------------------------------------------------------

  /**
   * Every dispatch step leaves the nesting depth where it found it, and one that starts with
   * an empty queue leaves it empty.
   */
  lemma {:induction false} HandleKeeps(cfg: Config, st: St, e: Entry, stack: nat)
    ensures HandleSpec(cfg, st, e, stack).st.vars.depth == st.vars.depth
    ensures st.queue == [] ==> HandleSpec(cfg, st, e, stack).st.queue == []
    decreases stack, 4, 0
  {
    if st.queue == [] {
      ProcessKeeps(cfg, st, e, stack);
    }
  }

  lemma {:induction false} ProcessKeeps(cfg: Config, st: St, e: Entry, stack: nat)
    ensures ProcessSpec(cfg, st, e, stack).st.vars == Cleared(st.vars.depth)
    ensures st.queue == [] ==> ProcessSpec(cfg, st, e, stack).st.queue == []
    decreases stack, 3, 0
  {
    if !Defers(cfg, e.event) {
      var news := NewLocal(e.news);
      ExecKeeps(cfg, st.(vars := Padded(e, Installed(e, st.vars))), SortByPriority(cfg.hooks(e.model, e.event)), news, PadOld(news, NewLocal(e.olds)), e.kwargs, stack);
    }
  }

  lemma {:induction false} ExecKeeps(cfg: Config, st: St, hooks: seq<Registration>, news: seq<Item>, olds: seq<Item>, kwargs: Kwargs, stack: nat)
    ensures ExecSpec(cfg, st, hooks, news, olds, kwargs, stack).st.vars.depth == st.vars.depth
    ensures st.queue == [] ==> ExecSpec(cfg, st, hooks, news, olds, kwargs, stack).st.queue == []
    decreases stack, 2, |hooks|
  {
    if hooks != [] {
      var reg := hooks[0];
      if StepOf(cfg, reg, news, olds) == Holds(true) {
        var inv := Invocation(reg.handler, reg.methodName, WithRelated(cfg, reg, news), olds, kwargs, st.vars);
        InvokeKeeps(cfg, st, inv, stack);
        ExecKeeps(cfg, InvokeSpec(cfg, st, inv, stack), hooks[1..], news, olds, kwargs, stack);
      } else if StepOf(cfg, reg, news, olds) == Holds(false) {
        ExecKeeps(cfg, st, hooks[1..], news, olds, kwargs, stack);
      }
    }
  }

  lemma {:induction false} InvokeKeeps(cfg: Config, st: St, inv: Invocation, stack: nat)
    ensures InvokeSpec(cfg, st, inv, stack).vars.depth == st.vars.depth
    ensures st.queue == [] ==> InvokeSpec(cfg, st, inv, stack).queue == []
    decreases stack, 1, 0
  {
    NestedKeeps(cfg, st.(log := st.log + [Invoked(inv)]), cfg.react(inv).nested, stack);
  }

  lemma {:induction false} NestedKeeps(cfg: Config, st: St, reqs: seq<Entry>, stack: nat)
    ensures NestedSpec(cfg, st, reqs, stack).st.vars.depth == st.vars.depth
    ensures st.queue == [] ==> NestedSpec(cfg, st, reqs, stack).st.queue == []
    decreases stack, 0, |reqs|
  {
    if reqs != [] && stack > 0 {
      HandleKeeps(cfg, st, reqs[0], stack - 1);
      NestedKeeps(cfg, HandleSpec(cfg, st, reqs[0], stack - 1).st, reqs[1..], stack);
    }
  }

  /**
   * A `handle` issued while no entry is queued (which is always the case inside a hook, since
   * the outer `handle` popped its entry) processes its entry at once instead of queueing it.
   */
  lemma NestedHandleRunsAtOnce(cfg: Config, st: St, e: Entry, stack: nat)
    requires st.queue == []
    ensures HandleSpec(cfg, st, e, stack) == ProcessSpec(cfg, st, e, stack)
  {
  }

  /**
   * A hook that issues a `handle` (within the recursion limit) finds the hook context cleared
   * when that call returns: the nested `_process` resets it in its `finally` and nothing
   * restores the outer one, so hooks run later in the same loop see no event either.
   */
  lemma NestedHandleClearsContext(cfg: Config, st: St, e: Entry, stack: nat)
    requires st.queue == []
    ensures HandleSpec(cfg, st, e, stack).st.vars == Cleared(st.vars.depth)
    ensures !IsBefore(HandleSpec(cfg, st, e, stack).st.vars) && !IsAfter(HandleSpec(cfg, st, e, stack).st.vars)
  {
    ProcessKeeps(cfg, st, e, stack);
  }

  /**
   * The `_execute` loop raises exactly when, for some registration, `_apply_select_related`
   * raises, or a condition check raises, or the checks pass and `handler_cls()` or `getattr`
   * raises: the steps outside the `try`. A handler method's own exception never escapes.
   */
  lemma {:induction false} ExecRaisesIffStepRaises(cfg: Config, st: St, hooks: seq<Registration>, news: seq<Item>, olds: seq<Item>, kwargs: Kwargs, stack: nat)
    ensures ExecSpec(cfg, st, hooks, news, olds, kwargs, stack).raised <==>
      exists i :: 0 <= i < |hooks| &&
        (PreloadRaises(cfg, hooks[i], news) || GateOf(cfg, hooks[i], news, olds) == Raises ||
         (GateOf(cfg, hooks[i], news, olds) == Holds(true) && !cfg.instantiates(hooks[i].handler, hooks[i].methodName)))
    decreases |hooks|
  {
    if hooks != [] {
      var reg := hooks[0];
      match StepOf(cfg, reg, news, olds)
      case Raises =>
      case Holds(run) =>
        var st1 := if run then InvokeSpec(cfg, st, Invocation(reg.handler, reg.methodName, WithRelated(cfg, reg, news), olds, kwargs, st.vars), stack) else st;
        ExecRaisesIffStepRaises(cfg, st1, hooks[1..], news, olds, kwargs, stack);
        assert forall i :: 0 < i < |hooks| ==> hooks[i] == hooks[1..][i - 1];
    }
  }

  /** The registrations whose gate holds, in order. */
  function Selected(cfg: Config, hooks: seq<Registration>, news: seq<Item>, olds: seq<Item>): (r: seq<Registration>) {
    if hooks == [] then []
    else (if StepOf(cfg, hooks[0], news, olds) == Holds(true) then [hooks[0]] else []) + Selected(cfg, hooks[1..], news, olds)
  }

  /** A subsequence of a sorted list is sorted. */
  lemma {:induction false} SelectedSorted(cfg: Config, hooks: seq<Registration>, news: seq<Item>, olds: seq<Item>)
    requires SortedByPriority(hooks)
    ensures SortedByPriority(Selected(cfg, hooks, news, olds))
    ensures forall r :: r in Selected(cfg, hooks, news, olds) ==> r in hooks
  {
    if hooks != [] {
      SelectedSorted(cfg, hooks[1..], news, olds);
      var rest := Selected(cfg, hooks[1..], news, olds);
      forall r | r in rest
        ensures hooks[0].priority <= r.priority
      {
        var j :| 0 <= j < |hooks[1..]| && hooks[1..][j] == r;
        assert hooks[j + 1] == r;
      }
    }
  }

  /** The invocation log expected when each of `regs` is called once, in order, in context `ctx`. */
  function Calls(cfg: Config, regs: seq<Registration>, news: seq<Item>, olds: seq<Item>, kwargs: Kwargs, ctx: HookVars): (r: seq<Effect>) {
    if regs == [] then []
    else
      var call := Invoked(Invocation(regs[0].handler, regs[0].methodName, WithRelated(cfg, regs[0], news), olds, kwargs, ctx));
      [call] + Calls(cfg, regs[1..], news, olds, kwargs, ctx)
  }

  /**
   * With handlers that issue no `handle` and raise nothing, and no raising check, `_execute` calls exactly the selected
   * registrations, each once and in order, and changes nothing else.
   */
  lemma {:induction false} ExecCallsSelected(cfg: Config, st: St, hooks: seq<Registration>, news: seq<Item>, olds: seq<Item>, kwargs: Kwargs, stack: nat)
    requires cfg.react == ((inv: Invocation) => Reaction([], false))
    requires forall i :: 0 <= i < |hooks| ==> StepOf(cfg, hooks[i], news, olds) != Raises
    ensures ExecSpec(cfg, st, hooks, news, olds, kwargs, stack) ==
      Out(st.(log := st.log + Calls(cfg, Selected(cfg, hooks, news, olds), news, olds, kwargs, st.vars)), false)
    decreases |hooks|
  {
    if hooks != [] {
      var reg := hooks[0];
      assert StepOf(cfg, hooks[0], news, olds) != Raises;
      assert forall i :: 0 <= i < |hooks[1..]| ==> hooks[1..][i] == hooks[i + 1];
      var inv := Invocation(reg.handler, reg.methodName, WithRelated(cfg, reg, news), olds, kwargs, st.vars);
      var st1 := if StepOf(cfg, reg, news, olds) == Holds(true) then st.(log := st.log + [Invoked(inv)]) else st;
      assert cfg.react(inv) == Reaction([], false);
      ExecCallsSelected(cfg, st1, hooks[1..], news, olds, kwargs, stack);
      if StepOf(cfg, reg, news, olds) == Holds(true) {
        assert InvokeSpec(cfg, st, inv, stack) == st1;
        var rest := Selected(cfg, hooks[1..], news, olds);
        assert Selected(cfg, hooks, news, olds) == [reg] + rest;
        assert ([reg] + rest)[1..] == rest;
        assert st1.log + Calls(cfg, Selected(cfg, hooks[1..], news, olds), news, olds, kwargs, st1.vars)
          == st.log + Calls(cfg, Selected(cfg, hooks, news, olds), news, olds, kwargs, st.vars);
      } else {
        assert StepOf(cfg, reg, news, olds) == Holds(false);
        assert ExecSpec(cfg, st, hooks, news, olds, kwargs, stack) == ExecSpec(cfg, st, hooks[1..], news, olds, kwargs, stack);
        assert Selected(cfg, hooks, news, olds) == Selected(cfg, hooks[1..], news, olds);
      }
    }
  }

  /**
   * With handlers that issue no `handle` and raise nothing, no raising check and no deferral, `_process` calls the selected
   * registrations in ascending priority (registry order among equals), with the entry's
   * context installed (its `old` padded as the loop pads it), and ends with the context cleared and the depth back where it was.
   */
  lemma ProcessCallsInPriorityOrder(cfg: Config, st: St, e: Entry, stack: nat)
    requires cfg.react == ((inv: Invocation) => Reaction([], false))
    requires !Defers(cfg, e.event)
    requires var news := NewLocal(e.news);
      forall reg :: reg in cfg.hooks(e.model, e.event) ==> StepOf(cfg, reg, news, PadOld(news, NewLocal(e.olds))) != Raises
    ensures var news := NewLocal(e.news);
      var hooks := SortByPriority(cfg.hooks(e.model, e.event));
      var sel := Selected(cfg, hooks, news, PadOld(news, NewLocal(e.olds)));
      && ProcessSpec(cfg, st, e, stack) ==
           Out(st.(vars := Cleared(st.vars.depth),
                   log := st.log + Calls(cfg, sel, news, PadOld(news, NewLocal(e.olds)), e.kwargs, Padded(e, Installed(e, st.vars)))), false)
      && SortedByPriority(sel)
      && (forall p :: WithPriority(hooks, p) == WithPriority(cfg.hooks(e.model, e.event), p))
  {
    var news := NewLocal(e.news);
    var olds := PadOld(news, NewLocal(e.olds));
    var regs := cfg.hooks(e.model, e.event);
    var hooks := SortByPriority(regs);
    SortByPriorityPermutes(regs);
    forall i | 0 <= i < |hooks|
      ensures StepOf(cfg, hooks[i], news, olds) != Raises
    {
      assert hooks[i] in multiset(regs);
    }
    ExecCallsSelected(cfg, st.(vars := Padded(e, Installed(e, st.vars))), hooks, news, olds, e.kwargs, stack);
    SelectedSorted(cfg, hooks, news, olds);
    forall p
      ensures WithPriority(hooks, p) == WithPriority(regs, p)
    {
      SortByPriorityStable(regs, p);
    }
  }

  /**
   * An `after_` event inside an atomic block runs no handler: its loop is left for
   * `on_commit`, and the context is cleared all the same.
   */
  lemma DeferredAfterEvent(cfg: Config, st: St, e: Entry, stack: nat)
    requires cfg.inAtomic && StartsWith(e.event, "after_")
    ensures ProcessSpec(cfg, st, e, stack) ==
      Out(st.(vars := Cleared(st.vars.depth),
              pending := st.pending + [Deferred(SortByPriority(cfg.hooks(e.model, e.event)), e.news, e.olds, e.kwargs)]), false)
  {
  }

  /**
   * One call of a handler that issues no `handle` and raises: the call is recorded, its
   * failure is logged right after it, and nothing else in the state changes, so the loop
   * over the selected registrations goes on with the next one.
   */
  lemma {:induction false} FailingHandlerSwallowed(cfg: Config, st: St, inv: Invocation, stack: nat)
    requires cfg.react(inv) == Reaction([], true)
    ensures InvokeSpec(cfg, st, inv, stack) == st.(log := st.log + [Invoked(inv), Logged(inv.handler, inv.methodName)])
  {
    assert st.log + [Invoked(inv)] + [Logged(inv.handler, inv.methodName)] == st.log + [Invoked(inv), Logged(inv.handler, inv.methodName)];
  }

  /**
   * How a handler method reacts when `_process` calls it with keyword arguments: a call that
   * does not bind to the method's signature raises `TypeError` before the body runs.
   */
  function CalledWith(sig: Decorators.Signature, inv: Invocation, body: Reaction): (r: Reaction) {
    if Decorators.Binds(sig, Decorators.DispatchKeywords(inv.kwargs.Keys)) then body else Reaction([], true)
  }

  /**
   * A `bulk_hook` function, registered as written, is called by every dispatch that selects
   * it, the call's `TypeError` is logged, and its body never runs: nothing else changes.
   */
  lemma BulkHookHandlerNeverRuns(cfg: Config, st: St, inv: Invocation, stack: nat, body: Reaction)
    requires cfg.react(inv) == CalledWith(Decorators.FUNCTION_HANDLER_AS_WRITTEN, inv, body)
    ensures InvokeSpec(cfg, st, inv, stack) == st.(log := st.log + [Invoked(inv), Logged(inv.handler, inv.methodName)])
  {
    Decorators.BulkHookHandlerRejectsDispatch(inv.kwargs.Keys);
    FailingHandlerSwallowed(cfg, st, inv, stack);
  }

  /** A `handle` issued beyond the recursion limit makes the issuing hook fail, which is logged. */
  lemma RecursionLimitLogged(cfg: Config, st: St, inv: Invocation)
    requires cfg.react(inv).nested != []
    ensures InvokeSpec(cfg, st, inv, 0) == st.(log := st.log + [Invoked(inv), Logged(inv.handler, inv.methodName)])
  {
    assert st.log + [Invoked(inv)] + [Logged(inv.handler, inv.methodName)] == st.log + [Invoked(inv), Logged(inv.handler, inv.methodName)];
  }
}
