/**
 * The decorators of `django_bulk_hooks`: `@hook` (collects registration tuples on a
 * function), `@select_related` (preloads relations on `new_records` before the hook runs)
 * and `@bulk_hook` (registers a plain function through a generated handler class).
 */
module Decorators {
  import opened Wrappers
  import opened Records
  import opened Registry

  // ---------------------------------------------------------------------------------------
  // @hook
  // ---------------------------------------------------------------------------------------

  /** The arguments of one `@hook(event, model=..., condition=..., priority=...)`; `None` priority = omitted. */
  datatype Decoration = Decoration(event: string, model: ModelId, condition: Option<Condition>, priority: Option<int>)

  /** The tuple `@hook` appends: an omitted priority is `DEFAULT_PRIORITY`. */
  function SpecOf(d: Decoration): (s: HookSpec)
    ensures s.model == d.model && s.event == d.event && s.condition == d.condition
    ensures d.priority.None? ==> s.priority == DEFAULT_PRIORITY
    ensures d.priority.Some? ==> s.priority == d.priority.value
  {
    HookSpec(d.model, d.event, d.condition, d.priority.GetOr(DEFAULT_PRIORITY))
  }

  function SpecsOf(ds: seq<Decoration>): (r: seq<HookSpec>)
    ensures |r| == |ds|
    ensures forall i :: 0 <= i < |ds| ==> r[i] == SpecOf(ds[i])
  {
    if ds == [] then [] else SpecsOf(ds[..|ds| - 1]) + [SpecOf(ds[|ds| - 1])]
  }

  /** `hook(...)(fn)`: create `fn.hooks_hooks` if missing, append one tuple, return `fn` itself. */
  method Hook(fn: PyFunction, d: Decoration) returns (r: PyFunction)
    modifies fn
    ensures r == fn
    ensures fn.hooksHooks == Some(old(fn.hooksHooks).GetOr([]) + [SpecOf(d)])
    ensures fn.lifecycleHooks == old(fn.lifecycleHooks) && fn.selectRelatedFields == old(fn.selectRelatedFields)
  {
    if fn.hooksHooks.None? {
      fn.hooksHooks := Some([]);
    }
    fn.hooksHooks := Some(fn.hooksHooks.value + [SpecOf(d)]);
    r := fn;
  }

  /**
   * Stacked `@hook` decorators, innermost (closest to the `def`) first: each adds one tuple
   * to the same list, so the list holds them in that order after whatever was there.
   */
  method HookStacked(fn: PyFunction, ds: seq<Decoration>) returns (r: PyFunction)
    modifies fn
    ensures r == fn
    ensures ds != [] ==> fn.hooksHooks == Some(old(fn.hooksHooks).GetOr([]) + SpecsOf(ds))
    ensures ds == [] ==> fn.hooksHooks == old(fn.hooksHooks)
    ensures fn.lifecycleHooks == old(fn.lifecycleHooks) && fn.selectRelatedFields == old(fn.selectRelatedFields)
  {
    r := fn;
    ghost var base := old(fn.hooksHooks).GetOr([]);
    var i := 0;
    while i < |ds|
      invariant 0 <= i <= |ds|
      invariant r == fn
      invariant fn.hooksHooks == if i == 0 then old(fn.hooksHooks) else Some(base + SpecsOf(ds[..i]))
      invariant fn.lifecycleHooks == old(fn.lifecycleHooks) && fn.selectRelatedFields == old(fn.selectRelatedFields)
    {
      ghost var prev := fn.hooksHooks.GetOr([]);
      r := Hook(r, ds[i]);
      assert ds[..i + 1][..i] == ds[..i];
      assert SpecsOf(ds[..i + 1]) == SpecsOf(ds[..i]) + [SpecOf(ds[i])];
      if i == 0 {
        assert SpecsOf(ds[..i]) == [] && prev == base;
        assert [] + [SpecOf(ds[i])] == [SpecOf(ds[i])];
      } else {
        assert prev == base + SpecsOf(ds[..i]);
        assert base + SpecsOf(ds[..i]) + [SpecOf(ds[i])] == base + (SpecsOf(ds[..i]) + [SpecOf(ds[i])]);
      }
      i := i + 1;
    }
    assert ds[..i] == ds;
  }

  // ---------------------------------------------------------------------------------------
  // @select_related
  // ---------------------------------------------------------------------------------------

  /** `select_related(*fields)(func)`: `functools.wraps` copies the function's attributes to the wrapper. */
  method SelectRelated(func: PyFunction) returns (wrapper: PyFunction)
    ensures fresh(wrapper) && wrapper.name == func.name
    ensures wrapper.hooksHooks == func.hooksHooks && wrapper.lifecycleHooks == func.lifecycleHooks
    ensures wrapper.selectRelatedFields == func.selectRelatedFields
  {
    wrapper := new PyFunction(func.name);
    wrapper.hooksHooks := func.hooksHooks;
    wrapper.lifecycleHooks := func.lifecycleHooks;
    wrapper.selectRelatedFields := func.selectRelatedFields;
  }

  /** The value bound to `new_records` after `bind_partial` and `apply_defaults`. */
  datatype Arg = RecordList(items: array<Instance>) | NonList

  /** How a wrapper call ends: an exception, or a call of the wrapped function after fetching `fetched` pks. */
  datatype WrapperResult = Raised(error: Error) | Called(fetched: seq<int>)

  /** A field whose value the wrapper copies: a forward many-to-one or one-to-one relation. */
  predicate Forward(f: Option<FieldMeta>) {
    f.Some? && f.value.isRelation && !f.value.manyToMany && !f.value.oneToMany
  }

  /** Whether a record needs fetching: it has a pk and lacks some requested field in its cache. */
  predicate NeedsFetch(x: Instance, fields: seq<string>) {
    x.pk.Some? && exists f :: f in fields && f !in x.cache
  }

  /** `ids_to_fetch`, in record order. */
  function IdsToFetch(xs: seq<Instance>, fields: seq<string>): (r: seq<int>) {
    if xs == [] then []
    else IdsToFetch(xs[..|xs| - 1], fields) + (if NeedsFetch(xs[|xs| - 1], fields) then [xs[|xs| - 1].pk.value] else [])
  }

  /** The pks fetched are exactly those of the records that need it. */
  lemma {:induction false} IdsToFetchMeaning(xs: seq<Instance>, fields: seq<string>)
    ensures forall id :: id in IdsToFetch(xs, fields) <==> exists i :: 0 <= i < |xs| && NeedsFetch(xs[i], fields) && xs[i].pk == Some(id)
  {
    if xs != [] {
      var init := xs[..|xs| - 1];
      IdsToFetchMeaning(init, fields);
      assert forall i :: 0 <= i < |init| ==> init[i] == xs[i];
    }
  }

  /**
   * The inner loop over `related_fields` for one record and its fetched copy `pre`: skip
   * cached fields, raise `ValueError` on a dotted one, skip fields that are unknown or not a
   * forward relation, and copy the rest from `pre` (a missing attribute is skipped). The
   * record is changed in place, so one that raises keeps what was copied before.
   */
  function FillFields(x: Instance, pre: Instance, fields: seq<string>, lookup: (ModelId, string) -> Option<FieldMeta>, model: ModelId): (Instance, bool)
    decreases |fields|
  {
    if fields == [] then (x, false)
    else
      var f := fields[0];
      if f in x.cache then FillFields(x, pre, fields[1..], lookup, model)
      else if '.' in f then (x, true)
      else if !Forward(lookup(model, f)) || f !in pre.attrs then FillFields(x, pre, fields[1..], lookup, model)
      else FillFields(x.(attrs := x.attrs[f := pre.attrs[f]], cache := x.cache[f := pre.attrs[f]]), pre, fields[1..], lookup, model)
  }

  /**
   * What the field loop keeps of one record: its identity, every cached field with its
   * value, and every attribute.
   */
  lemma {:induction false} FillFieldsKeepsCache(x: Instance, pre: Instance, fields: seq<string>, lookup: (ModelId, string) -> Option<FieldMeta>, model: ModelId)
    ensures var y := FillFields(x, pre, fields, lookup, model).0;
      && y.pk == x.pk && y.model == x.model && y.adding == x.adding && y.db == x.db
      && (forall f :: f in x.cache ==> f in y.cache && y.cache[f] == x.cache[f])
      && (forall f :: f in x.attrs ==> f in y.attrs)
    decreases |fields|
  {
    if fields != [] {
      var f := fields[0];
      if f in x.cache {
        FillFieldsKeepsCache(x, pre, fields[1..], lookup, model);
      } else if '.' !in f {
        if !Forward(lookup(model, f)) || f !in pre.attrs {
          FillFieldsKeepsCache(x, pre, fields[1..], lookup, model);
        } else {
          var x1 := x.(attrs := x.attrs[f := pre.attrs[f]], cache := x.cache[f := pre.attrs[f]]);
          FillFieldsKeepsCache(x1, pre, fields[1..], lookup, model);
        }
      }
    }
  }

  /**
   * What the field loop adds to one record: a field newly cached is a requested forward
   * relation copied from `pre`, and an attribute changes only when its field is newly cached.
   */
  lemma {:induction false} FillFieldsCopies(x: Instance, pre: Instance, fields: seq<string>, lookup: (ModelId, string) -> Option<FieldMeta>, model: ModelId)
    ensures var y := FillFields(x, pre, fields, lookup, model).0;
      && (forall f :: f in y.cache && f !in x.cache ==>
            f in fields && Forward(lookup(model, f)) && f in pre.attrs && f in y.attrs && y.cache[f] == pre.attrs[f] && y.attrs[f] == pre.attrs[f])
      && (forall f :: f in y.attrs && (f !in x.attrs || y.attrs[f] != x.attrs[f]) ==> f in y.cache && f !in x.cache)
    decreases |fields|
  {
    if fields != [] {
      var f := fields[0];
      if f in x.cache {
        FillFieldsCopies(x, pre, fields[1..], lookup, model);
      } else if '.' !in f {
        if !Forward(lookup(model, f)) || f !in pre.attrs {
          FillFieldsCopies(x, pre, fields[1..], lookup, model);
        } else {
          var x1 := x.(attrs := x.attrs[f := pre.attrs[f]], cache := x.cache[f := pre.attrs[f]]);
          FillFieldsCopies(x1, pre, fields[1..], lookup, model);
          FillFieldsKeepsCache(x1, pre, fields[1..], lookup, model);
          var y := FillFields(x1, pre, fields[1..], lookup, model).0;
          assert y == FillFields(x, pre, fields, lookup, model).0;
          forall g | g in y.cache && g !in x.cache
            ensures g in fields && Forward(lookup(model, g)) && g in pre.attrs && g in y.attrs && y.cache[g] == pre.attrs[g] && y.attrs[g] == pre.attrs[g]
          {
            if g != f {
              assert g !in x1.cache;
              assert g in fields[1..];
            }
          }
          forall g | g in y.attrs && (g !in x.attrs || y.attrs[g] != x.attrs[g])
            ensures g in y.cache && g !in x.cache
          {
            if g != f {
              assert g !in x1.attrs || y.attrs[g] != x1.attrs[g];
            }
          }
        }
      }
    }
  }

  /** The field loop raises exactly when some requested field is dotted and not already cached. */
  lemma {:induction false} FillFieldsRaises(x: Instance, pre: Instance, fields: seq<string>, lookup: (ModelId, string) -> Option<FieldMeta>, model: ModelId)
    ensures FillFields(x, pre, fields, lookup, model).1 <==> exists f :: f in fields && '.' in f && f !in x.cache
    decreases |fields|
  {
    if fields != [] {
      var f := fields[0];
      if f in x.cache {
        FillFieldsRaises(x, pre, fields[1..], lookup, model);
        assert forall g :: g in fields ==> g == f || g in fields[1..];
      } else if '.' in f {
      } else if !Forward(lookup(model, f)) || f !in pre.attrs {
        FillFieldsRaises(x, pre, fields[1..], lookup, model);
        assert forall g :: g in fields ==> g == f || g in fields[1..];
      } else {
        var x1 := x.(attrs := x.attrs[f := pre.attrs[f]], cache := x.cache[f := pre.attrs[f]]);
        FillFieldsRaises(x1, pre, fields[1..], lookup, model);
        assert forall g :: g in fields ==> g == f || g in fields[1..];
      }
    }
  }

  /** When the loop completes, every requested forward relation present on `pre` is cached. */
  lemma {:induction false} FillFieldsFills(x: Instance, pre: Instance, fields: seq<string>, lookup: (ModelId, string) -> Option<FieldMeta>, model: ModelId)
    requires !FillFields(x, pre, fields, lookup, model).1
    ensures forall f :: f in fields && f !in x.cache && Forward(lookup(model, f)) && f in pre.attrs ==>
      f in FillFields(x, pre, fields, lookup, model).0.cache
    decreases |fields|
  {
    if fields != [] {
      var f := fields[0];
      var y := FillFields(x, pre, fields, lookup, model).0;
      if f in x.cache {
        FillFieldsFills(x, pre, fields[1..], lookup, model);
      } else if !Forward(lookup(model, f)) || f !in pre.attrs {
        FillFieldsFills(x, pre, fields[1..], lookup, model);
      } else {
        var x1 := x.(attrs := x.attrs[f := pre.attrs[f]], cache := x.cache[f := pre.attrs[f]]);
        FillFieldsFills(x1, pre, fields[1..], lookup, model);
        FillFieldsKeepsCache(x1, pre, fields[1..], lookup, model);
      }
    }
  }

  /** The outer loop over the records, stopping at the first record whose field loop raises. */
  function FillAll(xs: seq<Instance>, fetched: map<int, Instance>, fields: seq<string>, lookup: (ModelId, string) -> Option<FieldMeta>, model: ModelId): (r: (seq<Instance>, bool))
    ensures |r.0| == |xs|
  {
    if xs == [] then ([], false)
    else
      var x := xs[0];
      if x.pk.None? || x.pk.value !in fetched then
        var rest := FillAll(xs[1..], fetched, fields, lookup, model);
        ([x] + rest.0, rest.1)
      else
        var (y, raised) := FillFields(x, fetched[x.pk.value], fields, lookup, model);
        if raised then ([y] + xs[1..], true)
        else
          var rest := FillAll(xs[1..], fetched, fields, lookup, model);
          ([y] + rest.0, rest.1)
  }

  /** Records with no pk, or whose pk was not fetched, are left as they are. */
  lemma {:induction false} FillAllSkipsUnfetched(xs: seq<Instance>, fetched: map<int, Instance>, fields: seq<string>, lookup: (ModelId, string) -> Option<FieldMeta>, model: ModelId)
    ensures forall i :: 0 <= i < |xs| && (xs[i].pk.None? || xs[i].pk.value !in fetched) ==>
      FillAll(xs, fetched, fields, lookup, model).0[i] == xs[i]
    decreases |xs|
  {
    if xs != [] {
      FillAllSkipsUnfetched(xs[1..], fetched, fields, lookup, model);
      var r := FillAll(xs, fetched, fields, lookup, model).0;
      forall i | 0 < i < |xs| && (xs[i].pk.None? || xs[i].pk.value !in fetched)
        ensures r[i] == xs[i]
      {
        assert xs[1..][i - 1] == xs[i];
      }
    }
  }

  /**
   * What the wrapper does before calling the function: the new records and how the call
   * ends, given `get_field` (`lookup`) and `in_bulk` (`inBulk`) of the first record's class.
   */
  function Preload(xs: seq<Instance>, fields: seq<string>, lookup: (ModelId, string) -> Option<FieldMeta>, inBulk: seq<int> -> map<int, Instance>): (seq<Instance>, WrapperResult) {
    if xs == [] then (xs, Called([]))
    else
      var ids := IdsToFetch(xs, fields);
      var fetched := if ids != [] then inBulk(ids) else map[];
      var (ys, raised) := FillAll(xs, fetched, fields, lookup, xs[0].model);
      (ys, if raised then Raised(ValueError) else Called(ids))
  }

  /** An empty `new_records` list fetches nothing and changes nothing. */
  lemma PreloadEmpty(fields: seq<string>, lookup: (ModelId, string) -> Option<FieldMeta>, inBulk: seq<int> -> map<int, Instance>)
    ensures Preload([], fields, lookup, inBulk) == ([], Called([]))
  {
  }

  /** With no requested field dotted, the wrapper never raises and only fetches records that need it. */
  lemma PreloadUndottedCalls(xs: seq<Instance>, fields: seq<string>, lookup: (ModelId, string) -> Option<FieldMeta>, inBulk: seq<int> -> map<int, Instance>)
    requires forall f :: f in fields ==> '.' !in f
    ensures Preload(xs, fields, lookup, inBulk).1 == Called(IdsToFetch(xs, fields))
  {
    if xs != [] {
      var ids := IdsToFetch(xs, fields);
      var fetched := if ids != [] then inBulk(ids) else map[];
      FillAllNoRaise(xs, fetched, fields, lookup, xs[0].model);
    }
  }

  lemma {:induction false} FillAllNoRaise(xs: seq<Instance>, fetched: map<int, Instance>, fields: seq<string>, lookup: (ModelId, string) -> Option<FieldMeta>, model: ModelId)
    requires forall f :: f in fields ==> '.' !in f
    ensures !FillAll(xs, fetched, fields, lookup, model).1
    decreases |xs|
  {
    if xs != [] {
      var x := xs[0];
      if x.pk.Some? && x.pk.value in fetched {
        FillFieldsRaises(x, fetched[x.pk.value], fields, lookup, model);
      }
      FillAllNoRaise(xs[1..], fetched, fields, lookup, model);
    }
  }

  /**
   * The `wrapper(*args, **kwargs)` of `@select_related(*fields)`, up to the call of the
   * wrapped function: check `new_records`, collect the pks to fetch, fetch them, and copy
   * the requested relations into each record in place.
   */
  method SelectRelatedWrapper(fields: seq<string>, newRecords: Option<Arg>, lookup: (ModelId, string) -> Option<FieldMeta>, inBulk: seq<int> -> map<int, Instance>) returns (res: WrapperResult)
    modifies if newRecords.Some? && newRecords.value.RecordList? then {newRecords.value.items} else {}
    ensures newRecords.None? || newRecords.value.NonList? ==> res == Raised(TypeError)
    ensures newRecords.Some? && newRecords.value.RecordList? ==>
      (newRecords.value.items[..], res) == Preload(old(newRecords.value.items[..]), fields, lookup, inBulk)
  {
    if newRecords.None? || newRecords.value.NonList? {
      return Raised(TypeError);
    }
    var a := newRecords.value.items;
    if a.Length == 0 {
      return Called([]);
    }
    var ids := CollectIds(a, fields);
    var fetched := map[];
    if ids != [] {
      fetched := inBulk(ids);
    }
    var raised := FillRecords(a, fetched, fields, lookup, a[0].model);
    res := if raised then Raised(ValueError) else Called(ids);
  }

  /** The loop building `ids_to_fetch`. */
  method CollectIds(a: array<Instance>, fields: seq<string>) returns (ids: seq<int>)
    ensures ids == IdsToFetch(a[..], fields)
  {
    ids := [];
    var i := 0;
    while i < a.Length
      invariant 0 <= i <= a.Length
      invariant ids == IdsToFetch(a[..i], fields)
    {
      assert a[..i + 1][..i] == a[..i];
      if a[i].pk.Some? {
        var missing := false;
        var k := 0;
        while k < |fields|
          invariant 0 <= k <= |fields|
          invariant missing <==> exists f :: f in fields[..k] && f !in a[i].cache
        {
          assert fields[..k + 1] == fields[..k] + [fields[k]];
          if fields[k] !in a[i].cache {
            missing := true;
          }
          k := k + 1;
        }
        assert fields[..k] == fields;
        if missing {
          ids := ids + [a[i].pk.value];
        }
      }
      i := i + 1;
    }
    assert a[..i] == a[..];
  }

  /** The loop copying fetched relations into each record, in place; it stops at a `ValueError`. */
  method FillRecords(a: array<Instance>, fetched: map<int, Instance>, fields: seq<string>, lookup: (ModelId, string) -> Option<FieldMeta>, model: ModelId) returns (raised: bool)
    modifies a
    ensures (a[..], raised) == FillAll(old(a[..]), fetched, fields, lookup, model)
  {
    ghost var xs := a[..];
    var i := 0;
    assert xs[0..] == xs && a[..0] == [];
    while i < a.Length
      invariant 0 <= i <= a.Length
      invariant a[i..] == xs[i..]
      invariant FillAll(xs, fetched, fields, lookup, model).0 == a[..i] + FillAll(xs[i..], fetched, fields, lookup, model).0
      invariant FillAll(xs, fetched, fields, lookup, model).1 == FillAll(xs[i..], fetched, fields, lookup, model).1
    {
      var x := a[i];
      assert a[i..][0] == x;
      FillAllAt(xs, i, fetched, fields, lookup, model);
      ghost var prev := a[..];
      if x.pk.Some? && x.pk.value in fetched {
        var y, failed := FillFieldsLoop(x, fetched[x.pk.value], fields, lookup, model);
        a[i] := y;
        if failed {
          assert a[i + 1..] == xs[i + 1..];
          FillAllStop(xs, a[..], i, fetched, fields, lookup, model);
          return true;
        }
      }
      FillAllNext(xs, prev, a[..], i, fetched, fields, lookup, model);
      i := i + 1;
    }
    FillAllStop(xs, a[..], i, fetched, fields, lookup, model);
    return false;
  }

  /** One step of `FillAll` on the suffix starting at `i`. */
  lemma FillAllAt(xs: seq<Instance>, i: int, fetched: map<int, Instance>, fields: seq<string>, lookup: (ModelId, string) -> Option<FieldMeta>, model: ModelId)
    requires 0 <= i < |xs|
    ensures var x := xs[i];
      var rest := FillAll(xs[i + 1..], fetched, fields, lookup, model);
      FillAll(xs[i..], fetched, fields, lookup, model) ==
        if x.pk.None? || x.pk.value !in fetched then ([x] + rest.0, rest.1)
        else
          var (y, raised) := FillFields(x, fetched[x.pk.value], fields, lookup, model);
          if raised then ([y] + xs[i + 1..], true) else ([y] + rest.0, rest.1)
  {
    assert xs[i..][0] == xs[i] && xs[i..][1..] == xs[i + 1..];
  }

  /** A record that did not fail moves the loop invariant one place on. */
  lemma FillAllNext(xs: seq<Instance>, prev: seq<Instance>, cur: seq<Instance>, i: int, fetched: map<int, Instance>, fields: seq<string>, lookup: (ModelId, string) -> Option<FieldMeta>, model: ModelId)
    requires 0 <= i < |xs| == |prev| == |cur|
    requires prev[i..] == xs[i..]
    requires FillAll(xs, fetched, fields, lookup, model).0 == prev[..i] + FillAll(xs[i..], fetched, fields, lookup, model).0
    requires FillAll(xs, fetched, fields, lookup, model).1 == FillAll(xs[i..], fetched, fields, lookup, model).1
    requires cur[..i] == prev[..i] && cur[i + 1..] == prev[i + 1..]
    requires FillAll(xs[i..], fetched, fields, lookup, model) ==
      ([cur[i]] + FillAll(xs[i + 1..], fetched, fields, lookup, model).0, FillAll(xs[i + 1..], fetched, fields, lookup, model).1)
    ensures cur[i + 1..] == xs[i + 1..]
    ensures FillAll(xs, fetched, fields, lookup, model).0 == cur[..i + 1] + FillAll(xs[i + 1..], fetched, fields, lookup, model).0
    ensures FillAll(xs, fetched, fields, lookup, model).1 == FillAll(xs[i + 1..], fetched, fields, lookup, model).1
  {
    PrefixStep(xs, prev, cur, i, FillAll(xs, fetched, fields, lookup, model).0,
               FillAll(xs[i..], fetched, fields, lookup, model).0, FillAll(xs[i + 1..], fetched, fields, lookup, model).0);
  }

  /** The sequence algebra of one loop step: position `i` moves from the suffix to the prefix. */
  lemma PrefixStep<T>(xs: seq<T>, prev: seq<T>, cur: seq<T>, i: int, all: seq<T>, suffix: seq<T>, next: seq<T>)
    requires 0 <= i < |xs| == |prev| == |cur|
    requires prev[i..] == xs[i..]
    requires all == prev[..i] + suffix
    requires cur[..i] == prev[..i] && cur[i + 1..] == prev[i + 1..]
    requires suffix == [cur[i]] + next
    ensures cur[i + 1..] == xs[i + 1..]
    ensures all == cur[..i + 1] + next
  {
    assert prev[i..][1..] == prev[i + 1..];
    assert xs[i..][1..] == xs[i + 1..];
    assert cur[..i + 1] == cur[..i] + [cur[i]];
  }

  /** Once the loop stops, the array holds the whole `FillAll` result. */
  lemma FillAllStop(xs: seq<Instance>, cur: seq<Instance>, i: int, fetched: map<int, Instance>, fields: seq<string>, lookup: (ModelId, string) -> Option<FieldMeta>, model: ModelId)
    requires 0 <= i <= |xs| == |cur|
    requires FillAll(xs, fetched, fields, lookup, model).0 == cur[..i] + FillAll(xs[i..], fetched, fields, lookup, model).0
    requires FillAll(xs, fetched, fields, lookup, model).1 == FillAll(xs[i..], fetched, fields, lookup, model).1
    requires i == |xs| || (cur[i..] == FillAll(xs[i..], fetched, fields, lookup, model).0 && FillAll(xs[i..], fetched, fields, lookup, model).1)
    ensures FillAll(xs, fetched, fields, lookup, model) == (cur, i < |xs|)
  {
    var all := FillAll(xs, fetched, fields, lookup, model);
    if i == |xs| {
      assert xs[i..] == [] && cur[..i] == cur;
      assert FillAll(xs[i..], fetched, fields, lookup, model) == ([], false);
      assert all.0 == cur && !all.1;
    } else {
      assert cur[..i] + cur[i..] == cur;
      assert all.0 == cur && all.1;
    }
    assert all == (all.0, all.1);
  }

  /** The loop over `related_fields` for one fetched record. */
  method FillFieldsLoop(x: Instance, pre: Instance, fields: seq<string>, lookup: (ModelId, string) -> Option<FieldMeta>, model: ModelId) returns (y: Instance, raised: bool)
    ensures (y, raised) == FillFields(x, pre, fields, lookup, model)
  {
    y := x;
    var k := 0;
    while k < |fields|
      invariant 0 <= k <= |fields|
      invariant FillFields(x, pre, fields, lookup, model) == FillFields(y, pre, fields[k..], lookup, model)
    {
      var f := fields[k];
      assert fields[k..][0] == f && fields[k..][1..] == fields[k + 1..];
      if f in y.cache {
      } else if '.' in f {
        return y, true;
      } else if Forward(lookup(model, f)) && f in pre.attrs {
        var rel := pre.attrs[f];
        y := y.(attrs := y.attrs[f := rel], cache := y.cache[f := rel]);
      }
      k := k + 1;
    }
    return y, false;
  }

  // ---------------------------------------------------------------------------------------
  // @bulk_hook
  // ---------------------------------------------------------------------------------------

  /** `priority or DEFAULT_PRIORITY`: an omitted (`None`) or zero priority becomes the default. */
  function BulkPriority(priority: Option<int>): (p: int)
    ensures priority.None? || priority.value == 0 ==> p == DEFAULT_PRIORITY
    ensures priority.Some? && priority.value != 0 ==> p == priority.value
  {
    if priority.Some? && priority.value != 0 then priority.value else DEFAULT_PRIORITY
  }

  /**
   * `bulk_hook(model_cls, event, when, priority)(func)`: build a new `FunctionHandler` class
   * wrapping `func`, register its `handle` method once, and return `func` unchanged.
   */
  method BulkHook(model: ModelId, event: string, when: Option<Condition>, priority: Option<int>, func: PyFunction, registry: RegistryLog)
    returns (r: PyFunction, handler: HandlerClass)
    modifies registry
    ensures r == func && fresh(handler) && handler.wraps == func && handler.name == "FunctionHandler"
    ensures registry.calls == old(registry.calls) + [RegisterCall(model, event, Registration(handler, "handle", when, BulkPriority(priority), None))]
  {
    handler := new HandlerClass("FunctionHandler", func);
    registry.RegisterHook(RegisterCall(model, event, Registration(handler, "handle", when, BulkPriority(priority), None)));
    r := func;
  }

  // ---------------------------------------------------------------------------------------
  // Calling `FunctionHandler.handle` the way `_process` does
  // ---------------------------------------------------------------------------------------

  /** A Python signature without defaults: named parameters, and whether it takes `**kwargs`. */
  datatype Signature = Signature(params: seq<string>, varKeywords: bool)

  /** A call with keyword arguments only binds when every keyword is accepted and every parameter is given. */
  predicate Binds(sig: Signature, keywords: set<string>) {
    (forall k :: k in keywords ==> k in sig.params || sig.varKeywords) &&
    (forall p :: p in sig.params ==> p in keywords)
  }

  /** The keywords `_process` calls every handler method with: `old_records`, `new_records` and `**kwargs`. */
  function DispatchKeywords(kwargKeys: set<string>): (r: set<string>) {
    {"old_records", "new_records"} + kwargKeys
  }

  /** `FunctionHandler.handle(self, new_instances, original_instances)` as written. */
  const FUNCTION_HANDLER_AS_WRITTEN: Signature := Signature(["new_instances", "original_instances"], false)

  /** The signature `_process` can call: the keyword names it passes, and `**kwargs`. */
  const FUNCTION_HANDLER_CORRECTED: Signature := Signature(["new_records", "old_records"], true)

  /**
   * As written, no dispatch can call a `bulk_hook` function: binding `old_records=` fails
   * with `TypeError`, which `_process` logs and swallows.
   */
  lemma BulkHookHandlerRejectsDispatch(kwargKeys: set<string>)
    ensures !Binds(FUNCTION_HANDLER_AS_WRITTEN, DispatchKeywords(kwargKeys))
  {
    var k := "old_records";
    assert k in DispatchKeywords(kwargKeys);
    assert k != "new_instances" && k != "original_instances" by {
      assert k[0] != "new_instances"[0] && k[0] != "original_instances"[1];
      assert |k| != |"original_instances"|;
    }
  }

  /** With the parameters named as `_process` passes them, every dispatch binds. */
  lemma BulkHookHandlerCorrectedBinds(kwargKeys: set<string>)
    ensures Binds(FUNCTION_HANDLER_CORRECTED, DispatchKeywords(kwargKeys))
  {
  }
}
