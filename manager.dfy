/**
 * `BulkHookManager`: the manager methods that wrap Django's bulk writes with hook events.
 * Each operation is a method that calls the `Db` collaborator, proved against a
 * specification function that gives its result and the calls it makes, in order.
 */
module Manager {
  import opened Wrappers
  import opened Records
  import opened HookState
  import opened Backend
  import opened Batching

  /** `BulkHookManager.CHUNK_SIZE`. */
  const CHUNK_SIZE: nat := 200

  // ---------------------------------------------------------------------------------------
  // _detect_modified_fields
  // ---------------------------------------------------------------------------------------

  /** `new_instance._meta.fields`: the fields of the instance's model. */
  function FieldsOf(schema: Schema, model: ModelId): (r: seq<FieldMeta>) {
    if model in schema then schema[model].fields else []
  }

  /**
   * Whether field `f` differs between the new instance and its original: a relation by the
   * related object's pk (`None` for an empty relation), any other field by equality.
   */
  predicate Differs(f: FieldMeta, x: Instance, o: Instance) {
    if f.isRelation then RelatedPk(Attr(x, f.name)) != RelatedPk(Attr(o, f.name))
    else Attr(x, f.name) != Attr(o, f.name)
  }

  /** The inner loop over `new_instance._meta.fields`, skipping "id". */
  function FieldsModified(x: Instance, o: Instance, fields: seq<FieldMeta>): (r: set<string>) {
    if fields == [] then {}
    else
      var f := fields[|fields| - 1];
      FieldsModified(x, o, fields[..|fields| - 1]) + (if f.name != "id" && Differs(f, x, o) then {f.name} else {})
  }

  /** One `(new_instance, original)` pair; a pair with no pk or no original contributes nothing. */
  function PairModified(schema: Schema, x: Instance, o: Option<Instance>): (r: set<string>) {
    if x.pk.None? || o.None? then {} else FieldsModified(x, o.value, FieldsOf(schema, x.model))
  }

  /** The outer loop over equally long lists of pairs. */
  function ZipModified(schema: Schema, news: seq<Instance>, olds: seq<Option<Instance>>): (r: set<string>)
    requires |news| == |olds|
  {
    if news == [] then {}
    else
      var n := |news| - 1;
      ZipModified(schema, news[..n], olds[..n]) + PairModified(schema, news[n], olds[n])
  }

  /** `_detect_modified_fields(new_instances, original_instances)`; `zip` stops at the shorter list. */
  function ModifiedFields(schema: Schema, news: seq<Instance>, olds: seq<Option<Instance>>): (r: set<string>) {
    if olds == [] then {}
    else
      var m := if |news| <= |olds| then |news| else |olds|;
      ZipModified(schema, news[..m], olds[..m])
  }

  /** Field `name` of pair `i` was changed, as `_detect_modified_fields` judges a change. */
  predicate ChangedAt(schema: Schema, news: seq<Instance>, olds: seq<Option<Instance>>, i: int, name: string) {
    0 <= i < |news| && i < |olds| && news[i].pk.Some? && olds[i].Some? && name != "id" &&
    exists f :: f in FieldsOf(schema, news[i].model) && f.name == name && Differs(f, news[i], olds[i].value)
  }

  lemma {:induction false} FieldsModifiedMeaning(x: Instance, o: Instance, fields: seq<FieldMeta>, name: string)
    ensures name in FieldsModified(x, o, fields) <==>
      name != "id" && exists f :: f in fields && f.name == name && Differs(f, x, o)
  {
    if fields != [] {
      var init := fields[..|fields| - 1];
      FieldsModifiedMeaning(x, o, init, name);
      assert forall f :: f in fields <==> f in init || f == fields[|fields| - 1] by {
        assert fields == init + [fields[|fields| - 1]];
      }
    }
  }

  /** The inner loop's step: field `k` adds its name when it is not "id" and differs. */
  lemma FieldsModifiedStep(x: Instance, o: Instance, fields: seq<FieldMeta>, k: nat)
    requires k < |fields|
    ensures FieldsModified(x, o, fields[..k + 1]) ==
      FieldsModified(x, o, fields[..k]) + (if fields[k].name != "id" && Differs(fields[k], x, o) then {fields[k].name} else {})
  {
    assert fields[..k + 1][..k] == fields[..k];
  }

  /** The outer loop's step: the pair at `i` adds its own modified fields. */
  lemma ZipModifiedStep(schema: Schema, news: seq<Instance>, olds: seq<Option<Instance>>, i: nat)
    requires i < |news| && i < |olds|
    ensures ZipModified(schema, news[..i + 1], olds[..i + 1]) ==
      ZipModified(schema, news[..i], olds[..i]) + PairModified(schema, news[i], olds[i])
  {
    assert news[..i + 1][..i] == news[..i] && olds[..i + 1][..i] == olds[..i];
  }

  /** A change at a position a prefix keeps is a change in the prefix and in the whole. */
  lemma ChangedAtPrefix(schema: Schema, news: seq<Instance>, olds: seq<Option<Instance>>, n: nat, i: int, name: string)
    requires n <= |news| && n <= |olds| && i < n
    ensures ChangedAt(schema, news[..n], olds[..n], i, name) <==> ChangedAt(schema, news, olds, i, name)
  {
    if 0 <= i {
      assert news[..n][i] == news[i] && olds[..n][i] == olds[i];
    }
  }

  /** A witness below `n` or at `n`, given what `q` says below `n`. */
  lemma ExistsUpTo(p: int -> bool, q: int -> bool, n: int)
    requires forall i :: i < n ==> (q(i) <==> p(i))
    requires forall i :: q(i) ==> i < n
    requires forall i :: p(i) ==> i <= n
    ensures (exists i :: p(i)) <==> (exists i :: q(i)) || p(n)
  {
    if exists i :: p(i) {
      var i :| p(i);
      if i < n {
        assert q(i);
      }
    }
  }

  lemma {:induction false} ZipModifiedMeaning(schema: Schema, news: seq<Instance>, olds: seq<Option<Instance>>, name: string)
    requires |news| == |olds|
    ensures name in ZipModified(schema, news, olds) <==> exists i :: ChangedAt(schema, news, olds, i, name)
  {
    if news != [] {
      var n := |news| - 1;
      ZipModifiedMeaning(schema, news[..n], olds[..n], name);
      assert ZipModified(schema, news, olds) == ZipModified(schema, news[..n], olds[..n]) + PairModified(schema, news[n], olds[n]);
      if news[n].pk.Some? && olds[n].Some? {
        FieldsModifiedMeaning(news[n], olds[n].value, FieldsOf(schema, news[n].model), name);
      }
      assert name in PairModified(schema, news[n], olds[n]) <==> ChangedAt(schema, news, olds, n, name);
      forall i | i < n
        ensures ChangedAt(schema, news[..n], olds[..n], i, name) <==> ChangedAt(schema, news, olds, i, name)
      {
        ChangedAtPrefix(schema, news, olds, n, i, name);
      }
      ExistsUpTo(i => ChangedAt(schema, news, olds, i, name), i => ChangedAt(schema, news[..n], olds[..n], i, name), n);
    }
  }

  /**
   * A field name is reported iff it is not "id" and, for some position `i` that both lists
   * have, the new instance has a pk, the original exists and the field differs; with no
   * originals nothing is reported.
   */
  lemma ModifiedFieldsMeaning(schema: Schema, news: seq<Instance>, olds: seq<Option<Instance>>, name: string)
    ensures olds == [] ==> ModifiedFields(schema, news, olds) == {}
    ensures name in ModifiedFields(schema, news, olds) <==> exists i :: ChangedAt(schema, news, olds, i, name)
  {
    if olds != [] {
      var m := if |news| <= |olds| then |news| else |olds|;
      ZipModifiedMeaning(schema, news[..m], olds[..m], name);
      if exists i :: ChangedAt(schema, news, olds, i, name) {
        var i :| ChangedAt(schema, news, olds, i, name);
        ChangedAtPrefix(schema, news, olds, m, i, name);
      }
      if exists i :: ChangedAt(schema, news[..m], olds[..m], i, name) {
        var i :| ChangedAt(schema, news[..m], olds[..m], i, name);
        ChangedAtPrefix(schema, news, olds, m, i, name);
      }
    }
  }

  /** The nested loops of `_detect_modified_fields`, building the set as they go. */
  method DetectModifiedFields(schema: Schema, news: seq<Instance>, olds: seq<Option<Instance>>) returns (modified: set<string>)
    ensures modified == ModifiedFields(schema, news, olds)
  {
    if olds == [] {
      return {};
    }
    var m := if |news| <= |olds| then |news| else |olds|;
    modified := {};
    var i := 0;
    while i < m
      invariant 0 <= i <= m
      invariant modified == ZipModified(schema, news[..i], olds[..i])
    {
      ZipModifiedStep(schema, news, olds, i);
      var x, o := news[i], olds[i];
      if x.pk.Some? && o.Some? {
        var fields := FieldsOf(schema, x.model);
        var k := 0;
        while k < |fields|
          invariant 0 <= k <= |fields|
          invariant modified == ZipModified(schema, news[..i], olds[..i]) + FieldsModified(x, o.value, fields[..k])
        {
          FieldsModifiedStep(x, o.value, fields, k);
          var f := fields[k];
          if f.name != "id" && Differs(f, x, o.value) {
            modified := modified + {f.name};
          }
          k := k + 1;
        }
        assert fields[..k] == fields;
        assert modified == ZipModified(schema, news[..i], olds[..i]) + PairModified(schema, x, o);
      } else {
        assert PairModified(schema, x, o) == {};
      }
      i := i + 1;
    }
    assert news[..m][..i] == news[..m] && olds[..m][..i] == olds[..m];
  }

  // ---------------------------------------------------------------------------------------
  // _get_concrete_models
  // ---------------------------------------------------------------------------------------

  /**
   * `_get_concrete_models(model_cls)` as written. Its loops run over `_meta.parents.values()`,
   * which are the parent-link fields (or `None` for a proxy), not the parent models; neither
   * has a `_meta` attribute, so the first `parent_model._meta` raises AttributeError. The loop
   * is entered exactly when the model has parents; a model without any gets `[model_cls]`.
   */
  function ConcreteModelsAsWritten(schema: Schema, model: ModelId): (r: Result<seq<ModelId>>)
    requires model in schema
    ensures r.Ok? ==> r.value == [model]
  {
    if schema[model].parents == [] then Ok([model]) else Err(AttributeError)
  }

  /** One pass of the inner loop: each non-abstract parent not listed yet goes to the front. */
  function InsertParents(schema: Schema, models: seq<ModelId>, ps: seq<ParentLink>): (r: seq<ModelId>)
    requires forall k :: 0 <= k < |ps| ==> ps[k].parent in schema
    decreases |ps|
  {
    if ps == [] then models
    else
      var p := ps[0].parent;
      InsertParents(schema, if !schema[p].isAbstract && p !in models then [p] + models else models, ps[1..])
  }

  /** The outer loop, from `current` up the first parents, starting from the list `models`. */
  function CollectParents(schema: Schema, models: seq<ModelId>, current: ModelId): (r: seq<ModelId>)
    requires ValidSchema(schema) && current in schema
    decreases schema[current].level
  {
    var ps := schema[current].parents;
    if ps == [] then models else CollectParents(schema, InsertParents(schema, models, ps), ps[0].parent)
  }

  /**
   * `_get_concrete_models(model_cls)` with the loops over `_meta.parents.keys()` (the parent
   * models), as its documentation describes it: the concrete ancestors, then the model.
   */
  function ConcreteModels(schema: Schema, model: ModelId): (r: seq<ModelId>)
    requires ValidSchema(schema) && model in schema
  {
    var models := CollectParents(schema, [], model);
    if model in models then models else models + [model]
  }

  predicate NoDuplicates<T(==)>(s: seq<T>) {
    forall i, j :: 0 <= i < j < |s| ==> s[i] != s[j]
  }

  /**
   * `x` is a non-abstract parent of `current` or, going up through first parents, of one of
   * the models the outer loop visits after it.
   */
  ghost predicate ConcreteAncestor(schema: Schema, current: ModelId, x: ModelId)
    requires ValidSchema(schema) && current in schema
    decreases schema[current].level
  {
    var ps := schema[current].parents;
    ps != [] &&
    ((exists k :: 0 <= k < |ps| && ps[k].parent == x && !schema[x].isAbstract) || ConcreteAncestor(schema, ps[0].parent, x))
  }

  lemma {:induction false} InsertParentsMembers(schema: Schema, models: seq<ModelId>, ps: seq<ParentLink>)
    requires forall k :: 0 <= k < |ps| ==> ps[k].parent in schema
    ensures forall x :: x in InsertParents(schema, models, ps) <==>
      x in models || exists k :: 0 <= k < |ps| && ps[k].parent == x && !schema[x].isAbstract
    decreases |ps|
  {
    if ps != [] {
      var p := ps[0].parent;
      var next := if !schema[p].isAbstract && p !in models then [p] + models else models;
      InsertParentsMembers(schema, next, ps[1..]);
      forall x
        ensures x in InsertParents(schema, models, ps) <==>
          x in models || exists k :: 0 <= k < |ps| && ps[k].parent == x && !schema[x].isAbstract
      {
        if x in InsertParents(schema, models, ps) && x !in models {
          if x in next {
            assert ps[0].parent == x && !schema[x].isAbstract;
          } else {
            var k :| 0 <= k < |ps[1..]| && ps[1..][k].parent == x && !schema[x].isAbstract;
            assert ps[k + 1].parent == x;
          }
        }
        if exists k :: 0 <= k < |ps| && ps[k].parent == x && !schema[x].isAbstract {
          var k :| 0 <= k < |ps| && ps[k].parent == x && !schema[x].isAbstract;
          if k > 0 {
            assert ps[1..][k - 1].parent == x;
          }
        }
      }
    }
  }

  lemma {:induction false} InsertParentsNoDuplicates(schema: Schema, models: seq<ModelId>, ps: seq<ParentLink>)
    requires forall k :: 0 <= k < |ps| ==> ps[k].parent in schema
    requires NoDuplicates(models)
    ensures NoDuplicates(InsertParents(schema, models, ps))
    decreases |ps|
  {
    if ps != [] {
      var p := ps[0].parent;
      var next := if !schema[p].isAbstract && p !in models then [p] + models else models;
      assert NoDuplicates(next) by {
        if next != models {
          forall i, j | 0 <= i < j < |next| ensures next[i] != next[j] {
            if i == 0 {
              assert next[j] == models[j - 1];
            }
          }
        }
      }
      InsertParentsNoDuplicates(schema, next, ps[1..]);
    }
  }

  lemma {:induction false} CollectParentsMembers(schema: Schema, models: seq<ModelId>, current: ModelId)
    requires ValidSchema(schema) && current in schema
    ensures forall x :: x in CollectParents(schema, models, current) <==> x in models || ConcreteAncestor(schema, current, x)
    ensures forall x :: x in CollectParents(schema, models, current) && x !in models ==> x in schema && schema[x].level < schema[current].level
    decreases schema[current].level
  {
    var ps := schema[current].parents;
    if ps != [] {
      InsertParentsMembers(schema, models, ps);
      CollectParentsMembers(schema, InsertParents(schema, models, ps), ps[0].parent);
    }
  }

  lemma {:induction false} CollectParentsNoDuplicates(schema: Schema, models: seq<ModelId>, current: ModelId)
    requires ValidSchema(schema) && current in schema && NoDuplicates(models)
    ensures NoDuplicates(CollectParents(schema, models, current))
    decreases schema[current].level
  {
    var ps := schema[current].parents;
    if ps != [] {
      InsertParentsNoDuplicates(schema, models, ps);
      CollectParentsNoDuplicates(schema, InsertParents(schema, models, ps), ps[0].parent);
    }
  }

  /**
   * The corrected `_get_concrete_models` lists every concrete ancestor it visits, each once,
   * all above the model in the hierarchy, and ends with the model itself.
   */
  lemma ConcreteModelsFacts(schema: Schema, model: ModelId)
    requires ValidSchema(schema) && model in schema
    ensures var r := ConcreteModels(schema, model);
      |r| > 0 && r[|r| - 1] == model && NoDuplicates(r) &&
      (forall x :: x in r[..|r| - 1] <==> ConcreteAncestor(schema, model, x)) &&
      (forall x :: x in r[..|r| - 1] ==> x in schema && schema[x].level < schema[model].level)
  {
    var models := CollectParents(schema, [], model);
    CollectParentsMembers(schema, [], model);
    CollectParentsNoDuplicates(schema, [], model);
    assert model !in models;
    var r := models + [model];
    assert r[..|r| - 1] == models;
  }

  /** A model whose concrete parent is `Base`: as written this raises, corrected it gives `[Base, Child]`. */
  lemma ConcreteModelsCounterexample()
    ensures var link := FieldMeta("base_ptr", true, false, false, false, Some("Base"), VNone);
      var schema := map["Base" := ModelMeta(false, false, [], [], [], 0),
                        "Child" := ModelMeta(false, false, [ParentLink("Base", Some(link))], [link], [link], 1)];
      ValidSchema(schema) &&
      ConcreteModelsAsWritten(schema, "Child") == Err(AttributeError) &&
      ConcreteModels(schema, "Child") == ["Base", "Child"]
  {
    var link := FieldMeta("base_ptr", true, false, false, false, Some("Base"), VNone);
    var schema := map["Base" := ModelMeta(false, false, [], [], [], 0),
                      "Child" := ModelMeta(false, false, [ParentLink("Base", Some(link))], [link], [link], 1)];
    assert ValidSchema(schema);
    var ps := schema["Child"].parents;
    assert InsertParents(schema, [], ps) == InsertParents(schema, ["Base"], ps[1..]) == ["Base"];
    assert CollectParents(schema, [], "Child") == CollectParents(schema, ["Base"], "Base") == ["Base"];
  }

  // ---------------------------------------------------------------------------------------
  // Helpers shared by the orchestrators
  // ---------------------------------------------------------------------------------------

  /** `original_map.get(pk)` where `original_map = {obj.pk: obj for obj in fetched}`: the last match wins. */
  function Lookup(fetched: seq<Instance>, pk: Option<int>): (r: Option<Instance>)
    ensures r.Some? ==> r.value in fetched && r.value.pk == pk
    ensures r.None? <==> forall x :: x in fetched ==> x.pk != pk
  {
    if fetched == [] then None
    else if fetched[|fetched| - 1].pk == pk then Some(fetched[|fetched| - 1])
    else
      var r := Lookup(fetched[..|fetched| - 1], pk);
      assert forall x :: x in fetched ==> x in fetched[..|fetched| - 1] || x == fetched[|fetched| - 1] by {
        assert fetched == fetched[..|fetched| - 1] + [fetched[|fetched| - 1]];
      }
      r
  }

  /** `[original_map.get(obj.pk) for obj in objs]`. */
  function OriginalsFrom(fetched: seq<Instance>, objs: seq<Instance>): (r: seq<Option<Instance>>)
    ensures |r| == |objs| && forall i :: 0 <= i < |objs| ==> r[i] == Lookup(fetched, objs[i].pk)
  {
    if objs == [] then [] else [Lookup(fetched, objs[0].pk)] + OriginalsFrom(fetched, objs[1..])
  }

  function SetOf(fields: seq<string>): (r: set<string>) {
    set f | f in fields
  }

  /** `list(kwargs.keys())`. */
  function Keys(kwargs: Kwargs): (r: seq<string>)
    ensures |r| == |kwargs| && forall k :: 0 <= k < |kwargs| ==> r[k] == kwargs[k].0
  {
    if kwargs == [] then [] else [kwargs[0].0] + Keys(kwargs[1..])
  }

  /** `[field.name for field in obj._meta.fields if field.name != "id"]`. */
  function NonIdFields(fields: seq<FieldMeta>): (r: seq<string>)
    ensures forall n :: n in r <==> n != "id" && exists f :: f in fields && f.name == n
  {
    if fields == [] then []
    else (if fields[0].name != "id" then [fields[0].name] else []) + NonIdFields(fields[1..])
  }

  /** `[obj.pk for obj in objs if obj.pk is not None]`. */
  function DeletablePks(objs: seq<Instance>): (r: seq<int>)
    ensures forall p :: p in r <==> exists x :: x in objs && x.pk == Some(p)
  {
    if objs == [] then []
    else (if objs[0].pk.Some? then [objs[0].pk.value] else []) + DeletablePks(objs[1..])
  }

  /** Every object with every keyword set, in keyword order. */
  function SetAttrsAll(objs: seq<Instance>, kwargs: Kwargs): (r: seq<Instance>)
    ensures |r| == |objs| && forall j :: 0 <= j < |objs| ==> r[j] == SetAttrs(objs[j], kwargs)
  {
    if objs == [] then [] else [SetAttrs(objs[0], kwargs)] + SetAttrsAll(objs[1..], kwargs)
  }

  /** One base-class `bulk_update` call per chunk. */
  function UpdateWrites(chunks: seq<seq<Instance>>, fields: set<string>): (r: seq<Call>) {
    if chunks == [] then [] else [Call.WriteUpdate(chunks[0], fields)] + UpdateWrites(chunks[1..], fields)
  }

  /** One base-class `bulk_create` call per chunk. */
  function CreateWrites(chunks: seq<seq<Instance>>): (r: seq<Call>) {
    if chunks == [] then [] else [Call.WriteCreate(chunks[0])] + CreateWrites(chunks[1..])
  }

  /** `result.extend(...)` over the chunks: the base `bulk_create` results, concatenated. */
  function CreatedAll(db: Db, chunks: seq<seq<Instance>>): (r: seq<Instance>) {
    if chunks == [] then [] else db.Created(chunks[0]) + CreatedAll(db, chunks[1..])
  }

  /** What one call is, as far as ordering goes: a hook event or a kind of storage call. */
  datatype Step = Event(name: string) | Write | Delete | StorageUpdate | Save | Insert

  function StepOf(c: Call): (r: Step) {
    match c
    case Run(_, event, _, _) => Event(event)
    case WriteUpdate(_, _) => Write
    case WriteCreate(_) => Write
    case DeleteRows(_, _) => Delete
    case UpdateRows(_, _, _, _) => StorageUpdate
    case SaveRow(_) => Save
    case InsertRows(_) => Insert
  }

  /** The steps of a call log, in order. */
  function Trace(calls: seq<Call>): (r: seq<Step>) {
    if calls == [] then [] else [StepOf(calls[0])] + Trace(calls[1..])
  }

  /** `n` copies of one step. */
  function Repeat(s: Step, n: nat): (r: seq<Step>) {
    if n == 0 then [] else [s] + Repeat(s, n - 1)
  }

  /** The objects the write calls carry, concatenated in call order. */
  function Written(calls: seq<Call>): (r: seq<Instance>) {
    if calls == [] then []
    else
      (match calls[0]
       case WriteUpdate(chunk, _) => chunk
       case WriteCreate(chunk) => chunk
       case _ => []) + Written(calls[1..])
  }

  lemma TraceAppend3(a: seq<Call>, b: seq<Call>, c: seq<Call>)
    ensures Trace(a + b + c) == Trace(a) + Trace(b) + Trace(c)
  {
    TraceAppend(a, b);
    TraceAppend(a + b, c);
  }

  /** The steps of a log made of three parts, from the steps of each part. */
  lemma TraceOrder(calls: seq<Call>, pre: seq<Call>, mid: seq<Call>, post: seq<Call>, tp: seq<Step>, tm: seq<Step>, tq: seq<Step>)
    requires calls == pre + mid + post
    requires Trace(pre) == tp && Trace(mid) == tm && Trace(post) == tq
    ensures Trace(calls) == tp + tm + tq
  {
    TraceAppend3(pre, mid, post);
  }

  lemma TraceSingle(c: Call)
    ensures Trace([c]) == [StepOf(c)]
  {
    assert [c][1..] == [];
  }

  lemma {:induction false} TraceAppend(a: seq<Call>, b: seq<Call>)
    ensures Trace(a + b) == Trace(a) + Trace(b)
  {
    if a == [] {
      assert a + b == b;
    } else {
      assert (a + b)[1..] == a[1..] + b;
      TraceAppend(a[1..], b);
    }
  }

  lemma {:induction false} WrittenAppend(a: seq<Call>, b: seq<Call>)
    ensures Written(a + b) == Written(a) + Written(b)
  {
    if a == [] {
      assert a + b == b;
    } else {
      assert (a + b)[1..] == a[1..] + b;
      WrittenAppend(a[1..], b);
    }
  }

  /** Calls that write nothing around `writes` leave exactly what `writes` writes. */
  lemma WrittenAround(pre: seq<Call>, writes: seq<Call>, post: seq<Call>)
    requires Written(pre) == [] && Written(post) == []
    ensures Written(pre + writes + post) == Written(writes)
  {
    WrittenAppend(pre, writes);
    WrittenAppend(pre + writes, post);
    assert [] + Written(writes) + [] == Written(writes);
  }

  /** The per-chunk `bulk_update` calls carry no event and write every chunk, concatenated. */
  lemma {:induction false} UpdateWritesFacts(chunks: seq<seq<Instance>>, fields: set<string>)
    ensures |UpdateWrites(chunks, fields)| == |chunks|
    ensures forall k :: 0 <= k < |chunks| ==> UpdateWrites(chunks, fields)[k] == Call.WriteUpdate(chunks[k], fields)
    ensures Trace(UpdateWrites(chunks, fields)) == Repeat(Write, |chunks|)
    ensures Written(UpdateWrites(chunks, fields)) == Concat(chunks)
  {
    if chunks != [] {
      UpdateWritesFacts(chunks[1..], fields);
    }
  }

  lemma {:induction false} CreateWritesFacts(chunks: seq<seq<Instance>>)
    ensures |CreateWrites(chunks)| == |chunks|
    ensures forall k :: 0 <= k < |chunks| ==> CreateWrites(chunks)[k] == Call.WriteCreate(chunks[k])
    ensures Trace(CreateWrites(chunks)) == Repeat(Write, |chunks|)
    ensures Written(CreateWrites(chunks)) == Concat(chunks)
  {
    if chunks != [] {
      CreateWritesFacts(chunks[1..]);
    }
  }

  /** `Created` distributes over concatenation. */
  lemma {:induction false} CreatedAppend(db: Db, a: seq<Instance>, b: seq<Instance>)
    ensures db.Created(a + b) == db.Created(a) + db.Created(b)
  {
    assert |db.Created(a + b)| == |db.Created(a) + db.Created(b)|;
    forall i | 0 <= i < |a + b|
      ensures db.Created(a + b)[i] == (db.Created(a) + db.Created(b))[i]
    {
      if i >= |a| {
        assert (a + b)[i] == b[i - |a|];
      }
    }
  }

  /** The concatenated chunk results are the base `bulk_create` result of every object, in order. */
  lemma {:induction false} CreatedAllConcat(db: Db, chunks: seq<seq<Instance>>)
    ensures CreatedAll(db, chunks) == db.Created(Concat(chunks))
  {
    if chunks != [] {
      CreatedAllConcat(db, chunks[1..]);
      CreatedAppend(db, chunks[0], Concat(chunks[1..]));
    }
  }

  /** Regrouping four pieces of a call log. */
  lemma AppendAssoc<T>(a: seq<T>, b: seq<T>, c: seq<T>, d: seq<T>)
    ensures a + b + c + d == a + (b + c + d)
  {
  }

  /** The slicing loop of `bulk_update`: one base-class call per chunk, in order. */
  method WriteUpdateChunks(db: Db, objs: seq<Instance>, fields: set<string>)
    modifies db
    ensures db.log == old(db.log) + UpdateWrites(Chunks(objs, CHUNK_SIZE), fields)
    ensures db.nextPk == old(db.nextPk)
  {
    var i := 0;
    assert objs[0..] == objs;
    while i < |objs|
      invariant 0 <= i <= |objs| && db.nextPk == old(db.nextPk)
      invariant old(db.log) + UpdateWrites(Chunks(objs, CHUNK_SIZE), fields) == db.log + UpdateWrites(Chunks(objs[i..], CHUNK_SIZE), fields)
    {
      var end := if i + CHUNK_SIZE < |objs| then i + CHUNK_SIZE else |objs|;
      ChunksStep(objs, CHUNK_SIZE, i);
      assert end == Min(i + CHUNK_SIZE, |objs|);
      db.WriteUpdate(objs[i..end], fields);
      i := end;
    }
    assert objs[i..] == [];
  }

  lemma SeqAssoc<T>(a: seq<T>, b: seq<T>, c: seq<T>)
    ensures a + b + c == a + (b + c)
  {
  }

  /** One turn of the `bulk_create` slicing loop: the chunk at `i`, then the chunks after it. */
  lemma CreateChunkStep(db: Db, objs: seq<Instance>, i: nat)
    requires i < |objs|
    ensures CreateWrites(Chunks(objs[i..], CHUNK_SIZE)) ==
      [Call.WriteCreate(objs[i..Min(i + CHUNK_SIZE, |objs|)])] + CreateWrites(Chunks(objs[Min(i + CHUNK_SIZE, |objs|)..], CHUNK_SIZE))
    ensures CreatedAll(db, Chunks(objs[i..], CHUNK_SIZE)) ==
      db.Created(objs[i..Min(i + CHUNK_SIZE, |objs|)]) + CreatedAll(db, Chunks(objs[Min(i + CHUNK_SIZE, |objs|)..], CHUNK_SIZE))
  {
    ChunksStep(objs, CHUNK_SIZE, i);
  }

  /** The slicing loop of `bulk_create`: one base-class call per chunk, results extended in order. */
  method WriteCreateChunks(db: Db, objs: seq<Instance>) returns (result: seq<Instance>)
    modifies db
    ensures db.log == old(db.log) + CreateWrites(Chunks(objs, CHUNK_SIZE))
    ensures result == CreatedAll(db, Chunks(objs, CHUNK_SIZE))
    ensures db.nextPk == old(db.nextPk)
  {
    result := [];
    var i := 0;
    assert objs[0..] == objs;
    while i < |objs|
      invariant 0 <= i <= |objs| && db.nextPk == old(db.nextPk)
      invariant old(db.log) + CreateWrites(Chunks(objs, CHUNK_SIZE)) == db.log + CreateWrites(Chunks(objs[i..], CHUNK_SIZE))
      invariant CreatedAll(db, Chunks(objs, CHUNK_SIZE)) == result + CreatedAll(db, Chunks(objs[i..], CHUNK_SIZE))
    {
      var end := if i + CHUNK_SIZE < |objs| then i + CHUNK_SIZE else |objs|;
      CreateChunkStep(db, objs, i);
      assert end == Min(i + CHUNK_SIZE, |objs|);
      ghost var rest := Chunks(objs[end..], CHUNK_SIZE);
      ghost var log0 := db.log;
      var created := db.WriteCreate(objs[i..end]);
      SeqAssoc(log0, [Call.WriteCreate(objs[i..end])], CreateWrites(rest));
      SeqAssoc(result, created, CreatedAll(db, rest));
      result := result + created;
      i := end;
    }
    assert objs[i..] == [];
  }

  // ---------------------------------------------------------------------------------------
  // BulkHookManager
  // ---------------------------------------------------------------------------------------

  class BulkHookManager {
    /** `self.model`. */
    const model: ModelId
    /** The `_meta` of every model class. */
    const schema: Schema
    /** The model class and its subclasses: `isinstance(obj, self.model)` iff `obj.model in family`. */
    const family: set<ModelId>

    constructor (model: ModelId, schema: Schema, family: set<ModelId>)
      ensures this.model == model && this.schema == schema && this.family == family
    {
      this.model := model;
      this.schema := schema;
      this.family := family;
    }

    /** `not any(not isinstance(obj, model_cls) for obj in objs)`. */
    predicate AllInstances(objs: seq<Instance>) {
      forall x :: x in objs ==> x.model in family
    }

    /** The originals `bulk_update` loads, aligned with `objs`. */
    function Originals(db: Db, objs: seq<Instance>): (r: seq<Option<Instance>>) {
      OriginalsFrom(db.Filter(model, PksOf(objs)), objs)
    }

    /**
     * The hook runs before a write: the validation event unless hooks or validation are
     * bypassed, then the before event unless hooks are bypassed. Each run gets the objects
     * as the previous one left them.
     */
    function Prelude(db: Db, validateEvent: string, beforeEvent: string, objs: seq<Instance>,
                     olds: Option<seq<Option<Instance>>>, bypassHooks: bool, bypassValidation: bool): (r: (seq<Instance>, seq<Call>))
      ensures |r.0| == |objs|
    {
      var validate := if bypassHooks || bypassValidation then [] else [Call.Run(model, validateEvent, objs, olds)];
      var validated := if bypassHooks || bypassValidation then objs else db.Edited(validateEvent, objs);
      var before := if bypassHooks then [] else [Call.Run(model, beforeEvent, validated, olds)];
      (if bypassHooks then validated else db.Edited(beforeEvent, validated), validate + before)
    }

    method RunPrelude(db: Db, validateEvent: string, beforeEvent: string, objs: seq<Instance>,
                      olds: Option<seq<Option<Instance>>>, bypassHooks: bool, bypassValidation: bool) returns (cur: seq<Instance>)
      modifies db
      ensures cur == Prelude(db, validateEvent, beforeEvent, objs, olds, bypassHooks, bypassValidation).0
      ensures db.log == old(db.log) + Prelude(db, validateEvent, beforeEvent, objs, olds, bypassHooks, bypassValidation).1
      ensures db.nextPk == old(db.nextPk)
    {
      cur := objs;
      if !bypassHooks {
        if !bypassValidation {
          cur := db.Run(model, validateEvent, cur, olds);
        }
        cur := db.Run(model, beforeEvent, cur, olds);
      }
    }

    /** The hook run after a write, unless hooks are bypassed: the objects as it leaves them. */
    function Finale(db: Db, afterEvent: string, objs: seq<Instance>, olds: Option<seq<Option<Instance>>>, bypassHooks: bool): (r: (seq<Instance>, seq<Call>))
      ensures |r.0| == |objs|
    {
      if bypassHooks then (objs, []) else (db.Edited(afterEvent, objs), [Call.Run(model, afterEvent, objs, olds)])
    }

    method RunFinale(db: Db, afterEvent: string, objs: seq<Instance>, olds: Option<seq<Option<Instance>>>, bypassHooks: bool) returns (cur: seq<Instance>)
      modifies db
      ensures cur == Finale(db, afterEvent, objs, olds, bypassHooks).0
      ensures db.log == old(db.log) + Finale(db, afterEvent, objs, olds, bypassHooks).1
      ensures db.nextPk == old(db.nextPk)
    {
      cur := objs;
      if !bypassHooks {
        cur := db.Run(model, afterEvent, cur, olds);
      }
    }

    /** The field set `bulk_update` writes: the given fields and whatever the before hooks changed. */
    function WrittenFields(fields: seq<string>, prepared: seq<Instance>, originals: seq<Option<Instance>>, bypassHooks: bool): (r: set<string>) {
      if bypassHooks then SetOf(fields) else SetOf(fields) + ModifiedFields(schema, prepared, originals)
    }

    /**
     * `bulk_update(objs, fields, bypass_hooks, bypass_validation)`: its result (`objs`, as
     * the hooks leave them) and the calls it makes.
     */
    function BulkUpdateSpec(db: Db, objs: seq<Instance>, fields: seq<string>, bypassHooks: bool, bypassValidation: bool): (r: (Result<seq<Instance>>, seq<Call>))
      ensures r.0.Ok? ==> |r.0.value| == |objs|
    {
      if objs == [] then (Ok([]), [])
      else if !AllInstances(objs) then (Err(TypeError), [])
      else
        var originals := if bypassHooks then [] else Originals(db, objs);
        var (prepared, pre) := Prelude(db, VALIDATE_UPDATE, BEFORE_UPDATE, objs, Some(originals), bypassHooks, bypassValidation);
        var written := WrittenFields(fields, prepared, originals, bypassHooks);
        var (result, post) := Finale(db, AFTER_UPDATE, prepared, Some(originals), bypassHooks);
        (Ok(result), pre + UpdateWrites(Chunks(prepared, CHUNK_SIZE), written) + post)
    }

    /** `fields` united with what `_detect_modified_fields` reports, when it reports anything. */
    method AddModifiedFields(fields: set<string>, prepared: seq<Instance>, originals: seq<Option<Instance>>) returns (r: set<string>)
      ensures r == fields + ModifiedFields(schema, prepared, originals)
    {
      r := fields;
      var modified := DetectModifiedFields(schema, prepared, originals);
      if modified != {} {
        r := r + modified;
      }
    }

    /** `_get_concrete_models(model_cls)`, with its loops over the parent models (see `ConcreteModels`). */
    method GetConcreteModels(modelCls: ModelId) returns (models: seq<ModelId>)
      requires ValidSchema(schema) && modelCls in schema
      ensures models == ConcreteModels(schema, modelCls)
    {
      models := [];
      var current := modelCls;
      while schema[current].parents != []
        invariant current in schema
        invariant CollectParents(schema, models, current) == CollectParents(schema, [], modelCls)
        decreases schema[current].level
      {
        var ps := schema[current].parents;
        ghost var before := models;
        var k := 0;
        while k < |ps|
          invariant 0 <= k <= |ps|
          invariant InsertParents(schema, models, ps[k..]) == InsertParents(schema, before, ps)
        {
          var parent := ps[k].parent;
          assert ps[k..][1..] == ps[k + 1..];
          if !schema[parent].isAbstract && parent !in models {
            models := [parent] + models;
          }
          k := k + 1;
        }
        assert ps[k..] == [];
        current := ps[0].parent;
      }
      if modelCls !in models {
        models := models + [modelCls];
      }
    }

    method BulkUpdate(db: Db, objs: seq<Instance>, fields: seq<string>, bypassHooks: bool, bypassValidation: bool) returns (r: Result<seq<Instance>>)
      modifies db
      ensures r == BulkUpdateSpec(db, objs, fields, bypassHooks, bypassValidation).0
      ensures db.log == old(db.log) + BulkUpdateSpec(db, objs, fields, bypassHooks, bypassValidation).1
      ensures db.nextPk == old(db.nextPk)
    {
      if objs == [] {
        return Ok([]);
      }
      if !AllInstances(objs) {
        return Err(TypeError);
      }
      ghost var log0 := db.log;
      var writeFields := SetOf(fields);
      var originals: seq<Option<Instance>> := [];
      if !bypassHooks {
        originals := OriginalsFrom(db.Filter(model, PksOf(objs)), objs);
      }
      var cur := RunPrelude(db, VALIDATE_UPDATE, BEFORE_UPDATE, objs, Some(originals), bypassHooks, bypassValidation);
      ghost var pre := Prelude(db, VALIDATE_UPDATE, BEFORE_UPDATE, objs, Some(originals), bypassHooks, bypassValidation).1;
      ghost var log1 := db.log;
      assert log1 == log0 + pre;
      if !bypassHooks {
        writeFields := AddModifiedFields(writeFields, cur, originals);
      }
      WriteUpdateChunks(db, cur, writeFields);
      ghost var writes := UpdateWrites(Chunks(cur, CHUNK_SIZE), writeFields);
      ghost var log2 := db.log;
      assert log2 == log1 + writes;
      ghost var post := Finale(db, AFTER_UPDATE, cur, Some(originals), bypassHooks).1;
      cur := RunFinale(db, AFTER_UPDATE, cur, Some(originals), bypassHooks);
      assert db.log == log2 + post;
      AppendAssoc(log0, pre, writes, post);
      return Ok(cur);
    }

    /** `bulk_create(objs, bypass_hooks, bypass_validation)`: its result and the calls it makes. */
    function BulkCreateSpec(db: Db, objs: seq<Instance>, bypassHooks: bool, bypassValidation: bool): (r: (Result<seq<Instance>>, seq<Call>))
      ensures r.0.Ok? ==> |r.0.value| == |objs|
    {
      if !AllInstances(objs) then (Err(TypeError), [])
      else
        var (prepared, pre) := Prelude(db, VALIDATE_CREATE, BEFORE_CREATE, objs, None, bypassHooks, bypassValidation);
        var chunks := Chunks(prepared, CHUNK_SIZE);
        var created := CreatedAll(db, chunks);
        CreatedAllConcat(db, chunks);
        ChunksConcat(prepared, CHUNK_SIZE);
        var (result, post) := Finale(db, AFTER_CREATE, created, None, bypassHooks);
        (Ok(result), pre + CreateWrites(chunks) + post)
    }

    method BulkCreate(db: Db, objs: seq<Instance>, bypassHooks: bool, bypassValidation: bool) returns (r: Result<seq<Instance>>)
      modifies db
      ensures r == BulkCreateSpec(db, objs, bypassHooks, bypassValidation).0
      ensures db.log == old(db.log) + BulkCreateSpec(db, objs, bypassHooks, bypassValidation).1
      ensures db.nextPk == old(db.nextPk)
    {
      if !AllInstances(objs) {
        return Err(TypeError);
      }
      ghost var log0 := db.log;
      var cur := RunPrelude(db, VALIDATE_CREATE, BEFORE_CREATE, objs, None, bypassHooks, bypassValidation);
      ghost var pre := Prelude(db, VALIDATE_CREATE, BEFORE_CREATE, objs, None, bypassHooks, bypassValidation).1;
      var result := WriteCreateChunks(db, cur);
      ghost var writes := CreateWrites(Chunks(cur, CHUNK_SIZE));
      ghost var post := Finale(db, AFTER_CREATE, result, None, bypassHooks).1;
      result := RunFinale(db, AFTER_CREATE, result, None, bypassHooks);
      assert db.log == log0 + pre + writes + post;
      AppendAssoc(log0, pre, writes, post);
      return Ok(result);
    }

    /** `bulk_delete(objs, bypass_hooks=..., bypass_validation=...)`: its result and the calls it makes. */
    function BulkDeleteSpec(db: Db, objs: seq<Instance>, bypassHooks: bool, bypassValidation: bool): (r: (Result<seq<Instance>>, seq<Call>))
      ensures r.0.Ok? ==> |r.0.value| == |objs|
    {
      if objs == [] then (Ok([]), [])
      else if !AllInstances(objs) then (Err(TypeError), [])
      else
        var (prepared, pre) := Prelude(db, VALIDATE_DELETE, BEFORE_DELETE, objs, None, bypassHooks, bypassValidation);
        var (result, post) := Finale(db, AFTER_DELETE, prepared, None, bypassHooks);
        (Ok(result), pre + [Call.DeleteRows(model, DeletablePks(prepared))] + post)
    }

    method BulkDelete(db: Db, objs: seq<Instance>, bypassHooks: bool, bypassValidation: bool) returns (r: Result<seq<Instance>>)
      modifies db
      ensures r == BulkDeleteSpec(db, objs, bypassHooks, bypassValidation).0
      ensures db.log == old(db.log) + BulkDeleteSpec(db, objs, bypassHooks, bypassValidation).1
      ensures db.nextPk == old(db.nextPk)
    {
      if objs == [] {
        return Ok([]);
      }
      if !AllInstances(objs) {
        return Err(TypeError);
      }
      ghost var log0 := db.log;
      var cur := RunPrelude(db, VALIDATE_DELETE, BEFORE_DELETE, objs, None, bypassHooks, bypassValidation);
      ghost var pre := Prelude(db, VALIDATE_DELETE, BEFORE_DELETE, objs, None, bypassHooks, bypassValidation).1;
      db.DeleteRows(model, DeletablePks(cur));
      ghost var del := [Call.DeleteRows(model, DeletablePks(cur))];
      ghost var post := Finale(db, AFTER_DELETE, cur, None, bypassHooks).1;
      cur := RunFinale(db, AFTER_DELETE, cur, None, bypassHooks);
      assert db.log == log0 + pre + del + post;
      AppendAssoc(log0, pre, del, post);
      return Ok(cur);
    }

    /** `update(**kwargs)`: the object count, or the exception `bulk_update` raises, and the calls made. */
    function UpdateSpec(db: Db, kwargs: Kwargs): (Result<nat>, seq<Call>) {
      var objs := db.rows(model);
      if objs == [] then (Ok(0), [])
      else
        var r := BulkUpdateSpec(db, SetAttrsAll(objs, kwargs), Keys(kwargs), false, false);
        (if r.0.Err? then Err(r.0.error) else Ok(|objs|), r.1)
    }

    method Update(db: Db, kwargs: Kwargs) returns (r: Result<nat>)
      modifies db
      ensures r == UpdateSpec(db, kwargs).0
      ensures db.log == old(db.log) + UpdateSpec(db, kwargs).1
      ensures db.nextPk == old(db.nextPk)
    {
      var objs := db.rows(model);
      if objs == [] {
        return Ok(0);
      }
      ghost var all := objs;
      var i := 0;
      while i < |kwargs|
        invariant 0 <= i <= |kwargs| && |objs| == |all|
        invariant forall j :: 0 <= j < |objs| ==> objs[j] == SetAttrs(all[j], kwargs[..i])
      {
        var (key, value) := kwargs[i];
        assert kwargs[..i + 1][..i] == kwargs[..i];
        var j := 0;
        while j < |objs|
          invariant 0 <= j <= |objs| && |objs| == |all|
          invariant forall l :: 0 <= l < j ==> objs[l] == SetAttrs(all[l], kwargs[..i + 1])
          invariant forall l :: j <= l < |objs| ==> objs[l] == SetAttrs(all[l], kwargs[..i])
        {
          objs := objs[j := SetAttr(objs[j], key, value)];
          j := j + 1;
        }
        i := i + 1;
      }
      assert kwargs[..i] == kwargs;
      assert objs == SetAttrsAll(all, kwargs);
      var res := BulkUpdate(db, objs, Keys(kwargs), false, false);
      if res.Err? {
        return Err(res.error);
      }
      return Ok(|objs|);
    }

    /** `delete()`: the object count, or the exception `bulk_delete` raises, and the calls made. */
    function DeleteSpec(db: Db): (Result<nat>, seq<Call>) {
      var objs := db.rows(model);
      if objs == [] then (Ok(0), [])
      else
        var r := BulkDeleteSpec(db, objs, false, false);
        (if r.0.Err? then Err(r.0.error) else Ok(|objs|), r.1)
    }

    method Delete(db: Db) returns (r: Result<nat>)
      modifies db
      ensures r == DeleteSpec(db).0
      ensures db.log == old(db.log) + DeleteSpec(db).1
      ensures db.nextPk == old(db.nextPk)
    {
      var objs := db.rows(model);
      if objs == [] {
        return Ok(0);
      }
      var res := BulkDelete(db, objs, false, false);
      if res.Err? {
        return Err(res.error);
      }
      return Ok(|objs|);
    }

    /**
     * `save(obj)`: a truthy pk goes to `bulk_update` with every field except "id", anything
     * else to `bulk_create`; the result is `obj` as the hooks leave it.
     */
    function SaveSpec(db: Db, obj: Instance): (Result<Instance>, seq<Call>) {
      var r := if PkTruthy(obj.pk) then BulkUpdateSpec(db, [obj], NonIdFields(FieldsOf(schema, obj.model)), false, false)
               else BulkCreateSpec(db, [obj], false, false);
      (if r.0.Err? then Err(r.0.error) else Ok(r.0.value[0]), r.1)
    }

    method Save(db: Db, obj: Instance) returns (r: Result<Instance>)
      modifies db
      ensures r == SaveSpec(db, obj).0
      ensures db.log == old(db.log) + SaveSpec(db, obj).1
      ensures db.nextPk == old(db.nextPk)
    {
      var res;
      if PkTruthy(obj.pk) {
        res := BulkUpdate(db, [obj], NonIdFields(FieldsOf(schema, obj.model)), false, false);
      } else {
        res := BulkCreate(db, [obj], false, false);
      }
      if res.Err? {
        return Err(res.error);
      }
      return Ok(res.value[0]);
    }
  }

  // ---------------------------------------------------------------------------------------
  // What the orchestrators promise
  // ---------------------------------------------------------------------------------------

  /** The runs before a write: their steps, and every one is a hook run on `olds`. */
  lemma PreludeFacts(m: BulkHookManager, db: Db, validateEvent: string, beforeEvent: string, objs: seq<Instance>,
                     olds: Option<seq<Option<Instance>>>, bypassHooks: bool, bypassValidation: bool)
    ensures var calls := m.Prelude(db, validateEvent, beforeEvent, objs, olds, bypassHooks, bypassValidation).1;
      Trace(calls) == (if bypassHooks || bypassValidation then [] else [Event(validateEvent)]) + (if bypassHooks then [] else [Event(beforeEvent)]) &&
      Written(calls) == [] &&
      (bypassHooks ==> calls == []) &&
      forall c :: c in calls ==> c.Run? && c.model == m.model && c.olds == olds && (c.event == validateEvent || c.event == beforeEvent)
  {
    var calls := m.Prelude(db, validateEvent, beforeEvent, objs, olds, bypassHooks, bypassValidation).1;
    if !bypassHooks && bypassValidation {
      assert calls[1..] == [];
    } else if !bypassHooks {
      assert |calls| == 2 && calls == [calls[0], calls[1]];
      assert calls[1..] == [calls[1]] && calls[1..][1..] == [];
      assert Written(calls[1..][1..]) == [];
      assert Written(calls[1..]) == [];
      assert Written(calls) == Written(calls[1..]);
      assert Trace(calls[1..]) == [Event(beforeEvent)] + Trace(calls[1..][1..]);
      assert Trace(calls) == [Event(validateEvent)] + Trace(calls[1..]);
    }
  }

  /** The run after a write: at most one hook run, on `objs` and `olds`. */
  lemma FinaleFacts(m: BulkHookManager, db: Db, afterEvent: string, objs: seq<Instance>, olds: Option<seq<Option<Instance>>>, bypassHooks: bool)
    ensures var calls := m.Finale(db, afterEvent, objs, olds, bypassHooks).1;
      Trace(calls) == (if bypassHooks then [] else [Event(afterEvent)]) &&
      Written(calls) == [] &&
      (bypassHooks ==> calls == []) &&
      forall c :: c in calls ==> c.Run? && c.model == m.model && c.olds == olds && c.news == objs && c.event == afterEvent
  {
  }

  /**
   * `originals[i]` is a stored row of the model whose pk equals `objs[i].pk`, and there is one
   * exactly when some stored row has that (non-null) pk.
   */
  lemma OriginalsAligned(m: BulkHookManager, db: Db, objs: seq<Instance>, i: int)
    requires 0 <= i < |objs|
    ensures var o := m.Originals(db, objs)[i];
      (o.Some? <==> exists x :: x in db.rows(m.model) && x.pk.Some? && x.pk == objs[i].pk) &&
      (o.Some? ==> o.value in db.rows(m.model) && o.value.pk == objs[i].pk)
  {
    var fetched := db.Filter(m.model, PksOf(objs));
    var pk := objs[i].pk;
    assert pk == PksOf(objs)[i] && pk in PksOf(objs);
    var o := Lookup(fetched, pk);
    assert m.Originals(db, objs)[i] == o;
    if o.Some? {
      assert o.value in fetched;
    }
    if x :| x in db.rows(m.model) && x.pk.Some? && x.pk == pk {
      assert x in fetched;
    }
  }

  /** The pieces `bulk_update`'s calls are made of, named once for the lemmas below. */
  lemma UpdateParts(m: BulkHookManager, db: Db, objs: seq<Instance>, fields: seq<string>, bypassHooks: bool, bypassValidation: bool)
    returns (originals: seq<Option<Instance>>, prepared: seq<Instance>, pre: seq<Call>, written: set<string>, writes: seq<Call>, post: seq<Call>)
    requires objs != [] && m.AllInstances(objs)
    ensures originals == if bypassHooks then [] else m.Originals(db, objs)
    ensures (prepared, pre) == m.Prelude(db, VALIDATE_UPDATE, BEFORE_UPDATE, objs, Some(originals), bypassHooks, bypassValidation)
    ensures written == m.WrittenFields(fields, prepared, originals, bypassHooks)
    ensures writes == UpdateWrites(Chunks(prepared, CHUNK_SIZE), written)
    ensures post == m.Finale(db, AFTER_UPDATE, prepared, Some(originals), bypassHooks).1
    ensures m.BulkUpdateSpec(db, objs, fields, bypassHooks, bypassValidation) == (Ok(m.Finale(db, AFTER_UPDATE, prepared, Some(originals), bypassHooks).0), pre + writes + post)
  {
    originals := if bypassHooks then [] else m.Originals(db, objs);
    var p := m.Prelude(db, VALIDATE_UPDATE, BEFORE_UPDATE, objs, Some(originals), bypassHooks, bypassValidation);
    prepared, pre := p.0, p.1;
    written := m.WrittenFields(fields, prepared, originals, bypassHooks);
    writes := UpdateWrites(Chunks(prepared, CHUNK_SIZE), written);
    post := m.Finale(db, AFTER_UPDATE, prepared, Some(originals), bypassHooks).1;
  }

  /**
   * `bulk_update` on a non-empty list of instances: validation (unless either flag is set),
   * before (unless hooks are bypassed), one write per chunk, then after (unless hooks are
   * bypassed); the result is the objects as the after hooks leave them.
   */
  lemma BulkUpdateOrder(m: BulkHookManager, db: Db, objs: seq<Instance>, fields: seq<string>, bypassHooks: bool, bypassValidation: bool)
    requires objs != [] && m.AllInstances(objs)
    ensures var (r, calls) := m.BulkUpdateSpec(db, objs, fields, bypassHooks, bypassValidation);
      var originals := if bypassHooks then [] else m.Originals(db, objs);
      var prepared := m.Prelude(db, VALIDATE_UPDATE, BEFORE_UPDATE, objs, Some(originals), bypassHooks, bypassValidation).0;
      r.Ok? && r.value == (if bypassHooks then prepared else db.Edited(AFTER_UPDATE, prepared)) &&
      Trace(calls) == (if bypassHooks || bypassValidation then [] else [Event(VALIDATE_UPDATE)]) + (if bypassHooks then [] else [Event(BEFORE_UPDATE)])
                      + Repeat(Write, |Chunks(prepared, CHUNK_SIZE)|) + (if bypassHooks then [] else [Event(AFTER_UPDATE)])
  {
    var originals, prepared, pre, written, writes, post := UpdateParts(m, db, objs, fields, bypassHooks, bypassValidation);
    PreludeFacts(m, db, VALIDATE_UPDATE, BEFORE_UPDATE, objs, Some(originals), bypassHooks, bypassValidation);
    FinaleFacts(m, db, AFTER_UPDATE, prepared, Some(originals), bypassHooks);
    UpdateWritesFacts(Chunks(prepared, CHUNK_SIZE), written);
    TraceAppend3(pre, writes, post);
  }

  /**
   * The writes of `bulk_update` cover the prepared objects exactly once and in order, each
   * chunk holding at most CHUNK_SIZE of them and naming the given fields together with every
   * field the hooks changed.
   */
  lemma BulkUpdateWrites(m: BulkHookManager, db: Db, objs: seq<Instance>, fields: seq<string>, bypassHooks: bool, bypassValidation: bool)
    requires objs != [] && m.AllInstances(objs)
    ensures var calls := m.BulkUpdateSpec(db, objs, fields, bypassHooks, bypassValidation).1;
      var originals := if bypassHooks then [] else m.Originals(db, objs);
      var prepared := m.Prelude(db, VALIDATE_UPDATE, BEFORE_UPDATE, objs, Some(originals), bypassHooks, bypassValidation).0;
      Written(calls) == prepared &&
      forall c :: c in calls && c.WriteUpdate? ==>
        0 < |c.chunk| <= CHUNK_SIZE &&
        c.fields == (set f | f in fields) + (if bypassHooks then {} else ModifiedFields(m.schema, prepared, originals))
  {
    var originals, prepared, pre, written, writes, post := UpdateParts(m, db, objs, fields, bypassHooks, bypassValidation);
    PreludeFacts(m, db, VALIDATE_UPDATE, BEFORE_UPDATE, objs, Some(originals), bypassHooks, bypassValidation);
    FinaleFacts(m, db, AFTER_UPDATE, prepared, Some(originals), bypassHooks);
    ChunksConcat(prepared, CHUNK_SIZE);
    ChunksSizes(prepared, CHUNK_SIZE);
    UpdateCallsFacts(pre, Chunks(prepared, CHUNK_SIZE), written, post);
  }

  /**
   * Hook runs around one update write per chunk: the objects written are the chunks in order,
   * and every write carries its chunk and the same fields.
   */
  lemma UpdateCallsFacts(pre: seq<Call>, chunks: seq<seq<Instance>>, fields: set<string>, post: seq<Call>)
    requires forall c :: c in pre ==> c.Run?
    requires forall c :: c in post ==> c.Run?
    requires Written(pre) == [] && Written(post) == []
    requires forall k :: 0 <= k < |chunks| ==> 0 < |chunks[k]| <= CHUNK_SIZE
    ensures var calls := pre + UpdateWrites(chunks, fields) + post;
      Written(calls) == Concat(chunks) &&
      forall c :: c in calls && c.WriteUpdate? ==> 0 < |c.chunk| <= CHUNK_SIZE && c.fields == fields
  {
    var writes := UpdateWrites(chunks, fields);
    UpdateWritesFacts(chunks, fields);
    WrittenAppend(pre, writes);
    WrittenAppend(pre + writes, post);
    forall c: Call | c in pre + writes + post && c.WriteUpdate?
      ensures 0 < |c.chunk| <= CHUNK_SIZE && c.fields == fields
    {
      assert c !in pre && c !in post;
      var k :| 0 <= k < |writes| && writes[k] == c;
    }
  }

  /** Every hook run of `bulk_update` gets the aligned originals; the after run gets the objects written. */
  lemma BulkUpdateRuns(m: BulkHookManager, db: Db, objs: seq<Instance>, fields: seq<string>, bypassHooks: bool, bypassValidation: bool)
    requires objs != [] && m.AllInstances(objs)
    ensures var calls := m.BulkUpdateSpec(db, objs, fields, bypassHooks, bypassValidation).1;
      (forall c :: c in calls && c.Run? ==> c.model == m.model && c.olds == Some(m.Originals(db, objs))) &&
      (forall c :: c in calls && c.Run? && c.event == AFTER_UPDATE ==> c.news == Written(calls))
  {
    var originals, prepared, pre, written, writes, post := UpdateParts(m, db, objs, fields, bypassHooks, bypassValidation);
    PreludeFacts(m, db, VALIDATE_UPDATE, BEFORE_UPDATE, objs, Some(originals), bypassHooks, bypassValidation);
    FinaleFacts(m, db, AFTER_UPDATE, prepared, Some(originals), bypassHooks);
    ChunksConcat(prepared, CHUNK_SIZE);
    UpdateCallsRuns(pre, Chunks(prepared, CHUNK_SIZE), written, post, m.model, Some(m.Originals(db, objs)), prepared);
  }

  /**
   * Hook runs around storage calls: every run is on `model` with `olds`, and the runs of
   * `afterEvent`, all after the storage calls, get `news`.
   */
  lemma RunsAround(pre: seq<Call>, writes: seq<Call>, post: seq<Call>,
                   model: ModelId, olds: Option<seq<Option<Instance>>>, afterEvent: string, news: seq<Instance>)
    requires forall c :: c in pre ==> c.Run? && c.model == model && c.olds == olds && c.event != afterEvent
    requires forall k :: 0 <= k < |writes| ==> !writes[k].Run?
    requires forall c :: c in post ==> c.Run? && c.model == model && c.olds == olds && c.news == news
    ensures forall c :: c in pre + writes + post && c.Run? ==>
      c.model == model && c.olds == olds && (c.event == afterEvent ==> c.news == news)
  {
    forall c: Call | c in pre + writes + post && c.Run?
      ensures c.model == model && c.olds == olds && (c.event == afterEvent ==> c.news == news)
    {
      assert c in pre || c in post;
    }
  }

  /**
   * Validation and before runs, one update write per chunk, then after runs: every run is on
   * `model` with `olds`, and the after runs get exactly the objects written.
   */
  lemma UpdateCallsRuns(pre: seq<Call>, chunks: seq<seq<Instance>>, fields: set<string>, post: seq<Call>,
                        model: ModelId, olds: Option<seq<Option<Instance>>>, news: seq<Instance>)
    requires forall c :: c in pre ==> c.Run? && c.model == model && c.olds == olds && (c.event == VALIDATE_UPDATE || c.event == BEFORE_UPDATE)
    requires forall c :: c in post ==> c.Run? && c.model == model && c.olds == olds && c.news == news
    requires Written(pre) == [] && Written(post) == [] && Concat(chunks) == news
    ensures var calls := pre + UpdateWrites(chunks, fields) + post;
      (forall c :: c in calls && c.Run? ==> c.model == model && c.olds == olds) &&
      (forall c :: c in calls && c.Run? && c.event == AFTER_UPDATE ==> c.news == Written(calls))
  {
    var writes := UpdateWrites(chunks, fields);
    UpdateWritesFacts(chunks, fields);
    WrittenAround(pre, writes, post);
    RunsAround(pre, writes, post, model, olds, AFTER_UPDATE, news);
  }

  /** The pieces `bulk_create`'s calls are made of. */
  lemma CreateParts(m: BulkHookManager, db: Db, objs: seq<Instance>, bypassHooks: bool, bypassValidation: bool)
    returns (prepared: seq<Instance>, pre: seq<Call>, writes: seq<Call>, post: seq<Call>)
    requires m.AllInstances(objs)
    ensures (prepared, pre) == m.Prelude(db, VALIDATE_CREATE, BEFORE_CREATE, objs, None, bypassHooks, bypassValidation)
    ensures writes == CreateWrites(Chunks(prepared, CHUNK_SIZE))
    ensures post == m.Finale(db, AFTER_CREATE, db.Created(prepared), None, bypassHooks).1
    ensures m.BulkCreateSpec(db, objs, bypassHooks, bypassValidation) == (Ok(m.Finale(db, AFTER_CREATE, db.Created(prepared), None, bypassHooks).0), pre + writes + post)
  {
    var p := m.Prelude(db, VALIDATE_CREATE, BEFORE_CREATE, objs, None, bypassHooks, bypassValidation);
    prepared, pre := p.0, p.1;
    writes := CreateWrites(Chunks(prepared, CHUNK_SIZE));
    CreatedAllConcat(db, Chunks(prepared, CHUNK_SIZE));
    ChunksConcat(prepared, CHUNK_SIZE);
    post := m.Finale(db, AFTER_CREATE, db.Created(prepared), None, bypassHooks).1;
  }

  /**
   * `bulk_create` on any list of instances, the empty one included: the same hook steps
   * around one write per chunk; the result is the base `bulk_create` results, as the after
   * hooks leave them.
   */
  lemma BulkCreateOrder(m: BulkHookManager, db: Db, objs: seq<Instance>, bypassHooks: bool, bypassValidation: bool)
    requires m.AllInstances(objs)
    ensures var (r, calls) := m.BulkCreateSpec(db, objs, bypassHooks, bypassValidation);
      var prepared := m.Prelude(db, VALIDATE_CREATE, BEFORE_CREATE, objs, None, bypassHooks, bypassValidation).0;
      r.Ok? && r.value == (if bypassHooks then db.Created(prepared) else db.Edited(AFTER_CREATE, db.Created(prepared))) &&
      Trace(calls) == (if bypassHooks || bypassValidation then [] else [Event(VALIDATE_CREATE)]) + (if bypassHooks then [] else [Event(BEFORE_CREATE)])
                      + Repeat(Write, |Chunks(prepared, CHUNK_SIZE)|) + (if bypassHooks then [] else [Event(AFTER_CREATE)])
  {
    var prepared, pre, writes, post := CreateParts(m, db, objs, bypassHooks, bypassValidation);
    PreludeFacts(m, db, VALIDATE_CREATE, BEFORE_CREATE, objs, None, bypassHooks, bypassValidation);
    FinaleFacts(m, db, AFTER_CREATE, db.Created(prepared), None, bypassHooks);
    CreateWritesFacts(Chunks(prepared, CHUNK_SIZE));
    TraceAppend3(pre, writes, post);
  }

  /**
   * The writes of `bulk_create` cover the prepared objects exactly once and in order, at most
   * CHUNK_SIZE at a time.
   */
  lemma BulkCreateWrites(m: BulkHookManager, db: Db, objs: seq<Instance>, bypassHooks: bool, bypassValidation: bool)
    requires m.AllInstances(objs)
    ensures var calls := m.BulkCreateSpec(db, objs, bypassHooks, bypassValidation).1;
      Written(calls) == m.Prelude(db, VALIDATE_CREATE, BEFORE_CREATE, objs, None, bypassHooks, bypassValidation).0 &&
      forall c :: c in calls && c.WriteCreate? ==> 0 < |c.chunk| <= CHUNK_SIZE
  {
    var prepared, pre, writes, post := CreateParts(m, db, objs, bypassHooks, bypassValidation);
    PreludeFacts(m, db, VALIDATE_CREATE, BEFORE_CREATE, objs, None, bypassHooks, bypassValidation);
    FinaleFacts(m, db, AFTER_CREATE, db.Created(prepared), None, bypassHooks);
    ChunksConcat(prepared, CHUNK_SIZE);
    ChunksSizes(prepared, CHUNK_SIZE);
    CreateCallsFacts(pre, Chunks(prepared, CHUNK_SIZE), post);
  }

  /** Hook runs around one create write per chunk: the objects written are the chunks in order. */
  lemma CreateCallsFacts(pre: seq<Call>, chunks: seq<seq<Instance>>, post: seq<Call>)
    requires forall c :: c in pre ==> c.Run?
    requires forall c :: c in post ==> c.Run?
    requires Written(pre) == [] && Written(post) == []
    requires forall k :: 0 <= k < |chunks| ==> 0 < |chunks[k]| <= CHUNK_SIZE
    ensures var calls := pre + CreateWrites(chunks) + post;
      Written(calls) == Concat(chunks) &&
      forall c :: c in calls && c.WriteCreate? ==> 0 < |c.chunk| <= CHUNK_SIZE
  {
    var writes := CreateWrites(chunks);
    CreateWritesFacts(chunks);
    WrittenAppend(pre, writes);
    WrittenAppend(pre + writes, post);
    forall c: Call | c in pre + writes + post && c.WriteCreate?
      ensures 0 < |c.chunk| <= CHUNK_SIZE
    {
      assert c !in pre && c !in post;
      var k :| 0 <= k < |writes| && writes[k] == c;
    }
  }

  /** No hook run of `bulk_create` gets originals; the after run gets the base `bulk_create` results of the prepared objects. */
  lemma BulkCreateRuns(m: BulkHookManager, db: Db, objs: seq<Instance>, bypassHooks: bool, bypassValidation: bool)
    requires m.AllInstances(objs)
    ensures var calls := m.BulkCreateSpec(db, objs, bypassHooks, bypassValidation).1;
      (forall c :: c in calls && c.Run? ==> c.model == m.model && c.olds == None) &&
      (forall c :: c in calls && c.Run? && c.event == AFTER_CREATE ==>
         c.news == db.Created(m.Prelude(db, VALIDATE_CREATE, BEFORE_CREATE, objs, None, bypassHooks, bypassValidation).0))
  {
    var prepared, pre, writes, post := CreateParts(m, db, objs, bypassHooks, bypassValidation);
    PreludeFacts(m, db, VALIDATE_CREATE, BEFORE_CREATE, objs, None, bypassHooks, bypassValidation);
    FinaleFacts(m, db, AFTER_CREATE, db.Created(prepared), None, bypassHooks);
    CreateCallsRuns(pre, Chunks(prepared, CHUNK_SIZE), post, m.model, db.Created(prepared));
  }

  /**
   * Validation and before runs, one create write per chunk, then after runs: no run gets
   * originals, and the after runs get `news`.
   */
  lemma CreateCallsRuns(pre: seq<Call>, chunks: seq<seq<Instance>>, post: seq<Call>, model: ModelId, news: seq<Instance>)
    requires forall c :: c in pre ==> c.Run? && c.model == model && c.olds == None && (c.event == VALIDATE_CREATE || c.event == BEFORE_CREATE)
    requires forall c :: c in post ==> c.Run? && c.model == model && c.olds == None && c.news == news
    ensures forall c :: c in pre + CreateWrites(chunks) + post && c.Run? ==>
      c.model == model && c.olds == None && (c.event == AFTER_CREATE ==> c.news == news)
  {
    CreateWritesFacts(chunks);
    RunsAround(pre, CreateWrites(chunks), post, model, None, AFTER_CREATE, news);
  }

  /** The pieces `bulk_delete`'s calls are made of. */
  lemma DeleteParts(m: BulkHookManager, db: Db, objs: seq<Instance>, bypassHooks: bool, bypassValidation: bool)
    returns (prepared: seq<Instance>, pre: seq<Call>, post: seq<Call>)
    requires objs != [] && m.AllInstances(objs)
    ensures (prepared, pre) == m.Prelude(db, VALIDATE_DELETE, BEFORE_DELETE, objs, None, bypassHooks, bypassValidation)
    ensures post == m.Finale(db, AFTER_DELETE, prepared, None, bypassHooks).1
    ensures m.BulkDeleteSpec(db, objs, bypassHooks, bypassValidation)
         == (Ok(m.Finale(db, AFTER_DELETE, prepared, None, bypassHooks).0), pre + [Call.DeleteRows(m.model, DeletablePks(prepared))] + post)
  {
    var p := m.Prelude(db, VALIDATE_DELETE, BEFORE_DELETE, objs, None, bypassHooks, bypassValidation);
    prepared, pre := p.0, p.1;
    post := m.Finale(db, AFTER_DELETE, prepared, None, bypassHooks).1;
  }

  /**
   * `bulk_delete` on a non-empty list of instances: the hook steps around one delete; the
   * result is the objects as the after hooks leave them.
   */
  lemma BulkDeleteOrder(m: BulkHookManager, db: Db, objs: seq<Instance>, bypassHooks: bool, bypassValidation: bool)
    requires objs != [] && m.AllInstances(objs)
    ensures var (r, calls) := m.BulkDeleteSpec(db, objs, bypassHooks, bypassValidation);
      var prepared := m.Prelude(db, VALIDATE_DELETE, BEFORE_DELETE, objs, None, bypassHooks, bypassValidation).0;
      r.Ok? && r.value == (if bypassHooks then prepared else db.Edited(AFTER_DELETE, prepared)) &&
      Trace(calls) == (if bypassHooks || bypassValidation then [] else [Event(VALIDATE_DELETE)]) + (if bypassHooks then [] else [Event(BEFORE_DELETE)])
                      + [Delete] + (if bypassHooks then [] else [Event(AFTER_DELETE)])
  {
    var prepared, pre, post := DeleteParts(m, db, objs, bypassHooks, bypassValidation);
    var del := [Call.DeleteRows(m.model, DeletablePks(prepared))];
    PreludeFacts(m, db, VALIDATE_DELETE, BEFORE_DELETE, objs, None, bypassHooks, bypassValidation);
    FinaleFacts(m, db, AFTER_DELETE, prepared, None, bypassHooks);
    TraceSingle(del[0]);
    TraceOrder(m.BulkDeleteSpec(db, objs, bypassHooks, bypassValidation).1, pre, del, post,
               (if bypassHooks || bypassValidation then [] else [Event(VALIDATE_DELETE)]) + (if bypassHooks then [] else [Event(BEFORE_DELETE)]),
               [Delete], if bypassHooks then [] else [Event(AFTER_DELETE)]);
  }

  /** No hook run of `bulk_delete` gets originals, and the after run gets the objects the delete was computed from. */
  lemma BulkDeleteRuns(m: BulkHookManager, db: Db, objs: seq<Instance>, bypassHooks: bool, bypassValidation: bool)
    requires objs != [] && m.AllInstances(objs)
    ensures var calls := m.BulkDeleteSpec(db, objs, bypassHooks, bypassValidation).1;
      var prepared := m.Prelude(db, VALIDATE_DELETE, BEFORE_DELETE, objs, None, bypassHooks, bypassValidation).0;
      (forall c :: c in calls && c.Run? ==> c.model == m.model && c.olds == None) &&
      (forall c :: c in calls && c.Run? && c.event == AFTER_DELETE ==> c.news == prepared)
  {
    var prepared, pre, post := DeleteParts(m, db, objs, bypassHooks, bypassValidation);
    var del := [Call.DeleteRows(m.model, DeletablePks(prepared))];
    PreludeFacts(m, db, VALIDATE_DELETE, BEFORE_DELETE, objs, None, bypassHooks, bypassValidation);
    FinaleFacts(m, db, AFTER_DELETE, prepared, None, bypassHooks);
    forall c: Call | c in pre + del + post && c.Run?
      ensures c.model == m.model && c.olds == None
      ensures c.event == AFTER_DELETE ==> c.news == prepared
    {
      if c in pre {
        assert !bypassHooks && c.event != AFTER_DELETE;
      } else {
        assert c in post && !bypassHooks;
      }
    }
  }

  /** The one delete of `bulk_delete` removes exactly the non-null pks of the prepared objects. */
  lemma BulkDeletePks(m: BulkHookManager, db: Db, objs: seq<Instance>, bypassHooks: bool, bypassValidation: bool)
    requires objs != [] && m.AllInstances(objs)
    ensures var calls := m.BulkDeleteSpec(db, objs, bypassHooks, bypassValidation).1;
      var prepared := m.Prelude(db, VALIDATE_DELETE, BEFORE_DELETE, objs, None, bypassHooks, bypassValidation).0;
      forall c :: c in calls && c.DeleteRows? ==>
        c.model == m.model && forall p :: p in c.deleted <==> exists x :: x in prepared && x.pk == Some(p)
  {
    var prepared, pre, post := DeleteParts(m, db, objs, bypassHooks, bypassValidation);
    var del := [Call.DeleteRows(m.model, DeletablePks(prepared))];
    PreludeFacts(m, db, VALIDATE_DELETE, BEFORE_DELETE, objs, None, bypassHooks, bypassValidation);
    FinaleFacts(m, db, AFTER_DELETE, prepared, None, bypassHooks);
    forall c: Call | c in pre + del + post && c.DeleteRows?
      ensures c == del[0]
    {
      assert c !in pre && c !in post;
    }
  }

  /**
   * The guards of the bulk operations: an empty list gives `[]` from `bulk_update` and
   * `bulk_delete` with no call at all; a non-instance raises TypeError before any call.
   */
  lemma BulkGuards(m: BulkHookManager, db: Db, objs: seq<Instance>, fields: seq<string>, bypassHooks: bool, bypassValidation: bool)
    ensures objs == [] ==>
      m.BulkUpdateSpec(db, objs, fields, bypassHooks, bypassValidation) == (Ok([]), []) &&
      m.BulkDeleteSpec(db, objs, bypassHooks, bypassValidation) == (Ok([]), [])
    ensures (exists x :: x in objs && x.model !in m.family) ==>
      m.BulkUpdateSpec(db, objs, fields, bypassHooks, bypassValidation) == (Err(TypeError), []) &&
      m.BulkCreateSpec(db, objs, bypassHooks, bypassValidation) == (Err(TypeError), []) &&
      m.BulkDeleteSpec(db, objs, bypassHooks, bypassValidation) == (Err(TypeError), [])
  {
  }

  /**
   * `update(**kwargs)`: nothing happens on an empty table (count 0); otherwise every stored
   * object, with every keyword set to its (last) value and nothing else changed, goes through
   * `bulk_update` on the keyword names, and the count of objects comes back.
   */
  lemma UpdateFacts(m: BulkHookManager, db: Db, kwargs: Kwargs)
    ensures db.rows(m.model) == [] ==> m.UpdateSpec(db, kwargs) == (Ok(0), [])
    ensures db.rows(m.model) != [] && m.AllInstances(db.rows(m.model)) ==>
      var updated := SetAttrsAll(db.rows(m.model), kwargs);
      m.UpdateSpec(db, kwargs).0 == Ok(|db.rows(m.model)|) &&
      m.UpdateSpec(db, kwargs).1 == m.BulkUpdateSpec(db, updated, Keys(kwargs), false, false).1 &&
      |updated| == |db.rows(m.model)| &&
      forall j :: 0 <= j < |updated| ==>
        var (x, y) := (db.rows(m.model)[j], updated[j]);
        y.model == x.model && y.pk == x.pk &&
        (forall n :: KwLookup(kwargs, n).Some? ==> n in y.attrs && y.attrs[n] == KwLookup(kwargs, n).value) &&
        (forall n :: n in x.attrs && KwLookup(kwargs, n).None? ==> n in y.attrs && y.attrs[n] == x.attrs[n])
  {
    var rows := db.rows(m.model);
    if rows != [] && m.AllInstances(rows) {
      var updated := SetAttrsAll(rows, kwargs);
      forall j | 0 <= j < |updated|
        ensures updated[j].model == rows[j].model
      {
        SetAttrsMeaning(rows[j], kwargs);
      }
      assert m.AllInstances(updated) by {
        forall y | y in updated
          ensures y.model in m.family
        {
          var j :| 0 <= j < |updated| && updated[j] == y;
          assert rows[j] in rows;
        }
      }
      BulkUpdateOrder(m, db, updated, Keys(kwargs), false, false);
      forall j | 0 <= j < |updated|
        ensures var (x, y) := (rows[j], updated[j]);
          y.model == x.model && y.pk == x.pk &&
          (forall n :: KwLookup(kwargs, n).Some? ==> n in y.attrs && y.attrs[n] == KwLookup(kwargs, n).value) &&
          (forall n :: n in x.attrs && KwLookup(kwargs, n).None? ==> n in y.attrs && y.attrs[n] == x.attrs[n])
      {
        SetAttrsMeaning(rows[j], kwargs);
      }
    }
  }

  /**
   * `delete()`: nothing happens on an empty table (count 0); otherwise the stored objects go
   * through `bulk_delete` with both hook phases, and the count comes back.
   */
  lemma DeleteFacts(m: BulkHookManager, db: Db)
    ensures db.rows(m.model) == [] ==> m.DeleteSpec(db) == (Ok(0), [])
    ensures db.rows(m.model) != [] && m.AllInstances(db.rows(m.model)) ==>
      m.DeleteSpec(db).0 == Ok(|db.rows(m.model)|) &&
      Trace(m.DeleteSpec(db).1) == [Event(VALIDATE_DELETE), Event(BEFORE_DELETE), Delete, Event(AFTER_DELETE)]
  {
    if db.rows(m.model) != [] && m.AllInstances(db.rows(m.model)) {
      BulkDeleteOrder(m, db, db.rows(m.model), false, false);
    }
  }

  /**
   * `bulk_update` of a single instance with both flags clear: validate and before events, one
   * write of that instance as the before hooks leave it, then the after event on it.
   */
  lemma UpdateOne(m: BulkHookManager, db: Db, objs: seq<Instance>, fields: seq<string>)
    requires |objs| == 1 && m.AllInstances(objs)
    ensures var (r, calls) := m.BulkUpdateSpec(db, objs, fields, false, false);
      r.Ok? && |Written(calls)| == 1 && r.value == db.Edited(AFTER_UPDATE, Written(calls)) &&
      Trace(calls) == [Event(VALIDATE_UPDATE), Event(BEFORE_UPDATE), Write, Event(AFTER_UPDATE)]
  {
    BulkUpdateOrder(m, db, objs, fields, false, false);
    BulkUpdateWrites(m, db, objs, fields, false, false);
  }

  /**
   * `save(obj)` with a truthy pk: the update events around one write of `obj`; the result is
   * `obj` as the after hooks leave it.
   */
  lemma SaveUpdates(m: BulkHookManager, db: Db, obj: Instance)
    requires obj.model in m.family && PkTruthy(obj.pk)
    ensures var (r, calls) := m.SaveSpec(db, obj);
      r.Ok? && |Written(calls)| == 1 && r.value == db.Edited(AFTER_UPDATE, Written(calls))[0] &&
      Trace(calls) == [Event(VALIDATE_UPDATE), Event(BEFORE_UPDATE), Write, Event(AFTER_UPDATE)]
  {
    assert m.AllInstances([obj]);
    UpdateOne(m, db, [obj], NonIdFields(FieldsOf(m.schema, obj.model)));
  }

  /** The write of `save(obj)` with a truthy pk names every field of the model except "id". */
  lemma SaveUpdateFields(m: BulkHookManager, db: Db, obj: Instance)
    requires obj.model in m.family && PkTruthy(obj.pk)
    ensures forall c :: c in m.SaveSpec(db, obj).1 && c.WriteUpdate? ==>
      forall f :: f in FieldsOf(m.schema, obj.model) && f.name != "id" ==> f.name in c.fields
  {
    assert m.AllInstances([obj]);
    var fields := NonIdFields(FieldsOf(m.schema, obj.model));
    BulkUpdateWrites(m, db, [obj], fields, false, false);
    forall f | f in FieldsOf(m.schema, obj.model) && f.name != "id"
      ensures f.name in fields
    {
    }
  }

  /**
   * `save(obj)` with a falsy pk: the create events around one write of `obj`; the result is
   * the base `bulk_create` result for `obj` as the after hooks leave it.
   */
  lemma SaveCreates(m: BulkHookManager, db: Db, obj: Instance)
    requires obj.model in m.family && !PkTruthy(obj.pk)
    ensures var (r, calls) := m.SaveSpec(db, obj);
      r.Ok? && |Written(calls)| == 1 && r.value == db.Edited(AFTER_CREATE, db.Created(Written(calls)))[0] &&
      Trace(calls) == [Event(VALIDATE_CREATE), Event(BEFORE_CREATE), Write, Event(AFTER_CREATE)]
  {
    assert m.AllInstances([obj]);
    BulkCreateOrder(m, db, [obj], false, false);
    BulkCreateWrites(m, db, [obj], false, false);
    var prepared := m.Prelude(db, VALIDATE_CREATE, BEFORE_CREATE, [obj], None, false, false).0;
    assert Chunks(prepared, CHUNK_SIZE) == [prepared];
  }
}
