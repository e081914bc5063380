/**
 * `HookQuerySet`: `delete()` and `update(**kwargs)` on a queryset, with hook events around
 * the storage call. The queryset's contents (`list(self)`) are fixed when it is built; its
 * model's default manager `objects` is a `BulkHookManager`.
 */
module QuerySet {
  import opened Wrappers
  import opened Records
  import opened HookState
  import opened Context
  import opened Backend
  import opened Manager

  /** A Python return value that is either an integer or a list of objects. */
  datatype Returned = Count(n: nat) | Objects(objs: seq<Instance>)

  /** `originals` as `engine.run` receives them: a plain list, every entry present. */
  function Present(xs: seq<Instance>): (r: seq<Option<Instance>>)
    ensures |r| == |xs| && forall i :: 0 <= i < |xs| ==> r[i] == Some(xs[i])
  {
    if xs == [] then [] else [Some(xs[0])] + Present(xs[1..])
  }

  class HookQuerySet {
    /** `self.model.objects`; `objects.model` is `self.model`. */
    const objects: BulkHookManager
    /** `list(self)`: the objects the queryset yields. */
    const rows: seq<Instance>

    constructor (objects: BulkHookManager, rows: seq<Instance>)
      ensures this.objects == objects && this.rows == rows
    {
      this.objects := objects;
      this.rows := rows;
    }

    /** `delete()`: 0 for an empty queryset, otherwise what `objects.bulk_delete(objs)` returns. */
    function DeleteSpec(db: Db): (Result<Returned>, seq<Call>) {
      if rows == [] then (Ok(Count(0)), [])
      else
        var (r, calls) := objects.BulkDeleteSpec(db, rows, false, false);
        (if r.Err? then Err(r.error) else Ok(Objects(r.value)), calls)
    }

    method Delete(db: Db) returns (r: Result<Returned>)
      modifies db
      ensures r == DeleteSpec(db).0
      ensures db.log == old(db.log) + DeleteSpec(db).1
    {
      if rows == [] {
        return Ok(Count(0));
      }
      var res := objects.BulkDelete(db, rows, false, false);
      if res.Err? {
        return Err(res.error);
      }
      return Ok(Objects(res.value));
    }

    /** `originals`: the stored rows whose pk is among the queryset's pks, in query order. */
    function Originals(db: Db): (r: seq<Instance>) {
      db.Filter(objects.model, PksOf(rows))
    }

    /**
     * `update(**kwargs)`: for a non-empty queryset, before_update on the updated objects, the
     * storage update (with the bulk-operation flag set), then after_update on the objects as
     * the before hooks left them, unless the storage update raised. The result is the count
     * the storage update reports.
     */
    function UpdateSpec(db: Db, kwargs: Kwargs): (Result<nat>, seq<Call>) {
      if rows == [] then (Ok(0), [])
      else
        var model := objects.model;
        var pks := PksOf(rows);
        var olds := Some(Present(Originals(db)));
        var updated := SetAttrsAll(rows, kwargs);
        var before := Call.Run(model, BEFORE_UPDATE, updated, olds);
        var write := Call.UpdateRows(model, pks, kwargs, true);
        var count := db.updated(model, pks, kwargs);
        if count.Err? then (Err(count.error), [before, write])
        else (Ok(count.value), [before, write, Call.Run(model, AFTER_UPDATE, db.Edited(BEFORE_UPDATE, updated), olds)])
    }

    method Update<T>(db: Db, ts: ThreadState<T>, kwargs: Kwargs) returns (r: Result<nat>)
      modifies db, ts
      ensures r == UpdateSpec(db, kwargs).0
      ensures db.log == old(db.log) + UpdateSpec(db, kwargs).1
      ensures rows != [] ==> ts.inBulkOperation == Some(false)
      ensures rows == [] ==> ts.inBulkOperation == old(ts.inBulkOperation)
      ensures ts.queue == old(ts.queue)
    {
      var instances := rows;
      if instances == [] {
        return Ok(0);
      }
      var model := objects.model;
      var pks := PksOf(instances);
      var originals := db.Filter(model, pks);
      instances := SetKeywords(instances, kwargs);
      instances := db.Run(model, BEFORE_UPDATE, instances, Some(Present(originals)));
      ts.SetBulkOperationFlag(true);
      var count := db.UpdateRows(ts, model, pks, kwargs);
      ts.SetBulkOperationFlag(false);
      if count.Err? {
        return Err(count.error);
      }
      instances := db.Run(model, AFTER_UPDATE, instances, Some(Present(originals)));
      return Ok(count.value);
    }
  }

  /**
   * The loops of `update`: for each object, in order, every keyword in keyword order; each
   * object ends up with exactly what `SetAttrs` gives it.
   */
  method SetKeywords(objs: seq<Instance>, kwargs: Kwargs) returns (instances: seq<Instance>)
    ensures instances == SetAttrsAll(objs, kwargs)
  {
    instances := objs;
    var i := 0;
    while i < |instances|
      invariant 0 <= i <= |instances| && |instances| == |objs|
      invariant forall j :: 0 <= j < i ==> instances[j] == SetAttrs(objs[j], kwargs)
      invariant forall j :: i <= j < |instances| ==> instances[j] == objs[j]
    {
      var obj := instances[i];
      var k := 0;
      while k < |kwargs|
        invariant 0 <= k <= |kwargs|
        invariant obj == SetAttrs(objs[i], kwargs[..k])
      {
        var (field, value) := kwargs[k];
        assert kwargs[..k + 1][..k] == kwargs[..k];
        obj := SetAttr(obj, field, value);
        k := k + 1;
      }
      assert kwargs[..k] == kwargs;
      instances := instances[i := obj];
      i := i + 1;
    }
  }

  /**
   * `delete()` on a queryset: nothing happens when it is empty (result 0); otherwise its
   * objects go through `bulk_delete` with both hook phases around a single delete, and the
   * objects come back.
   */
  lemma QuerySetDeleteFacts(qs: HookQuerySet, db: Db)
    ensures qs.rows == [] ==> qs.DeleteSpec(db) == (Ok(Count(0)), [])
    ensures qs.rows != [] && qs.objects.AllInstances(qs.rows) ==>
      var (r, calls) := qs.DeleteSpec(db);
      r.Ok? && r.value.Objects? && |r.value.objs| == |qs.rows| &&
      Trace(calls) == [Event(VALIDATE_DELETE), Event(BEFORE_DELETE), Delete, Event(AFTER_DELETE)]
  {
    if qs.rows != [] && qs.objects.AllInstances(qs.rows) {
      BulkDeleteOrder(qs.objects, db, qs.rows, false, false);
    }
  }

  /**
   * The single delete of `delete()` on a non-empty queryset is on the queryset's model and
   * removes exactly the non-null pks of its objects as the before hooks leave them.
   */
  lemma QuerySetDeletePks(qs: HookQuerySet, db: Db)
    requires qs.rows != [] && qs.objects.AllInstances(qs.rows)
    ensures var prepared := qs.objects.Prelude(db, VALIDATE_DELETE, BEFORE_DELETE, qs.rows, None, false, false).0;
      forall c :: c in qs.DeleteSpec(db).1 && c.DeleteRows? ==>
        c.model == qs.objects.model && forall p :: p in c.deleted <==> exists x :: x in prepared && x.pk == Some(p)
  {
    BulkDeletePks(qs.objects, db, qs.rows, false, false);
  }

  /**
   * `update(**kwargs)` on a non-empty queryset: before_update, the storage update, then
   * after_update unless the storage update raised; the storage update sees the
   * bulk-operation flag set and the queryset's pks; both hook runs get the same originals,
   * the before run gets every object with every keyword set to its value, the after run the
   * same objects as the before hooks left them; the result is the storage update's count.
   */
  lemma QuerySetUpdateOrder(qs: HookQuerySet, db: Db, kwargs: Kwargs)
    requires qs.rows != []
    ensures var (r, calls) := qs.UpdateSpec(db, kwargs);
      var model := qs.objects.model;
      var count := db.updated(model, PksOf(qs.rows), kwargs);
      (r.Ok? <==> count.Ok?) && (r.Ok? ==> r.value == count.value) && (r.Err? ==> r.error == count.error) &&
      Trace(calls) == [Event(BEFORE_UPDATE), StorageUpdate] + (if count.Ok? then [Event(AFTER_UPDATE)] else []) &&
      calls[1] == Call.UpdateRows(model, PksOf(qs.rows), kwargs, true) &&
      (forall c :: c in calls && c.Run? ==> c.model == model && c.olds == Some(Present(qs.Originals(db)))) &&
      (forall j, n :: 0 <= j < |qs.rows| && KwLookup(kwargs, n).Some? ==>
         n in calls[0].news[j].attrs && calls[0].news[j].attrs[n] == KwLookup(kwargs, n).value) &&
      (count.Ok? ==> calls[2].news == db.Edited(BEFORE_UPDATE, calls[0].news))
  {
    var (r, calls) := qs.UpdateSpec(db, kwargs);
    var updated := SetAttrsAll(qs.rows, kwargs);
    assert calls[0].news == updated;
    forall j, n | 0 <= j < |qs.rows| && KwLookup(kwargs, n).Some?
      ensures n in updated[j].attrs && updated[j].attrs[n] == KwLookup(kwargs, n).value
    {
      SetAttrsMeaning(qs.rows[j], kwargs);
    }
    var count := db.updated(qs.objects.model, PksOf(qs.rows), kwargs);
    if count.Ok? {
      assert calls[1..][1..][1..] == [];
      assert Trace(calls[1..][1..]) == [Event(AFTER_UPDATE)] + Trace(calls[1..][1..][1..]);
    } else {
      assert calls[1..][1..] == [];
    }
    assert Trace(calls[1..]) == [StorageUpdate] + Trace(calls[1..][1..]);
  }

  /**
   * `update(**kwargs)` as written, on the objects `rows` of `model`, with `stack` the calls
   * Python's recursion limit still allows. Its storage update,
   * `self.model.objects.filter(pk__in=pks).update(**kwargs)`, goes through a
   * `BulkHookManager`, whose querysets are `HookQuerySet`s: it is this same method again, on
   * the stored rows with those pks. The bulk-operation flag is read nowhere on that path.
   */
  function UpdateAsWritten(db: Db, model: ModelId, rows: seq<Instance>, kwargs: Kwargs, stack: nat): (r: (Result<nat>, seq<Call>))
    decreases stack
  {
    if stack == 0 then (Err(RecursionError), [])
    else if rows == [] then (Ok(0), [])
    else
      var pks := PksOf(rows);
      var olds := Some(Present(db.Filter(model, pks)));
      var updated := SetAttrsAll(rows, kwargs);
      var before := [Call.Run(model, BEFORE_UPDATE, updated, olds)];
      var inner := UpdateAsWritten(db, model, db.Filter(model, pks), kwargs, stack - 1);
      if inner.0.Err? then (inner.0, before + inner.1)
      else (inner.0, before + inner.1 + [Call.Run(model, AFTER_UPDATE, db.Edited(BEFORE_UPDATE, updated), olds)])
  }

  /** The queryset holds a stored row of `model` (`list(self)` reads rows from the database). */
  predicate HoldsStored(db: Db, model: ModelId, rows: seq<Instance>) {
    exists x :: x in rows && x in db.rows(model) && x.pk.Some?
  }

  /** A stored row of the queryset is among the rows the storage update's `filter` reads again. */
  lemma RefetchHoldsStored(db: Db, model: ModelId, rows: seq<Instance>)
    requires HoldsStored(db, model, rows)
    ensures HoldsStored(db, model, db.Filter(model, PksOf(rows)))
  {
    var x :| x in rows && x in db.rows(model) && x.pk.Some?;
    var i :| 0 <= i < |rows| && rows[i] == x;
    assert PksOf(rows)[i] == x.pk;
    assert x in db.Filter(model, PksOf(rows));
  }

  /** An outcome of the as-written `update` after `n` levels: RecursionError, with one before_update run per level and nothing else. */
  predicate RaisedAfterBeforeRuns(r: (Result<nat>, seq<Call>), n: nat) {
    r.0 == Err(RecursionError) && |r.1| == n &&
    forall i :: 0 <= i < |r.1| ==> r.1[i].Run? && r.1[i].event == BEFORE_UPDATE
  }

  /** One level of the as-written `update` adds its before_update run in front of the re-entry's outcome. */
  lemma UpdateAsWrittenLevel(db: Db, model: ModelId, rows: seq<Instance>, kwargs: Kwargs, stack: nat)
    requires stack > 0 && rows != []
    requires RaisedAfterBeforeRuns(UpdateAsWritten(db, model, db.Filter(model, PksOf(rows)), kwargs, stack - 1), stack - 1)
    ensures RaisedAfterBeforeRuns(UpdateAsWritten(db, model, rows, kwargs, stack), stack)
  {
    var stored := db.Filter(model, PksOf(rows));
    var inner := UpdateAsWritten(db, model, stored, kwargs, stack - 1);
    var before := Call.Run(model, BEFORE_UPDATE, SetAttrsAll(rows, kwargs), Some(Present(stored)));
    var calls := [before] + inner.1;
    assert UpdateAsWritten(db, model, rows, kwargs, stack) == (inner.0, calls);
    forall i | 0 <= i < |calls|
      ensures calls[i].Run? && calls[i].event == BEFORE_UPDATE
    {
      if i > 0 {
        assert calls[i] == inner.1[i - 1];
      }
    }
  }

  /**
   * As written, `update(**kwargs)` on a queryset that holds a stored row never returns a
   * count: whatever the recursion limit, every level runs before_update and re-enters, the
   * call raises `RecursionError`, and no after_update runs and no storage update is made.
   */
  lemma {:induction false} UpdateAsWrittenNeverReturns(db: Db, model: ModelId, rows: seq<Instance>, kwargs: Kwargs, stack: nat)
    requires HoldsStored(db, model, rows)
    ensures RaisedAfterBeforeRuns(UpdateAsWritten(db, model, rows, kwargs, stack), stack)
    decreases stack
  {
    if stack > 0 {
      assert rows != [];
      RefetchHoldsStored(db, model, rows);
      UpdateAsWrittenNeverReturns(db, model, db.Filter(model, PksOf(rows)), kwargs, stack - 1);
      UpdateAsWrittenLevel(db, model, rows, kwargs, stack);
    }
  }
}
