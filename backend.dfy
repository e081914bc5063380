/**
 * The collaborators the mutation orchestrators call but that are not part of this model:
 * `engine.run` (which runs the registered hooks) and the database behind Django's
 * managers and querysets. `Db` records every call it receives, in order, in `log`, and
 * answers reads and writes from fixed, abstract functions.
 */
module Backend {
  import opened Wrappers
  import opened Records
  import opened Context

  /** Keyword arguments, in the order the caller wrote them (a Python dict keeps that order). */
  type Kwargs = seq<(string, Value)>

  /** One observable call, in the order the orchestrator makes it. */
  datatype Call =
    /** `engine.run(model, event, new_records, old_records)`; `olds == None` when none is passed. */
    | Run(model: ModelId, event: string, news: seq<Instance>, olds: Option<seq<Option<Instance>>>)
    /** The base manager's `bulk_update(chunk, fields)`. */
    | WriteUpdate(chunk: seq<Instance>, fields: set<string>)
    /** The base manager's `bulk_create(chunk)`. */
    | WriteCreate(chunk: seq<Instance>)
    /** `_base_manager.filter(pk__in=pks).delete()`. */
    | DeleteRows(model: ModelId, deleted: seq<int>)
    /** `objects.filter(pk__in=pks).update(**kwargs)`, with the bulk-operation flag it saw. */
    | UpdateRows(model: ModelId, pks: seq<Option<int>>, kwargs: Kwargs, inBulkOperation: bool)
    /** `obj.save()` of a new row; `row` is the row as stored, with its key. */
    | SaveRow(row: Instance)
    /** `_batched_insert` of the child rows of one batch. */
    | InsertRows(rows: seq<Instance>)

  class Db {
    /** Every call received so far. */
    var log: seq<Call>
    /** The next primary key the database hands out on `save()`. */
    var nextPk: int
    /** What a query on a model returns (`Model.objects.all()`), in the order returned. */
    const rows: ModelId -> seq<Instance>
    /** What the hooks run for `event` leave of one object they were given. */
    const edit: (string, Instance) -> Instance
    /** An object as the base `bulk_create` leaves it. */
    const insert: Instance -> Instance
    /** What `filter(pk__in=pks).update(**kwargs)` reports: a row count, or the exception it raises. */
    const updated: (ModelId, seq<Option<int>>, Kwargs) -> Result<nat>
    /**
     * The primary key a child row that had none reads after `_batched_insert` (from the
     * returned columns, or `None` where the backend returns none).
     */
    const insertedPk: Instance -> Option<int>
    /** The alias of the database in use (`self.db`). */
    const alias: string

    constructor (rows: ModelId -> seq<Instance>, edit: (string, Instance) -> Instance, insert: Instance -> Instance,
                 updated: (ModelId, seq<Option<int>>, Kwargs) -> Result<nat>, insertedPk: Instance -> Option<int>,
                 alias: string, nextPk: int)
      ensures log == [] && this.nextPk == nextPk
      ensures this.rows == rows && this.edit == edit && this.insert == insert && this.updated == updated
      ensures this.insertedPk == insertedPk && this.alias == alias
    {
      log := [];
      this.nextPk := nextPk;
      this.rows := rows;
      this.edit := edit;
      this.insert := insert;
      this.updated := updated;
      this.insertedPk := insertedPk;
      this.alias := alias;
    }

    /** The objects given to the hooks for `event`, after the hooks have run. */
    function Edited(event: string, xs: seq<Instance>): (r: seq<Instance>)
      ensures |r| == |xs|
      ensures forall i :: 0 <= i < |xs| ==> r[i] == edit(event, xs[i])
    {
      if xs == [] then [] else [edit(event, xs[0])] + Edited(event, xs[1..])
    }

    /** The objects the base `bulk_create` returns for a chunk: the same objects, as it leaves them. */
    function Created(chunk: seq<Instance>): (r: seq<Instance>)
      ensures |r| == |chunk|
      ensures forall i :: 0 <= i < |chunk| ==> r[i] == insert(chunk[i])
    {
      if chunk == [] then [] else [insert(chunk[0])] + Created(chunk[1..])
    }

    /** `model.objects.filter(pk__in=pks)`: the stored rows whose pk is one of `pks`, in query order. */
    function Filter(model: ModelId, pks: seq<Option<int>>): (r: seq<Instance>)
      ensures forall x :: x in r <==> x in rows(model) && x.pk.Some? && x.pk in pks
    {
      FilterRows(rows(model), pks)
    }

    method Run(model: ModelId, event: string, news: seq<Instance>, olds: Option<seq<Option<Instance>>>) returns (edited: seq<Instance>)
      modifies this
      ensures log == old(log) + [Call.Run(model, event, news, olds)] && nextPk == old(nextPk)
      ensures edited == Edited(event, news)
    {
      log := log + [Call.Run(model, event, news, olds)];
      edited := Edited(event, news);
    }

    method WriteUpdate(chunk: seq<Instance>, fields: set<string>)
      modifies this
      ensures log == old(log) + [Call.WriteUpdate(chunk, fields)] && nextPk == old(nextPk)
    {
      log := log + [Call.WriteUpdate(chunk, fields)];
    }

    method WriteCreate(chunk: seq<Instance>) returns (created: seq<Instance>)
      modifies this
      ensures log == old(log) + [Call.WriteCreate(chunk)] && nextPk == old(nextPk)
      ensures created == Created(chunk)
    {
      log := log + [Call.WriteCreate(chunk)];
      created := Created(chunk);
    }

    method DeleteRows(model: ModelId, pks: seq<int>)
      modifies this
      ensures log == old(log) + [Call.DeleteRows(model, pks)] && nextPk == old(nextPk)
    {
      log := log + [Call.DeleteRows(model, pks)];
    }

    /** The storage update; it reads the thread's bulk-operation flag as it runs. */
    method UpdateRows<T>(ts: ThreadState<T>, model: ModelId, pks: seq<Option<int>>, kwargs: Kwargs) returns (r: Result<nat>)
      modifies this
      ensures log == old(log) + [Call.UpdateRows(model, pks, kwargs, ts.IsInBulkOperation())] && nextPk == old(nextPk)
      ensures r == updated(model, pks, kwargs)
    {
      log := log + [Call.UpdateRows(model, pks, kwargs, ts.IsInBulkOperation())];
      r := updated(model, pks, kwargs);
    }

    /**
     * `obj.save()` of a new row: a row without a pk takes the next key the database hands
     * out, a row whose pk is already set keeps it and draws none; the log holds the row as stored.
     */
    method SaveRow(x: Instance) returns (saved: Instance)
      modifies this
      ensures log == old(log) + [Call.SaveRow(Saved(x, old(nextPk), alias))]
      ensures nextPk == old(nextPk) + (if x.pk.None? then 1 else 0)
      ensures saved == Saved(x, old(nextPk), alias)
    {
      saved := Saved(x, nextPk, alias);
      log := log + [Call.SaveRow(saved)];
      if x.pk.None? {
        nextPk := nextPk + 1;
      }
    }

    /**
     * `_prepare_for_bulk_create` and the `_batched_insert` calls of `_process_batch`: the rows
     * that have a pk go in first, in one call, then the rows without one, in another; a group
     * that is empty makes no call. The rows come back in their own order, each with the pk it
     * reads afterwards.
     */
    method InsertBatch(children: seq<Instance>) returns (inserted: seq<Instance>)
      modifies this
      ensures log == old(log) + InsertCalls(children) && nextPk == old(nextPk)
      ensures inserted == WithInsertedPks(children, insertedPk)
    {
      var withPk, withoutPk := WithPk(children), WithoutPk(children);
      if withPk != [] {
        log := log + [Call.InsertRows(withPk)];
      }
      if withoutPk != [] {
        log := log + [Call.InsertRows(withoutPk)];
      }
      inserted := WithInsertedPks(children, insertedPk);
    }
  }

  function FilterRows(xs: seq<Instance>, pks: seq<Option<int>>): (r: seq<Instance>)
    ensures forall x :: x in r <==> x in xs && x.pk.Some? && x.pk in pks
  {
    if xs == [] then []
    else (if xs[0].pk.Some? && xs[0].pk in pks then [xs[0]] else []) + FilterRows(xs[1..], pks)
  }

  /** A row after `save()`: it has a primary key (a fresh one if it had none) and is stored in `alias`. */
  function Saved(x: Instance, pk: int, alias: string): (y: Instance)
    ensures y.pk.Some? && (x.pk.Some? ==> y.pk == x.pk) && (x.pk.None? ==> y.pk == Some(pk))
    ensures !y.adding && y.db == Some(alias)
    ensures y.model == x.model && y.attrs == x.attrs && y.cache == x.cache
  {
    x.(pk := if x.pk.Some? then x.pk else Some(pk), adding := false, db := Some(alias))
  }

  /** The rows of `children` that have a pk (`objs_with_pk`), in order. */
  function WithPk(children: seq<Instance>): (r: seq<Instance>)
    ensures forall x :: x in r <==> x in children && x.pk.Some?
  {
    if children == [] then []
    else (if children[0].pk.Some? then [children[0]] else []) + WithPk(children[1..])
  }

  /** The rows of `children` without a pk (`objs_without_pk`), in order. */
  function WithoutPk(children: seq<Instance>): (r: seq<Instance>)
    ensures forall x :: x in r <==> x in children && x.pk.None?
  {
    if children == [] then []
    else (if children[0].pk.None? then [children[0]] else []) + WithoutPk(children[1..])
  }

  /** The `_batched_insert` calls for `children`: those with a pk, then those without, each group only if it is not empty. */
  function InsertCalls(children: seq<Instance>): (r: seq<Call>) {
    GroupCalls(WithPk(children), WithoutPk(children))
  }

  /** One `_batched_insert` call for the group `a`, then one for `b`, each only if it is not empty. */
  function GroupCalls(a: seq<Instance>, b: seq<Instance>): (r: seq<Call>) {
    (if a != [] then [Call.InsertRows(a)] else []) + (if b != [] then [Call.InsertRows(b)] else [])
  }

  /** The two groups split the rows: every row goes into exactly one of them, as often as it occurs. */
  lemma {:induction false} PkSplit(children: seq<Instance>)
    ensures multiset(WithPk(children)) + multiset(WithoutPk(children)) == multiset(children)
  {
    if children != [] {
      PkSplit(children[1..]);
      assert children == [children[0]] + children[1..];
    }
  }

  /**
   * The rows of a batch go in with one or two `_batched_insert` calls, none when there is no
   * row; each call inserts a non-empty group, every row having a pk in the first call or
   * none in the last, and together they insert each row once.
   */
  lemma InsertCallsFacts(children: seq<Instance>)
    ensures var calls := InsertCalls(children);
      |calls| <= 2 && (calls == [] <==> children == []) &&
      (forall t :: 0 <= t < |calls| ==> calls[t].InsertRows? && calls[t].rows != []) &&
      (calls != [] ==> (forall x :: x in calls[0].rows ==> x.pk.Some?) || (forall x :: x in calls[0].rows ==> x.pk.None?)) &&
      (|calls| == 2 ==> (forall x :: x in calls[0].rows ==> x.pk.Some?) && (forall x :: x in calls[1].rows ==> x.pk.None?)) &&
      multiset(if calls == [] then [] else if |calls| == 1 then calls[0].rows else calls[0].rows + calls[1].rows) == multiset(children)
  {
    var a, b := WithPk(children), WithoutPk(children);
    PkSplit(children);
    assert children == [] <==> a == [] && b == [] by {
      if children != [] {
        assert children[0] in a || children[0] in b;
      }
    }
    GroupCallsFacts(a, b, children);
  }

  /** `InsertCallsFacts` for the calls of two groups `a` (rows with a pk) and `b` (rows without) of `children`. */
  lemma GroupCallsFacts(a: seq<Instance>, b: seq<Instance>, children: seq<Instance>)
    requires (forall x :: x in a ==> x.pk.Some?) && (forall x :: x in b ==> x.pk.None?)
    requires multiset(a) + multiset(b) == multiset(children)
    requires children == [] <==> a == [] && b == []
    ensures var calls := GroupCalls(a, b);
      |calls| <= 2 && (calls == [] <==> children == []) &&
      (forall t :: 0 <= t < |calls| ==> calls[t].InsertRows? && calls[t].rows != []) &&
      (calls != [] ==> (forall x :: x in calls[0].rows ==> x.pk.Some?) || (forall x :: x in calls[0].rows ==> x.pk.None?)) &&
      (|calls| == 2 ==> (forall x :: x in calls[0].rows ==> x.pk.Some?) && (forall x :: x in calls[1].rows ==> x.pk.None?)) &&
      multiset(if calls == [] then [] else if |calls| == 1 then calls[0].rows else calls[0].rows + calls[1].rows) == multiset(children)
  {
    if a != [] && b != [] {
      assert GroupCalls(a, b) == [Call.InsertRows(a), Call.InsertRows(b)];
    } else if a != [] {
      assert GroupCalls(a, b) == [Call.InsertRows(a)];
      assert multiset(b) == multiset{};
    } else if b != [] {
      assert GroupCalls(a, b) == [Call.InsertRows(b)];
      assert multiset(a) == multiset{};
    }
  }

  /** The pk a child row reads after the insert: its own if it had one (the insert leaves it), else the one the database gives it. */
  function InsertedPk(child: Instance, insertedPk: Instance -> Option<int>): (r: Option<int>) {
    if child.pk.Some? then child.pk else insertedPk(child)
  }

  function WithInsertedPks(children: seq<Instance>, insertedPk: Instance -> Option<int>): (r: seq<Instance>)
    ensures |r| == |children|
    ensures forall i :: 0 <= i < |children| ==> r[i] == children[i].(pk := InsertedPk(children[i], insertedPk))
  {
    seq(|children|, i requires 0 <= i < |children| => children[i].(pk := InsertedPk(children[i], insertedPk)))
  }
}
