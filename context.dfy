/**
 * `django_bulk_hooks.context`: the per-thread `_hook_context` attributes (a lazily created
 * queue and the bulk-operation flag) and the `HookContext` object handed to `engine.run`.
 * One thread's attributes are modelled; `threading.local` itself is not.
 */
module Context {
  import opened Wrappers
  import opened Records

  /** A `collections.deque`: an object whose identity is what `get_hook_queue` preserves. */
  class Deque<T> {
    var items: seq<T>

    constructor ()
      ensures items == []
    {
      items := [];
    }
  }

  /**
   * The attributes of `_hook_context` for one thread. `queue == null` and
   * `inBulkOperation == None` mean the attribute has not been set yet.
   */
  class ThreadState<T> {
    var queue: Deque?<T>
    var inBulkOperation: Option<bool>

    /** A thread that has not touched `_hook_context` yet. */
    constructor ()
      ensures queue == null && inBulkOperation == None
    {
      queue := null;
      inBulkOperation := None;
    }

    /**
     * `get_hook_queue()`: the first call creates an empty deque and stores it; every call
     * returns the stored deque, so later calls return that same object, contents untouched.
     */
    method GetHookQueue() returns (q: Deque<T>)
      modifies this
      ensures queue == q
      ensures old(queue) == null ==> fresh(q) && q.items == []
      ensures old(queue) != null ==> q == old(queue) && q.items == old(queue.items)
      ensures inBulkOperation == old(inBulkOperation)
    {
      if queue == null {
        queue := new Deque();
      }
      q := queue;
    }

    /** `is_in_bulk_operation()`: the stored flag, or `False` while it was never set. */
    function IsInBulkOperation(): (b: bool)
      reads this
      ensures b <==> inBulkOperation == Some(true)
    {
      inBulkOperation.GetOr(false)
    }

    /** `set_bulk_operation_flag(value)`: afterwards `is_in_bulk_operation()` answers `value`. */
    method SetBulkOperationFlag(value: bool)
      modifies this
      ensures IsInBulkOperation() == value
      ensures inBulkOperation == Some(value) && queue == old(queue)
    {
      inBulkOperation := Some(value);
    }
  }

  /**
   * `metadata or {}`: `None` and an empty dict (the falsy values) both give an empty dict, so
   * the result is the given dict whenever there is one and an empty dict otherwise.
   */
  function MetadataOr(metadata: Option<map<string, Value>>): (m: map<string, Value>)
    ensures metadata.Some? ==> m == metadata.value
    ensures metadata.None? ==> m == map[]
  {
    if metadata.None? || metadata.value == map[] then map[] else metadata.value
  }

  /** `HookContext(model_cls, metadata=None)`. */
  class HookContext {
    const modelCls: ModelId
    const metadata: map<string, Value>

    constructor (modelCls: ModelId, metadata: Option<map<string, Value>>)
      ensures this.modelCls == modelCls
      ensures this.metadata == MetadataOr(metadata)
    {
      this.modelCls := modelCls;
      this.metadata := MetadataOr(metadata);
    }
  }

  /** A second `get_hook_queue()` returns the deque the first one created. */
  method GetHookQueueTwice<T>(ts: ThreadState<T>) returns (q1: Deque<T>, q2: Deque<T>)
    modifies ts
    ensures q1 == q2 && q2.items == q1.items
    ensures old(ts.queue) == null ==> fresh(q1) && q2.items == []
  {
    q1 := ts.GetHookQueue();
    q2 := ts.GetHookQueue();
  }
}
