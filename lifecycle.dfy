/**
 * The decorators of the older `django_bulk_lifecycle` package: `@hook` collects
 * `(model, event, condition, priority)` tuples on `fn.lifecycle_hooks`, and
 * `@select_related(*related_fields)` swaps the first positional argument of a handler call
 * (a list of instances) for the same rows fetched again with their relations preloaded.
 */
module Lifecycle {
  import opened Wrappers
  import opened Records
  import opened Registry
  import Decorators

  /**
   * `hook(event, model=..., condition=..., priority=...)(fn)`: create `fn.lifecycle_hooks` if
   * missing, append one tuple (an omitted priority is `DEFAULT_PRIORITY`), return `fn` itself.
   */
  method Hook(fn: PyFunction, d: Decorators.Decoration) returns (r: PyFunction)
    modifies fn
    ensures r == fn
    ensures fn.lifecycleHooks == Some(old(fn.lifecycleHooks).GetOr([]) + [Decorators.SpecOf(d)])
    ensures fn.hooksHooks == old(fn.hooksHooks) && fn.selectRelatedFields == old(fn.selectRelatedFields)
  {
    if fn.lifecycleHooks.None? {
      fn.lifecycleHooks := Some([]);
    }
    fn.lifecycleHooks := Some(fn.lifecycleHooks.value + [Decorators.SpecOf(d)]);
    r := fn;
  }

  /** One positional argument of a handler call: a Python list of instances, or anything else. */
  datatype PyArg = InstanceList(items: seq<Instance>) | Other(value: Value)

  /** How a wrapper call ends: an exception, or a call of the handler with these positional arguments. */
  datatype Outcome = Raised(error: Error) | Called(args: seq<PyArg>)

  /**
   * `model.objects.select_related(*related_fields).filter(pk__in=ids)` as a list: the storage
   * read, left abstract.
   */
  type Fetch = (ModelId, seq<string>, seq<Option<int>>) -> seq<Instance>

  /**
   * The wrapper `select_related(*related_fields)` puts around a handler, called with the
   * positional arguments `args` (keyword arguments pass through untouched).
   */
  function SelectRelatedCall(relatedFields: seq<string>, args: seq<PyArg>, fetch: Fetch): (r: Outcome)
    ensures r.Raised? ==> r.error == TypeError
  {
    if |args| == 0 then Raised(TypeError)
    else if !args[0].InstanceList? then Raised(TypeError)
    else if args[0].items == [] then Called(args)
    else
      var instances := args[0].items;
      var preloaded := fetch(instances[0].model, relatedFields, PksOf(instances));
      Called([InstanceList(preloaded)] + args[1..])
  }

  /**
   * The wrapper raises `TypeError` exactly when there is no positional argument or the first
   * is not a list. An empty list reaches the handler with the arguments as given. Otherwise
   * the handler gets as many positional arguments, the first replaced by the rows of the
   * first instance's model whose pks are those of the instances, fetched with
   * `related_fields` preloaded, and the others unchanged.
   */
  lemma SelectRelatedFacts(relatedFields: seq<string>, args: seq<PyArg>, fetch: Fetch)
    ensures var r := SelectRelatedCall(relatedFields, args, fetch);
      (r.Raised? <==> |args| == 0 || args[0].Other?) &&
      (|args| > 0 && args[0] == InstanceList([]) ==> r == Called(args)) &&
      (|args| > 0 && args[0].InstanceList? && args[0].items != [] ==>
         r.Called? && |r.args| == |args| && r.args[1..] == args[1..] &&
         r.args[0] == InstanceList(fetch(args[0].items[0].model, relatedFields, PksOf(args[0].items))))
  {
    var r := SelectRelatedCall(relatedFields, args, fetch);
    if |args| > 0 && args[0].InstanceList? && args[0].items != [] {
      assert r.args == [r.args[0]] + args[1..];
    }
  }

  /**
   * A handler that is an instance method gets `self` as its first positional argument, so
   * the wrapper raises `TypeError` for it even when the instances follow.
   */
  lemma SelfFirstRaises(relatedFields: seq<string>, self: Value, instances: seq<Instance>, fetch: Fetch)
    ensures SelectRelatedCall(relatedFields, [Other(self), InstanceList(instances)], fetch) == Raised(TypeError)
  {
  }
}
