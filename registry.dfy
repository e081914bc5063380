/**
 * What the hook modules share about registrations: handler classes, conditions, the
 * registration tuples and the `register_hook` collaborator (`registry.py` is not part of
 * this model; its `register_hook` is represented by a log of the calls it receives).
 */
module Registry {
  import opened Wrappers
  import opened Records

  /** `Priority.NORMAL`, the documented default priority. */
  const DEFAULT_PRIORITY: int := 50

  /** A condition object; what `condition.check` answers is abstract. */
  datatype Condition = Condition(id: nat)

  /** A Python function object and the attributes the decorators attach to it. */
  class PyFunction {
    const name: string
    var hooksHooks: Option<seq<HookSpec>>
    var lifecycleHooks: Option<seq<HookSpec>>
    var selectRelatedFields: Option<seq<string>>

    constructor (name: string)
      ensures this.name == name
      ensures hooksHooks == None && lifecycleHooks == None && selectRelatedFields == None
    {
      this.name := name;
      hooksHooks := None;
      lifecycleHooks := None;
      selectRelatedFields := None;
    }
  }

  /** A hook handler class; `wraps` is the function a `bulk_hook` FunctionHandler calls. */
  class HandlerClass {
    const name: string
    const wraps: PyFunction?

    constructor (name: string, wraps: PyFunction?)
      ensures this.name == name && this.wraps == wraps
    {
      this.name := name;
      this.wraps := wraps;
    }
  }

  /** One `(model, event, condition, priority)` tuple left on a function by `@hook`. */
  datatype HookSpec = HookSpec(model: ModelId, event: string, condition: Option<Condition>, priority: int)

  /** One `get_hooks` 5-tuple: `(handler, method, condition, priority, select_related_fields)`. */
  datatype Registration = Registration(
    handler: HandlerClass,
    methodName: string,
    condition: Option<Condition>,
    priority: int,
    selectRelated: Option<seq<string>>)

  /** The arguments of one `register_hook` call. */
  datatype RegisterCall = RegisterCall(model: ModelId, event: string, reg: Registration)

  /** The `register_hook` collaborator: it records every call it receives, in order. */
  class RegistryLog {
    var calls: seq<RegisterCall>

    constructor ()
      ensures calls == []
    {
      calls := [];
    }

    method RegisterHook(c: RegisterCall)
      modifies this
      ensures calls == old(calls) + [c]
    {
      calls := calls + [c];
    }
  }
}
