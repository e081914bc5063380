/**
 * The per-thread hook context (`HookVars`) and the read-only view hooks get of it
 * (`HookContextState`: `is_before`, `is_after`, `is_create`, `is_update`).
 */
module HookState {
  import opened Wrappers
  import opened Text
  import opened Records

  /** An element of a record list handed to hooks; `None` pads a short `old_records`. */
  type Item = Option<Instance>

  /** The lifecycle events. */
  const VALIDATE_CREATE: string := "validate_create"
  const VALIDATE_UPDATE: string := "validate_update"
  const VALIDATE_DELETE: string := "validate_delete"
  const BEFORE_CREATE: string := "before_create"
  const AFTER_CREATE: string := "after_create"
  const BEFORE_UPDATE: string := "before_update"
  const AFTER_UPDATE: string := "after_update"
  const BEFORE_DELETE: string := "before_delete"
  const AFTER_DELETE: string := "after_delete"

  /** `hook_vars`: what is being dispatched right now on this thread, and the nesting depth. */
  datatype HookVars = HookVars(
    news: Option<seq<Item>>,
    olds: Option<seq<Item>>,
    event: Option<string>,
    model: Option<ModelId>,
    depth: int)

  /** The state `HookVars()` starts in, and the one `_process` leaves behind (with its depth). */
  function Cleared(depth: int): (r: HookVars) {
    HookVars(None, None, None, None, depth)
  }

  /** Python truthiness of `hook_vars.event`: `None` and the empty string are false. */
  predicate EventSet(v: HookVars) {
    v.event.Some? && v.event.value != ""
  }

  predicate IsBefore(v: HookVars) {
    if EventSet(v) then StartsWith(v.event.value, "before_") else false
  }

  predicate IsAfter(v: HookVars) {
    if EventSet(v) then StartsWith(v.event.value, "after_") else false
  }

  predicate IsCreate(v: HookVars) {
    if EventSet(v) then Contains(v.event.value, "create") else false
  }

  predicate IsUpdate(v: HookVars) {
    if EventSet(v) then Contains(v.event.value, "update") else false
  }

  /** With no event set, all four context predicates are false. */
  lemma NoEventNoFlags(v: HookVars)
    requires v.event == None
    ensures !IsBefore(v) && !IsAfter(v) && !IsCreate(v) && !IsUpdate(v)
  {
  }

  /** `is_before` and `is_after` never hold together, whatever the event string is. */
  lemma BeforeAfterExclusive(v: HookVars)
    ensures !(IsBefore(v) && IsAfter(v))
  {
    if IsBefore(v) {
      assert v.event.value[..7] == "before_";
      MismatchNotStartsWith(v.event.value, "after_", 0);
    }
  }

  function Dispatching(event: string): (r: HookVars) {
    HookVars(None, None, Some(event), None, 1)
  }

  /**
   * The phase of an event is read off its prefix: `before_` events are "before",
   * `after_` events "after", and `validate_` events neither.
   */
  lemma PhaseOfEvent(x: string)
    ensures IsBefore(Dispatching("before_" + x)) && !IsAfter(Dispatching("before_" + x))
    ensures IsAfter(Dispatching("after_" + x)) && !IsBefore(Dispatching("after_" + x))
    ensures !IsBefore(Dispatching("validate_" + x)) && !IsAfter(Dispatching("validate_" + x))
  {
    assert ("before_" + x)[..7] == "before_";
    assert ("after_" + x)[..6] == "after_";
    MismatchNotStartsWith("before_" + x, "after_", 0);
    MismatchNotStartsWith("after_" + x, "before_", 0);
    MismatchNotStartsWith("validate_" + x, "before_", 0);
    MismatchNotStartsWith("validate_" + x, "after_", 0);
  }

  /**
   * The kind of an event is read off its name: after a prefix such as `before_`,
   * `after_` or `validate_`, "create" events are create and not update, "update" events
   * update and not create, and "delete" events neither.
   */
  lemma KindOfEvent(p: string)
    requires 'c' !in p && 'u' !in p
    ensures IsCreate(Dispatching(p + "create")) && !IsUpdate(Dispatching(p + "create"))
    ensures IsUpdate(Dispatching(p + "update")) && !IsCreate(Dispatching(p + "update"))
    ensures !IsCreate(Dispatching(p + "delete")) && !IsUpdate(Dispatching(p + "delete"))
  {
    WordAfter(p, "create");
    WordAfter(p, "update");
    NoWordAfter(p, "create", "update");
    NoWordAfter(p, "update", "create");
    NoWordAfter(p, "delete", "create");
    NoWordAfter(p, "delete", "update");
  }

  /** A word is contained in any string that ends with it. */
  lemma WordAfter(p: string, w: string)
    ensures Contains(p + w, w)
  {
    assert (p + w)[|p|..|p| + |w|] == w;
    ContainsAt(p + w, w, |p|);
  }

  /** A word whose first character occurs neither in `p` nor in `w` is not in `p + w`. */
  lemma NoWordAfter(p: string, w: string, t: string)
    requires t != [] && t[0] !in p && t[0] !in w
    ensures !Contains(p + w, t)
  {
    forall i | 0 <= i < |p + w|
      ensures (p + w)[i] != t[0]
    {
      if i < |p| {
        assert (p + w)[i] == p[i];
      } else {
        assert (p + w)[i] == w[i - |p|];
      }
    }
    NotContainsMissingChar(p + w, t);
  }
}
