# django-bulk-hooks, modelled in Dafny

django-bulk-hooks adds lifecycle hooks to Django's bulk operations. Handler classes declare
methods decorated with `@hook(event, model=..., condition=..., priority=...)`. A metaclass
registers every decorated method once. The bulk manager and queryset methods (`bulk_update`,
`bulk_create`, `bulk_delete`, `update`, `delete`, `save`) fire `validate_*`, `before_*` and
`after_*` events around the database writes. `HookHandler.handle` dispatches one event to
the registered handler methods of the model:
- it runs them in ascending priority;
- it skips a method whose condition holds for no `(new, old)` pair;
- it logs and swallows any exception a method raises;
- for an `after_*` event inside an atomic block, it leaves the whole loop for `on_commit`.

The project models one thread of this engine:

- `hook_state.dfy`: the hook context `hook_vars` and the four predicates `is_before`,
  `is_after`, `is_create` and `is_update` of `HookContextState`.
- `dispatch_spec.dfy`: what `handle` and `_process` do, as mutually recursive functions over
  the dispatch state. That state is the queue, the context, the log of handler calls and the
  callbacks left for `on_commit`.
- `handler.dfy`:
  - the `HookHandler` class, whose methods are proved against those functions;
  - the `HookMeta` registration step, a loop over the class body proved against a fold.
- `context.dfy`: the second per-thread queue, the bulk-operation flag and `HookContext`.
- `decorators.dfy`: `@hook` and `@select_related`, and `@bulk_hook` of `django_bulk_hooks`.
  The `select_related` wrapper is modelled on an array of records that it changes in place.
- `lifecycle.dfy`: the older `django_bulk_lifecycle` decorators.
- `manager.dfy`: `BulkHookManager`, with one method per operation. Each method is proved
  against a specification function that gives its result and every call it makes, in order.
  Lemmas state the event order, the chunking, the alignment of originals by pk, and the
  detection of modified fields.
- `queryset.dfy`: `HookQuerySet.delete` and `HookQuerySet.update`, and the as-written
  `update` that re-enters itself.
- `multi_table.dfy`: `MultiTableBulkCreateManager`. Parents are saved one at a time to get
  their keys; a parent linked to the one before through its primary-key parent link takes
  that one's key instead. Then the child rows go in batched inserts, the rows with a pk first. It also covers the inheritance
  chain and the two instance builders.
- `records.dfy`, `registry.dfy`, `backend.dfy`, `batching.dfy`, `text.dfy`, `wrappers.dfy`:
  the supporting pieces.
  - Instances and model metadata.
  - Registration tuples and the `register_hook` collaborator, a log of the calls it receives.
  - The storage and `engine.run` collaborator `Db`. It records every call and answers from
    fixed, abstract functions.
  - The `range(0, n, size)` slicing loop.
  - `str.startswith` and `in`.

Several collaborators are not part of this model: `registry.py`, `conditions.py`,
`engine.py`, `priority.py`, `enums.py` and Django itself. They appear as follows:
- `get_hooks` is a function from `(model, event)` to registration 5-tuples.
- `condition.check` is an abstract function that answers or raises.
- `_apply_select_related` is an abstract function that returns the preloaded records or
  raises, and `handler_cls()` with `getattr(handler, method_name)` is an abstract test that
  succeeds or raises. These run outside the `try`, so their exceptions leave `_execute`.
- A handler method is abstract: it reports which nested `handle` calls it makes and whether
  it raises.
- `engine.run` and the database calls are entries appended to a call log.
- `conn.in_atomic_block` is a boolean input.

Where the documentation and the code disagree, the model follows the code:
- A `handle` issued from inside a hook does not wait for the outermost `handle`. The outer
  call popped its entry before processing it, so the inner call finds an empty queue and
  drains it at once.
- An exception raised by a handler method never propagates; it is logged and swallowed.
- A priority sorts ascending: the lowest value runs first.
- The manager's `update` and `delete` return object counts; `bulk_update` and
  `bulk_delete` return the list.
- The legacy `select_related` wrapper inspects `args[0]`. For an instance-method handler
  that is `self`, so the wrapper raises `TypeError` (`Lifecycle.SelfFirstRaises`).
- The `update` of `HookQuerySet` sets the bulk-operation flag, but nothing in the modelled
  code reads it.
- The multi-table `bulk_create` raises ValueError for a chain of three or more models, as
  the code does (see Findings); the model carries that error to the caller.

## Model

| member | source | states |
|---|---|---|
| HookState.NoEventNoFlags | django_bulk_hooks/handler.py:36-50 | with no event set, `is_before`, `is_after`, `is_create` and `is_update` are all false |
| HookState.BeforeAfterExclusive | django_bulk_hooks/handler.py:36-42 | `is_before` and `is_after` never hold together, for any event string |
| HookState.PhaseOfEvent | django_bulk_hooks/handler.py:36-42 | a `before_` event is before and not after; an `after_` event is after and not before; a `validate_` event is neither |
| HookState.KindOfEvent | django_bulk_hooks/handler.py:44-50 | after such a prefix, a "create" event is create and not update; an "update" event is update and not create; a "delete" event is neither |
| Text.ContainsIff | django_bulk_hooks/handler.py:44-50 | the `in` test on strings holds exactly when the word occurs at some position |
| Handler.HookHandler.constructor | django_bulk_hooks/handler.py:14-32 | a thread starts with an empty queue, a cleared `HookVars` at depth 0, no calls and nothing pending |
| Handler.HookHandler.Handle | django_bulk_hooks/handler.py:98-116 | the new state and whether an exception escapes are exactly `HandleSpec`; a call that starts on an empty queue and does not raise leaves the queue empty |
| Handler.HookHandler.Process | django_bulk_hooks/handler.py:119-192 | the new state and the exception flag are exactly `ProcessSpec`; the context is cleared at the entry depth, even when a check raised |
| Handler.HookHandler.Execute | django_bulk_hooks/handler.py:135-179 | the loop over the sorted registrations is exactly `ExecSpec`: a preload, check or handler construction that raises ends it with the exception, and a registration whose gate holds is called |
| Handler.HookHandler.Invoke | django_bulk_hooks/handler.py:170-179 | one handler call, with its exception logged and swallowed, is exactly `InvokeSpec` |
| DispatchSpec.HandleKeeps | django_bulk_hooks/handler.py:98-116 | `handle` leaves the depth where it found it; started on an empty queue, it leaves the queue empty |
| DispatchSpec.ProcessKeeps | django_bulk_hooks/handler.py:119-192 | `_process` ends with event, model, new and old reset and the depth restored; the queue is empty if it was |
| DispatchSpec.NestedHandleRunsAtOnce | django_bulk_hooks/handler.py:107-116 | a `handle` on an empty queue processes its entry at once, exactly as `_process` does |
| DispatchSpec.NestedHandleClearsContext | django_bulk_hooks/handler.py:187-192 | after a nested `handle` returns, the hook context is cleared, so neither `is_before` nor `is_after` holds |
| DispatchSpec.SortByPriorityPermutes | django_bulk_hooks/handler.py:133 | the sorted registrations are in ascending priority and a permutation of the registry list |
| DispatchSpec.SortByPriorityStable | django_bulk_hooks/handler.py:133 | for each priority, the registrations keep their registry order (the sort is stable) |
| DispatchSpec.NewLocal | django_bulk_hooks/handler.py:136-137 | a missing `new_records` becomes the empty list; a given one is kept |
| DispatchSpec.PadOld | django_bulk_hooks/handler.py:137-139 | `old_records` keeps its prefix and is padded with `None` up to the length of `new_records`; a longer one is not trimmed |
| DispatchSpec.PaddedOld | django_bulk_hooks/handler.py:127-139 | while the loop runs, the context's `old` is the padded list when `old_records` is a non-empty list (`old_local` is that same list, extended in place), and `old_records` itself when it is `None` or empty (`old_records or []` is then a new list); new, event, model and depth are as installed |
| DispatchSpec.EvalChecksMeaning | django_bulk_hooks/handler.py:149-153 | the checks raise iff the check of some zipped pair raises; otherwise they hold iff some zipped pair's check is true |
| DispatchSpec.EmptyBatchGate | django_bulk_hooks/handler.py:149-154 | with an empty batch, a conditional registration is skipped and an unconditional one still runs |
| DispatchSpec.ExecRaisesIffStepRaises | django_bulk_hooks/handler.py:141-179 | the `_execute` loop raises iff, for some registration, `_apply_select_related` raises, a condition check raises, or the checks pass and `handler_cls()` or `getattr` raises (the steps outside the `try`); a handler method's own exception never escapes |
| DispatchSpec.ExecCallsSelected | django_bulk_hooks/handler.py:141-179 | with quiet handlers and no raising step before the `try`, exactly the registrations whose gate holds are called, once each and in order, with the full lists |
| DispatchSpec.ProcessCallsInPriorityOrder | django_bulk_hooks/handler.py:119-192 | the calls `_process` makes are the selected registrations in ascending priority, registry order among equals, with the entry's context installed and, when its `old_records` is a non-empty list, that list padded with `None` as the loop pads it; the context is cleared at the end |
| DispatchSpec.DeferredAfterEvent | django_bulk_hooks/handler.py:181-186 | an `after_` event inside an atomic block calls no handler; its loop is left pending for `on_commit` and the context is still cleared |
| DispatchSpec.FailingHandlerSwallowed | django_bulk_hooks/handler.py:170-179 | a handler that raises adds its call and one logged failure, and nothing else changes |
| DispatchSpec.BulkHookHandlerNeverRuns | django_bulk_hooks/decorators.py:123-124 | a `bulk_hook` function registered as written is called by a dispatch, the call's TypeError is logged, its body never runs, and nothing else changes |
| DispatchSpec.RecursionLimitLogged | django_bulk_hooks/handler.py:170-179 | a nested `handle` beyond the recursion limit makes the issuing hook fail, and that failure is logged |
| Handler.RegisteredKeys | django_bulk_hooks/handler.py:83-92 | after the registration loop, `_registered` is the earlier set plus the key of every declaration |
| Handler.CallsOncePerKey | django_bulk_hooks/handler.py:83-92 | every `register_hook` call is for a key not registered before that is registered afterwards; no two calls share a key |
| Handler.CallsFromFirstDecl | django_bulk_hooks/handler.py:83-92 | every call comes from the first declaration with its key; later duplicates are dropped |
| Handler.FoldIsRegistrations | django_bulk_hooks/handler.py:83-92 | the loop one step at a time appends exactly the calls `Registrations` lists and reaches its key set |
| Handler.HookMeta.New | django_bulk_hooks/handler.py:71-93 | the class is created and named; the registry calls and `_registered` become exactly what the registration loop gives over the class body's decorated functions |
| Handler.HookMeta.RegisterFunction | django_bulk_hooks/handler.py:83-92 | each `hooks_hooks` tuple of one function registers its key, with its `select_related` fields, unless the key is already registered |
| Context.ThreadState.GetHookQueue | django_bulk_hooks/context.py:7-10 | the first call creates and stores an empty deque; every later call returns that same deque with its contents untouched |
| Context.GetHookQueueTwice | django_bulk_hooks/context.py:7-10 | two calls return the same deque; on a fresh thread it is empty |
| Context.ThreadState.IsInBulkOperation | django_bulk_hooks/context.py:13-15 | true exactly when the flag was set to true; false while it was never set |
| Context.ThreadState.SetBulkOperationFlag | django_bulk_hooks/context.py:18-20 | afterwards `is_in_bulk_operation()` answers the value set; the queue is untouched |
| Context.MetadataOr | django_bulk_hooks/context.py:24-26 | a given dict is kept, whether or not it is empty (an empty one is falsy but `{}` equals it); `None` gives an empty dict |
| Context.HookContext.constructor | django_bulk_hooks/context.py:23-26 | the model class is stored unchanged and the metadata through `metadata or {}` |
| Decorators.SpecOf | django_bulk_hooks/decorators.py:9-21 | the tuple carries model, event and condition as given; an omitted priority is `DEFAULT_PRIORITY` |
| Decorators.SpecsOf | django_bulk_hooks/decorators.py:15-19 | the tuples of stacked decorators, one per decorator, the `i`-th built from the `i`-th decoration applied |
| Decorators.Hook | django_bulk_hooks/decorators.py:15-19 | `hooks_hooks` is created if missing and gains exactly one tuple; the same function comes back and its other attributes are untouched |
| Decorators.HookStacked | django_bulk_hooks/decorators.py:15-19 | stacked decorators add one tuple each to the same list, innermost first |
| Decorators.SelectRelated | django_bulk_hooks/decorators.py:36-37 | the wrapper carries the wrapped function's name and decorator attributes (`functools.wraps`) |
| Decorators.SelectRelatedWrapper | django_bulk_hooks/decorators.py:37-100 | a missing or non-list `new_records` raises TypeError; otherwise the records and the outcome are exactly `Preload` of the records as given |
| Decorators.PreloadEmpty | django_bulk_hooks/decorators.py:53-54 | an empty `new_records` fetches nothing and changes nothing |
| Decorators.IdsToFetchMeaning | django_bulk_hooks/decorators.py:56-65 | a pk is fetched iff some record has it and lacks a requested field in its cache |
| Decorators.CollectIds | django_bulk_hooks/decorators.py:56-65 | the loop collects exactly `IdsToFetch` of the records, in record order |
| Decorators.PreloadUndottedCalls | django_bulk_hooks/decorators.py:56-98 | with no dotted field, the wrapper calls the function after fetching exactly the ids that need it |
| Decorators.FillRecords | django_bulk_hooks/decorators.py:71-98 | the in-place loop over the records leaves the array and the error flag exactly as `FillAll` gives them |
| Decorators.FillFieldsLoop | django_bulk_hooks/decorators.py:75-98 | the loop over the related fields for one record gives exactly `FillFields` |
| Decorators.FillFieldsKeepsCache | django_bulk_hooks/decorators.py:75-98 | a record keeps its identity, every cached field with its value, and every attribute name |
| Decorators.FillFieldsCopies | django_bulk_hooks/decorators.py:85-98 | a newly cached field is a requested forward relation copied from the fetched record; an attribute changes only when its field is newly cached |
| Decorators.FillFieldsRaises | django_bulk_hooks/decorators.py:79-84 | the field loop raises ValueError iff some requested field is dotted and not already cached |
| Decorators.FillFieldsFills | django_bulk_hooks/decorators.py:85-98 | when the loop completes, every requested forward relation present on the fetched record is cached |
| Decorators.FillAllSkipsUnfetched | django_bulk_hooks/decorators.py:71-74 | records with no pk, or whose pk was not fetched, are left as they are |
| Decorators.BulkPriority | django_bulk_hooks/decorators.py:133 | `None` and `0` become `DEFAULT_PRIORITY`; any other priority is kept |
| Decorators.BulkHook | django_bulk_hooks/decorators.py:107-136 | a fresh `FunctionHandler` wrapping the function has its `handle` registered exactly once, with `priority or DEFAULT_PRIORITY` and no select_related fields; the function comes back unchanged |
| Decorators.BulkHookHandlerRejectsDispatch | django_bulk_hooks/decorators.py:123-124 | the signature as written cannot bind the keywords `_process` passes, whatever the extra keywords are |
| Decorators.BulkHookHandlerCorrectedBinds | django_bulk_hooks/decorators.py:123-124 | with the parameters named as `_process` passes them, every dispatch binds |
| Lifecycle.Hook | django_bulk_lifecycle/decorators.py:4-16 | `lifecycle_hooks` is created if missing and gains one tuple, with an omitted priority as `DEFAULT_PRIORITY`; the same function comes back |
| Lifecycle.SelectRelatedCall | django_bulk_lifecycle/decorators.py:26-52 | every exception the wrapper raises is TypeError |
| Lifecycle.SelectRelatedFacts | django_bulk_lifecycle/decorators.py:26-52 | TypeError iff there is no positional argument or the first is not a list; an empty list passes the arguments unchanged; otherwise the first argument is replaced by the fetched rows and the rest kept |
| Lifecycle.SelfFirstRaises | django_bulk_lifecycle/decorators.py:28-39 | an instance-method handler, whose first argument is `self`, makes the wrapper raise TypeError |
| Manager.BulkHookManager.BulkUpdate | django_bulk_hooks/manager.py:26-72 | the result and the calls made are exactly `BulkUpdateSpec`; the key counter is untouched |
| Manager.BulkGuards | django_bulk_hooks/manager.py:29-37 | an empty list gives `[]` from `bulk_update` and `bulk_delete` with no call; a non-instance raises TypeError before any call, in all three bulk operations |
| Manager.OriginalsAligned | django_bulk_hooks/manager.py:40-45 | `originals[i]` is a stored row of the model with the pk of `objs[i]`, and is present exactly when such a row exists |
| Manager.BulkUpdateOrder | django_bulk_hooks/manager.py:39-72 | the steps are validate (unless either flag is set), before (unless hooks are bypassed), one write per chunk, then after; the result is the objects as the after hooks leave them |
| Manager.BulkUpdateWrites | django_bulk_hooks/manager.py:56-67 | the writes cover the prepared objects once each and in order, at most CHUNK_SIZE per chunk, each naming the given fields plus every field the hooks changed |
| Manager.BulkUpdateRuns | django_bulk_hooks/manager.py:47-70 | every hook run is on the model with the aligned originals; the after run gets exactly the objects written |
| Manager.BulkHookManager.AddModifiedFields | django_bulk_hooks/manager.py:56-62 | the written field set is the given fields united with what `_detect_modified_fields` reports |
| Manager.DetectModifiedFields | django_bulk_hooks/manager.py:74-109 | the nested loops build exactly `ModifiedFields` |
| Manager.ModifiedFieldsMeaning | django_bulk_hooks/manager.py:74-109 | with no originals nothing is reported; a name is reported iff, at some zipped position with a pk and an original, a non-"id" field of that name differs |
| Manager.ZipModifiedMeaning | django_bulk_hooks/manager.py:85-107 | over equally long lists, a name is reported iff it changed at some position |
| Manager.FieldsModifiedMeaning | django_bulk_hooks/manager.py:90-107 | for one pair, a name is reported iff it is not "id" and some field of that name differs: relations by related pk, other fields by equality |
| Manager.WriteUpdateChunks | django_bulk_hooks/manager.py:64-67 | the slicing loop makes one base `bulk_update` call per chunk, in order |
| Manager.WriteCreateChunks | django_bulk_hooks/manager.py:132-134 | the slicing loop makes one base `bulk_create` call per chunk and extends the result with each chunk's result, in order |
| Batching.ChunksConcat | django_bulk_hooks/manager.py:64-65 | the chunks concatenate to the input: every object exactly once, in order |
| Batching.ChunksSizes | django_bulk_hooks/manager.py:64-65 | every chunk is non-empty and holds at most the chunk size |
| Batching.ChunkAt | django_bulk_hooks/manager.py:64-65 | chunk `k` is exactly the slice `objs[k*size:(k+1)*size]`, cut at the end |
| Manager.BulkHookManager.BulkCreate | django_bulk_hooks/manager.py:111-139 | the result and the calls made are exactly `BulkCreateSpec` |
| Manager.BulkCreateOrder | django_bulk_hooks/manager.py:111-139 | with no empty-list shortcut: validate, before, one write per chunk, then after; the result is the base `bulk_create` results as the after hooks leave them |
| Manager.BulkCreateWrites | django_bulk_hooks/manager.py:132-134 | the writes cover the prepared objects once each and in order, at most CHUNK_SIZE per chunk |
| Manager.BulkCreateRuns | django_bulk_hooks/manager.py:122-137 | no create run gets originals; the after run gets the concatenated base `bulk_create` results |
| Manager.BulkHookManager.BulkDelete | django_bulk_hooks/manager.py:380-413 | the result and the calls made are exactly `BulkDeleteSpec` |
| Manager.BulkDeleteOrder | django_bulk_hooks/manager.py:394-413 | validate and before (subject to the flags), one delete, then after; the result is the objects as the after hooks leave them |
| Manager.BulkDeleteRuns | django_bulk_hooks/manager.py:396-411 | no delete run gets originals; the after run gets the objects the delete was computed from |
| Manager.BulkDeletePks | django_bulk_hooks/manager.py:404-408 | the one delete is on the model and removes exactly the non-`None` pks of the prepared objects |
| Manager.DeletablePks | django_bulk_hooks/manager.py:404 | a pk is listed iff some object carries it |
| Manager.BulkHookManager.Update | django_bulk_hooks/manager.py:415-424 | the result and the calls made are exactly the manager's `UpdateSpec` |
| Manager.UpdateFacts | django_bulk_hooks/manager.py:415-424 | an empty table gives 0 with no call; otherwise every stored object, with every keyword set and nothing else changed, goes through `bulk_update` on the keyword names, and the object count comes back |
| Manager.BulkHookManager.Delete | django_bulk_hooks/manager.py:426-432 | the result and the calls made are exactly the manager's `DeleteSpec` |
| Manager.DeleteFacts | django_bulk_hooks/manager.py:426-432 | an empty table gives 0 with no call; otherwise the stored objects go through `bulk_delete` and the count comes back |
| Manager.BulkHookManager.Save | django_bulk_hooks/manager.py:434-443 | the result and the calls made are exactly `SaveSpec` |
| Manager.SaveUpdates | django_bulk_hooks/manager.py:436-440 | a truthy pk gives the update events around one write of `obj`, and `obj` as the after hooks leave it |
| Manager.SaveUpdateFields | django_bulk_hooks/manager.py:439 | the write of `save` with a truthy pk names every field of the model except "id" |
| Manager.SaveCreates | django_bulk_hooks/manager.py:441-443 | a falsy pk gives the create events around one write of `obj`, and its base `bulk_create` result as the after hooks leave it |
| Manager.NonIdFields | django_bulk_hooks/manager.py:439 | a name is listed iff it is not "id" and some field has it |
| Manager.PreludeFacts | django_bulk_hooks/manager.py:49-54 | the runs before a write are the validate run (unless hooks or validation are bypassed), then the before run (unless hooks are bypassed), all on the same originals |
| Manager.FinaleFacts | django_bulk_hooks/manager.py:69-70 | the run after a write is at most one hook run, on the objects and originals given |
| Manager.ConcreteModelsAsWritten | django_bulk_hooks/manager.py:233-252 | as written, the method can only succeed with `[model_cls]`: the loop body that collects parents never completes |
| Manager.ConcreteModelsCounterexample | django_bulk_hooks/manager.py:241-246 | a model with one concrete parent `Base` raises as written, and gives `[Base, Child]` corrected |
| Manager.ConcreteModelsFacts | django_bulk_hooks/manager.py:233-252 | corrected: every visited concrete ancestor is listed once, above the model in the hierarchy, and the model comes last |
| Manager.BulkHookManager.GetConcreteModels | django_bulk_hooks/manager.py:233-252 | the while loop with `insert(0, …)` builds exactly the corrected `ConcreteModels` |
| QuerySet.HookQuerySet.Delete | django_bulk_hooks/queryset.py:6-11 | the result and the calls made are exactly the queryset's `DeleteSpec` |
| QuerySet.QuerySetDeleteFacts | django_bulk_hooks/queryset.py:6-11 | an empty queryset gives 0 with no call; otherwise `bulk_delete`'s validate, before, one delete and after, and the objects come back |
| QuerySet.QuerySetDeletePks | django_bulk_hooks/queryset.py:10 | the delete is on the queryset's model and removes exactly the non-`None` pks of the objects as the before hooks leave them |
| QuerySet.HookQuerySet.Update | django_bulk_hooks/queryset.py:13-51 | the result and the calls made are exactly `UpdateSpec`; a non-empty queryset leaves the flag False, an empty one leaves it untouched |
| QuerySet.SetKeywords | django_bulk_hooks/queryset.py:27-29 | every object gets every keyword, in keyword order |
| QuerySet.QuerySetUpdateOrder | django_bulk_hooks/queryset.py:15-51 | before_update, the storage update seeing the flag True and the queryset's pks, then after_update unless the update raised; both runs get the same originals, and the before run gets every object with every keyword set; the result is the storage count |
| QuerySet.Present | django_bulk_hooks/queryset.py:23 | the originals list as passed to the hooks: every entry present, in order |
| QuerySet.RefetchHoldsStored | django_bulk_hooks/queryset.py:20-23 | a stored row of the queryset is among the rows that `filter(pk__in=pks)` reads again |
| QuerySet.UpdateAsWrittenNeverReturns | django_bulk_hooks/queryset.py:13-51 | as written, `update` on a queryset holding a stored row raises RecursionError for every recursion limit: the only calls made are one before_update run per level, with no storage update and no after_update |
| Records.SetAttrsMeaning | django_bulk_hooks/queryset.py:27-29 | after the keywords are set, each named attribute holds its last keyword's value; other attributes, the pk and the state are unchanged |
| Records.NewInstance | django_bulk_hooks/multi_table_bulk_create_manager.py:178 | `model()` is unsaved, has no pk and has every field at its default |
| Records.DefaultsMeaning | django_bulk_hooks/multi_table_bulk_create_manager.py:178 | `model()` sets every field and only fields, each to the default of a field of that name |
| MultiTable.MultiTableBulkCreateManager.BulkCreate | django_bulk_hooks/multi_table_bulk_create_manager.py:10-25 | the result and the calls made are exactly `BulkCreateSpec` |
| MultiTable.BulkCreateFacts | django_bulk_hooks/multi_table_bulk_create_manager.py:10-25 | an empty list comes back unchanged with no call; a chain of at most one model takes the base `bulk_create`; for a non-empty list the call raises (always ValueError) iff the chain has more than one model, the batch size is not negative and some ancestor link of the child refuses its parent; otherwise the multi-table path returns every object in order, each carrying its child row's pk |
| MultiTable.MultiTableBulkCreateManager.GetInheritanceChain | django_bulk_hooks/multi_table_bulk_create_manager.py:27-49 | the while loop with `append` and `reverse` builds exactly `InheritanceChain` |
| MultiTable.InheritanceChainMembers | django_bulk_hooks/multi_table_bulk_create_manager.py:32-49 | the chain lists non-proxy models only, their levels growing down the chain |
| MultiTable.InheritanceChainLinks | django_bulk_hooks/multi_table_bulk_create_manager.py:32-49 | the chain runs from a root with no non-proxy parent down to the model (unless it is a proxy); each model is the first non-proxy parent of the next |
| MultiTable.FirstConcreteMeaning | django_bulk_hooks/multi_table_bulk_create_manager.py:41-45 | the walk moves to `parents[0]` of the non-proxy parents, or stops when there is none |
| MultiTable.ChainUpMembers | django_bulk_hooks/multi_table_bulk_create_manager.py:36-45 | the walk up visits non-proxy models only, at strictly falling levels |
| MultiTable.ChainUpLinks | django_bulk_hooks/multi_table_bulk_create_manager.py:36-45 | the walk starts at the model unless it is a proxy, moves to the first non-proxy parent, and stops at a model without one |
| MultiTable.MultiTableBulkCreateManager.MultiTableBulkCreate | django_bulk_hooks/multi_table_bulk_create_manager.py:51-65 | the result and the calls made are exactly `MultiTableSpec` |
| MultiTable.MultiTableFacts | django_bulk_hooks/multi_table_bulk_create_manager.py:51-65 | ValueError iff there are no objects and no size, or there are objects, a positive size and a refused ancestor link; a refused link raises in the first batch, after its parent saves and before any insert; a negative size gives `[]` with no call; otherwise the objects come back in order, each as `_process_batch` left it |
| MultiTable.SingleBatch | django_bulk_hooks/multi_table_bulk_create_manager.py:55-62 | without a batch size, all the objects are processed as one batch |
| MultiTable.MultiTableBulkCreateManager.ProcessBatch | django_bulk_hooks/multi_table_bulk_create_manager.py:67-172 | the result and the calls made are exactly `ProcessBatchSpec`; the database hands out `KeysPerObject` keys per object, one for each ancestor that does not take its pk from the ancestor before it |
| MultiTable.ProcessBatchResults | django_bulk_hooks/multi_table_bulk_create_manager.py:166-172 | a batch that completes comes back in order; object `j` carries the pk of its child row, whose parents were saved with the keys drawn from `KeyFrom(pk, j, PerObjectKeys(chain))`, and is no longer adding, in the database in use |
| MultiTable.ProcessBatchRaises | django_bulk_hooks/multi_table_bulk_create_manager.py:67-172 | a batch raises iff it is non-empty and some ancestor's link from the child model refers to another model; the error is ValueError and the only calls made are the parent saves |
| MultiTable.ChildRaisesIffChainRefused | django_bulk_hooks/multi_table_bulk_create_manager.py:100-104 | building a child raises iff, for some ancestor in the chain, `get_ancestor_link` gives a field that refers to another model |
| MultiTable.ProcessBatchCalls | django_bulk_hooks/multi_table_bulk_create_manager.py:80-160 | one parent save per object and ancestor, then, when the batch completes, the inserts of the batch's child rows, one row per object: the rows with a pk in one call, then the rows without one in another, an empty group making no call; a batch that raises made the parent saves only |
| MultiTable.SavedParentsFacts | django_bulk_hooks/multi_table_bulk_create_manager.py:80-94 | parent `k` is a saved row of `chain[k]`; its key is that of parent `k - 1` when it points at that parent through its primary-key parent link (assigning the link sets the pk), and otherwise the next key handed out; it refers to parent `k - 1` through its link field and otherwise holds the object's values or the defaults |
| MultiTable.MultiTableBulkCreateManager.SaveBatchParents | django_bulk_hooks/multi_table_bulk_create_manager.py:80-94 | the outer loop of step 1 saves exactly `BatchParents`, one save per row, in order, object `j` drawing its keys from `KeyFrom(pk, j, KeysPerObject)`, and the database's next key advances by `KeysPerObject` per object |
| MultiTable.MultiTableBulkCreateManager.SaveParents | django_bulk_hooks/multi_table_bulk_create_manager.py:85-92 | the inner loop saves exactly `SavedParents` for one object, each parent saved before the next is built |
| MultiTable.MultiTableBulkCreateManager.SaveParent | django_bulk_hooks/multi_table_bulk_create_manager.py:86-92 | the next parent is built from the object and linked to the one before; it is saved with the pk that link gave it, drawing no key, or, without one, with the next key |
| MultiTable.MultiTableBulkCreateManager.CreateChildren | django_bulk_hooks/multi_table_bulk_create_manager.py:100-104 | one child instance per object, built from the object and its saved parents, or the first child's error |
| MultiTable.MultiTableBulkCreateManager.RefreshBatch | django_bulk_hooks/multi_table_bulk_create_manager.py:166-172 | each object takes its child's pk, `_state.adding = False` and `_state.db` |
| MultiTable.RefreshedChildren | django_bulk_hooks/multi_table_bulk_create_manager.py:166-172 | the batch refreshed from its inserted child rows is, object by object, `CreatedObject` with that object's own keys |
| MultiTable.MultiTableBulkCreateManager.CreateParentInstance | django_bulk_hooks/multi_table_bulk_create_manager.py:174-196 | the parent instance, with the pk its link to the current parent sets, is exactly `ParentInstance` of the source and the current parent |
| MultiTable.ParentInstanceFacts | django_bulk_hooks/multi_table_bulk_create_manager.py:174-196 | the parent is unsaved; its pk is the current parent's pk when it links to the current parent through its primary-key parent link, and none otherwise; its link field refers to the current parent; otherwise it holds the source's value of each local field the source has, or the default |
| MultiTable.MultiTableBulkCreateManager.CreateChildInstance | django_bulk_hooks/multi_table_bulk_create_manager.py:198-220 | the child instance, with the links and the pk its parents set, or the error of assigning a parent, is exactly `ChildInstance` of the source and its parents |
| MultiTable.ChildInstanceFacts | django_bulk_hooks/multi_table_bulk_create_manager.py:198-220 | building raises (always ValueError) iff the ancestor link of some parent refers to another model; otherwise the child is unsaved; its pk is that of the last parent assigned through its primary-key parent link, or none when no parent is; a link attribute refers to the last parent linked through it, and any other attribute holds the source's value of each non-AutoField local field the source has, or the default |
| MultiTable.CopyFields | django_bulk_hooks/multi_table_bulk_create_manager.py:181-184 | the copy loop gives exactly `CopyInto`, skipping AutoFields for a child |
| MultiTable.CopyIntoMeaning | django_bulk_hooks/multi_table_bulk_create_manager.py:204-211 | only attributes change: each copied name takes the source's value, every other attribute is unchanged |
| MultiTable.SetParentPointers | django_bulk_hooks/multi_table_bulk_create_manager.py:214-218 | the parent-pointer loop gives exactly `LinkInto` of the parents in order: each assignment sets the link and, through the primary-key parent link, the pk; the first assignment the link field refuses raises |
| MultiTable.LinkIntoRaises | django_bulk_hooks/multi_table_bulk_create_manager.py:214-218 | the pointer loop raises ValueError iff some parent's ancestor link refers to another model, and otherwise sets exactly the links `LinkParents` sets |
| MultiTable.LinkParentsMeaning | django_bulk_hooks/multi_table_bulk_create_manager.py:214-218 | a link attribute refers to the last parent linked through it; the pk is that of the last parent assigned through the primary-key parent link, and unchanged when there is none; attributes no parent links to are unchanged; nothing but attributes and the pk changes |
| MultiTable.ExampleBulkCreateRaises | django_bulk_hooks/multi_table_bulk_create_manager.py:225-278 | for the usage example `BaseModel` ← `Person` ← `Employee`, the chain is the three models and, the parent saves succeeding, `bulk_create` of any non-empty list raises ValueError |
| MultiTable.ExampleLinksDirectParent | django_bulk_hooks/multi_table_bulk_create_manager.py:214-218 | the saved `BaseModel` and `Person` parents both carry the `BaseModel` key; corrected, an `Employee` child gets `person_ptr` set to its `Person` parent and, through that primary-key parent link, the same pk, and nothing else |
| MultiTable.KeysFresh | django_bulk_hooks/multi_table_bulk_create_manager.py:80-94 | a parent that does not take its pk from the parent before it gets a key above every earlier parent's; one that does has exactly the earlier parent's key |
| MultiTable.LinkedChainKeys | django_bulk_hooks/multi_table_bulk_create_manager.py:80-94 | when every parent points at the one before through its primary-key parent link, one key is drawn per object and every parent carries it |
| MultiTable.CreatedObjectRootKey | django_bulk_hooks/multi_table_bulk_create_manager.py:166-172 | on a chain linked through primary-key parent links, a completed object comes back with the key of its root parent row, no longer adding, in the database in use |
| MultiTable.LinkedChainResults | django_bulk_hooks/multi_table_bulk_create_manager.py:51-65 | on such a chain, with a positive batch size, `_multi_table_bulk_create` returns every object in order, object `j` with pk `pk + j`: one key per object, the root parent row's |
| MultiTable.ExamplePersonBulkCreate | django_bulk_hooks/multi_table_bulk_create_manager.py:10-25 | for `Person` in the usage example, the chain is `BaseModel`, `Person`, and `bulk_create` without a batch size returns every object in order, object `j` with pk `pk + j` |
| Backend.Db.SaveRow | django_bulk_hooks/multi_table_bulk_create_manager.py:86-92 | `save()` of a new row: a row without a pk takes the next key and advances it, a row with one keeps it and draws none; the save is logged |
| Backend.Db.InsertBatch | django_bulk_hooks/multi_table_bulk_create_manager.py:124-160 | the child rows are inserted in at most two calls, the rows with a pk first, then the rows without; no key is drawn; each row comes back with the pk it reads afterwards |
| Backend.InsertCallsFacts | django_bulk_hooks/multi_table_bulk_create_manager.py:124-160 | at most two calls, none iff there are no rows, each non-empty; a single call holds rows of one kind; with two, the first holds exactly rows with a pk and the second rows without; together they hold the child rows, each once |
| Records.IndirectAncestorLink | django_bulk_hooks/multi_table_bulk_create_manager.py:216 | for a model with one parent, `get_ancestor_link` of an ancestor above that parent is the model's link to the parent |
| Records.ParentEntry | django_bulk_hooks/multi_table_bulk_create_manager.py:216 | the entry of `_meta.parents` for a model is absent iff no parent entry names it, and otherwise is an entry's link |
| MultiTable.FirstLinkMeaning | django_bulk_hooks/multi_table_bulk_create_manager.py:189-194 | the parent link is the first local field whose relation points at the current parent's model, or none |

## Left out

- The `mti_bulk_create*` methods, `_is_mti_scenario` and `_is_uuid_field` of `BulkHookManager` are not part of this model. They depend on Django metadata introspection and on `uuid.uuid4`.
- `registry.py`, `conditions.py`, `engine.py`, `priority.py` and `enums.py` are not part of this model. The registry, conditions, `engine.run` and the handler methods' own behaviour are abstract parameters. `DEFAULT_PRIORITY` is taken as 50, the documented value of `Priority.NORMAL`.
- The database is a collaborator that logs calls and answers from fixed functions. That covers `filter`, `in_bulk`, the base `bulk_update` / `bulk_create`, `save`, `delete` and `_batched_insert`. `transaction.atomic`, rollback and `on_commit` execution are not modelled; the deferred loop is kept as a pending callback.
- `threading.local` and concurrency: one thread's state is modelled.
- `logger` output is modelled as `Logged` entries. The unused `inspect.signature` calls in `_process` are left out.
- Python object identity is not modelled, because instances are values:
  - The hooks' in-place edits become the `edit` function of the collaborator.
  - The same object appearing twice in a list, and aliasing between the lists given to hooks, are not captured.
  - The multi-table path returns the objects as updated values, not the same Python objects.
- Every model has a primary key separate from its field named "id". Python's `1 == True` across value kinds is not captured.
- A relation attribute holds a reference, a model and a pk. Assigning a related object does not fill `_state.fields_cache` except where `select_related` does so explicitly.
- `HookContext` is built by the operations, but it is not recorded in the `engine.run` call log.
- The written field list of `bulk_update` is a set, so the order of `list(fields_set)` is not modelled.
- The `on_conflict`, `unique_fields` and `update_fields` handling and the returned columns of `_process_batch` are not modelled. The pk a child row reads after `_batched_insert` is the abstract `insertedPk`.
- QuerySet.HookQuerySet.Update: models the evidently intended plain storage update, the collaborator's `UpdateRows`. As written, `self.model.objects.filter(pk__in=pks).update(**kwargs)` re-enters `HookQuerySet.update` through `BulkHookManager.get_queryset` until RecursionError, so no count and no after_update; that version is `UpdateAsWritten` (see Findings).
- QuerySet.QuerySetUpdateOrder: states the order of the intended update above, not of the as-written one.
- The `isinstance` test of Django's related-object descriptor is modelled as equality of the assigned instance's model with the field's remote model. That is exact for an instance of an ancestor in a hierarchy without cycles.
- The legacy `select_related` fetch is an abstract function of the model, fields and pks. Keyword arguments pass through untouched and are not modelled.
- DispatchSpec.ExecCallsSelected: stated only for handlers that issue no nested `handle` and raise nothing, and for preloads, checks and handler constructions that do not raise. Those raising are covered by `ExecRaisesIffStepRaises`, failing handlers by `FailingHandlerSwallowed`, and nested calls by `NestedHandleRunsAtOnce`.
- DispatchSpec.ProcessCallsInPriorityOrder: stated under the same restriction, and for events that are not deferred. Deferred events are covered by `DeferredAfterEvent`.
- Python's recursion limit is a `stack` parameter of the dispatch and of `UpdateAsWritten`: a nested `handle` beyond it raises RecursionError inside the issuing hook. The actual limit value is not modelled.
- The primary-key parent link of a model is taken to be the link of its first `_meta.parents` entry, which is how Django sets up `_meta.pk` for a multi-table child. Assigning a parent through that link gives the instance the parent's pk; through any other link it sets only the attribute.
- The parent saves of step 1 are modelled as `Db.SaveRow`: one logged save that keeps a pk already set or draws the next key. What Django's `save()` does to the tables of the parent's own ancestors is not modelled. That covers the rows of those tables, the UPDATE or INSERT it chooses for a row whose pk is set, and any database constraint.
- MultiTable.ExampleBulkCreateRaises: states the ValueError on the assumption that every parent save succeeds. In the usage example the `Person` parent has its pk set by its `basemodel_ptr` link, so its `save()` also writes the `BaseModel` row of that key. The model does not capture a database error that this write might raise first.
- Manager.BulkHookManager.GetConcreteModels: models the loops over `_meta.parents.keys()`, the evidently intended behaviour. The as-written version is `ConcreteModelsAsWritten` (see Findings).

## Findings

| source | as written | input that shows it | evidently intended | confidence | as-written member | corrected member |
|---|---|---|---|---|---|---|
| django_bulk_hooks/decorators.py:123-124 | the `FunctionHandler.handle` that `bulk_hook` generates takes `(self, new_instances, original_instances)`. `_process` calls every handler method with `new_records=`, `old_records=` and `**kwargs`, so the call fails with TypeError, which `_process` logs and swallows. | any `@bulk_hook` function, dispatched for any event | the parameters named `new_records` and `old_records`, with `**kwargs`, so the wrapped function is called | not executed | Decorators.BulkHookHandlerRejectsDispatch | Decorators.BulkHookHandlerCorrectedBinds |
| django_bulk_hooks/manager.py:241-246 | `_get_concrete_models` loops over `_meta.parents.values()`, which are parent-link fields, and reads `._meta` on them. That raises AttributeError for every model that has a parent. | a model `Child` whose concrete parent is `Base` | loop over `_meta.parents.keys()`, giving `[Base, Child]` | not executed | Manager.ConcreteModelsAsWritten | Manager.BulkHookManager.GetConcreteModels |
| django_bulk_hooks/multi_table_bulk_create_manager.py:214-218 | every saved ancestor is assigned through `get_ancestor_link(parent_model)`. For an ancestor above the direct parent, Django gives the link to the direct parent, and assigning an instance of the wrong model to it raises ValueError, so `bulk_create` on any chain of three or more models raises. The model follows the code: the error is carried to the caller. | any non-empty list of objects on a chain of three models whose parent saves succeed, such as the usage example `BaseModel` ← `Person` ← `Employee` (on a real database the `Person` save, which also writes the `BaseModel` row, may fail first) | set only the link to the direct parent (the last saved ancestor), which also gives the child that parent's pk | not executed | MultiTable.ExampleBulkCreateRaises | MultiTable.ExampleLinksDirectParent |
| django_bulk_hooks/queryset.py:43-44 | the storage update goes through `self.model.objects`, a `BulkHookManager`, whose querysets are `HookQuerySet`s (manager.py:22-23), so it calls this `update` again on the stored rows, and so on until RecursionError. No after_update runs and no count is returned. | `update(**kwargs)` on any queryset holding a stored row | one plain storage update of the rows with those pks, then after_update and the count | not executed | QuerySet.UpdateAsWrittenNeverReturns | QuerySet.QuerySetUpdateOrder |
