/** Model instances and the parts of Django's model metadata (`_meta`) the hook code reads. */
module Records {
  import opened Wrappers

  /** A model class, by name. */
  type ModelId = string

  /** An attribute value: a scalar, Python's `None`, or a reference to another model instance. */
  datatype Value = VNone | VBool(b: bool) | VInt(i: int) | VStr(s: string) | VObj(model: ModelId, pk: Option<int>)

  /**
   * A model instance: its class, primary key, attribute values, `_state.adding`,
   * `_state.db` and `_state.fields_cache` (the relation cache).
   */
  datatype Instance = Instance(
    model: ModelId,
    pk: Option<int>,
    attrs: map<string, Value>,
    adding: bool,
    db: Option<string>,
    cache: map<string, Value>)

  /** `getattr(obj, name)` for a model field: a field that was never assigned reads as `None`. */
  function Attr(x: Instance, name: string): (r: Value) {
    if name in x.attrs then x.attrs[name] else VNone
  }

  /** Python truthiness of a primary key (`if obj.pk:`): `None` and `0` are false. */
  predicate PkTruthy(pk: Option<int>) {
    pk.Some? && pk.value != 0
  }

  /** The `pk` of a related object, or `None` when the relation is empty (`v.pk if v else None`). */
  function RelatedPk(v: Value): (r: Option<int>) {
    match v
    case VObj(_, pk) => pk
    case _ => None
  }

  /** A field of a model, as `_meta.get_field` describes it. */
  datatype FieldMeta = FieldMeta(
    name: string,
    isRelation: bool,
    manyToMany: bool,
    oneToMany: bool,
    isAuto: bool,
    remote: Option<ModelId>,
    default: Value)

  /** One entry of `_meta.parents`: the parent model and its parent-link field (`None` for a proxy). */
  datatype ParentLink = ParentLink(parent: ModelId, link: Option<FieldMeta>)

  /**
   * The metadata of one model class. `level` is the length of the longest chain of parents
   * above the model; Python's class hierarchy is acyclic, which `ValidSchema` states through it.
   */
  datatype ModelMeta = ModelMeta(
    proxy: bool,
    isAbstract: bool,
    parents: seq<ParentLink>,
    fields: seq<FieldMeta>,
    localFields: seq<FieldMeta>,
    level: nat)

  type Schema = map<ModelId, ModelMeta>

  /** Every parent of a known model is known and sits strictly higher in the hierarchy. */
  ghost predicate ValidSchema(schema: Schema) {
    forall m, k :: m in schema && 0 <= k < |schema[m].parents| ==>
      schema[m].parents[k].parent in schema &&
      schema[schema[m].parents[k].parent].level < schema[m].level
  }

  /** `ancestor in parents` and `parents[ancestor]` for the entries of `_meta.parents`, the first entry for a model winning. */
  function ParentEntry(parents: seq<ParentLink>, ancestor: ModelId): (r: Option<Option<FieldMeta>>)
    ensures r.None? <==> forall k :: 0 <= k < |parents| ==> parents[k].parent != ancestor
    ensures r.Some? ==> exists k :: 0 <= k < |parents| && parents[k] == ParentLink(ancestor, r.value)
  {
    if parents == [] then None
    else if parents[0].parent == ancestor then Some(parents[0].link)
    else ParentEntry(parents[1..], ancestor)
  }

  /**
   * `model._meta.get_ancestor_link(ancestor)`: the link to `ancestor` when it is a direct
   * parent; otherwise, for the first parent that has a link to `ancestor`, the model's own
   * link to that parent (or, if the model has none, the parent's link). A parent outside the
   * schema or not strictly above the model is passed over; `ValidSchema` rules both out.
   */
  function AncestorLink(schema: Schema, model: ModelId, ancestor: ModelId): (r: Option<FieldMeta>)
    decreases if model in schema then schema[model].level else 0, 1, 0
  {
    if model !in schema then None
    else
      match ParentEntry(schema[model].parents, ancestor)
      case Some(link) => link
      case None => AncestorLinkVia(schema, model, ancestor, 0)
  }

  /** The loop of `get_ancestor_link` over the parents from the `k`-th on. */
  function AncestorLinkVia(schema: Schema, model: ModelId, ancestor: ModelId, k: nat): (r: Option<FieldMeta>)
    requires model in schema
    decreases schema[model].level, 0, |schema[model].parents| - k
  {
    var parents := schema[model].parents;
    if k >= |parents| then None
    else
      var p := parents[k].parent;
      var parentLink := if p in schema && schema[p].level < schema[model].level then AncestorLink(schema, p, ancestor) else None;
      if parentLink.None? then AncestorLinkVia(schema, model, ancestor, k + 1)
      else if parents[k].link.Some? then parents[k].link
      else parentLink
  }

  /**
   * An ancestor above the only parent of a model is reached through the model's link to that
   * parent: `get_ancestor_link` gives that link, not one to the ancestor.
   */
  lemma IndirectAncestorLink(schema: Schema, model: ModelId, parent: ModelId, link: FieldMeta, ancestor: ModelId)
    requires ValidSchema(schema) && model in schema
    requires schema[model].parents == [ParentLink(parent, Some(link))] && ancestor != parent
    requires AncestorLink(schema, parent, ancestor).Some?
    ensures AncestorLink(schema, model, ancestor) == Some(link)
  {
    assert schema[model].parents[0].parent == parent;
    assert AncestorLinkVia(schema, model, ancestor, 0) == Some(link);
  }

  /** The default value of every field, as the model constructor assigns them in field order. */
  function Defaults(fields: seq<FieldMeta>): (r: map<string, Value>) {
    if fields == [] then map[]
    else
      var last := fields[|fields| - 1];
      Defaults(fields[..|fields| - 1])[last.name := last.default]
  }

  /** `model()` sets every field, and only fields, each to the default of a field of that name. */
  lemma {:induction false} DefaultsMeaning(fields: seq<FieldMeta>)
    ensures forall f :: f in fields ==> f.name in Defaults(fields)
    ensures forall n :: n in Defaults(fields) ==> exists f :: f in fields && f.name == n && Defaults(fields)[n] == f.default
  {
    if fields != [] {
      var init := fields[..|fields| - 1];
      DefaultsMeaning(init);
      assert fields == init + [fields[|fields| - 1]];
    }
  }

  /** A new, unsaved instance of `model`, as `model()` builds it: every field at its default. */
  function NewInstance(model: ModelId, fields: seq<FieldMeta>): (x: Instance)
    ensures x.model == model && x.pk == None && x.adding && x.db == None && x.cache == map[]
    ensures x.attrs == Defaults(fields)
  {
    Instance(model, None, Defaults(fields), true, None, map[])
  }

  /** `setattr(obj, name, value)` for a model field. */
  function SetAttr(x: Instance, name: string, value: Value): (r: Instance) {
    x.(attrs := x.attrs[name := value])
  }

  /** `for name, value in kwargs.items(): setattr(obj, name, value)`, in keyword order. */
  function SetAttrs(x: Instance, kwargs: seq<(string, Value)>): (r: Instance) {
    if kwargs == [] then x
    else
      var last := kwargs[|kwargs| - 1];
      SetAttr(SetAttrs(x, kwargs[..|kwargs| - 1]), last.0, last.1)
  }

  /** The value the last keyword called `name` carries, if any. */
  function KwLookup(kwargs: seq<(string, Value)>, name: string): (r: Option<Value>)
    ensures r.None? <==> forall k :: 0 <= k < |kwargs| ==> kwargs[k].0 != name
    ensures r.Some? ==> (name, r.value) in kwargs
  {
    if kwargs == [] then None
    else if kwargs[|kwargs| - 1].0 == name then Some(kwargs[|kwargs| - 1].1)
    else
      KwLookup(kwargs[..|kwargs| - 1], name)
  }

  /**
   * After the keywords are set, every named attribute holds its keyword's value and every
   * other attribute, and the instance's key and state, are as before.
   */
  lemma {:induction false} SetAttrsMeaning(x: Instance, kwargs: seq<(string, Value)>)
    ensures var y := SetAttrs(x, kwargs);
      y.model == x.model && y.pk == x.pk && y.adding == x.adding && y.db == x.db && y.cache == x.cache &&
      (forall n :: n in y.attrs <==> n in x.attrs || KwLookup(kwargs, n).Some?) &&
      (forall n :: KwLookup(kwargs, n).Some? ==> y.attrs[n] == KwLookup(kwargs, n).value) &&
      (forall n :: n in x.attrs && KwLookup(kwargs, n).None? ==> y.attrs[n] == x.attrs[n])
  {
    if kwargs != [] {
      SetAttrsMeaning(x, kwargs[..|kwargs| - 1]);
    }
  }

  /** `[obj.pk for obj in objs]`. */
  function PksOf(objs: seq<Instance>): (r: seq<Option<int>>)
    ensures |r| == |objs| && forall i :: 0 <= i < |objs| ==> r[i] == objs[i].pk
  {
    if objs == [] then [] else [objs[0].pk] + PksOf(objs[1..])
  }
}
