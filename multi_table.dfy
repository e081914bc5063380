/**
 * `MultiTableBulkCreateManager`: `bulk_create` for models with multi-table inheritance. The
 * parent rows are saved one object at a time to obtain their primary keys, then the child
 * rows are inserted in one batched insert, and the caller's objects take the child pks.
 */
module MultiTable {
  import opened Wrappers
  import opened Records
  import opened Backend
  import opened Batching

  // ---------------------------------------------------------------------------------------
  // _get_inheritance_chain
  // ---------------------------------------------------------------------------------------

  /** `[parent for parent in current_model._meta.parents.keys() if not parent._meta.proxy]`. */
  function ConcreteParents(schema: Schema, ps: seq<ParentLink>): (r: seq<ModelId>)
    requires forall k :: 0 <= k < |ps| ==> ps[k].parent in schema
    ensures forall x :: x in r ==> x in schema && !schema[x].proxy && exists k :: 0 <= k < |ps| && ps[k].parent == x
    ensures r == [] <==> forall k :: 0 <= k < |ps| ==> schema[ps[k].parent].proxy
  {
    if ps == [] then []
    else
      var rest := ConcreteParents(schema, ps[1..]);
      assert forall x :: x in rest ==> exists k :: 0 <= k < |ps| && ps[k].parent == x by {
        forall x | x in rest
          ensures exists k :: 0 <= k < |ps| && ps[k].parent == x
        {
          var k :| 0 <= k < |ps[1..]| && ps[1..][k].parent == x;
          assert ps[k + 1].parent == x;
        }
      }
      (if schema[ps[0].parent].proxy then [] else [ps[0].parent]) + rest
  }

  /**
   * The first non-proxy parent among `ps`, every one of which sits below level `below`;
   * `ParentOf` and `FirstConcreteMeaning` tie it to `ConcreteParents`.
   */
  function FirstConcrete(schema: Schema, ps: seq<ParentLink>, below: nat): (r: Option<ModelId>)
    requires forall k :: 0 <= k < |ps| ==> ps[k].parent in schema && schema[ps[k].parent].level < below
    ensures r.Some? ==> r.value in schema && !schema[r.value].proxy && schema[r.value].level < below
  {
    if ps == [] then None
    else if schema[ps[0].parent].proxy then FirstConcrete(schema, ps[1..], below)
    else Some(ps[0].parent)
  }

  /** `parents[0] if parents else None`, with `parents` the non-proxy parents in order. */
  lemma {:induction false} FirstConcreteMeaning(schema: Schema, ps: seq<ParentLink>, below: nat)
    requires forall k :: 0 <= k < |ps| ==> ps[k].parent in schema && schema[ps[k].parent].level < below
    ensures var parents := ConcreteParents(schema, ps);
      FirstConcrete(schema, ps, below) == if parents != [] then Some(parents[0]) else None
  {
    if ps != [] {
      FirstConcreteMeaning(schema, ps[1..], below);
    }
  }

  /** The model the chain walk moves to from `m`: its first non-proxy parent, if any. */
  function ParentOf(schema: Schema, m: ModelId): (r: Option<ModelId>)
    requires ValidSchema(schema) && m in schema
    ensures r.Some? ==> r.value in schema && !schema[r.value].proxy && schema[r.value].level < schema[m].level
  {
    FirstConcrete(schema, schema[m].parents, schema[m].level)
  }

  /** The chain as the loop builds it, before the reverse: the non-proxy models from `current` up. */
  function ChainUp(schema: Schema, current: ModelId): (r: seq<ModelId>)
    requires ValidSchema(schema) && current in schema
    ensures forall x :: x in r ==> x in schema && !schema[x].proxy
    decreases schema[current].level
  {
    (if schema[current].proxy then [] else [current]) +
    (match ParentOf(schema, current)
     case None => []
     case Some(p) => ChainUp(schema, p))
  }

  function Reverse<T>(s: seq<T>): (r: seq<T>)
    ensures |r| == |s| && forall i :: 0 <= i < |s| ==> r[i] == s[|s| - 1 - i]
  {
    if s == [] then [] else Reverse(s[1..]) + [s[0]]
  }

  /** `_get_inheritance_chain()`: root first, `self.model` (unless it is a proxy) last. */
  function InheritanceChain(schema: Schema, model: ModelId): (r: seq<ModelId>)
    requires ValidSchema(schema) && model in schema
  {
    Reverse(ChainUp(schema, model))
  }

  /** The walk up from `current` visits non-proxy models only, at strictly falling levels. */
  lemma {:induction false} ChainUpMembers(schema: Schema, current: ModelId)
    requires ValidSchema(schema) && current in schema
    ensures forall i :: 0 <= i < |ChainUp(schema, current)| ==>
      schema[ChainUp(schema, current)[i]].level <= schema[current].level
    ensures forall i, j :: 0 <= i < j < |ChainUp(schema, current)| ==>
      schema[ChainUp(schema, current)[j]].level < schema[ChainUp(schema, current)[i]].level
    decreases schema[current].level
  {
    var head := if schema[current].proxy then [] else [current];
    var p := ParentOf(schema, current);
    if p.Some? {
      ChainUpMembers(schema, p.value);
      assert ChainUp(schema, current) == head + ChainUp(schema, p.value);
    } else {
      assert ChainUp(schema, current) == head + [];
    }
  }

  /**
   * The walk up from `current` starts at `current` unless it is a proxy, moves each time to
   * the first non-proxy parent, and stops at a model without one.
   */
  lemma {:induction false} ChainUpLinks(schema: Schema, current: ModelId)
    requires ValidSchema(schema) && current in schema
    ensures forall i :: 0 <= i < |ChainUp(schema, current)| - 1 ==>
      ParentOf(schema, ChainUp(schema, current)[i]) == Some(ChainUp(schema, current)[i + 1])
    ensures ChainUp(schema, current) != [] ==>
      ParentOf(schema, ChainUp(schema, current)[|ChainUp(schema, current)| - 1]) == None
    ensures !schema[current].proxy ==> ChainUp(schema, current) != [] && ChainUp(schema, current)[0] == current
    decreases schema[current].level
  {
    var head := if schema[current].proxy then [] else [current];
    var p := ParentOf(schema, current);
    if p.Some? {
      ChainUpLinks(schema, p.value);
      var rest := ChainUp(schema, p.value);
      assert ChainUp(schema, current) == head + rest;
      assert rest != [] && rest[0] == p.value;
    } else {
      assert ChainUp(schema, current) == head + [];
    }
  }

  /** Reversing a walk whose levels fall gives a list whose levels grow. */
  lemma ReverseFalling(schema: Schema, u: seq<ModelId>)
    requires forall x :: x in u ==> x in schema && !schema[x].proxy
    requires forall i, j :: 0 <= i < j < |u| ==> schema[u[j]].level < schema[u[i]].level
    ensures forall i :: 0 <= i < |Reverse(u)| ==> Reverse(u)[i] in schema && !schema[Reverse(u)[i]].proxy
    ensures forall i, j :: 0 <= i < j < |Reverse(u)| ==> schema[Reverse(u)[i]].level < schema[Reverse(u)[j]].level
  {
    var c := Reverse(u);
    forall i | 0 <= i < |c|
      ensures c[i] in schema && !schema[c[i]].proxy
    {
      assert c[i] == u[|u| - 1 - i];
    }
    forall i, j | 0 <= i < j < |c|
      ensures schema[c[i]].level < schema[c[j]].level
    {
      assert c[i] == u[|u| - 1 - i] && c[j] == u[|u| - 1 - j];
    }
  }

  /** Reversing a walk that moves to each model's first non-proxy parent links each model to the one before it. */
  lemma ReverseLinks(schema: Schema, u: seq<ModelId>)
    requires ValidSchema(schema) && forall x :: x in u ==> x in schema
    requires forall i :: 0 <= i < |u| - 1 ==> ParentOf(schema, u[i]) == Some(u[i + 1])
    ensures var c := Reverse(u);
      forall i :: 0 <= i < |c| - 1 ==> ParentOf(schema, c[i + 1]) == Some(c[i])
  {
    var c := Reverse(u);
    forall i | 0 <= i < |c| - 1
      ensures ParentOf(schema, c[i + 1]) == Some(c[i])
    {
      assert c[i + 1] == u[|u| - 2 - i] && c[i] == u[|u| - 1 - i];
    }
  }

  /** `_get_inheritance_chain()` lists non-proxy models only, their levels growing down the chain. */
  lemma InheritanceChainMembers(schema: Schema, model: ModelId)
    requires ValidSchema(schema) && model in schema
    ensures var c := InheritanceChain(schema, model);
      (forall i :: 0 <= i < |c| ==> c[i] in schema && !schema[c[i]].proxy) &&
      (forall i, j :: 0 <= i < j < |c| ==> schema[c[i]].level < schema[c[j]].level)
  {
    var u := ChainUp(schema, model);
    ChainUpMembers(schema, model);
    ReverseFalling(schema, u);
  }

  /**
   * `_get_inheritance_chain()` runs from a root without a non-proxy parent down to
   * `self.model` (when it is not a proxy itself), each model being the first non-proxy
   * parent of the next one.
   */
  lemma InheritanceChainLinks(schema: Schema, model: ModelId)
    requires ValidSchema(schema) && model in schema
    ensures var c := InheritanceChain(schema, model);
      (c != [] ==> ParentOf(schema, c[0]) == None) &&
      (forall i :: 0 <= i < |c| - 1 ==> ParentOf(schema, c[i + 1]) == Some(c[i])) &&
      (!schema[model].proxy ==> c != [] && c[|c| - 1] == model)
  {
    var u := ChainUp(schema, model);
    ChainUpLinks(schema, model);
    ReverseLinks(schema, u);
  }

  /** Both halves of what `_get_inheritance_chain()` returns, for its callers. */
  lemma InheritanceChainFacts(schema: Schema, model: ModelId)
    requires ValidSchema(schema) && model in schema
    ensures var c := InheritanceChain(schema, model);
      (forall i :: 0 <= i < |c| ==> c[i] in schema && !schema[c[i]].proxy) &&
      (c != [] ==> ParentOf(schema, c[0]) == None) &&
      (forall i :: 0 <= i < |c| - 1 ==> ParentOf(schema, c[i + 1]) == Some(c[i])) &&
      (!schema[model].proxy ==> c != [] && c[|c| - 1] == model)
  {
    InheritanceChainMembers(schema, model);
    InheritanceChainLinks(schema, model);
  }

  /** Regrouping a concatenation of three sequences. */
  lemma Assoc<T>(a: seq<T>, b: seq<T>, c: seq<T>)
    ensures (a + b) + c == a + (b + c)
  {
  }

  // ---------------------------------------------------------------------------------------
  // _create_parent_instance and _create_child_instance
  // ---------------------------------------------------------------------------------------

  /** Whether the copy loop copies `f` from `source`: the source has it (and, for a child, `f` is no `AutoField`). */
  predicate Copies(source: Instance, f: FieldMeta, skipAuto: bool) {
    f.name in source.attrs && !(skipAuto && f.isAuto)
  }

  /** The copy loop: `setattr(x, f.name, getattr(source, f.name))` for each copied field, in field order. */
  function CopyInto(x: Instance, source: Instance, fields: seq<FieldMeta>, skipAuto: bool): (r: Instance)
    ensures r.model == x.model && r.pk == x.pk && r.adding == x.adding && r.db == x.db && r.cache == x.cache
  {
    if fields == [] then x
    else
      var f := fields[|fields| - 1];
      var y := CopyInto(x, source, fields[..|fields| - 1], skipAuto);
      if Copies(source, f, skipAuto) then SetAttr(y, f.name, source.attrs[f.name]) else y
  }

  /** Some field of `fields` called `n` is copied from `source`. */
  ghost predicate CopiedName(source: Instance, fields: seq<FieldMeta>, skipAuto: bool, n: string) {
    exists k :: 0 <= k < |fields| && fields[k].name == n && Copies(source, fields[k], skipAuto)
  }

  lemma CopiedNameSnoc(source: Instance, fields: seq<FieldMeta>, skipAuto: bool, n: string)
    requires fields != []
    ensures var f := fields[|fields| - 1];
      CopiedName(source, fields, skipAuto, n) <==>
      CopiedName(source, fields[..|fields| - 1], skipAuto, n) || (f.name == n && Copies(source, f, skipAuto))
  {
    var init := fields[..|fields| - 1];
    if CopiedName(source, init, skipAuto, n) {
      var k :| 0 <= k < |init| && init[k].name == n && Copies(source, init[k], skipAuto);
      assert fields[k] == init[k];
    }
    if CopiedName(source, fields, skipAuto, n) {
      var k :| 0 <= k < |fields| && fields[k].name == n && Copies(source, fields[k], skipAuto);
      if k < |init| {
        assert init[k] == fields[k];
      }
    }
  }

  /**
   * The copy loop changes only attributes: each name some copied field carries ends up with
   * the source's value, every other attribute is left as it was.
   */
  lemma {:induction false} CopyIntoMeaning(x: Instance, source: Instance, fields: seq<FieldMeta>, skipAuto: bool)
    ensures var y := CopyInto(x, source, fields, skipAuto);
      y == x.(attrs := y.attrs) &&
      forall n :: Attr(y, n) == if CopiedName(source, fields, skipAuto, n) then Attr(source, n) else Attr(x, n)
  {
    if fields != [] {
      var init := fields[..|fields| - 1];
      CopyIntoMeaning(x, source, init, skipAuto);
      forall n | true
        ensures CopiedName(source, fields, skipAuto, n) <==>
          CopiedName(source, init, skipAuto, n) || (fields[|fields| - 1].name == n && Copies(source, fields[|fields| - 1], skipAuto))
      {
        CopiedNameSnoc(source, fields, skipAuto, n);
      }
    }
  }

  /** The index of the first of `fields[i..]` whose relation points at `target`. */
  function FirstLink(fields: seq<FieldMeta>, target: ModelId, i: nat): (r: Option<nat>)
    requires i <= |fields|
    ensures r.Some? ==> i <= r.value < |fields|
    decreases |fields| - i
  {
    if i == |fields| then None
    else if fields[i].remote == Some(target) then Some(i)
    else FirstLink(fields, target, i + 1)
  }

  /** `FirstLink` finds the first field from `i` on that relates to `target`; `None` means there is none. */
  lemma {:induction false} FirstLinkMeaning(fields: seq<FieldMeta>, target: ModelId, i: nat)
    requires i <= |fields|
    ensures var r := FirstLink(fields, target, i);
      (r.Some? ==> fields[r.value].remote == Some(target) &&
                   (forall j :: i <= j < r.value ==> fields[j].remote != Some(target))) &&
      (r.None? ==> forall j :: i <= j < |fields| ==> fields[j].remote != Some(target))
    decreases |fields| - i
  {
    if i < |fields| && fields[i].remote != Some(target) {
      FirstLinkMeaning(fields, target, i + 1);
    }
  }

  /**
   * What the instance builders read of a parent instance they link to: its model class and
   * its pk (a relation attribute holds a reference to the row, `VObj(model, pk)`).
   */
  datatype Ref = Ref(model: ModelId, pk: Option<int>)

  function RefOf(current: Option<Instance>): (r: Option<Ref>) {
    if current.None? then None else Some(Ref(current.value.model, current.value.pk))
  }

  function Refs(parents: seq<Instance>): (r: seq<Ref>)
    ensures |r| == |parents| && forall k :: 0 <= k < |parents| ==> r[k] == Ref(parents[k].model, parents[k].pk)
  {
    seq(|parents|, k requires 0 <= k < |parents| => Ref(parents[k].model, parents[k].pk))
  }

  /** The field `_create_parent_instance` points at `current`: the first local field related to its model. */
  function LinkName(schema: Schema, parentModel: ModelId, current: Option<Ref>): (r: Option<string>)
    requires parentModel in schema
  {
    var local := schema[parentModel].localFields;
    if current.None? then None
    else
      match FirstLink(local, current.value.model, 0)
      case None => None
      case Some(k) => Some(local[k].name)
  }

  /**
   * Whether `f` is the primary key of model `m` as a parent link: the link to the first entry
   * of `_meta.parents` is the model's primary key, and assigning a parent instance to it
   * through its descriptor also gives the instance that parent's pk.
   */
  predicate PkLink(schema: Schema, m: ModelId, f: FieldMeta) {
    m in schema && schema[m].parents != [] && schema[m].parents[0].link == Some(f)
  }

  /**
   * Whether `_create_parent_instance` points a `parentModel` instance at a `target` instance
   * through `parentModel`'s primary-key parent link, so that the instance takes the target's pk.
   */
  predicate ParentLinked(schema: Schema, parentModel: ModelId, target: ModelId)
    requires parentModel in schema
  {
    var local := schema[parentModel].localFields;
    match FirstLink(local, target, 0)
    case None => false
    case Some(k) => PkLink(schema, parentModel, local[k])
  }

  /**
   * `setattr(obj, f.name, parent)` through the field's descriptor: the attribute refers to the
   * parent and, where `f` is the primary-key parent link of `m`, `obj` takes the parent's pk.
   */
  function SetLink(x: Instance, schema: Schema, m: ModelId, f: FieldMeta, p: Ref): (r: Instance) {
    var y := SetAttr(x, f.name, VObj(p.model, p.pk));
    if PkLink(schema, m, f) then y.(pk := p.pk) else y
  }

  /** `_create_parent_instance(source_obj, parent_model, current_parent)`, `current` being what it reads of `current_parent`. */
  function ParentInstance(schema: Schema, source: Instance, parentModel: ModelId, current: Option<Ref>): (r: Instance)
    requires parentModel in schema
    ensures r.model == parentModel
    ensures r.pk == if current.Some? && ParentLinked(schema, parentModel, current.value.model) then current.value.pk else None
  {
    var local := schema[parentModel].localFields;
    var x := CopyInto(NewInstance(parentModel, schema[parentModel].fields), source, local, false);
    if current.None? then x
    else
      match FirstLink(local, current.value.model, 0)
      case None => x
      case Some(k) => SetLink(x, schema, parentModel, local[k], current.value)
  }

  /**
   * Whether the parent-link descriptor refuses a parent of model `m` for a child of
   * `childModel`: the link `get_ancestor_link` gives for `m` relates to another model. For an
   * ancestor above the direct parent that is the link to the direct parent.
   */
  predicate LinkRefuses(schema: Schema, childModel: ModelId, m: ModelId) {
    var link := AncestorLink(schema, childModel, m);
    link.Some? && link.value.remote != Some(m)
  }

  /** Whether a parent `p` is assigned to a child of `childModel`, and accepted: its link relates to its own model. */
  predicate Accepted(schema: Schema, childModel: ModelId, m: ModelId) {
    var link := AncestorLink(schema, childModel, m);
    link.Some? && link.value.remote == Some(m)
  }

  /** Whether a parent `p` is accepted on the attribute `n` of a child of `childModel`. */
  predicate LinksTo(schema: Schema, childModel: ModelId, p: Ref, n: string) {
    Accepted(schema, childModel, p.model) && AncestorLink(schema, childModel, p.model).value.name == n
  }

  /** Whether a parent of model `m` is accepted on the child's primary-key parent link, giving the child its pk. */
  predicate SetsPk(schema: Schema, childModel: ModelId, m: ModelId) {
    Accepted(schema, childModel, m) && PkLink(schema, childModel, AncestorLink(schema, childModel, m).value)
  }

  /**
   * The parent-pointer loop: for each parent in order, its ancestor link (if any) is set to
   * it; a parent the link's descriptor refuses raises `ValueError`.
   */
  function LinkInto(x: Instance, schema: Schema, childModel: ModelId, parents: seq<Ref>): (r: Result<Instance>)
    ensures r.Err? ==> r.error == ValueError
  {
    if parents == [] then Ok(x)
    else
      var p := parents[|parents| - 1];
      match LinkInto(x, schema, childModel, parents[..|parents| - 1])
      case Err(e) => Err(e)
      case Ok(y) =>
        var link := AncestorLink(schema, childModel, p.model);
        if link.None? then Ok(y)
        else if link.value.remote != Some(p.model) then Err(ValueError)
        else Ok(SetLink(y, schema, childModel, link.value, p))
  }

  /**
   * The parent-pointer loop as evidently intended: each parent is set on the link that
   * relates to its own model, and an ancestor reached only through another parent is passed
   * over.
   */
  function LinkParents(x: Instance, schema: Schema, childModel: ModelId, parents: seq<Ref>): (r: Instance) {
    if parents == [] then x
    else
      var p := parents[|parents| - 1];
      var y := LinkParents(x, schema, childModel, parents[..|parents| - 1]);
      var link := AncestorLink(schema, childModel, p.model);
      if link.Some? && link.value.remote == Some(p.model) then SetLink(y, schema, childModel, link.value, p) else y
  }

  /** Some parent in `parents` is refused by its link. */
  predicate AnyRefused(schema: Schema, childModel: ModelId, parents: seq<Ref>) {
    exists i :: 0 <= i < |parents| && LinkRefuses(schema, childModel, parents[i].model)
  }

  /**
   * The parent-pointer loop raises `ValueError` exactly when a parent is refused by its link;
   * otherwise it sets what the intended loop sets.
   */
  lemma {:induction false} LinkIntoRaises(x: Instance, schema: Schema, childModel: ModelId, parents: seq<Ref>)
    ensures LinkInto(x, schema, childModel, parents) ==
      if AnyRefused(schema, childModel, parents) then Err(ValueError) else Ok(LinkParents(x, schema, childModel, parents))
  {
    if parents != [] {
      var init := parents[..|parents| - 1];
      var last := |parents| - 1;
      LinkIntoRaises(x, schema, childModel, init);
      if AnyRefused(schema, childModel, init) {
        var i :| 0 <= i < |init| && LinkRefuses(schema, childModel, init[i].model);
        assert parents[i] == init[i];
      } else if LinkRefuses(schema, childModel, parents[last].model) {
        assert AnyRefused(schema, childModel, parents);
      } else {
        forall i | 0 <= i < |parents|
          ensures !LinkRefuses(schema, childModel, parents[i].model)
        {
          if i < last {
            assert parents[i] == init[i];
          }
        }
      }
    }
  }

  /**
   * The intended parent-pointer loop changes only attributes and the pk: a link attribute
   * refers to the last parent assigned to it, and an attribute no parent is assigned to is
   * left as it was; the pk is that of the last parent accepted on the primary-key parent link,
   * or left as it was if there is none.
   */
  lemma LinkParentsMeaning(x: Instance, schema: Schema, childModel: ModelId, parents: seq<Ref>)
    ensures var y := LinkParents(x, schema, childModel, parents);
      y == x.(attrs := y.attrs, pk := y.pk) &&
      ((forall i :: 0 <= i < |parents| ==> !SetsPk(schema, childModel, parents[i].model)) ==> y.pk == x.pk) &&
      (forall i ::
         (0 <= i < |parents| && SetsPk(schema, childModel, parents[i].model) &&
          (forall i' :: i < i' < |parents| ==> !SetsPk(schema, childModel, parents[i'].model))) ==>
         y.pk == parents[i].pk) &&
      (forall n :: (forall i :: 0 <= i < |parents| ==> !LinksTo(schema, childModel, parents[i], n)) ==> Attr(y, n) == Attr(x, n)) &&
      (forall n, i ::
         (0 <= i < |parents| && LinksTo(schema, childModel, parents[i], n) &&
          (forall i' :: i < i' < |parents| ==> !LinksTo(schema, childModel, parents[i'], n))) ==>
         Attr(y, n) == VObj(parents[i].model, parents[i].pk))
  {
    LinkParentsKeeps(x, schema, childModel, parents);
    LinkParentsSets(x, schema, childModel, parents);
    LinkParentsPk(x, schema, childModel, parents);
  }

  /** The attributes no parent is accepted on, in `LinkParentsMeaning`. */
  lemma {:induction false} LinkParentsKeeps(x: Instance, schema: Schema, childModel: ModelId, parents: seq<Ref>)
    ensures var y := LinkParents(x, schema, childModel, parents);
      y == x.(attrs := y.attrs, pk := y.pk) &&
      forall n :: (forall i :: 0 <= i < |parents| ==> !LinksTo(schema, childModel, parents[i], n)) ==> Attr(y, n) == Attr(x, n)
  {
    if parents != [] {
      var init := parents[..|parents| - 1];
      LinkParentsKeeps(x, schema, childModel, init);
      LinkParentsStep(x, schema, childModel, parents);
      var y := LinkParents(x, schema, childModel, parents);
      var last := |parents| - 1;
      forall n | forall i :: 0 <= i < |parents| ==> !LinksTo(schema, childModel, parents[i], n)
        ensures Attr(y, n) == Attr(x, n)
      {
        assert !LinksTo(schema, childModel, parents[last], n);
        assert forall i :: 0 <= i < |init| ==> init[i] == parents[i];
      }
    }
  }

  /** The attributes some parent is accepted on, in `LinkParentsMeaning`. */
  lemma {:induction false} LinkParentsSets(x: Instance, schema: Schema, childModel: ModelId, parents: seq<Ref>)
    ensures var y := LinkParents(x, schema, childModel, parents);
      forall n, i ::
         (0 <= i < |parents| && LinksTo(schema, childModel, parents[i], n) &&
          (forall i' :: i < i' < |parents| ==> !LinksTo(schema, childModel, parents[i'], n))) ==>
         Attr(y, n) == VObj(parents[i].model, parents[i].pk)
  {
    if parents != [] {
      var init := parents[..|parents| - 1];
      LinkParentsSets(x, schema, childModel, init);
      LinkParentsStep(x, schema, childModel, parents);
      var y := LinkParents(x, schema, childModel, parents);
      var last := |parents| - 1;
      forall n, i | 0 <= i < |parents| && LinksTo(schema, childModel, parents[i], n) &&
          (forall i' :: i < i' < |parents| ==> !LinksTo(schema, childModel, parents[i'], n))
        ensures Attr(y, n) == VObj(parents[i].model, parents[i].pk)
      {
        if i < last {
          assert !LinksTo(schema, childModel, parents[last], n);
          assert init[i] == parents[i];
          assert forall i' :: i < i' < |init| ==> !LinksTo(schema, childModel, init[i'], n) by {
            forall i' | i < i' < |init| ensures !LinksTo(schema, childModel, init[i'], n) {
              assert init[i'] == parents[i'];
            }
          }
        }
      }
    }
  }

  /** One turn of the intended parent-pointer loop: the last parent is set on the attribute it is accepted on, if any. */
  lemma LinkParentsStep(x: Instance, schema: Schema, childModel: ModelId, parents: seq<Ref>)
    requires parents != []
    ensures var prev := LinkParents(x, schema, childModel, parents[..|parents| - 1]);
      var y := LinkParents(x, schema, childModel, parents);
      var p := parents[|parents| - 1];
      y == prev.(attrs := y.attrs, pk := y.pk) &&
      y.pk == (if SetsPk(schema, childModel, p.model) then p.pk else prev.pk) &&
      forall n :: Attr(y, n) == if LinksTo(schema, childModel, p, n) then VObj(p.model, p.pk) else Attr(prev, n)
  {
    var prev := LinkParents(x, schema, childModel, parents[..|parents| - 1]);
    var p := parents[|parents| - 1];
    if Accepted(schema, childModel, p.model) {
      var f := AncestorLink(schema, childModel, p.model).value;
      assert LinkParents(x, schema, childModel, parents) == SetLink(prev, schema, childModel, f, p);
    }
  }

  /** The pk of `LinkParentsMeaning`. */
  lemma {:induction false} LinkParentsPk(x: Instance, schema: Schema, childModel: ModelId, parents: seq<Ref>)
    ensures var y := LinkParents(x, schema, childModel, parents);
      ((forall i :: 0 <= i < |parents| ==> !SetsPk(schema, childModel, parents[i].model)) ==> y.pk == x.pk) &&
      (forall i ::
         (0 <= i < |parents| && SetsPk(schema, childModel, parents[i].model) &&
          (forall i' :: i < i' < |parents| ==> !SetsPk(schema, childModel, parents[i'].model))) ==>
         y.pk == parents[i].pk)
  {
    if parents != [] {
      var init := parents[..|parents| - 1];
      LinkParentsPk(x, schema, childModel, init);
      LinkParentsStep(x, schema, childModel, parents);
      var y := LinkParents(x, schema, childModel, parents);
      var last := |parents| - 1;
      assert forall i :: 0 <= i < |init| ==> init[i] == parents[i];
      forall i | 0 <= i < |parents| && SetsPk(schema, childModel, parents[i].model) &&
          (forall i' :: i < i' < |parents| ==> !SetsPk(schema, childModel, parents[i'].model))
        ensures y.pk == parents[i].pk
      {
        if i < last {
          assert !SetsPk(schema, childModel, parents[last].model);
          assert forall i' :: i < i' < |init| ==> !SetsPk(schema, childModel, init[i'].model);
        }
      }
    }
  }

  /** `_create_child_instance(source_obj, child_model, parent_instances)`. */
  function ChildInstance(schema: Schema, source: Instance, childModel: ModelId, parents: seq<Ref>): (r: Result<Instance>)
    requires childModel in schema
    ensures r.Err? ==> r.error == ValueError
  {
    var x := CopyInto(NewInstance(childModel, schema[childModel].fields), source, schema[childModel].localFields, true);
    LinkInto(x, schema, childModel, parents)
  }

  /**
   * A new parent instance is unsaved; it has the pk of `current` if it is pointed at `current`
   * through its primary-key parent link, and no pk otherwise; each attribute holds a reference
   * to `current` if it is the parent-link field, else the source's value if a local field of that
   * name is present on the source, else what `parent_model()` gave it.
   */
  lemma ParentInstanceFacts(schema: Schema, source: Instance, parentModel: ModelId, current: Option<Ref>)
    requires parentModel in schema
    ensures var y := ParentInstance(schema, source, parentModel, current);
      y.model == parentModel && y.adding && y.db == None && y.cache == map[] &&
      y.pk == (if current.Some? && ParentLinked(schema, parentModel, current.value.model) then current.value.pk else None) &&
      forall n :: Attr(y, n) ==
        if LinkName(schema, parentModel, current) == Some(n) then VObj(current.value.model, current.value.pk)
        else if CopiedName(source, schema[parentModel].localFields, false, n) then Attr(source, n)
        else Attr(NewInstance(parentModel, schema[parentModel].fields), n)
  {
    CopyIntoMeaning(NewInstance(parentModel, schema[parentModel].fields), source, schema[parentModel].localFields, false);
  }

  /**
   * Building a child instance raises `ValueError` exactly when one of its parents is refused
   * by the link `get_ancestor_link` gives for it. Otherwise the child is unsaved; its pk is
   * that of the last parent accepted on its primary-key parent link (none if no parent is);
   * an attribute holds a reference to the last parent accepted on it, else (no parent is)
   * the source's value if a local non-`AutoField` field of that name is present on the
   * source, else what `child_model()` gave it.
   */
  lemma ChildInstanceFacts(schema: Schema, source: Instance, childModel: ModelId, parents: seq<Ref>)
    requires childModel in schema
    ensures var r := ChildInstance(schema, source, childModel, parents);
      (r.Err? <==> AnyRefused(schema, childModel, parents)) &&
      (r.Err? ==> r.error == ValueError) &&
      (r.Ok? ==>
        var y := r.value;
        y.model == childModel && y.adding && y.db == None && y.cache == map[] &&
        ((forall i :: 0 <= i < |parents| ==> !SetsPk(schema, childModel, parents[i].model)) ==> y.pk == None) &&
        (forall i ::
           (0 <= i < |parents| && SetsPk(schema, childModel, parents[i].model) &&
            (forall i' :: i < i' < |parents| ==> !SetsPk(schema, childModel, parents[i'].model))) ==>
           y.pk == parents[i].pk) &&
        (forall n, i ::
           (0 <= i < |parents| && LinksTo(schema, childModel, parents[i], n) &&
            (forall i' :: i < i' < |parents| ==> !LinksTo(schema, childModel, parents[i'], n))) ==>
           Attr(y, n) == VObj(parents[i].model, parents[i].pk)) &&
        forall n :: (forall i :: 0 <= i < |parents| ==> !LinksTo(schema, childModel, parents[i], n)) ==>
          Attr(y, n) ==
            if CopiedName(source, schema[childModel].localFields, true, n) then Attr(source, n)
            else Attr(NewInstance(childModel, schema[childModel].fields), n))
  {
    var x := CopyInto(NewInstance(childModel, schema[childModel].fields), source, schema[childModel].localFields, true);
    CopyIntoMeaning(NewInstance(childModel, schema[childModel].fields), source, schema[childModel].localFields, true);
    LinkIntoRaises(x, schema, childModel, parents);
    LinkParentsMeaning(x, schema, childModel, parents);
  }

  // ---------------------------------------------------------------------------------------
  // _process_batch
  // ---------------------------------------------------------------------------------------

  /**
   * Whether parent `i` of step 1 is pointed at parent `i - 1` through its primary-key parent
   * link, and so is saved with that parent's key instead of drawing a new one.
   */
  predicate Inherits(schema: Schema, models: seq<ModelId>, i: nat)
    requires i < |models| && forall m :: m in models ==> m in schema
  {
    0 < i && ParentLinked(schema, models[i], models[i - 1])
  }

  /** How many of the first `n` parents of step 1 draw a new key from the database. */
  function FreshKeys(schema: Schema, models: seq<ModelId>, n: nat): (r: nat)
    requires n <= |models| && forall m :: m in models ==> m in schema
    ensures r <= n
  {
    if n == 0 then 0 else FreshKeys(schema, models, n - 1) + (if Inherits(schema, models, n - 1) then 0 else 1)
  }

  /** How many keys step 1 draws for one object. */
  function KeysPerObject(schema: Schema, models: seq<ModelId>): (r: nat)
    requires forall m :: m in models ==> m in schema
  {
    FreshKeys(schema, models, |models|)
  }

  /**
   * The key parent `i` of step 1 is saved with, the database handing out keys from `pk`: the
   * key of the parent before it if it inherits that one, else the next key not yet drawn.
   */
  function KeyOf(schema: Schema, models: seq<ModelId>, i: nat, pk: int): (r: int)
    requires i < |models| && forall m :: m in models ==> m in schema
  {
    if Inherits(schema, models, i) then KeyOf(schema, models, i - 1, pk) else pk + FreshKeys(schema, models, i)
  }

  /**
   * Step 1 of `_process_batch` for one object: the `i`-th parent, built from `obj` for
   * `models[i]`, pointing at the parent saved just before it (none for the first), and saved
   * with the database's next key `pk + FreshKeys(i)` unless it already has a pk.
   */
  function NthParent(schema: Schema, alias: string, obj: Instance, models: seq<ModelId>, i: nat, pk: int): (r: Instance)
    requires i < |models| && forall m :: m in models ==> m in schema
    ensures r.model == models[i] && r.pk == Some(KeyOf(schema, models, i, pk))
  {
    Saved(ParentInstance(schema, obj, models[i], PrevRef(schema, models, i, pk)), pk + FreshKeys(schema, models, i), alias)
  }

  /** What the `i`-th parent of step 1 reads of the parent saved before it: none for the first. */
  function PrevRef(schema: Schema, models: seq<ModelId>, i: nat, pk: int): (r: Option<Ref>)
    requires i < |models| && forall m :: m in models ==> m in schema
  {
    if i == 0 then None else Some(Ref(models[i - 1], Some(KeyOf(schema, models, i - 1, pk))))
  }

  /** Step 1 for one object, up to `n`: its first `n` parents, in model order. */
  function SavedParents(schema: Schema, alias: string, obj: Instance, models: seq<ModelId>, n: nat, pk: int): (ps: seq<Instance>)
    requires n <= |models| && forall m :: m in models ==> m in schema
    ensures |ps| == n
  {
    Tabulate(n, ParentFn(schema, alias, obj, models, pk))
  }

  /** `NthParent` as a function of the parent's position. */
  function ParentFn(schema: Schema, alias: string, obj: Instance, models: seq<ModelId>, pk: int): (f: nat --> Instance)
    requires forall m :: m in models ==> m in schema
    ensures forall k: nat :: k < |models| ==> f.requires(k)
  {
    (k: nat) requires k < |models| => NthParent(schema, alias, obj, models, k, pk)
  }

  /** `f(0)`, ..., `f(n - 1)`, built one element after the other. */
  function Tabulate<T>(n: nat, f: nat --> T): (r: seq<T>)
    requires forall k :: 0 <= k < n ==> f.requires(k)
    ensures |r| == n
  {
    if n == 0 then [] else Tabulate(n - 1, f) + [f(n - 1)]
  }

  /** Entry `k` of `Tabulate(n, f)` is `f(k)`. */
  lemma {:induction false} TabulateAt<T>(n: nat, f: nat --> T)
    requires forall k :: 0 <= k < n ==> f.requires(k)
    ensures forall k :: 0 <= k < n ==> Tabulate(n, f)[k] == f(k)
  {
    if n > 0 {
      TabulateAt(n - 1, f);
    }
  }

  /** Step 1 for one object saves parent `l` after parents `0` to `l - 1`. */
  lemma SavedParentsSnoc(schema: Schema, alias: string, obj: Instance, models: seq<ModelId>, l: nat, pk: int)
    requires l < |models| && forall m :: m in models ==> m in schema
    ensures SavedParents(schema, alias, obj, models, l + 1, pk) ==
      SavedParents(schema, alias, obj, models, l, pk) + [NthParent(schema, alias, obj, models, l, pk)]
  {
  }

  /** Parent `k` of step 1 for one object is `NthParent(k)`. */
  lemma SavedParentsAt(schema: Schema, alias: string, obj: Instance, models: seq<ModelId>, n: nat, pk: int)
    requires n <= |models| && forall m :: m in models ==> m in schema
    ensures forall k :: 0 <= k < n ==> SavedParents(schema, alias, obj, models, n, pk)[k] == NthParent(schema, alias, obj, models, k, pk)
  {
    TabulateAt(n, ParentFn(schema, alias, obj, models, pk));
  }

  /**
   * What step 2 reads of one object's saved parents: rows of `models`, row `k` with key
   * `KeyOf(k)` (`SavedRefsAt`).
   */
  function SavedRefs(schema: Schema, models: seq<ModelId>, pk: int): (r: seq<Ref>)
    requires forall m :: m in models ==> m in schema
    ensures RowsOf(r, models)
  {
    TabulateAt(|models|, RefFn(schema, models, pk));
    Tabulate(|models|, RefFn(schema, models, pk))
  }

  /** The row `SavedRefs` reads for parent `k`. */
  function RefFn(schema: Schema, models: seq<ModelId>, pk: int): (f: nat --> Ref)
    requires forall m :: m in models ==> m in schema
    ensures forall k: nat :: k < |models| ==> f.requires(k)
  {
    (k: nat) requires k < |models| => Ref(models[k], Some(KeyOf(schema, models, k, pk)))
  }

  /** Row `k` that step 2 reads of an object's saved parents is a `models[k]` row with key `KeyOf(k)`. */
  lemma SavedRefsAt(schema: Schema, models: seq<ModelId>, pk: int)
    requires forall m :: m in models ==> m in schema
    ensures var r := SavedRefs(schema, models, pk);
      |r| == |models| && forall k :: 0 <= k < |models| ==> r[k] == Ref(models[k], Some(KeyOf(schema, models, k, pk)))
  {
    TabulateAt(|models|, RefFn(schema, models, pk));
  }

  /** The parents saved for one object are rows of the chain's models, with the keys `KeyOf` gives. */
  lemma SavedParentsRefs(schema: Schema, alias: string, obj: Instance, models: seq<ModelId>, pk: int)
    requires forall m :: m in models ==> m in schema
    ensures Refs(SavedParents(schema, alias, obj, models, |models|, pk)) == SavedRefs(schema, models, pk)
  {
    var ps := SavedParents(schema, alias, obj, models, |models|, pk);
    SavedParentsAt(schema, alias, obj, models, |models|, pk);
    SavedRefsAt(schema, models, pk);
    forall k | 0 <= k < |models|
      ensures Refs(ps)[k] == SavedRefs(schema, models, pk)[k]
    {
      assert ps[k] == NthParent(schema, alias, obj, models, k, pk);
    }
  }

  /** The saves of step 1 as the log shows them: one per stored row, in order. */
  function SaveCalls(rows: seq<Instance>): (calls: seq<Call>)
    ensures |calls| == |rows| && forall i :: 0 <= i < |rows| ==> calls[i] == Call.SaveRow(rows[i])
  {
    seq(|rows|, i requires 0 <= i < |rows| => Call.SaveRow(rows[i]))
  }

  /** The log after one more object's parents are saved. */
  lemma SavesAppend(log: seq<Call>, parentsMap: seq<seq<Instance>>, ps: seq<Instance>)
    ensures log + SaveCalls(Concat(parentsMap)) + SaveCalls(ps) == log + SaveCalls(Concat(parentsMap + [ps]))
  {
    ConcatAppend(parentsMap, ps);
    SaveCallsAppend(Concat(parentsMap), ps);
    Assoc(log, SaveCalls(Concat(parentsMap)), SaveCalls(ps));
  }

  /** The saves of two runs of rows, one after the other. */
  lemma SaveCallsAppend(a: seq<Instance>, b: seq<Instance>)
    ensures SaveCalls(a + b) == SaveCalls(a) + SaveCalls(b)
  {
    assert forall i :: 0 <= i < |a + b| ==> SaveCalls(a + b)[i] == (SaveCalls(a) + SaveCalls(b))[i];
  }

  /**
   * Step 1 for a batch: each object's parents in turn, the keys running on from `pk`, each
   * object drawing `perObject` of them (`KeysPerObject`).
   */
  function BatchParents(schema: Schema, alias: string, batch: seq<Instance>, models: seq<ModelId>, pk: int, perObject: int)
    : (r: seq<seq<Instance>>)
    requires forall m :: m in models ==> m in schema
    ensures |r| == |batch|
  {
    PerObject(ParentsFn(schema, alias, models), batch, perObject, pk)
  }

  /** The parents of one object saved with keys from `key`. */
  function ParentsFn(schema: Schema, alias: string, models: seq<ModelId>): (Instance, int) -> seq<Instance>
    requires forall m :: m in models ==> m in schema
  {
    (obj, key) => SavedParents(schema, alias, obj, models, |models|, key)
  }

  /** What step 2 reads of the parents of a batch: object `j`'s parents drew keys from `pk + j * perObject`. */
  function BatchRefs(schema: Schema, models: seq<ModelId>, batch: seq<Instance>, pk: int, perObject: int): (r: seq<seq<Ref>>)
    requires forall m :: m in models ==> m in schema
    ensures |r| == |batch|
  {
    PerObject(RefsFn(schema, models), batch, perObject, pk)
  }

  /** Object `j` of a batch reads its parents as saved with keys from `pk + j * perObject`. */
  lemma BatchRefsAt(schema: Schema, models: seq<ModelId>, batch: seq<Instance>, pk: int, perObject: int, j: nat)
    requires forall m :: m in models ==> m in schema
    requires j < |batch|
    ensures BatchRefs(schema, models, batch, pk, perObject)[j] == SavedRefs(schema, models, KeyFrom(pk, j, perObject))
  {
  }

  /** The rows step 2 reads of one object's parents saved with keys from `key`. */
  function RefsFn(schema: Schema, models: seq<ModelId>): (Instance, int) -> seq<Ref>
    requires forall m :: m in models ==> m in schema
  {
    (obj, key) => SavedRefs(schema, models, key)
  }

  /** What each object's saved parents read as references. */
  function RefsAll(parentsMap: seq<seq<Instance>>): (r: seq<seq<Ref>>)
    ensures |r| == |parentsMap| && forall j :: 0 <= j < |parentsMap| ==> r[j] == Refs(parentsMap[j])
  {
    seq(|parentsMap|, j requires 0 <= j < |parentsMap| => Refs(parentsMap[j]))
  }

  /** What step 2 reads of the parents step 1 saved for a batch is, object by object, `SavedRefs`. */
  lemma BatchParentsRefs(schema: Schema, alias: string, batch: seq<Instance>, models: seq<ModelId>, pk: int, perObject: int)
    requires forall m :: m in models ==> m in schema
    ensures RefsAll(BatchParents(schema, alias, batch, models, pk, perObject)) == BatchRefs(schema, models, batch, pk, perObject)
  {
    var parents := ParentsFn(schema, alias, models);
    var refs := RefsFn(schema, models);
    forall obj, key
      ensures Refs(parents(obj, key)) == refs(obj, key)
    {
      SavedParentsRefs(schema, alias, obj, models, key);
    }
    PerObjectRefs(parents, refs, batch, perObject, pk);
  }

  /** Reading the rows of each object's parents one by one reads what `h` gives for it. */
  lemma PerObjectRefs(g: (Instance, int) -> seq<Instance>, h: (Instance, int) -> seq<Ref>, xs: seq<Instance>, perObject: int, pk: int)
    requires forall obj, key :: Refs(g(obj, key)) == h(obj, key)
    ensures RefsAll(PerObject(g, xs, perObject, pk)) == PerObject(h, xs, perObject, pk)
  {
    var l := RefsAll(PerObject(g, xs, perObject, pk));
    var r := PerObject(h, xs, perObject, pk);
    assert forall j :: 0 <= j < |xs| ==> l[j] == r[j];
  }

  /**
   * The child instances of step 2, one per object, built from the object and what it reads of
   * its parents; the first child that cannot be built raises.
   */
  function Children(schema: Schema, batch: seq<Instance>, childModel: ModelId, parents: seq<seq<Ref>>): (r: Result<seq<Instance>>)
    requires childModel in schema && |parents| == |batch|
    ensures r.Ok? <==> forall j :: 0 <= j < |batch| ==> ChildInstance(schema, batch[j], childModel, parents[j]).Ok?
    ensures r.Ok? ==> |r.value| == |batch| && forall j :: 0 <= j < |batch| ==> ChildInstance(schema, batch[j], childModel, parents[j]) == Ok(r.value[j])
    ensures r.Err? ==> r.error == ValueError
  {
    if batch == [] then Ok([])
    else
      var n := |batch| - 1;
      match Children(schema, batch[..n], childModel, parents[..n])
      case Err(e) => Err(e)
      case Ok(cs) =>
        match ChildInstance(schema, batch[n], childModel, parents[n])
        case Err(e) => Err(e)
        case Ok(c) => Ok(cs + [c])
  }

  /** Step 3: each object takes its child's pk and is marked as saved in `alias`. */
  function Refreshed(batch: seq<Instance>, inserted: seq<Instance>, alias: string): (r: seq<Instance>)
    requires |inserted| == |batch|
    ensures |r| == |batch|
    ensures forall j :: 0 <= j < |batch| ==> r[j] == batch[j].(pk := inserted[j].pk, adding := false, db := Some(alias))
  {
    seq(|batch|, j requires 0 <= j < |batch| => batch[j].(pk := inserted[j].pk, adding := false, db := Some(alias)))
  }

  /**
   * `_process_batch(batch, inheritance_chain)`, with `pk` the next key the database hands out:
   * the parents saved one at a time, the children inserted (those with a pk, then those
   * without), the batch refreshed. A child that cannot be built raises after every parent of
   * the batch is saved.
   */
  function ProcessBatchSpec(schema: Schema, db: Db, batch: seq<Instance>, chain: seq<ModelId>, pk: int)
    : (r: (Result<seq<Instance>>, seq<Call>))
    requires chain != [] && forall m :: m in chain ==> m in schema
  {
    var saves := SaveCalls(Concat(BatchParents(schema, db.alias, batch, chain[..|chain| - 1], pk, PerObjectKeys(schema, chain))));
    match BatchChildren(schema, batch, chain, pk)
    case Err(e) => (Err(e), saves)
    case Ok(children) =>
      (Ok(Refreshed(batch, WithInsertedPks(children, db.insertedPk), db.alias)), saves + InsertCalls(children))
  }

  /** Step 2 of `_process_batch` up to the insert: the batch's child instances, the parents having drawn keys from `pk`. */
  function BatchChildren(schema: Schema, batch: seq<Instance>, chain: seq<ModelId>, pk: int): (r: Result<seq<Instance>>)
    requires chain != [] && forall m :: m in chain ==> m in schema
  {
    Children(schema, batch, chain[|chain| - 1], BatchRefs(schema, chain[..|chain| - 1], batch, pk, PerObjectKeys(schema, chain)))
  }

  /** How many keys step 1 draws for one object of `chain`. */
  function PerObjectKeys(schema: Schema, chain: seq<ModelId>): (r: nat)
    requires chain != [] && forall m :: m in chain ==> m in schema
  {
    KeysPerObject(schema, chain[..|chain| - 1])
  }

  /** A way of processing one batch given the next key the database hands out: its result and its calls. */
  type BatchStepFn = (seq<Instance>, int) -> (Result<seq<Instance>>, seq<Call>)

  /** `_process_batch` as a step of the batch loop. */
  function BatchStep(schema: Schema, db: Db, chain: seq<ModelId>): (r: BatchStepFn)
    requires chain != [] && forall m :: m in chain ==> m in schema
  {
    (batch, pk) => ProcessBatchSpec(schema, db, batch, chain, pk)
  }

  /** `created_objects.extend(batch_result)` ahead of what the later batches give, or their exception. */
  function Prepend(xs: seq<Instance>, r: Result<seq<Instance>>): (res: Result<seq<Instance>>) {
    match r
    case Ok(ys) => Ok(xs + ys)
    case Err(e) => Err(e)
  }

  /** Prepending two runs of objects one at a time or together gives the same result. */
  lemma PrependAssoc(xs: seq<Instance>, ys: seq<Instance>, r: Result<seq<Instance>>)
    ensures Prepend(xs, Prepend(ys, r)) == Prepend(xs + ys, r)
  {
    if r.Ok? {
      assert xs + (ys + r.value) == (xs + ys) + r.value;
    }
  }

  /**
   * The batch loop of `_multi_table_bulk_create`: the batches in order, each through `step`,
   * every object of a batch using `perObject` keys; results and calls are concatenated, and a
   * batch that raises ends the loop with its exception.
   */
  function BatchesSpec(step: BatchStepFn, batches: seq<seq<Instance>>, perObject: int, pk: int): (Result<seq<Instance>>, seq<Call>)
    decreases |batches|
  {
    if batches == [] then (Ok([]), [])
    else
      var first := step(batches[0], pk);
      if first.0.Err? then first
      else
        var rest := BatchesSpec(step, batches[1..], perObject, KeyFrom(pk, |batches[0]|, perObject));
        (Prepend(first.0.value, rest.0), first.1 + rest.1)
  }

  /** The batches of a batch list: the first one, then the others unless the first raised. */
  lemma BatchesCons(step: BatchStepFn, b: seq<Instance>, bs: seq<seq<Instance>>, perObject: int, pk: int)
    ensures var first := step(b, pk);
      var rest := BatchesSpec(step, bs, perObject, KeyFrom(pk, |b|, perObject));
      BatchesSpec(step, [b] + bs, perObject, pk) ==
        if first.0.Err? then first else (Prepend(first.0.value, rest.0), first.1 + rest.1)
  {
    assert ([b] + bs)[1..] == bs;
  }

  /**
   * After the first batch's step, with its result and log, the rest of the batch loop starts
   * at the next key; a batch that raised ends the loop.
   */
  lemma NextBatch(step: BatchStepFn, batch: seq<Instance>, later: seq<seq<Instance>>, perObject: int, pk: int,
                  log0: seq<Call>, batchResult: Result<seq<Instance>>, log1: seq<Call>, next: int)
    requires batchResult == step(batch, pk).0 && log1 == log0 + step(batch, pk).1
    requires next == KeyFrom(pk, |batch|, perObject)
    ensures var whole := BatchesSpec(step, [batch] + later, perObject, pk);
      var rest := BatchesSpec(step, later, perObject, next);
      (batchResult.Ok? ==> whole.0 == Prepend(batchResult.value, rest.0) && log1 + rest.1 == log0 + whole.1) &&
      (batchResult.Err? ==> whole.0 == batchResult && log1 == log0 + whole.1)
  {
    var first := step(batch, pk);
    var rest := BatchesSpec(step, later, perObject, KeyFrom(pk, |batch|, perObject));
    BatchesCons(step, batch, later, perObject, pk);
    if batchResult.Ok? {
      Assoc(log0, first.1, rest.1);
    }
  }

  /** `kwargs.get('batch_size') or len(objs)`: a missing or zero size stands for all the objects. */
  function BatchSize(batchSize: Option<int>, n: nat): (r: int) {
    if batchSize.None? || batchSize.value == 0 then n else batchSize.value
  }

  /**
   * `_multi_table_bulk_create(objs, inheritance_chain, batch_size=...)`, with `pk` the next key
   * the database hands out: `range` raises `ValueError` for a step of 0 (no objects and no
   * size), yields nothing for a negative step, and otherwise slices `objs` from the front.
   */
  function MultiTableSpec(schema: Schema, db: Db, objs: seq<Instance>, chain: seq<ModelId>, batchSize: Option<int>, pk: int)
    : (r: (Result<seq<Instance>>, seq<Call>))
    requires chain != [] && forall m :: m in chain ==> m in schema
  {
    var size := BatchSize(batchSize, |objs|);
    if size == 0 then (Err(ValueError), [])
    else if size < 0 then (Ok([]), [])
    else
      BatchesSpec(BatchStep(schema, db, chain), Chunks(objs, size), PerObjectKeys(schema, chain), pk)
  }

  // ---------------------------------------------------------------------------------------
  // What the multi-table path promises
  // ---------------------------------------------------------------------------------------

  /**
   * Step 1 for one object: parent `k` is a saved row of `models[k]` with key `KeyOf(k)`; it
   * refers to parent `k - 1` through its first local field related to that model (the first
   * parent refers to none), and otherwise holds the object's value of each local field the
   * object has, or the model's default.
   */
  lemma SavedParentsFacts(schema: Schema, alias: string, obj: Instance, models: seq<ModelId>, pk: int)
    requires forall m :: m in models ==> m in schema
    ensures var ps := SavedParents(schema, alias, obj, models, |models|, pk);
      forall k :: 0 <= k < |models| ==>
        ps[k].model == models[k] && ps[k].pk == Some(KeyOf(schema, models, k, pk)) && !ps[k].adding && ps[k].db == Some(alias) &&
        forall n :: Attr(ps[k], n) ==
          if 0 < k && LinkName(schema, models[k], PrevRef(schema, models, k, pk)) == Some(n)
          then VObj(models[k - 1], Some(KeyOf(schema, models, k - 1, pk)))
          else if CopiedName(obj, schema[models[k]].localFields, false, n) then Attr(obj, n)
          else Attr(NewInstance(models[k], schema[models[k]].fields), n)
  {
    var ps := SavedParents(schema, alias, obj, models, |models|, pk);
    SavedParentsAt(schema, alias, obj, models, |models|, pk);
    forall k | 0 <= k < |models|
      ensures ps[k].model == models[k] && ps[k].pk == Some(KeyOf(schema, models, k, pk)) && !ps[k].adding && ps[k].db == Some(alias)
      ensures forall n :: Attr(ps[k], n) ==
                (if 0 < k && LinkName(schema, models[k], PrevRef(schema, models, k, pk)) == Some(n)
                 then VObj(models[k - 1], Some(KeyOf(schema, models, k - 1, pk)))
                 else if CopiedName(obj, schema[models[k]].localFields, false, n) then Attr(obj, n)
                 else Attr(NewInstance(models[k], schema[models[k]].fields), n))
    {
      NthParentFacts(schema, alias, obj, models, k, pk);
    }
  }

  /** `SavedParentsFacts` for parent `k`. */
  lemma NthParentFacts(schema: Schema, alias: string, obj: Instance, models: seq<ModelId>, k: nat, pk: int)
    requires k < |models| && forall m :: m in models ==> m in schema
    ensures var p := NthParent(schema, alias, obj, models, k, pk);
      p.model == models[k] && p.pk == Some(KeyOf(schema, models, k, pk)) && !p.adding && p.db == Some(alias) &&
      forall n :: Attr(p, n) ==
        if 0 < k && LinkName(schema, models[k], PrevRef(schema, models, k, pk)) == Some(n)
        then VObj(models[k - 1], Some(KeyOf(schema, models, k - 1, pk)))
        else if CopiedName(obj, schema[models[k]].localFields, false, n) then Attr(obj, n)
        else Attr(NewInstance(models[k], schema[models[k]].fields), n)
  {
    ParentInstanceFacts(schema, obj, models[k], PrevRef(schema, models, k, pk));
  }

  /** The keys of the first `i + 1` parents lie between `pk` and the last key drawn for them. */
  lemma {:induction false} KeyOfBounds(schema: Schema, models: seq<ModelId>, i: nat, pk: int)
    requires i < |models| && forall m :: m in models ==> m in schema
    ensures pk <= KeyOf(schema, models, i, pk) < pk + FreshKeys(schema, models, i + 1)
  {
    if Inherits(schema, models, i) {
      KeyOfBounds(schema, models, i - 1, pk);
    }
  }

  /** Drawing keys for more parents never draws fewer. */
  lemma {:induction false} FreshKeysGrow(schema: Schema, models: seq<ModelId>, a: nat, b: nat)
    requires a <= b <= |models| && forall m :: m in models ==> m in schema
    ensures FreshKeys(schema, models, a) <= FreshKeys(schema, models, b)
    decreases b - a
  {
    if a < b {
      FreshKeysGrow(schema, models, a, b - 1);
    }
  }

  /**
   * A parent that does not inherit its key is saved with a key no earlier parent of the
   * object has; one that inherits has the key of the parent before it.
   */
  lemma KeysFresh(schema: Schema, models: seq<ModelId>, pk: int)
    requires forall m :: m in models ==> m in schema
    ensures forall k, k' :: 0 <= k' < k < |models| && !Inherits(schema, models, k) ==>
      KeyOf(schema, models, k', pk) < KeyOf(schema, models, k, pk)
    ensures forall k :: 0 <= k < |models| && Inherits(schema, models, k) ==>
      KeyOf(schema, models, k, pk) == KeyOf(schema, models, k - 1, pk)
  {
    forall k, k' | 0 <= k' < k < |models| && !Inherits(schema, models, k)
      ensures KeyOf(schema, models, k', pk) < KeyOf(schema, models, k, pk)
    {
      KeyOfBounds(schema, models, k', pk);
      FreshKeysGrow(schema, models, k' + 1, k);
    }
  }

  /**
   * When every parent after the first is pointed at the one before it through its
   * primary-key parent link, all of an object's parents are saved with the key of its root
   * parent, and each object draws a single key.
   */
  lemma LinkedChainKeys(schema: Schema, models: seq<ModelId>, pk: int)
    requires models != [] && forall m :: m in models ==> m in schema
    requires forall i :: 0 < i < |models| ==> ParentLinked(schema, models[i], models[i - 1])
    ensures KeysPerObject(schema, models) == 1
    ensures forall i :: 0 <= i < |models| ==> KeyOf(schema, models, i, pk) == pk
  {
    LinkedChainPrefix(schema, models, pk, |models|);
  }

  /** `LinkedChainKeys` for the first `n` parents. */
  lemma {:induction false} LinkedChainPrefix(schema: Schema, models: seq<ModelId>, pk: int, n: nat)
    requires 0 < n <= |models| && forall m :: m in models ==> m in schema
    requires forall i :: 0 < i < |models| ==> ParentLinked(schema, models[i], models[i - 1])
    ensures FreshKeys(schema, models, n) == 1
    ensures forall i :: 0 <= i < n ==> KeyOf(schema, models, i, pk) == pk
  {
    if n > 1 {
      LinkedChainPrefix(schema, models, pk, n - 1);
      assert Inherits(schema, models, n - 1);
    } else {
      assert !Inherits(schema, models, 0);
    }
  }

  /**
   * Object `obj` as the multi-table path returns it when its parents drew keys from `pk`: it
   * carries the pk its child row has after the insert and is saved in the database in use.
   */
  function CreatedObject(schema: Schema, db: Db, obj: Instance, chain: seq<ModelId>, pk: int): (r: Instance)
    requires chain != [] && forall m :: m in chain ==> m in schema
  {
    match ChildInstance(schema, obj, chain[|chain| - 1], SavedRefs(schema, chain[..|chain| - 1], pk))
    case Ok(child) => obj.(pk := InsertedPk(child, db.insertedPk), adding := false, db := Some(db.alias))
    case Err(_) => obj  // never returned: the batch raises
  }

  type ObjectFn = (Instance, int) -> Instance

  /** `CreatedObject` as a function of the object and its first key. */
  function CreatedObjectFn(schema: Schema, db: Db, chain: seq<ModelId>): (r: ObjectFn)
    requires chain != [] && forall m :: m in chain ==> m in schema
  {
    (obj, pk) => CreatedObject(schema, db, obj, chain, pk)
  }

  /** The first key object `j` draws when each object draws `perObject` keys, the first from `pk`. */
  function KeyFrom(pk: int, j: int, perObject: int): (r: int) {
    pk + j * perObject
  }

  /** Each object through `f`, object `j` with key `KeyFrom(pk, j, perObject)`. */
  function PerObject<T>(f: (Instance, int) -> T, xs: seq<Instance>, perObject: int, pk: int): (r: seq<T>)
    ensures |r| == |xs| && forall j :: 0 <= j < |xs| ==> r[j] == f(xs[j], KeyFrom(pk, j, perObject))
  {
    seq(|xs|, j requires 0 <= j < |xs| => f(xs[j], KeyFrom(pk, j, perObject)))
  }

  /** The objects of `a + b`: those of `a`, then those of `b` from the key after `a`'s. */
  lemma PerObjectAppend<T>(f: (Instance, int) -> T, a: seq<Instance>, b: seq<Instance>, perObject: int, pk: int)
    ensures PerObject(f, a + b, perObject, pk) == PerObject(f, a, perObject, pk) + PerObject(f, b, perObject, KeyFrom(pk, |a|, perObject))
  {
    var l := PerObject(f, a + b, perObject, pk);
    var r := PerObject(f, a, perObject, pk) + PerObject(f, b, perObject, KeyFrom(pk, |a|, perObject));
    forall t | |a| <= t < |a + b|
      ensures l[t] == r[t]
    {
      assert KeyFrom(pk, t, perObject) == KeyFrom(KeyFrom(pk, |a|, perObject), t - |a|, perObject);
    }
    assert forall t :: 0 <= t < |a + b| ==> l[t] == r[t];
  }

  /** The keys `j + 1` objects draw are those of `j` objects and one more. */
  lemma KeysAfter(pk: int, j: nat, perObject: int)
    ensures KeyFrom(pk, j + 1, perObject) == KeyFrom(pk, j, perObject) + perObject
  {
  }

  /** Step 1 for one more object of a batch saves that object's parents after the others'. */
  lemma BatchParentsSnoc(schema: Schema, alias: string, batch: seq<Instance>, j: nat, models: seq<ModelId>, pk: int, perObject: int,
                         parentsMap: seq<seq<Instance>>, ps: seq<Instance>)
    requires forall m :: m in models ==> m in schema
    requires j < |batch| && parentsMap == BatchParents(schema, alias, batch[..j], models, pk, perObject)
    requires ps == SavedParents(schema, alias, batch[j], models, |models|, KeyFrom(pk, j, perObject))
    ensures parentsMap + [ps] == BatchParents(schema, alias, batch[..j + 1], models, pk, perObject)
  {
    PerObjectSnoc(ParentsFn(schema, alias, models), batch[..j], batch[j], perObject, pk);
    assert batch[..j] + [batch[j]] == batch[..j + 1];
  }

  /** The last object of a sequence takes the keys after those of the objects before it. */
  lemma PerObjectSnoc<T>(f: (Instance, int) -> T, xs: seq<Instance>, x: Instance, perObject: int, pk: int)
    ensures PerObject(f, xs + [x], perObject, pk) == PerObject(f, xs, perObject, pk) + [f(x, KeyFrom(pk, |xs|, perObject))]
  {
    var l := PerObject(f, xs + [x], perObject, pk);
    var r := PerObject(f, xs, perObject, pk) + [f(x, KeyFrom(pk, |xs|, perObject))];
    assert forall t :: 0 <= t < |xs| + 1 ==> l[t] == r[t];
  }

  /**
   * Whether building the children of `chain` raises: the link `get_ancestor_link` gives for
   * one of the parent models relates to another model.
   */
  predicate ChainRefused(schema: Schema, chain: seq<ModelId>) {
    exists k :: 0 <= k < |chain| - 1 && LinkRefuses(schema, chain[|chain| - 1], chain[k])
  }

  /** Whether `refs` are rows of `models`, in order. */
  predicate RowsOf(refs: seq<Ref>, models: seq<ModelId>) {
    |refs| == |models| && forall k :: 0 <= k < |refs| ==> refs[k].model == models[k]
  }

  /**
   * Whether a child can be built depends only on the chain: not on the object, nor on the
   * keys of the parent rows it is given.
   */
  lemma ChildRaisesIffChainRefused(schema: Schema, obj: Instance, chain: seq<ModelId>, refs: seq<Ref>)
    requires chain != [] && forall m :: m in chain ==> m in schema
    requires RowsOf(refs, chain[..|chain| - 1])
    ensures ChildInstance(schema, obj, chain[|chain| - 1], refs).Err? <==> ChainRefused(schema, chain)
  {
    var child := chain[|chain| - 1];
    var x := CopyInto(NewInstance(child, schema[child].fields), obj, schema[child].localFields, true);
    LinkIntoRaises(x, schema, child, refs);
    if ChainRefused(schema, chain) {
      var k :| 0 <= k < |chain| - 1 && LinkRefuses(schema, child, chain[k]);
      assert refs[k].model == chain[k];
    }
    if AnyRefused(schema, child, refs) {
      var i :| 0 <= i < |refs| && LinkRefuses(schema, child, refs[i].model);
      assert refs[i].model == chain[i];
    }
  }

  /**
   * `_process_batch` raises `ValueError` exactly when the batch is not empty and the chain is
   * refused; it has then saved every parent of the batch and inserted nothing.
   */
  lemma ProcessBatchRaises(schema: Schema, db: Db, batch: seq<Instance>, chain: seq<ModelId>, pk: int)
    requires chain != [] && forall m :: m in chain ==> m in schema
    ensures var (r, calls) := ProcessBatchSpec(schema, db, batch, chain, pk);
      (r.Err? <==> batch != [] && ChainRefused(schema, chain)) &&
      (r.Err? ==> r.error == ValueError &&
                  calls == SaveCalls(Concat(BatchParents(schema, db.alias, batch, chain[..|chain| - 1], pk, PerObjectKeys(schema, chain)))))
  {
    BatchChildrenRaise(schema, batch, chain, pk);
  }

  /** The children of a batch cannot be built exactly when the batch is not empty and the chain is refused. */
  lemma BatchChildrenRaise(schema: Schema, batch: seq<Instance>, chain: seq<ModelId>, pk: int)
    requires chain != [] && forall m :: m in chain ==> m in schema
    ensures BatchChildren(schema, batch, chain, pk).Err? <==> batch != [] && ChainRefused(schema, chain)
  {
    var models := chain[..|chain| - 1];
    var refs := BatchRefs(schema, models, batch, pk, PerObjectKeys(schema, chain));
    forall j | 0 <= j < |batch|
      ensures ChildInstance(schema, batch[j], chain[|chain| - 1], refs[j]).Err? <==> ChainRefused(schema, chain)
    {
      ChildRaisesIffChainRefused(schema, batch[j], chain, refs[j]);
    }
    if batch != [] && ChainRefused(schema, chain) {
      assert ChildInstance(schema, batch[0], chain[|chain| - 1], refs[0]).Err?;
    }
  }

  /**
   * `_process_batch`, when it does not raise, returns the batch's objects in order, object `j`
   * carrying the pk of its child row, whose parents drew keys from
   * `pk + j * PerObjectKeys(chain)`.
   */
  lemma ProcessBatchResults(schema: Schema, db: Db, batch: seq<Instance>, chain: seq<ModelId>, pk: int)
    requires chain != [] && forall m :: m in chain ==> m in schema
    ensures var r := ProcessBatchSpec(schema, db, batch, chain, pk).0;
      r.Ok? ==> r.value == PerObject(CreatedObjectFn(schema, db, chain), batch, PerObjectKeys(schema, chain), pk)
  {
    var built := BatchChildren(schema, batch, chain, pk);
    if built.Ok? {
      assert ProcessBatchSpec(schema, db, batch, chain, pk).0 ==
        Ok(Refreshed(batch, WithInsertedPks(built.value, db.insertedPk), db.alias));
      RefreshedChildren(schema, db, batch, chain, pk);
    }
  }

  /** The batch refreshed from its inserted children is `CreatedObject` of each object with its own keys. */
  lemma RefreshedChildren(schema: Schema, db: Db, batch: seq<Instance>, chain: seq<ModelId>, pk: int)
    requires chain != [] && forall m :: m in chain ==> m in schema
    requires BatchChildren(schema, batch, chain, pk).Ok?
    ensures var children := BatchChildren(schema, batch, chain, pk).value;
      Refreshed(batch, WithInsertedPks(children, db.insertedPk), db.alias) ==
      PerObject(CreatedObjectFn(schema, db, chain), batch, PerObjectKeys(schema, chain), pk)
  {
    BatchChildrenAt(schema, batch, chain, pk);
    CreatedFromChild(schema, db, chain);
    RefreshedPerObject(batch, BatchChildren(schema, batch, chain, pk).value, ChildFn(schema, chain),
                       CreatedObjectFn(schema, db, chain), db.insertedPk, db.alias, PerObjectKeys(schema, chain), pk);
  }

  /** The child instance built for an object whose parents drew keys from `key`. */
  function ChildFn(schema: Schema, chain: seq<ModelId>): (Instance, int) -> Result<Instance>
    requires chain != [] && forall m :: m in chain ==> m in schema
  {
    (obj, key) => ChildInstance(schema, obj, chain[|chain| - 1], SavedRefs(schema, chain[..|chain| - 1], key))
  }

  /** Child `j` of a batch is built from what object `j` reads of its parents, saved with keys from `pk + j * PerObjectKeys`. */
  lemma BatchChildrenAt(schema: Schema, batch: seq<Instance>, chain: seq<ModelId>, pk: int)
    requires chain != [] && forall m :: m in chain ==> m in schema
    requires BatchChildren(schema, batch, chain, pk).Ok?
    ensures var children := BatchChildren(schema, batch, chain, pk).value;
      |children| == |batch| &&
      forall j :: 0 <= j < |batch| ==> ChildFn(schema, chain)(batch[j], KeyFrom(pk, j, PerObjectKeys(schema, chain))) == Ok(children[j])
  {
    forall j | 0 <= j < |batch|
      ensures ChildFn(schema, chain)(batch[j], KeyFrom(pk, j, PerObjectKeys(schema, chain))) == Ok(BatchChildren(schema, batch, chain, pk).value[j])
    {
      BatchRefsAt(schema, chain[..|chain| - 1], batch, pk, PerObjectKeys(schema, chain), j);
    }
  }

  /** An object whose child is `c` is returned carrying `c`'s pk after the insert, saved in the database in use. */
  lemma CreatedFromChild(schema: Schema, db: Db, chain: seq<ModelId>)
    requires chain != [] && forall m :: m in chain ==> m in schema
    ensures forall obj, key, c :: ChildFn(schema, chain)(obj, key) == Ok(c) ==>
      CreatedObjectFn(schema, db, chain)(obj, key) == obj.(pk := InsertedPk(c, db.insertedPk), adding := false, db := Some(db.alias))
  {
  }

  /**
   * Refreshing a batch from the children `child` builds for each object with its own keys
   * gives `f` of each object when `f` returns an object carrying its child's pk after the insert.
   */
  lemma RefreshedPerObject(batch: seq<Instance>, children: seq<Instance>, child: (Instance, int) -> Result<Instance>, f: ObjectFn,
                           insertedPk: Instance -> Option<int>, alias: string, perObject: int, pk: int)
    requires |children| == |batch| && forall j :: 0 <= j < |batch| ==> child(batch[j], KeyFrom(pk, j, perObject)) == Ok(children[j])
    requires forall obj, key, c :: child(obj, key) == Ok(c) ==>
      f(obj, key) == obj.(pk := InsertedPk(c, insertedPk), adding := false, db := Some(alias))
    ensures Refreshed(batch, WithInsertedPks(children, insertedPk), alias) == PerObject(f, batch, perObject, pk)
  {
    var r := Refreshed(batch, WithInsertedPks(children, insertedPk), alias);
    var p := PerObject(f, batch, perObject, pk);
    assert forall j :: 0 <= j < |batch| ==> r[j] == p[j];
  }

  /**
   * `_process_batch` saves one parent row per object and ancestor, first; unless it raises,
   * it then inserts the batch's child rows, one per object: the `_batched_insert` calls of the
   * children with a pk, then of those without.
   */
  lemma ProcessBatchCalls(schema: Schema, db: Db, batch: seq<Instance>, chain: seq<ModelId>, pk: int)
    requires chain != [] && forall m :: m in chain ==> m in schema
    ensures var (r, calls) := ProcessBatchSpec(schema, db, batch, chain, pk);
      var saves := |batch| * (|chain| - 1);
      0 <= saves <= |calls| && (forall t :: 0 <= t < saves ==> calls[t].SaveRow?) &&
      (r.Err? ==> |calls| == saves) &&
      (r.Ok? ==> var children := BatchChildren(schema, batch, chain, pk);
         children.Ok? && |children.value| == |batch| && calls[saves..] == InsertCalls(children.value))
  {
    var models := chain[..|chain| - 1];
    ConcatUniformLength(BatchParents(schema, db.alias, batch, models, pk, KeysPerObject(schema, models)), |models|);
  }

  /** The batch loop, when no batch raises, returns every object of every batch, in order, each with its own keys. */
  lemma {:induction false} BatchesResults(step: BatchStepFn, f: ObjectFn, batches: seq<seq<Instance>>, perObject: int, pk: int)
    requires forall b, p :: step(b, p).0 == Ok(PerObject(f, b, perObject, p))
    ensures BatchesSpec(step, batches, perObject, pk).0 == Ok(PerObject(f, Concat(batches), perObject, pk))
  {
    if batches != [] {
      BatchesResults(step, f, batches[1..], perObject, KeyFrom(pk, |batches[0]|, perObject));
      PerObjectAppend(f, batches[0], Concat(batches[1..]), perObject, pk);
    }
  }

  /**
   * `_multi_table_bulk_create` raises `ValueError` for no objects and no batch size, and for
   * objects in batches of positive size when the chain is refused: the parents of the first
   * batch are then saved and nothing is inserted. It returns nothing (and touches nothing) for
   * a negative batch size. Otherwise it returns its objects in order, whatever the batch size,
   * each one as `_process_batch` left it with its parents' keys running on from `pk` by
   * `PerObjectKeys` per object.
   */
  lemma MultiTableFacts(schema: Schema, db: Db, objs: seq<Instance>, chain: seq<ModelId>, batchSize: Option<int>, pk: int)
    requires chain != [] && forall m :: m in chain ==> m in schema
    ensures var (r, calls) := MultiTableSpec(schema, db, objs, chain, batchSize, pk);
      var size := BatchSize(batchSize, |objs|);
      (r.Err? <==> (objs == [] && (batchSize.None? || batchSize == Some(0))) ||
                   (objs != [] && size > 0 && ChainRefused(schema, chain))) &&
      (r.Err? ==> r.error == ValueError) &&
      (objs == [] && (batchSize.None? || batchSize == Some(0)) ==> calls == []) &&
      (objs != [] && size > 0 && ChainRefused(schema, chain) ==>
         |calls| == Min(size, |objs|) * (|chain| - 1) && forall t :: 0 <= t < |calls| ==> calls[t].SaveRow?) &&
      (batchSize.Some? && batchSize.value < 0 ==> r == Ok([]) && calls == []) &&
      (size > 0 && !ChainRefused(schema, chain) ==>
         r == Ok(PerObject(CreatedObjectFn(schema, db, chain), objs, PerObjectKeys(schema, chain), pk)))
  {
    var size := BatchSize(batchSize, |objs|);
    if size > 0 {
      if ChainRefused(schema, chain) {
        if objs != [] {
          var first := objs[..Min(size, |objs|)];
          ChunksStep(objs, size, 0);
          assert objs[0..] == objs;
          ProcessBatchRaises(schema, db, first, chain, pk);
          ProcessBatchCalls(schema, db, first, chain, pk);
        } else {
          assert Chunks(objs, size) == [];
        }
      } else {
        StepResults(schema, db, chain);
        BatchesResults(BatchStep(schema, db, chain), CreatedObjectFn(schema, db, chain), Chunks(objs, size), PerObjectKeys(schema, chain), pk);
        ChunksConcat(objs, size);
      }
    }
  }

  /** `ProcessBatchResults` for every batch and every first key, for a chain that is not refused. */
  lemma StepResults(schema: Schema, db: Db, chain: seq<ModelId>)
    requires chain != [] && forall m :: m in chain ==> m in schema
    requires !ChainRefused(schema, chain)
    ensures forall b, p :: BatchStep(schema, db, chain)(b, p).0 == Ok(PerObject(CreatedObjectFn(schema, db, chain), b, PerObjectKeys(schema, chain), p))
  {
    forall b, p ensures BatchStep(schema, db, chain)(b, p).0 == Ok(PerObject(CreatedObjectFn(schema, db, chain), b, PerObjectKeys(schema, chain), p)) {
      ProcessBatchRaises(schema, db, b, chain, p);
      ProcessBatchResults(schema, db, b, chain, p);
    }
  }

  /**
   * Whether every link of `chain` sets a pk: each parent after the first is pointed at the one
   * before it through its primary-key parent link, and the child's primary-key parent link
   * relates to its direct parent.
   */
  predicate PkLinkedChain(schema: Schema, chain: seq<ModelId>)
    requires forall m :: m in chain ==> m in schema
  {
    1 < |chain| &&
    (forall i :: 0 < i < |chain| - 1 ==> ParentLinked(schema, chain[i], chain[i - 1])) &&
    SetsPk(schema, chain[|chain| - 1], chain[|chain| - 2])
  }

  /**
   * On such a chain, an object whose parents drew keys from `pk` comes back with pk `pk`: its
   * child row took it from its direct parent, which had it from the root parent.
   */
  lemma CreatedObjectRootKey(schema: Schema, db: Db, obj: Instance, chain: seq<ModelId>, pk: int)
    requires forall m :: m in chain ==> m in schema
    requires PkLinkedChain(schema, chain) && !ChainRefused(schema, chain)
    ensures CreatedObject(schema, db, obj, chain, pk) == obj.(pk := Some(pk), adding := false, db := Some(db.alias))
  {
    var models := chain[..|chain| - 1];
    var refs := SavedRefs(schema, models, pk);
    LinkedChainKeys(schema, models, pk);
    ChildRaisesIffChainRefused(schema, obj, chain, refs);
    ChildInstanceFacts(schema, obj, chain[|chain| - 1], refs);
    var last := |refs| - 1;
    assert refs[last] == Ref(chain[|chain| - 2], Some(pk));
  }

  /**
   * On such a chain, with a positive batch size, `_multi_table_bulk_create` returns every
   * object in order, object `j` saved with pk `pk + j`: the key of its root parent row, one
   * key drawn per object.
   */
  lemma LinkedChainResults(schema: Schema, db: Db, objs: seq<Instance>, chain: seq<ModelId>, batchSize: Option<int>, pk: int)
    requires forall m :: m in chain ==> m in schema
    requires PkLinkedChain(schema, chain) && !ChainRefused(schema, chain)
    requires BatchSize(batchSize, |objs|) > 0
    ensures MultiTableSpec(schema, db, objs, chain, batchSize, pk).0 == Ok(Numbered(objs, pk, db.alias))
  {
    var f := CreatedObjectFn(schema, db, chain);
    assert MultiTableSpec(schema, db, objs, chain, batchSize, pk).0 == Ok(PerObject(f, objs, 1, pk)) by {
      MultiTableFacts(schema, db, objs, chain, batchSize, pk);
      LinkedChainKeys(schema, chain[..|chain| - 1], pk);
    }
    assert PerObject(f, objs, 1, pk) == Numbered(objs, pk, db.alias) by {
      CreatedObjectsRootKeys(schema, db, chain);
      PerObjectOwnKeys(f, objs, pk, db.alias);
    }
  }

  /** The objects in order, object `j` saved in `alias` with pk `pk + j`. */
  function Numbered(objs: seq<Instance>, pk: int, alias: string): (r: seq<Instance>)
    ensures |r| == |objs| && forall j :: 0 <= j < |objs| ==> r[j] == objs[j].(pk := Some(pk + j), adding := false, db := Some(alias))
  {
    seq(|objs|, j requires 0 <= j < |objs| => objs[j].(pk := Some(pk + j), adding := false, db := Some(alias)))
  }

  /** `CreatedObjectRootKey` for every object and every first key. */
  lemma CreatedObjectsRootKeys(schema: Schema, db: Db, chain: seq<ModelId>)
    requires forall m :: m in chain ==> m in schema
    requires PkLinkedChain(schema, chain) && !ChainRefused(schema, chain)
    ensures forall obj, key :: CreatedObjectFn(schema, db, chain)(obj, key) == obj.(pk := Some(key), adding := false, db := Some(db.alias))
  {
    forall obj, key ensures CreatedObjectFn(schema, db, chain)(obj, key) == obj.(pk := Some(key), adding := false, db := Some(db.alias)) {
      CreatedObjectRootKey(schema, db, obj, chain, key);
    }
  }

  /** When each object takes its key as its pk, one key per object, object `j` gets `pk + j`. */
  lemma PerObjectOwnKeys(f: ObjectFn, objs: seq<Instance>, pk: int, alias: string)
    requires forall obj, key :: f(obj, key) == obj.(pk := Some(key), adding := false, db := Some(alias))
    ensures PerObject(f, objs, 1, pk) == Numbered(objs, pk, alias)
  {
    assert forall j :: 0 <= j < |objs| ==> PerObject(f, objs, 1, pk)[j] == Numbered(objs, pk, alias)[j];
  }

  /** Without a batch size, `_multi_table_bulk_create` processes all its objects as one batch. */
  lemma SingleBatch(schema: Schema, db: Db, objs: seq<Instance>, chain: seq<ModelId>, pk: int)
    requires chain != [] && forall m :: m in chain ==> m in schema
    requires objs != []
    ensures MultiTableSpec(schema, db, objs, chain, None, pk) == ProcessBatchSpec(schema, db, objs, chain, pk)
  {
    assert Chunks(objs, |objs|) == [objs];
    OneBatch(BatchStep(schema, db, chain), objs, PerObjectKeys(schema, chain), pk);
  }

  /** A batch loop over a single batch is that batch's step. */
  lemma OneBatch(step: BatchStepFn, b: seq<Instance>, perObject: int, pk: int)
    ensures BatchesSpec(step, [b], perObject, pk) == step(b, pk)
  {
    var first := step(b, pk);
    if first.0.Ok? {
      assert BatchesSpec(step, [b], perObject, pk) == (Prepend(first.0.value, Ok([])), first.1 + []);
      assert first.0.value + [] == first.0.value && first.1 + [] == first.1;
    }
  }

  // ---------------------------------------------------------------------------------------
  // The manager
  // ---------------------------------------------------------------------------------------

  class MultiTableBulkCreateManager {
    /** `self.model` */
    const model: ModelId
    /** The `_meta` of every model class the manager can reach. */
    const schema: Schema

    constructor (model: ModelId, schema: Schema)
      ensures this.model == model && this.schema == schema
    {
      this.model := model;
      this.schema := schema;
    }

    method GetInheritanceChain() returns (chain: seq<ModelId>)
      requires ValidSchema(schema) && model in schema
      ensures chain == InheritanceChain(schema, model)
    {
      chain := [];
      var current: Option<ModelId> := Some(model);
      while current.Some?
        invariant current.Some? ==> current.value in schema
        invariant chain + (if current.Some? then ChainUp(schema, current.value) else []) == ChainUp(schema, model)
        decreases if current.Some? then schema[current.value].level + 1 else 0
      {
        var m := current.value;
        ghost var before := chain;
        ghost var head: seq<ModelId> := if schema[m].proxy then [] else [m];
        if !schema[m].proxy {
          chain := chain + [m];
        }
        assert chain == before + head;
        var parents := ConcreteParents(schema, schema[m].parents);
        current := if parents != [] then Some(parents[0]) else None;
        ghost var tail := if current.Some? then ChainUp(schema, current.value) else [];
        FirstConcreteMeaning(schema, schema[m].parents, schema[m].level);
        assert ChainUp(schema, m) == head + tail;
        Assoc(before, head, tail);
      }
      assert chain + [] == chain;
      chain := Reverse(chain);
    }

    method ProcessBatch(db: Db, batch: seq<Instance>, chain: seq<ModelId>) returns (result: Result<seq<Instance>>)
      requires chain != [] && forall m :: m in chain ==> m in schema
      modifies db
      ensures result == ProcessBatchSpec(schema, db, batch, chain, old(db.nextPk)).0
      ensures db.log == old(db.log) + ProcessBatchSpec(schema, db, batch, chain, old(db.nextPk)).1
      ensures db.nextPk == KeyFrom(old(db.nextPk), |batch|, PerObjectKeys(schema, chain))
    {
      ghost var log0 := db.log;
      var models := chain[..|chain| - 1];
      var childModel := chain[|chain| - 1];
      // Step 1
      var parentsMap := SaveBatchParents(db, batch, models);
      // Step 2, up to the insert
      BatchParentsRefs(schema, db.alias, batch, models, old(db.nextPk), KeysPerObject(schema, models));
      var built := CreateChildren(batch, childModel, parentsMap);
      if built.Err? {
        return Err(built.error);
      }
      var children := built.value;
      var inserted := db.InsertBatch(children);
      Assoc(log0, SaveCalls(Concat(parentsMap)), InsertCalls(children));
      // Step 3
      var refreshed := RefreshBatch(batch, inserted, db.alias);
      result := Ok(refreshed);
    }

    /** Step 3: each object takes its child's pk and the saved state. */
    method RefreshBatch(batch: seq<Instance>, inserted: seq<Instance>, alias: string) returns (result: seq<Instance>)
      requires |inserted| == |batch|
      ensures result == Refreshed(batch, inserted, alias)
    {
      result := batch;
      var j := 0;
      while j < |batch|
        invariant 0 <= j <= |batch| && |result| == |batch|
        invariant forall i :: 0 <= i < j ==> result[i] == batch[i].(pk := inserted[i].pk, adding := false, db := Some(alias))
        invariant forall i :: j <= i < |batch| ==> result[i] == batch[i]
      {
        result := result[j := result[j].(pk := inserted[j].pk, adding := false, db := Some(alias))];
        j := j + 1;
      }
    }

    /** The loop of step 2 that builds one child instance per object; a child that cannot be built raises. */
    method CreateChildren(batch: seq<Instance>, childModel: ModelId, parentsMap: seq<seq<Instance>>) returns (built: Result<seq<Instance>>)
      requires childModel in schema && |parentsMap| == |batch|
      ensures built == Children(schema, batch, childModel, RefsAll(parentsMap))
    {
      ghost var refs := RefsAll(parentsMap);
      var children := [];
      var j := 0;
      while j < |batch|
        invariant 0 <= j <= |batch| && |children| == j
        invariant forall i :: 0 <= i < j ==> ChildInstance(schema, batch[i], childModel, refs[i]) == Ok(children[i])
      {
        var child := CreateChildInstance(batch[j], childModel, parentsMap[j]);
        assert refs[j] == Refs(parentsMap[j]);
        if child.Err? {
          assert !Children(schema, batch, childModel, refs).Ok?;
          assert child.error == ValueError;
          assert Children(schema, batch, childModel, refs) == Err(ValueError);
          return Err(child.error);
        }
        children := children + [child.value];
        j := j + 1;
      }
      ghost var spec := Children(schema, batch, childModel, refs);
      assert spec.Ok? && |spec.value| == |children|;
      assert forall i :: 0 <= i < |batch| ==> spec.value[i] == children[i];
      assert spec.value == children;
      built := Ok(children);
    }

    /** The outer loop of step 1: the parents of each object of the batch, in order. */
    method SaveBatchParents(db: Db, batch: seq<Instance>, models: seq<ModelId>) returns (parentsMap: seq<seq<Instance>>)
      requires forall m :: m in models ==> m in schema
      modifies db
      ensures parentsMap == BatchParents(schema, db.alias, batch, models, old(db.nextPk), KeysPerObject(schema, models))
      ensures db.log == old(db.log) + SaveCalls(Concat(parentsMap))
      ensures db.nextPk == KeyFrom(old(db.nextPk), |batch|, KeysPerObject(schema, models))
    {
      ghost var pk0 := db.nextPk;
      ghost var log0 := db.log;
      ghost var keys := KeysPerObject(schema, models);
      parentsMap := [];
      var j := 0;
      while j < |batch|
        invariant 0 <= j <= |batch| && |parentsMap| == j
        invariant db.nextPk == KeyFrom(pk0, j, keys)
        invariant db.log == log0 + SaveCalls(Concat(parentsMap))
        invariant parentsMap == BatchParents(schema, db.alias, batch[..j], models, pk0, keys)
      {
        var ps := SaveParents(db, batch[j], models);
        BatchParentsSnoc(schema, db.alias, batch, j, models, pk0, keys, parentsMap, ps);
        SavesAppend(log0, parentsMap, ps);
        parentsMap := parentsMap + [ps];
        KeysAfter(pk0, j, keys);
        j := j + 1;
      }
      assert batch[..j] == batch;
    }

    /** The inner loop of step 1: one parent per model, each saved before the next is built. */
    method SaveParents(db: Db, obj: Instance, models: seq<ModelId>) returns (ps: seq<Instance>)
      requires forall m :: m in models ==> m in schema
      modifies db
      ensures ps == SavedParents(schema, db.alias, obj, models, |models|, old(db.nextPk))
      ensures db.log == old(db.log) + SaveCalls(ps)
      ensures db.nextPk == old(db.nextPk) + KeysPerObject(schema, models)
    {
      ghost var pk0 := db.nextPk;
      ghost var log0 := db.log;
      ps := [];
      var current: Option<Instance> := None;
      var l := 0;
      while l < |models|
        invariant 0 <= l <= |models|
        invariant db.nextPk == pk0 + FreshKeys(schema, models, l)
        invariant db.log == log0 + SaveCalls(ps)
        invariant ps == SavedParents(schema, db.alias, obj, models, l, pk0)
        invariant l < |models| ==> RefOf(current) == PrevRef(schema, models, l, pk0)
        invariant l > 0 ==> current.Some? && current.value.model == models[l - 1] && current.value.pk == Some(KeyOf(schema, models, l - 1, pk0))
      {
        var saved := SaveParent(db, obj, models, l, current, pk0);
        SavedParentsSnoc(schema, db.alias, obj, models, l, pk0);
        SaveCallsAppend(ps, [saved]);
        assert SaveCalls([saved]) == [Call.SaveRow(saved)];
        Assoc(log0, SaveCalls(ps), [Call.SaveRow(saved)]);
        ps := ps + [saved];
        current := Some(saved);
        l := l + 1;
      }
    }

    /** One turn of the inner loop of step 1: the next parent is built from `obj` and saved. */
    method SaveParent(db: Db, obj: Instance, models: seq<ModelId>, l: nat, current: Option<Instance>, ghost pk0: int)
      returns (saved: Instance)
      requires l < |models| && forall m :: m in models ==> m in schema
      requires RefOf(current) == PrevRef(schema, models, l, pk0) && db.nextPk == pk0 + FreshKeys(schema, models, l)
      modifies db
      ensures saved == NthParent(schema, db.alias, obj, models, l, pk0)
      ensures saved.model == models[l] && saved.pk == Some(KeyOf(schema, models, l, pk0))
      ensures db.log == old(db.log) + [Call.SaveRow(saved)]
      ensures db.nextPk == pk0 + FreshKeys(schema, models, l + 1)
    {
      var parent := CreateParentInstance(obj, models[l], current);
      saved := db.SaveRow(parent);
    }

    method CreateParentInstance(source: Instance, parentModel: ModelId, current: Option<Instance>) returns (x: Instance)
      requires parentModel in schema
      ensures x == ParentInstance(schema, source, parentModel, RefOf(current))
    {
      var local := schema[parentModel].localFields;
      x := NewInstance(parentModel, schema[parentModel].fields);
      x := CopyFields(x, source, local, false);
      if current.Some? {
        var i := 0;
        while i < |local|
          invariant 0 <= i <= |local|
          invariant FirstLink(local, current.value.model, i) == FirstLink(local, current.value.model, 0)
        {
          if local[i].remote == Some(current.value.model) {
            x := SetAttr(x, local[i].name, VObj(current.value.model, current.value.pk));
            if PkLink(schema, parentModel, local[i]) {
              x := x.(pk := current.value.pk);
            }
            break;
          }
          i := i + 1;
        }
      }
    }

    method CreateChildInstance(source: Instance, childModel: ModelId, parents: seq<Instance>) returns (r: Result<Instance>)
      requires childModel in schema
      ensures r == ChildInstance(schema, source, childModel, Refs(parents))
    {
      var x := NewInstance(childModel, schema[childModel].fields);
      x := CopyFields(x, source, schema[childModel].localFields, true);
      r := SetParentPointers(x, schema, childModel, parents);
    }

    /** `_multi_table_bulk_create`: the batches in turn, each one's result appended in order. */
    method MultiTableBulkCreate(db: Db, objs: seq<Instance>, chain: seq<ModelId>, batchSize: Option<int>)
      returns (created: Result<seq<Instance>>)
      requires chain != [] && forall m :: m in chain ==> m in schema
      modifies db
      ensures created == MultiTableSpec(schema, db, objs, chain, batchSize, old(db.nextPk)).0
      ensures db.log == old(db.log) + MultiTableSpec(schema, db, objs, chain, batchSize, old(db.nextPk)).1
    {
      var size := if batchSize.None? || batchSize.value == 0 then |objs| else batchSize.value;
      if size == 0 {
        return Err(ValueError);
      }
      if size < 0 {
        return Ok([]);
      }
      ghost var step := BatchStep(schema, db, chain);
      ghost var whole := BatchesSpec(step, Chunks(objs, size), PerObjectKeys(schema, chain), db.nextPk);
      var result := [];
      var i := 0;
      assert objs[0..] == objs;
      assert Prepend([], whole.0) == whole.0 by {
        if whole.0.Ok? {
          assert [] + whole.0.value == whole.0.value;
        }
      }
      while i < |objs|
        invariant 0 <= i <= |objs|
        invariant whole.0 == Prepend(result, BatchesSpec(step, Chunks(objs[i..], size), PerObjectKeys(schema, chain), db.nextPk).0)
        invariant old(db.log) + whole.1 == db.log + BatchesSpec(step, Chunks(objs[i..], size), PerObjectKeys(schema, chain), db.nextPk).1
      {
        var end := if i + size < |objs| then i + size else |objs|;
        ChunksStep(objs, size, i);
        assert end == Min(i + size, |objs|);
        ghost var later := Chunks(objs[end..], size);
        assert Chunks(objs[i..], size) == [objs[i..end]] + later;
        var batchResult := ProcessNextBatch(db, objs[i..end], later, chain, step);
        if batchResult.Err? {
          assert whole.0 == batchResult;
          return Err(batchResult.error);
        }
        ghost var after := BatchesSpec(step, Chunks(objs[end..], size), PerObjectKeys(schema, chain), db.nextPk);
        PrependAssoc(result, batchResult.value, after.0);
        result := result + batchResult.value;
        i := end;
      }
      assert objs[i..] == [] && Chunks<Instance>([], size) == [];
      assert result + [] == result;
      return Ok(result);
    }

    /**
     * One turn of the batch loop: `_process_batch` on the next batch, `later` being the
     * batches after it and `step` what `_process_batch` does to this one.
     */
    method ProcessNextBatch(db: Db, batch: seq<Instance>, ghost later: seq<seq<Instance>>, chain: seq<ModelId>, ghost step: BatchStepFn)
      returns (batchResult: Result<seq<Instance>>)
      requires chain != [] && forall m :: m in chain ==> m in schema
      requires step(batch, db.nextPk) == ProcessBatchSpec(schema, db, batch, chain, db.nextPk)
      modifies db
      ensures batchResult.Ok? ==>
                BatchesSpec(step, [batch] + later, PerObjectKeys(schema, chain), old(db.nextPk)).0 ==
                Prepend(batchResult.value, BatchesSpec(step, later, PerObjectKeys(schema, chain), db.nextPk).0)
      ensures batchResult.Ok? ==>
                db.log + BatchesSpec(step, later, PerObjectKeys(schema, chain), db.nextPk).1 ==
                old(db.log) + BatchesSpec(step, [batch] + later, PerObjectKeys(schema, chain), old(db.nextPk)).1
      ensures batchResult.Err? ==>
                BatchesSpec(step, [batch] + later, PerObjectKeys(schema, chain), old(db.nextPk)).0 == batchResult &&
                db.log == old(db.log) + BatchesSpec(step, [batch] + later, PerObjectKeys(schema, chain), old(db.nextPk)).1
    {
      ghost var log0 := db.log;
      ghost var pk0 := db.nextPk;
      ghost var first := step(batch, pk0);
      batchResult := ProcessBatch(db, batch, chain);
      assert batchResult == first.0 && db.log == log0 + first.1;
      NextBatch(step, batch, later, PerObjectKeys(schema, chain), pk0, log0, batchResult, db.log, db.nextPk);
    }

    /**
     * `bulk_create(objs, batch_size=...)`: an empty list comes back as it is; a model with at
     * most one concrete table goes to the base `bulk_create`; otherwise the multi-table path.
     */
    function BulkCreateSpec(db: Db, objs: seq<Instance>, batchSize: Option<int>, pk: int): (Result<seq<Instance>>, seq<Call>)
      requires ValidSchema(schema) && model in schema
    {
      if objs == [] then (Ok(objs), [])
      else
        var chain := InheritanceChain(schema, model);
        InheritanceChainFacts(schema, model);
        if |chain| <= 1 then (Ok(db.Created(objs)), [Call.WriteCreate(objs)])
        else MultiTableSpec(schema, db, objs, chain, batchSize, pk)
    }

    method BulkCreate(db: Db, objs: seq<Instance>, batchSize: Option<int>) returns (created: Result<seq<Instance>>)
      requires ValidSchema(schema) && model in schema
      modifies db
      ensures created == BulkCreateSpec(db, objs, batchSize, old(db.nextPk)).0
      ensures db.log == old(db.log) + BulkCreateSpec(db, objs, batchSize, old(db.nextPk)).1
    {
      if objs == [] {
        return Ok(objs);
      }
      var chain := GetInheritanceChain();
      InheritanceChainFacts(schema, model);
      if |chain| <= 1 {
        var rows := db.WriteCreate(objs);
        return Ok(rows);
      }
      created := MultiTableBulkCreate(db, objs, chain, batchSize);
    }
  }

  /**
   * `bulk_create`: an empty list comes back unchanged with no call made. A concrete model
   * without a concrete parent takes the base `bulk_create` in one call. A model whose chain
   * has a parent takes the multi-table path, which raises `ValueError` exactly when the chain
   * is refused (for a batch size that is not negative), and otherwise returns every object in
   * order, each carrying its child row's pk, its parents' keys running on from `pk` by
   * `PerObjectKeys` per object.
   */
  lemma BulkCreateFacts(mgr: MultiTableBulkCreateManager, db: Db, objs: seq<Instance>, batchSize: Option<int>, pk: int)
    requires ValidSchema(mgr.schema) && mgr.model in mgr.schema
    ensures var (r, calls) := mgr.BulkCreateSpec(db, objs, batchSize, pk);
      var concrete := !mgr.schema[mgr.model].proxy;
      var chain := InheritanceChain(mgr.schema, mgr.model);
      var negative := batchSize.Some? && batchSize.value < 0;
      (objs == [] ==> r == Ok(objs) && calls == []) &&
      (objs != [] ==> (r.Err? <==> |chain| > 1 && !negative && ChainRefused(mgr.schema, chain))) &&
      (r.Err? ==> r.error == ValueError) &&
      (objs != [] && concrete && ParentOf(mgr.schema, mgr.model).None? ==>
         r == Ok(db.Created(objs)) && calls == [Call.WriteCreate(objs)]) &&
      (objs != [] && concrete && ParentOf(mgr.schema, mgr.model).Some? && !negative && !ChainRefused(mgr.schema, chain) ==>
         |chain| > 1 && (forall m :: m in chain ==> m in mgr.schema) &&
         r == Ok(PerObject(CreatedObjectFn(mgr.schema, db, chain), objs, PerObjectKeys(mgr.schema, chain), pk)))
  {
    var schema, model := mgr.schema, mgr.model;
    var chain := InheritanceChain(schema, model);
    InheritanceChainFacts(schema, model);
    if objs != [] && |chain| > 1 {
      MultiTableFacts(schema, db, objs, chain, batchSize, pk);
    }
    if objs != [] && !schema[model].proxy && |chain| > 1 {
      assert ParentOf(schema, chain[|chain| - 1]) == Some(chain[|chain| - 2]);
    }
  }

  // ---------------------------------------------------------------------------------------
  // The usage example: BaseModel <- Person <- Employee, every model concrete
  // ---------------------------------------------------------------------------------------

  /** The parent links of the usage example; its other fields play no part here. */
  function ExampleSchema(): (r: Schema) {
    var baseLink := FieldMeta("basemodel_ptr", true, false, false, false, Some("BaseModel"), VNone);
    var personLink := FieldMeta("person_ptr", true, false, false, false, Some("Person"), VNone);
    map["BaseModel" := ModelMeta(false, false, [], [], [], 0),
        "Person" := ModelMeta(false, false, [ParentLink("BaseModel", Some(baseLink))], [baseLink], [baseLink], 1),
        "Employee" := ModelMeta(false, false, [ParentLink("Person", Some(personLink))], [baseLink, personLink], [personLink], 2)]
  }

  /**
   * As written, `Employee.objects.bulk_create(employees)` raises `ValueError` for any
   * employees and any batch size that is not negative: `get_ancestor_link(BaseModel)` on
   * Employee gives `person_ptr`, whose descriptor refuses the BaseModel parent.
   */
  lemma ExampleBulkCreateRaises(mgr: MultiTableBulkCreateManager, db: Db, objs: seq<Instance>, batchSize: Option<int>, pk: int)
    requires mgr.schema == ExampleSchema() && mgr.model == "Employee"
    requires objs != [] && !(batchSize.Some? && batchSize.value < 0)
    ensures ValidSchema(mgr.schema) && mgr.model in mgr.schema
    ensures InheritanceChain(mgr.schema, mgr.model) == ["BaseModel", "Person", "Employee"]
    ensures mgr.BulkCreateSpec(db, objs, batchSize, pk).0 == Err(ValueError)
  {
    var schema := ExampleSchema();
    assert ValidSchema(schema);
    assert ParentOf(schema, "BaseModel") == None;
    assert ChainUp(schema, "BaseModel") == ["BaseModel"];
    assert ParentOf(schema, "Person") == Some("BaseModel");
    assert ChainUp(schema, "Person") == ["Person", "BaseModel"];
    assert ParentOf(schema, "Employee") == Some("Person");
    assert ChainUp(schema, "Employee") == ["Employee", "Person", "BaseModel"];
    var chain := InheritanceChain(schema, "Employee");
    assert chain == ["BaseModel", "Person", "Employee"];
    assert AncestorLink(schema, "Person", "BaseModel") == schema["Person"].parents[0].link;
    IndirectAncestorLink(schema, "Employee", "Person", FieldMeta("person_ptr", true, false, false, false, Some("Person"), VNone), "BaseModel");
    assert LinkRefuses(schema, "Employee", chain[0]);
    assert ChainRefused(schema, chain);
    BulkCreateFacts(mgr, db, objs, batchSize, pk);
  }

  /**
   * The intended parent-pointer loop on the usage example, over what step 2 reads of the
   * parents step 1 saves for one employee: the Person parent took the BaseModel row's key
   * `pk` through its `basemodel_ptr`, and the loop raises nothing, setting the Employee's
   * `person_ptr` to the Person parent and so its pk to `pk`; the BaseModel parent is assigned
   * nowhere.
   */
  lemma ExampleLinksDirectParent(x: Instance, pk: int)
    ensures SavedRefs(ExampleSchema(), ["BaseModel", "Person"], pk) == [Ref("BaseModel", Some(pk)), Ref("Person", Some(pk))]
    ensures LinkParents(x, ExampleSchema(), "Employee", SavedRefs(ExampleSchema(), ["BaseModel", "Person"], pk)) ==
      x.(attrs := x.attrs["person_ptr" := VObj("Person", Some(pk))], pk := Some(pk))
  {
    var schema := ExampleSchema();
    var models: seq<ModelId> := ["BaseModel", "Person"];
    assert FirstLink(schema["Person"].localFields, "BaseModel", 0) == Some(0);
    assert Inherits(schema, models, 1);
    var refs := SavedRefs(schema, models, pk);
    assert refs == [Ref("BaseModel", Some(pk)), Ref("Person", Some(pk))];
    assert AncestorLink(schema, "Person", "BaseModel") == schema["Person"].parents[0].link;
    IndirectAncestorLink(schema, "Employee", "Person", FieldMeta("person_ptr", true, false, false, false, Some("Person"), VNone), "BaseModel");
    assert refs[..1] == [refs[0]] && refs[..1][..0] == [];
    assert LinkParents(x, schema, "Employee", refs[..1]) == x;
  }

  /**
   * `Person.objects.bulk_create(people)` in the usage example takes the multi-table path
   * (BaseModel, then Person) and, without a batch size, returns the people in order, person
   * `j` saved with pk `pk + j`, the key of its BaseModel row.
   */
  lemma ExamplePersonBulkCreate(mgr: MultiTableBulkCreateManager, db: Db, objs: seq<Instance>, pk: int)
    requires mgr.schema == ExampleSchema() && mgr.model == "Person" && objs != []
    ensures ValidSchema(mgr.schema) && mgr.model in mgr.schema
    ensures InheritanceChain(mgr.schema, mgr.model) == ["BaseModel", "Person"]
    ensures mgr.BulkCreateSpec(db, objs, None, pk).0 == Ok(Numbered(objs, pk, db.alias))
  {
    var schema := ExampleSchema();
    assert ValidSchema(schema);
    assert ParentOf(schema, "BaseModel") == None;
    assert ChainUp(schema, "BaseModel") == ["BaseModel"];
    assert ParentOf(schema, "Person") == Some("BaseModel");
    assert ChainUp(schema, "Person") == ["Person", "BaseModel"];
    var chain := InheritanceChain(schema, "Person");
    assert chain == ["BaseModel", "Person"];
    assert AncestorLink(schema, "Person", "BaseModel") == schema["Person"].parents[0].link;
    assert SetsPk(schema, "Person", "BaseModel");
    assert !LinkRefuses(schema, "Person", chain[0]);
    assert !ChainRefused(schema, chain);
    LinkedChainResults(schema, db, objs, chain, None, pk);
  }

  /**
   * The parent-pointer loop of `_create_child_instance`, over `parent_instances.items()`; the
   * descriptor of the link refuses an instance of another model with `ValueError`.
   */
  method SetParentPointers(target: Instance, schema: Schema, childModel: ModelId, parents: seq<Instance>) returns (r: Result<Instance>)
    ensures r == LinkInto(target, schema, childModel, Refs(parents))
  {
    var x := target;
    var j := 0;
    while j < |parents|
      invariant 0 <= j <= |parents|
      invariant LinkInto(target, schema, childModel, Refs(parents[..j])) == Ok(x)
    {
      var p := parents[j];
      assert Refs(parents[..j + 1])[..j] == Refs(parents[..j]);
      var link := AncestorLink(schema, childModel, p.model);
      if link.Some? {
        if link.value.remote != Some(p.model) {
          LinkIntoRaises(target, schema, childModel, Refs(parents));
          assert Refs(parents)[j].model == p.model;
          return Err(ValueError);
        }
        x := SetAttr(x, link.value.name, VObj(p.model, p.pk));
        if PkLink(schema, childModel, link.value) {
          x := x.(pk := p.pk);
        }
      }
      j := j + 1;
    }
    assert parents[..j] == parents;
    r := Ok(x);
  }

  /** The field-copy loop of both `_create_*_instance` methods; a child's skips `AutoField`s. */
  method CopyFields(target: Instance, source: Instance, fields: seq<FieldMeta>, skipAuto: bool) returns (x: Instance)
    ensures x == CopyInto(target, source, fields, skipAuto)
  {
    x := target;
    var i := 0;
    while i < |fields|
      invariant 0 <= i <= |fields|
      invariant x == CopyInto(target, source, fields[..i], skipAuto)
    {
      var f := fields[i];
      assert fields[..i + 1][..i] == fields[..i];
      if skipAuto && f.isAuto {
        i := i + 1;
        continue;
      }
      if f.name in source.attrs {
        x := SetAttr(x, f.name, source.attrs[f.name]);
      }
      i := i + 1;
    }
    assert fields[..i] == fields;
  }
}
