/**
 * The CASE graph API: a document holding a set of (subject, predicate, object)
 * triples, nodes with fresh blank identifiers, `Node.add` with its handling of
 * None, collections, node references and bare property names, the convenience
 * constructors (UcoObject, Trace, PropertyBundle, Relationship) and
 * `create_property_bundle`.
 *
 * Each state change is given twice: as a function on a `Doc` value (the
 * specification, about which the lemmas speak) and as a method of the class
 * `Document` that updates its fields in place and is proved to agree with it.
 */
module Case {
  import opened Wrappers
  import opened Python

  datatype Namespace = CASE | PLASO | RDF

  /** An RDF term: a blank node, an IRI in one of the namespaces in use, or a literal wrapping a Python value. */
  datatype Term = Blank(id: nat) | Iri(ns: Namespace, local: string) | Literal(value: PyValue)

  datatype Triple = Triple(subj: Term, pred: Term, obj: Term)

  const RdfType: Term := Iri(RDF, "type")
  const PropertyBundleEdge: Term := Iri(CASE, "propertyBundle")
  const CreatedTime: Term := Iri(CASE, "createdTime")

  /** A property name or type tag as a caller passes it: a plain string, or an IRI it already built. */
  datatype Name = Plain(s: string) | Uri(ns: Namespace, local: string)

  /** Bare names are placed in the CASE namespace; IRIs are kept. */
  function Qualify(n: Name): Term {
    match n
    case Plain(s) => Iri(CASE, s)
    case Uri(ns, local) => Iri(ns, local)
  }

  /** The convenience classes of the API; they differ in their default type and in `createdTime`. */
  datatype NodeClass = NodeCls | UcoObjectCls | TraceCls | PropertyBundleCls | RelationshipCls

  /**
   * The class's `RDF_TYPE`, qualified. `Node.RDF_TYPE` is None, and the CASE namespace
   * indexed by None is the bare namespace IRI, written here with an empty local name.
   */
  function DefaultType(c: NodeClass): Term {
    match c
    case NodeCls => Iri(CASE, "")
    case UcoObjectCls => Iri(CASE, "UcoObject")
    case TraceCls => Iri(CASE, "Trace")
    case PropertyBundleCls => Iri(CASE, "PropertyBundle")
    case RelationshipCls => Iri(CASE, "Relationship")
  }

  /** UcoObject and its subclasses stamp `createdTime` and may own property bundles. */
  predicate IsUcoObject(c: NodeClass) {
    c == UcoObjectCls || c == TraceCls || c == RelationshipCls
  }

  /** The type written for a node: the given tag unless it is missing or empty, then the class default. */
  function TypeTerm(c: NodeClass, tag: Option<Name>): Term {
    if tag.None? || tag.value == Plain("") then DefaultType(c) else Qualify(tag.value)
  }

  /** A node object: its blank identifier and its class. */
  datatype Node = Node(id: nat, cls: NodeClass)

  /** A value given to `Node.add`: a Python value, a node object, or an rdflib term. */
  datatype Value = Py(v: PyValue) | Ref(node: Node) | Res(term: Term)

  /** The triples `Node.add` writes for a Python value: None adds nothing, a collection adds each element. */
  function PyTriples(s: Term, p: Term, v: PyValue): set<Triple> {
    match v
    case PyNone => {}
    case PyList(items) => set i, t | 0 <= i < |items| && t in PyTriples(s, p, items[i]) :: t
    case _ => {Triple(s, p, Literal(v))}
  }

  /** The triples `Node.add` writes for any value; a node object is linked by its identifier. */
  function ValueTriples(s: Term, p: Term, v: Value): set<Triple> {
    match v
    case Py(pv) => PyTriples(s, p, pv)
    case Ref(m) => {Triple(s, p, Blank(m.id))}
    case Res(t) => {Triple(s, p, t)}
  }

  /** The triples written for keyword properties, in order. */
  function PropsTriples(s: Term, props: seq<(string, Value)>): set<Triple> {
    if props == [] then {}
    else PropsTriples(s, props[..|props| - 1]) + ValueTriples(s, Qualify(Plain(props[|props| - 1].0)), props[|props| - 1].1)
  }

  /** Everything a constructor writes for a node with identifier `id`. */
  function NodeTriples(id: nat, c: NodeClass, tag: Option<Name>, props: seq<(string, Value)>): set<Triple> {
    {Triple(Blank(id), RdfType, TypeTerm(c, tag))}
    + PropsTriples(Blank(id), props)
    + (if IsUcoObject(c) then {Triple(Blank(id), CreatedTime, Literal(PyNow))} else {})
  }

  // ----- the document as a value -----

  /** The graph and the next fresh blank identifier. */
  datatype Doc = Doc(graph: set<Triple>, next: nat)

  predicate TermBelow(t: Term, n: nat) {
    t.Blank? ==> t.id < n
  }

  predicate TripleBelow(t: Triple, n: nat) {
    TermBelow(t.subj, n) && TermBelow(t.pred, n) && TermBelow(t.obj, n)
  }

  /** Every blank node in the graph was handed out before `next`, so `next` is fresh. */
  ghost predicate WellFormed(d: Doc) {
    forall t :: t in d.graph ==> TripleBelow(t, d.next)
  }

  predicate ValueBelow(v: Value, n: nat) {
    match v
    case Py(_) => true
    case Ref(m) => m.id < n
    case Res(t) => TermBelow(t, n)
  }

  predicate PropsBelow(props: seq<(string, Value)>, n: nat) {
    forall i :: 0 <= i < |props| ==> ValueBelow(props[i].1, n)
  }

  /** `node.add(name, v)`. */
  function DocAdd(d: Doc, n: Node, name: Name, v: Value): Doc {
    Doc(d.graph + ValueTriples(Blank(n.id), Qualify(name), v), d.next)
  }

  /** Constructing a node of class `c`: a fresh identifier and the constructor's triples. */
  function DocNewNode(d: Doc, c: NodeClass, tag: Option<Name>, props: seq<(string, Value)>): (Node, Doc) {
    (Node(d.next, c), Doc(d.graph + NodeTriples(d.next, c, tag, props), d.next + 1))
  }

  /** `owner.create_property_bundle(tag, **props)`: a new PropertyBundle and one edge from the owner to it. */
  function DocCreateBundle(d: Doc, owner: Node, tag: Option<Name>, props: seq<(string, Value)>): (Node, Doc) {
    var (pb, d1) := DocNewNode(d, PropertyBundleCls, tag, props);
    (pb, DocAdd(d1, owner, Uri(CASE, "propertyBundle"), Ref(pb)))
  }

  /** `rdflib.BNode()`: a fresh blank term. */
  function DocNewBlank(d: Doc): (Term, Doc) {
    (Blank(d.next), Doc(d.graph, d.next + 1))
  }

  /** `graph.add(triple)`. */
  function DocAddTriple(d: Doc, t: Triple): Doc {
    Doc(d.graph + {t}, d.next)
  }

  // ----- what the specification promises -----

  /** True when `Node.add` writes nothing for `v`: None, or a collection holding only such values. */
  predicate Silent(v: PyValue) {
    match v
    case PyNone => true
    case PyList(items) => forall i :: 0 <= i < |items| ==> Silent(items[i])
    case _ => false
  }

  /**
   * Adding a value writes triples only about the node and the qualified property
   * name, never one whose object is the collection itself, and writes nothing at
   * all exactly when the value is None or a collection of such values.
   */
  lemma {:induction false} PyTriplesShape(s: Term, p: Term, v: PyValue)
    ensures forall t :: t in PyTriples(s, p, v) ==>
              t.subj == s && t.pred == p && t.obj.Literal? && !t.obj.value.PyList? && !t.obj.value.PyNone?
    ensures PyTriples(s, p, v) == {} <==> Silent(v)
  {
    match v
    case PyList(items) =>
      forall i | 0 <= i < |items| {
        PyTriplesShape(s, p, items[i]);
      }
      if !Silent(v) {
        var i :| 0 <= i < |items| && !Silent(items[i]);
        var t :| t in PyTriples(s, p, items[i]);
        assert t in PyTriples(s, p, v);
      }
    case _ =>
  }

  /** A collection of plain values adds exactly one triple per element, under the same property. */
  lemma AddCollection(d: Doc, n: Node, name: Name, items: seq<PyValue>)
    requires forall i :: 0 <= i < |items| ==> !items[i].PyNone? && !items[i].PyList?
    ensures DocAdd(d, n, name, Py(PyList(items))).graph
            == d.graph + set i | 0 <= i < |items| :: Triple(Blank(n.id), Qualify(name), Literal(items[i]))
  {
    var s, p := Blank(n.id), Qualify(name);
    var added := PyTriples(s, p, PyList(items));
    var expected := set i | 0 <= i < |items| :: Triple(s, p, Literal(items[i]));
    forall t | t in added ensures t in expected {
      var i :| 0 <= i < |items| && t in PyTriples(s, p, items[i]);
      assert PyTriples(s, p, items[i]) == {Triple(s, p, Literal(items[i]))};
    }
    forall t | t in expected ensures t in added {
      var i :| 0 <= i < |items| && t == Triple(s, p, Literal(items[i]));
      assert t in PyTriples(s, p, items[i]);
    }
  }

  /** Keyword properties write only about their node, under the CASE name of one of the keywords. */
  lemma {:induction false} PropsTriplesShape(s: Term, props: seq<(string, Value)>)
    ensures forall t :: t in PropsTriples(s, props) ==>
              t.subj == s && exists i :: 0 <= i < |props| && t.pred == Iri(CASE, props[i].0)
    decreases |props|
  {
    if props != [] {
      var init, last := props[..|props| - 1], props[|props| - 1];
      PropsTriplesShape(s, init);
      match last.1
      case Py(pv) => PyTriplesShape(s, Qualify(Plain(last.0)), pv);
      case _ =>
      forall t | t in PropsTriples(s, props)
        ensures t.subj == s && exists i :: 0 <= i < |props| && t.pred == Iri(CASE, props[i].0)
      {
        if t in PropsTriples(s, init) {
          var i :| 0 <= i < |init| && t.pred == Iri(CASE, init[i].0);
          assert props[i] == init[i];
        } else {
          assert t.pred == Iri(CASE, props[|props| - 1].0);
        }
      }
    }
  }

  /** Property values that name nodes below `n` only ever point at nodes below `n`. */
  lemma {:induction false} PropsTriplesBelow(s: Term, props: seq<(string, Value)>, n: nat)
    requires PropsBelow(props, n)
    ensures forall t :: t in PropsTriples(s, props) ==> TermBelow(t.obj, n)
    decreases |props|
  {
    if props != [] {
      PropsTriplesBelow(s, props[..|props| - 1], n);
      var last := props[|props| - 1];
      assert ValueBelow(last.1, n);
      match last.1
      case Py(pv) => PyTriplesShape(s, Qualify(Plain(last.0)), pv);
      case _ =>
    }
  }

  /** Each keyword property writes its own triples among those of all the keywords. */
  lemma {:induction false} PropInTriples(s: Term, props: seq<(string, Value)>, i: nat)
    requires i < |props|
    ensures ValueTriples(s, Iri(CASE, props[i].0), props[i].1) <= PropsTriples(s, props)
    decreases |props|
  {
    if i < |props| - 1 {
      PropInTriples(s, props[..|props| - 1], i);
    }
  }

  /** The triples the loop of `Node.add` has written after the first `i` elements of a collection. */
  function ItemsTriples(s: Term, p: Term, items: seq<PyValue>, i: nat): set<Triple>
    requires i <= |items|
  {
    set j, t | 0 <= j < i && t in PyTriples(s, p, items[j]) :: t
  }

  lemma ItemsTriplesStep(s: Term, p: Term, items: seq<PyValue>, i: nat)
    requires i < |items|
    ensures ItemsTriples(s, p, items, i + 1) == ItemsTriples(s, p, items, i) + PyTriples(s, p, items[i])
  {
    var l, r := ItemsTriples(s, p, items, i + 1), ItemsTriples(s, p, items, i) + PyTriples(s, p, items[i]);
    forall t | t in l ensures t in r {
      var j :| 0 <= j < i + 1 && t in PyTriples(s, p, items[j]);
      if j < i { assert t in ItemsTriples(s, p, items, i); }
    }
    forall t | t in r ensures t in l {
      if t in ItemsTriples(s, p, items, i) {
        var j :| 0 <= j < i && t in PyTriples(s, p, items[j]);
        assert 0 <= j < i + 1;
      }
    }
  }

  /** The `rdf:type` objects recorded for subject `s`. */
  function TypesOf(g: set<Triple>, s: Term): set<Term> {
    set t | t in g && t.subj == s && t.pred == RdfType :: t.obj
  }

  /** The owners that hold `x` as a property bundle. */
  function Owners(g: set<Triple>, x: Term): set<Term> {
    set t | t in g && t.pred == PropertyBundleEdge && t.obj == x :: t.subj
  }

  /**
   * Constructing a node takes a fresh identifier, writes exactly one `rdf:type`
   * (the class default when no type is given), stamps `createdTime` on every
   * UcoObject (and on nothing else unless a keyword asks for it), and keeps the
   * document well formed.
   */
  lemma NewNodeSpec(d: Doc, c: NodeClass, tag: Option<Name>, props: seq<(string, Value)>)
    requires WellFormed(d) && PropsBelow(props, d.next)
    ensures var (n, d') := DocNewNode(d, c, tag, props);
            && n.id == d.next && d'.next == d.next + 1 && WellFormed(d')
            && (forall t :: t in d.graph ==> t.subj != Blank(n.id) && t.obj != Blank(n.id))
            && TypesOf(d'.graph, Blank(n.id)) == {TypeTerm(c, tag)}
            && (tag.None? ==> TypesOf(d'.graph, Blank(n.id)) == {DefaultType(c)})
            && (IsUcoObject(c) ==> Triple(Blank(n.id), CreatedTime, Literal(PyNow)) in d'.graph)
            && ((forall i :: 0 <= i < |props| ==> props[i].0 != "createdTime") ==>
                  (IsUcoObject(c) <==> Triple(Blank(n.id), CreatedTime, Literal(PyNow)) in d'.graph))
  {
    var (n, d') := DocNewNode(d, c, tag, props);
    var s := Blank(n.id);
    var typed := Triple(s, RdfType, TypeTerm(c, tag));
    var stamp := Triple(s, CreatedTime, Literal(PyNow));
    var own := PropsTriples(s, props);
    PropsTriplesShape(s, props);
    PropsTriplesBelow(s, props, d.next);
    assert d'.graph == d.graph + {typed} + own + (if IsUcoObject(c) then {stamp} else {});
    forall t | t in d.graph ensures t.subj != s && t.obj != s {
      assert TripleBelow(t, d.next);
    }
    forall t | t in own ensures TripleBelow(t, d'.next) && t.pred != RdfType {
      var i :| 0 <= i < |props| && t.pred == Iri(CASE, props[i].0);
    }
    forall t | t in d'.graph ensures TripleBelow(t, d'.next) {
      if t in d.graph { assert TripleBelow(t, d.next); }
    }
    assert typed in d'.graph;
    forall t | t in d'.graph && t.subj == s && t.pred == RdfType ensures t == typed {
      assert t !in d.graph && t !in own;
    }
  }

  /**
   * `create_property_bundle` always makes a new node, and that node ends up with
   * exactly one owner: the object it was created on.
   */
  lemma BundleHasOneOwner(d: Doc, owner: Node, tag: Option<Name>, props: seq<(string, Value)>)
    requires WellFormed(d) && owner.id < d.next && PropsBelow(props, d.next)
    ensures var (pb, d') := DocCreateBundle(d, owner, tag, props);
            && pb.id == d.next && pb.cls == PropertyBundleCls && WellFormed(d')
            && Owners(d'.graph, Blank(pb.id)) == {Blank(owner.id)}
            && TypesOf(d'.graph, Blank(pb.id)) == {TypeTerm(PropertyBundleCls, tag)}
  {
    var (pb, d1) := DocNewNode(d, PropertyBundleCls, tag, props);
    var (pb', d') := DocCreateBundle(d, owner, tag, props);
    NewNodeSpec(d, PropertyBundleCls, tag, props);
    var x := Blank(pb.id);
    var edge := Triple(Blank(owner.id), PropertyBundleEdge, x);
    assert d'.graph == d1.graph + {edge};
    PropsTriplesBelow(x, props, d.next);
    forall t | t in d1.graph && t.pred == PropertyBundleEdge ensures t.obj != x {
      if t in d.graph {
        assert TripleBelow(t, d.next);
      } else if t in PropsTriples(x, props) {
        assert TermBelow(t.obj, d.next);
      }
    }
    assert edge in d'.graph;
    forall t | t in d'.graph ensures TripleBelow(t, d'.next) {
      if t != edge { assert t in d1.graph; }
    }
    assert TypesOf(d'.graph, x) == TypesOf(d1.graph, x);
  }

  /** The property bundles attached to `owner`. */
  function BundlesOf(g: set<Triple>, owner: Node): set<Term> {
    set t | t in g && t.subj == Blank(owner.id) && t.pred == PropertyBundleEdge :: t.obj
  }

  /** `create_property_bundle` gives its owner exactly one more bundle, which it did not have before. */
  lemma OneMoreBundle(d: Doc, owner: Node, tag: Option<Name>, props: seq<(string, Value)>)
    requires WellFormed(d) && owner.id < d.next
    ensures var (pb, d') := DocCreateBundle(d, owner, tag, props);
            && Blank(pb.id) !in BundlesOf(d.graph, owner)
            && BundlesOf(d'.graph, owner) == BundlesOf(d.graph, owner) + {Blank(pb.id)}
  {
    var (pb, d') := DocCreateBundle(d, owner, tag, props);
    var x := Blank(d.next);
    PropsTriplesShape(x, props);
    forall t | t in d.graph ensures t.obj != x {
      assert TripleBelow(t, d.next);
    }
    assert d'.graph == d.graph + NodeTriples(d.next, PropertyBundleCls, tag, props)
                      + {Triple(Blank(owner.id), PropertyBundleEdge, x)};
    forall t | t in NodeTriples(d.next, PropertyBundleCls, tag, props) ensures t.subj == x {
    }
  }

  /** Adding a value that names only existing nodes to an existing node keeps the document well formed. */
  lemma AddKeepsWellFormed(d: Doc, n: Node, name: Name, v: Value)
    requires WellFormed(d) && n.id < d.next && ValueBelow(v, d.next)
    ensures WellFormed(DocAdd(d, n, name, v))
  {
    if v.Py? {
      PyTriplesShape(Blank(n.id), Qualify(name), v.v);
    }
  }

  /** The subjects recorded with `rdf:type` `ty`. */
  function Typed(g: set<Triple>, ty: Term): set<Term> {
    set t | t in g && t.pred == RdfType && t.obj == ty :: t.subj
  }

  /** A node not yet handed out has no type. */
  lemma FreshUntyped(d: Doc, id: nat, ty: Term)
    requires WellFormed(d) && id >= d.next
    ensures Blank(id) !in Typed(d.graph, ty)
  {
    forall t | t in d.graph ensures t.subj != Blank(id) {
      assert TripleBelow(t, d.next);
    }
  }

  /** Adding a property never types anything. */
  lemma TypedAdd(d: Doc, n: Node, name: Name, v: Value, ty: Term)
    requires Qualify(name) != RdfType
    ensures Typed(DocAdd(d, n, name, v).graph, ty) == Typed(d.graph, ty)
  {
    if v.Py? {
      PyTriplesShape(Blank(n.id), Qualify(name), v.v);
    }
    assert forall t :: t in ValueTriples(Blank(n.id), Qualify(name), v) ==> t.pred == Qualify(name);
  }

  /** Constructing a node types exactly that node, with its own type. */
  lemma TypedNewNode(d: Doc, c: NodeClass, tag: Option<Name>, props: seq<(string, Value)>, ty: Term)
    ensures Typed(DocNewNode(d, c, tag, props).1.graph, ty)
            == Typed(d.graph, ty) + (if TypeTerm(c, tag) == ty then {Blank(d.next)} else {})
  {
    PropsTriplesShape(Blank(d.next), props);
    var added := NodeTriples(d.next, c, tag, props);
    forall t | t in PropsTriples(Blank(d.next), props) ensures t.pred != RdfType {
      var i :| 0 <= i < |props| && t.pred == Iri(CASE, props[i].0);
    }
    assert Triple(Blank(d.next), RdfType, TypeTerm(c, tag)) in added;
  }

  /** Creating a bundle types exactly the bundle. */
  lemma TypedCreateBundle(d: Doc, owner: Node, tag: Option<Name>, props: seq<(string, Value)>, ty: Term)
    ensures Typed(DocCreateBundle(d, owner, tag, props).1.graph, ty)
            == Typed(d.graph, ty) + (if TypeTerm(PropertyBundleCls, tag) == ty then {Blank(d.next)} else {})
  {
    var (pb, d1) := DocNewNode(d, PropertyBundleCls, tag, props);
    TypedNewNode(d, PropertyBundleCls, tag, props, ty);
    TypedAdd(d1, owner, Uri(CASE, "propertyBundle"), Ref(pb), ty);
  }

  /** `d'` only adds to `d`, and only triples about nodes numbered `lo` or above. */
  ghost predicate ExtendsFrom(d: Doc, d': Doc, lo: nat) {
    && d.graph <= d'.graph && d.next <= d'.next
    && forall t :: t in d'.graph - d.graph ==> t.subj.Blank? && lo <= t.subj.id
  }

  lemma ExtendsFromTrans(d1: Doc, d2: Doc, d3: Doc, lo: nat)
    requires ExtendsFrom(d1, d2, lo) && ExtendsFrom(d2, d3, lo)
    ensures ExtendsFrom(d1, d3, lo)
  {
  }

  /** Constructing a node writes only about the new node. */
  lemma NewNodeExtends(d: Doc, c: NodeClass, tag: Option<Name>, props: seq<(string, Value)>, lo: nat)
    requires lo <= d.next
    ensures ExtendsFrom(d, DocNewNode(d, c, tag, props).1, lo)
  {
    PropsTriplesShape(Blank(d.next), props);
  }

  /** Adding a property to a node writes only about that node. */
  lemma AddExtends(d: Doc, n: Node, name: Name, v: Value, lo: nat)
    requires lo <= n.id
    ensures ExtendsFrom(d, DocAdd(d, n, name, v), lo)
  {
    if v.Py? {
      PyTriplesShape(Blank(n.id), Qualify(name), v.v);
    }
  }

  /** A bundle created on a node numbered `lo` or above writes only about that node and the bundle. */
  lemma CreateBundleExtends(d: Doc, owner: Node, tag: Option<Name>, props: seq<(string, Value)>, lo: nat)
    requires lo <= d.next && lo <= owner.id
    ensures ExtendsFrom(d, DocCreateBundle(d, owner, tag, props).1, lo)
  {
    var (pb, d1) := DocNewNode(d, PropertyBundleCls, tag, props);
    NewNodeExtends(d, PropertyBundleCls, tag, props, lo);
    AddExtends(d1, owner, Uri(CASE, "propertyBundle"), Ref(pb), lo);
  }

  /** The triples about a fresh bundle are those its constructor writes: its type and its keywords. */
  lemma BundleTriples(d: Doc, owner: Node, tag: Option<Name>, props: seq<(string, Value)>)
    requires WellFormed(d) && owner.id < d.next
    ensures var (pb, d') := DocCreateBundle(d, owner, tag, props);
            forall t :: t in d'.graph && t.subj == Blank(pb.id) ==>
              t.pred == RdfType || exists i :: 0 <= i < |props| && t.pred == Iri(CASE, props[i].0)
  {
    var x := Blank(d.next);
    PropsTriplesShape(x, props);
    forall t | t in d.graph ensures t.subj != x {
      assert TripleBelow(t, d.next);
    }
  }

  /** The triples of `g` that give subject `x` a value for property `p`. */
  function Described(g: set<Triple>, x: Term, p: Term): set<Triple> {
    set t | t in g && t.subj == x && t.pred == p
  }

  /** A triple written for keyword properties comes from one of the keywords. */
  lemma {:induction false} PropsTriplesFrom(s: Term, props: seq<(string, Value)>, t: Triple)
    requires t in PropsTriples(s, props)
    ensures exists i :: 0 <= i < |props| && t in ValueTriples(s, Iri(CASE, props[i].0), props[i].1)
    decreases |props|
  {
    var init := props[..|props| - 1];
    if t in PropsTriples(s, init) {
      PropsTriplesFrom(s, init, t);
      var i :| 0 <= i < |init| && t in ValueTriples(s, Iri(CASE, init[i].0), init[i].1);
      assert props[i] == init[i];
    } else {
      assert t in ValueTriples(s, Iri(CASE, props[|props| - 1].0), props[|props| - 1].1);
    }
  }

  /**
   * On a fresh bundle, a keyword that occurs once describes the bundle with
   * exactly the triples its value writes: none for None, one per element of a
   * collection, one otherwise.
   */
  lemma FreshBundleKeyword(d: Doc, owner: Node, tag: Option<Name>, props: seq<(string, Value)>, i: nat)
    requires WellFormed(d) && owner.id < d.next
    requires i < |props| && forall j :: 0 <= j < |props| && j != i ==> props[j].0 != props[i].0
    ensures var (pb, d') := DocCreateBundle(d, owner, tag, props);
            var p := Iri(CASE, props[i].0);
            Described(d'.graph, Blank(pb.id), p) == ValueTriples(Blank(pb.id), p, props[i].1)
  {
    var x := Blank(d.next);
    var p := Iri(CASE, props[i].0);
    var (pb, d') := DocCreateBundle(d, owner, tag, props);
    PropInTriples(x, props, i);
    forall t | t in d.graph ensures t.subj != x {
      assert TripleBelow(t, d.next);
    }
    forall t | t in Described(d'.graph, x, p) ensures t in ValueTriples(x, p, props[i].1) {
      assert t in PropsTriples(x, props);
      PropsTriplesFrom(x, props, t);
      var j :| 0 <= j < |props| && t in ValueTriples(x, Iri(CASE, props[j].0), props[j].1);
      if props[j].1.Py? {
        PyTriplesShape(x, Iri(CASE, props[j].0), props[j].1.v);
      }
    }
    if props[i].1.Py? {
      PyTriplesShape(x, p, props[i].1.v);
    }
    assert PropsTriples(x, props) <= d'.graph;
    forall t | t in ValueTriples(x, p, props[i].1) ensures t in Described(d'.graph, x, p) {
      assert t in d'.graph;
    }
  }

  // ----- the document as an object -----

  /** `case.Document`: the graph every node writes into, and the source of fresh blank identifiers. */
  class Document {
    var graph: set<Triple>
    var nextId: nat

    function State(): Doc
      reads this
    {
      Doc(graph, nextId)
    }

    ghost predicate Valid()
      reads this
    {
      WellFormed(State())
    }

    constructor ()
      ensures State() == Doc({}, 0) && Valid()
    {
      graph := {};
      nextId := 0;
    }

    /** `Node.add` on node `n`. Re-adding triples already present changes nothing. */
    method Add(n: Node, name: Name, v: Value)
      modifies this
      ensures State() == DocAdd(old(State()), n, name, v)
      ensures ValueTriples(Blank(n.id), Qualify(name), v) <= old(graph) ==> graph == old(graph)
      decreases if v.Py? then v.v else PyNone
    {
      var s, p := Blank(n.id), Qualify(name);
      match v {
        case Py(pv) =>
          match pv {
            case PyNone =>
              return;
            case PyList(items) =>
              var i := 0;
              while i < |items|
                invariant 0 <= i <= |items| && nextId == old(nextId)
                invariant graph == old(graph) + ItemsTriples(s, p, items, i)
              {
                Add(n, name, Py(items[i]));
                ItemsTriplesStep(s, p, items, i);
                i := i + 1;
              }
              assert ItemsTriples(s, p, items, i) == PyTriples(s, p, pv);
            case _ =>
              graph := graph + {Triple(s, p, Literal(pv))};
          }
        case Ref(m) =>
          graph := graph + {Triple(s, p, Blank(m.id))};
        case Res(t) =>
          graph := graph + {Triple(s, p, t)};
      }
    }

    /** `Node.__init__` (and `UcoObject.__init__` for UcoObject classes). */
    method NewNode(c: NodeClass, tag: Option<Name>, props: seq<(string, Value)>) returns (n: Node)
      modifies this
      ensures (n, State()) == DocNewNode(old(State()), c, tag, props)
    {
      n := Node(nextId, c);
      nextId := nextId + 1;
      graph := graph + {Triple(Blank(n.id), RdfType, TypeTerm(c, tag))};
      var i := 0;
      while i < |props|
        invariant 0 <= i <= |props| && nextId == n.id + 1
        invariant graph == old(graph) + {Triple(Blank(n.id), RdfType, TypeTerm(c, tag))} + PropsTriples(Blank(n.id), props[..i])
      {
        Add(n, Plain(props[i].0), props[i].1);
        assert props[..i + 1][..i] == props[..i];
        i := i + 1;
      }
      assert props[..i] == props;
      if IsUcoObject(c) {
        Add(n, Plain("createdTime"), Py(PyNow));
        assert ValueTriples(Blank(n.id), Qualify(Plain("createdTime")), Py(PyNow)) == {Triple(Blank(n.id), CreatedTime, Literal(PyNow))};
      }
      assert graph == old(graph) + NodeTriples(n.id, c, tag, props);
    }

    /** `Document.create_node(type, **props)`. */
    method CreateNode(tag: Option<Name>, props: seq<(string, Value)>) returns (n: Node)
      modifies this
      ensures (n, State()) == DocNewNode(old(State()), NodeCls, tag, props)
    {
      n := NewNode(NodeCls, tag, props);
    }

    /** `Document.create_uco_object(type, **props)`. */
    method CreateUcoObject(tag: Option<Name>, props: seq<(string, Value)>) returns (n: Node)
      modifies this
      ensures (n, State()) == DocNewNode(old(State()), UcoObjectCls, tag, props)
    {
      n := NewNode(UcoObjectCls, tag, props);
    }

    /** `Document.create_trace(**props)`. */
    method CreateTrace(props: seq<(string, Value)>) returns (n: Node)
      modifies this
      ensures (n, State()) == DocNewNode(old(State()), TraceCls, None, props)
    {
      n := NewNode(TraceCls, None, props);
    }

    /** `Document.create_relationship(**props)`: a UcoObject of type Relationship. */
    method CreateRelationship(props: seq<(string, Value)>) returns (n: Node)
      modifies this
      ensures (n, State()) == DocNewNode(old(State()), RelationshipCls, None, props)
    {
      n := NewNode(RelationshipCls, None, props);
    }

    /** `Document.create_hash(hashMethod, hashValue)`: a Hash node carrying both properties. */
    method CreateHash(hashMethod: Value, hashValue: Value) returns (n: Node)
      modifies this
      ensures (n, State()) == DocNewNode(old(State()), NodeCls, Some(Uri(CASE, "Hash")),
                                         [("hashMethod", hashMethod), ("hashValue", hashValue)])
    {
      n := NewNode(NodeCls, Some(Uri(CASE, "Hash")), [("hashMethod", hashMethod), ("hashValue", hashValue)]);
    }

    /** `UcoObject.create_property_bundle(type, **props)`. */
    method CreatePropertyBundle(owner: Node, tag: Option<Name>, props: seq<(string, Value)>) returns (pb: Node)
      requires IsUcoObject(owner.cls)
      modifies this
      ensures (pb, State()) == DocCreateBundle(old(State()), owner, tag, props)
    {
      pb := NewNode(PropertyBundleCls, tag, props);
      Add(owner, Uri(CASE, "propertyBundle"), Ref(pb));
    }

    /** `rdflib.BNode()`. */
    method NewBlank() returns (b: Term)
      modifies this
      ensures (b, State()) == DocNewBlank(old(State()))
    {
      b := Blank(nextId);
      nextId := nextId + 1;
    }

    /** `graph.add(triple)`. */
    method AddTriple(t: Triple)
      modifies this
      ensures State() == DocAddTriple(old(State()), t)
    {
      graph := graph + {t};
    }
  }
}
