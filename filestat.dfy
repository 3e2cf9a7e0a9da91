/**
 * The `fs:stat` exporter: the memoised, recursive resolution of a dfvfs path
 * spec into a trace with a `File` bundle, one trace per layer of the chain and
 * one relationship from each layer to the layer it sits in; and `export_event`,
 * which writes the stat attributes and the timestamp of an event onto the
 * cached `File` bundle.
 */
module FileStat {
  import opened Wrappers
  import opened Python
  import opened Case
  import opened Records
  import opened Dfvfs
  import opened Mappings
  import opened EventExporters
  import PropertyBundles

  const TimestampMap: map<string, Name> := map[
    "atime" := Plain("accessedTime"),
    "ctime" := Plain("metadataChangedTime"),
    "crtime" := Plain("createdTime"),
    "mtime" := Plain("modifiedTime")]

  /** The value `add` receives for `mapping.get(key, None)`: the term, or None. */
  function TermValue(t: Option<Term>): Value {
    match t
    case None => Py(PyNone)
    case Some(x) => Res(x)
  }

  function P(local: string): Term { Iri(CASE, local) }

  // ----- the operations, as functions on values -----

  /**
   * The location block: a truthy location is written as `filePath`, its
   * basename is split into `fileName` and (when non-empty) `extension`. A truthy
   * location that is not a string makes `os.path.basename` raise, after
   * `filePath` was written.
   */
  function LocationF(filePb: Node, location: PyValue, d: Doc): (Result<(), PyError>, Doc) {
    if !Truthy(location) then (Ok(()), d)
    else
      var d1 := DocAdd(d, filePb, Plain("filePath"), Py(location));
      if !location.PyStr? then (Err(AttributeError("rfind")), d1)
      else
        var (root, ext) := SplitExt(Basename(location.s));
        var d2 := DocAdd(d1, filePb, Plain("fileName"), Py(PyStr(root)));
        if ext != "" then (Ok(()), DocAdd(d2, filePb, Plain("extension"), Py(PyStr(ext))))
        else (Ok(()), d2)
  }

  /** The keyword properties of the relationship from a layer to its parent. */
  function RelationshipProps(source: Node, target: Node, typeIndicator: string): seq<(string, Value)> {
    [("source", Ref(source)),
     ("target", Ref(target)),
     ("kindOfRelationship", Py(PyStr(RelationshipKind(typeIndicator)))),
     ("isDirectional", Py(PyBool(true)))]
  }

  /**
   * The relationship from a layer's trace to its parent's trace, and the
   * property bundle its type indicator calls for, attached to the relationship.
   */
  function LinkF(trace: Node, parentTrace: Node, ps: PathSpec, d: Doc): (Result<Node, PyError>, Doc) {
    var (rel, d1) := DocNewNode(d, RelationshipCls, None, RelationshipProps(trace, parentTrace, ps.typeIndicator));
    AttachF(rel, ps, d1)
  }

  /** The property bundle of the layer's type indicator, if any rule is registered for it, attached to the relationship. */
  function AttachF(rel: Node, ps: PathSpec, d: Doc): (Result<Node, PyError>, Doc) {
    var (r, d1) := PropertyBundles.ConstructF(ps.typeIndicator, ps, d);
    match r
    case Err(e) => (Err(e), d1)
    case Ok(None) => (Ok(rel), d1)
    case Ok(Some(pb)) => (Ok(rel), DocAdd(d1, rel, Uri(CASE, "propertyBundle"), Res(pb)))
  }

  /**
   * The part of `export_path_spec` for a path spec not yet cached: a new trace
   * and `File` bundle, cached at once, then the location and the file-system type.
   */
  function NewLayerF(ps: PathSpec, s: ExportState): (Result<FileLayer, PyError>, ExportState) {
    var (trace, d1) := DocNewNode(s.doc, TraceCls, None, []);
    var (filePb, d2) := DocCreateBundle(d1, trace, Some(Plain("File")), []);
    var c := s.caches.(pathSpecs := s.caches.pathSpecs[ps := (trace, filePb)]);
    var (lr, d3) := LocationF(filePb, ps.Attr("location"), d2);
    if lr.Err? then (Err(lr.error), ExportState(c, d3))
    else (Ok((trace, filePb)), ExportState(c, DocAdd(d3, filePb, Plain("fileSystemType"), FileSystemTypeOf(ps))))
  }

  function FileSystemTypeOf(ps: PathSpec): Value {
    TermValue(GetTerm(FileSystemType, PyStr(ps.typeIndicator)))
  }

  /** `export_path_spec(path_spec)`: the (trace, `File` bundle) pair of the path spec. */
  function ResolveF(ps: PathSpec, s: ExportState): (Result<FileLayer, PyError>, ExportState)
    decreases ps
  {
    if ps in s.caches.pathSpecs then (Ok(s.caches.pathSpecs[ps]), s)
    else
      var (r, s1) := NewLayerF(ps, s);
      if r.Err? || ps.parent.None? then (r, s1)
      else
        var (pr, s2) := ResolveF(ps.parent.value, s1);
        if pr.Err? then (Err(pr.error), s2)
        else
          var (kr, d3) := LinkF(r.value.0, pr.value.0, ps, s2.doc);
          if kr.Err? then (Err(kr.error), ExportState(s2.caches, d3))
          else (r, ExportState(s2.caches, d3))
  }

  /** The timestamp part of `export_event`. */
  function FileTimestampF(ev: Event, trace: Node, filePb: Node, d: Doc): Doc {
    var stamp := Py(ConvertTimestamp(ev.timestamp));
    if ev.timestampDesc in TimestampMap then DocAdd(d, filePb, TimestampMap[ev.timestampDesc], stamp)
    else if ev.timestampDesc == "bkup_time" then
      DocCreateBundle(d, trace, Some(Plain("HFSFileSystem")), [("hfsBackupTime", stamp)]).1
    else if ev.timestampDesc == "dtime" then
      DocCreateBundle(d, trace, Some(Plain("ExtInode")), [("extDeletionTime", stamp)]).1
    else d
  }

  /** `export_event(event)`: an event without a path spec fails on `path_spec.comparable`. */
  function ExportEventF(ev: Event, s: ExportState): (Result<(), PyError>, ExportState) {
    if ev.pathspec.None? then (Err(AttributeError("comparable")), s)
    else
      var (r, s1) := ResolveF(ev.pathspec.value, s);
      if r.Err? then (Err(r.error), s1)
      else
        var (trace, filePb) := r.value;
        var d1 := DocAdd(s1.doc, filePb, Plain("fileSystemType"), TermValue(GetTerm(FileSystemType, ev.Attr("file_system_type"))));
        var d2 := DocAdd(d1, filePb, Plain("isAllocated"), Py(ev.Attr("is_allocated")));
        var d3 := DocAdd(d2, filePb, Plain("fileSize"), Py(ev.Attr("file_size")));
        (Ok(()), ExportState(s1.caches, FileTimestampF(ev, trace, filePb, d3)))
  }

  // ----- the operations, on the exporter object -----

  method Location(doc: Document, filePb: Node, location: PyValue) returns (r: Result<(), PyError>)
    modifies doc
    ensures (r, doc.State()) == LocationF(filePb, location, old(doc.State()))
  {
    if !Truthy(location) {
      return Ok(());
    }
    doc.Add(filePb, Plain("filePath"), Py(location));
    if !location.PyStr? {
      return Err(AttributeError("rfind"));
    }
    var (root, ext) := SplitExt(Basename(location.s));
    doc.Add(filePb, Plain("fileName"), Py(PyStr(root)));
    if ext != "" {
      doc.Add(filePb, Plain("extension"), Py(PyStr(ext)));
    }
    return Ok(());
  }

  method Link(doc: Document, trace: Node, parentTrace: Node, ps: PathSpec) returns (r: Result<Node, PyError>)
    modifies doc
    ensures (r, doc.State()) == LinkF(trace, parentTrace, ps, old(doc.State()))
  {
    var rel := doc.CreateRelationship(RelationshipProps(trace, parentTrace, ps.typeIndicator));
    r := Attach(doc, rel, ps);
  }

  method Attach(doc: Document, rel: Node, ps: PathSpec) returns (r: Result<Node, PyError>)
    modifies doc
    ensures (r, doc.State()) == AttachF(rel, ps, old(doc.State()))
  {
    var br := PropertyBundles.Construct(ps.typeIndicator, doc, ps);
    if br.Err? {
      return Err(br.error);
    }
    if br.value.Some? {
      doc.Add(rel, Uri(CASE, "propertyBundle"), Res(br.value.value));
    }
    return Ok(rel);
  }

  method NewLayer(e: EventExporter, ps: PathSpec) returns (r: Result<FileLayer, PyError>)
    modifies e, e.document
    ensures (r, e.State()) == NewLayerF(ps, old(e.State()))
  {
    var trace := e.document.CreateTrace([]);
    var filePb := e.document.CreatePropertyBundle(trace, Some(Plain("File")), []);
    e.pathSpecTraces := e.pathSpecTraces[ps := (trace, filePb)];
    var lr := Location(e.document, filePb, ps.Attr("location"));
    if lr.Err? {
      return Err(lr.error);
    }
    e.document.Add(filePb, Plain("fileSystemType"), FileSystemTypeOf(ps));
    return Ok((trace, filePb));
  }

  /** `FileStatExporter.export_path_spec`: the pair is cached before the parent is resolved. */
  method ExportPathSpec(e: EventExporter, ps: PathSpec) returns (r: Result<FileLayer, PyError>)
    modifies e, e.document
    ensures (r, e.State()) == ResolveF(ps, old(e.State()))
    decreases ps
  {
    if ps in e.pathSpecTraces {
      return Ok(e.pathSpecTraces[ps]);
    }
    r := NewLayer(e, ps);
    if r.Err? || ps.parent.None? {
      return;
    }
    var pr := ExportPathSpec(e, ps.parent.value);
    if pr.Err? {
      return Err(pr.error);
    }
    var kr := Link(e.document, r.value.0, pr.value.0, ps);
    if kr.Err? {
      return Err(kr.error);
    }
  }

  method FileTimestamp(doc: Document, ev: Event, trace: Node, filePb: Node)
    requires IsUcoObject(trace.cls)
    modifies doc
    ensures doc.State() == FileTimestampF(ev, trace, filePb, old(doc.State()))
  {
    var stamp := Py(ConvertTimestamp(ev.timestamp));
    if ev.timestampDesc in TimestampMap {
      doc.Add(filePb, TimestampMap[ev.timestampDesc], stamp);
    } else if ev.timestampDesc == "bkup_time" {
      var _ := doc.CreatePropertyBundle(trace, Some(Plain("HFSFileSystem")), [("hfsBackupTime", stamp)]);
    } else if ev.timestampDesc == "dtime" {
      var _ := doc.CreatePropertyBundle(trace, Some(Plain("ExtInode")), [("extDeletionTime", stamp)]);
    }
  }

  /** `FileStatExporter.export_event`. */
  method ExportEvent(e: EventExporter, ev: Event) returns (r: Result<(), PyError>)
    modifies e, e.document
    ensures (r, e.State()) == ExportEventF(ev, old(e.State()))
  {
    if ev.pathspec.None? {
      return Err(AttributeError("comparable"));
    }
    var pr := ExportPathSpec(e, ev.pathspec.value);
    if pr.Err? {
      return Err(pr.error);
    }
    var (trace, filePb) := pr.value;
    e.document.Add(filePb, Plain("fileSystemType"), TermValue(GetTerm(FileSystemType, ev.Attr("file_system_type"))));
    e.document.Add(filePb, Plain("isAllocated"), Py(ev.Attr("is_allocated")));
    e.document.Add(filePb, Plain("fileSize"), Py(ev.Attr("file_size")));
    FileTimestamp(e.document, ev, trace, filePb);
    return Ok(());
  }

  // ----- properties -----

  /** A new layer is a fresh trace and a fresh `File` bundle, cached under the path spec whatever else happens. */
  lemma NewLayerSpec(ps: PathSpec, s: ExportState)
    ensures var (r, s') := NewLayerF(ps, s);
            var pair := (Node(s.doc.next, TraceCls), Node(s.doc.next + 1, PropertyBundleCls));
            && s'.caches == s.caches.(pathSpecs := s.caches.pathSpecs[ps := pair])
            && (r.Ok? ==> r.value == pair)
            && s'.doc.next == s.doc.next + 2
  {
  }

  const TraceType: Term := DefaultType(TraceCls)
  const RelationshipType: Term := DefaultType(RelationshipCls)

  /**
   * A step that only describes the existing node `n`: no node is created, and
   * every new triple is about `n`, types nothing and points at no blank node.
   */
  ghost predicate Annotates(d: Doc, d': Doc, n: Node) {
    && d'.next == d.next && d.graph <= d'.graph
    && forall t :: t in d'.graph - d.graph ==>
         t.subj == Blank(n.id) && t.pred.Iri? && t.pred != RdfType && !t.obj.Blank?
  }

  lemma AddAnnotates(d: Doc, n: Node, name: Name, v: Value)
    requires Qualify(name) != RdfType
    requires v.Py? || (v.Res? && !v.term.Blank?)
    ensures Annotates(d, DocAdd(d, n, name, v), n)
  {
    if v.Py? {
      PyTriplesShape(Blank(n.id), Qualify(name), v.v);
    }
  }

  lemma AnnotatesTrans(d1: Doc, d2: Doc, d3: Doc, n: Node)
    requires Annotates(d1, d2, n) && Annotates(d2, d3, n)
    ensures Annotates(d1, d3, n)
  {
  }

  /** Describing an existing node keeps the document well formed and types nothing new. */
  lemma AnnotatesKeeps(d: Doc, d': Doc, n: Node)
    requires Annotates(d, d', n) && WellFormed(d) && n.id < d.next
    ensures WellFormed(d')
    ensures forall ty :: Typed(d'.graph, ty) == Typed(d.graph, ty)
    ensures forall x :: TypesOf(d'.graph, x) == TypesOf(d.graph, x)
  {
    forall t | t in d'.graph ensures TripleBelow(t, d'.next) {
      if t in d.graph { assert TripleBelow(t, d.next); }
    }
  }

  lemma LocationAnnotates(filePb: Node, location: PyValue, d: Doc)
    ensures Annotates(d, LocationF(filePb, location, d).1, filePb)
  {
    if Truthy(location) {
      var d1 := DocAdd(d, filePb, Plain("filePath"), Py(location));
      AddAnnotates(d, filePb, Plain("filePath"), Py(location));
      if location.PyStr? {
        var (root, ext) := SplitExt(Basename(location.s));
        var d2 := DocAdd(d1, filePb, Plain("fileName"), Py(PyStr(root)));
        AddAnnotates(d1, filePb, Plain("fileName"), Py(PyStr(root)));
        AnnotatesTrans(d, d1, d2, filePb);
        if ext != "" {
          AddAnnotates(d2, filePb, Plain("extension"), Py(PyStr(ext)));
          AnnotatesTrans(d, d2, DocAdd(d2, filePb, Plain("extension"), Py(PyStr(ext))), filePb);
        }
      }
    }
  }

  /** A trace and its `File` bundle: two fresh nodes, of which only the first is a trace. */
  lemma TraceWithFile(d: Doc)
    requires WellFormed(d)
    ensures var (trace, d1) := DocNewNode(d, TraceCls, None, []);
            var (filePb, d2) := DocCreateBundle(d1, trace, Some(Plain("File")), []);
            && trace == Node(d.next, TraceCls) && filePb == Node(d.next + 1, PropertyBundleCls)
            && WellFormed(d2) && d.graph <= d2.graph && d2.next == d.next + 2
            && Typed(d2.graph, TraceType) == Typed(d.graph, TraceType) + {Blank(d.next)}
            && Typed(d2.graph, RelationshipType) == Typed(d.graph, RelationshipType)
  {
    var (trace, d1) := DocNewNode(d, TraceCls, None, []);
    NewNodeSpec(d, TraceCls, None, []);
    TypedNewNode(d, TraceCls, None, [], TraceType);
    TypedNewNode(d, TraceCls, None, [], RelationshipType);
    BundleHasOneOwner(d1, trace, Some(Plain("File")), []);
    TypedCreateBundle(d1, trace, Some(Plain("File")), [], TraceType);
    TypedCreateBundle(d1, trace, Some(Plain("File")), [], RelationshipType);
  }

  lemma CachePair(c: ExporterCaches, ps: PathSpec, pair: FileLayer, lo: nat, hi: nat)
    requires CachesBelow(c, lo) && lo <= hi && pair.0.id < hi && pair.1.id < hi
    ensures CachesBelow(c.(pathSpecs := c.pathSpecs[ps := pair]), hi)
  {
  }

  /** The location and the file-system type only annotate the `File` bundle. */
  lemma LayerAnnotates(filePb: Node, ps: PathSpec, d2: Doc)
    ensures var (lr, d3) := LocationF(filePb, ps.Attr("location"), d2);
            Annotates(d2, if lr.Err? then d3 else DocAdd(d3, filePb, Plain("fileSystemType"), FileSystemTypeOf(ps)), filePb)
  {
    var (lr, d3) := LocationF(filePb, ps.Attr("location"), d2);
    LocationAnnotates(filePb, ps.Attr("location"), d2);
    if lr.Ok? {
      AddAnnotates(d3, filePb, Plain("fileSystemType"), FileSystemTypeOf(ps));
      AnnotatesTrans(d2, d3, DocAdd(d3, filePb, Plain("fileSystemType"), FileSystemTypeOf(ps)), filePb);
    }
  }

  /** A new layer keeps the state sound and adds exactly one trace: its own. */
  lemma NewLayerSound(ps: PathSpec, s: ExportState)
    requires Sound(s)
    ensures var (r, s') := NewLayerF(ps, s);
            && Sound(s') && s.doc.graph <= s'.doc.graph
            && Typed(s'.doc.graph, TraceType) == Typed(s.doc.graph, TraceType) + {Blank(s.doc.next)}
            && Typed(s'.doc.graph, RelationshipType) == Typed(s.doc.graph, RelationshipType)
  {
    hide LocationF, DocAdd;
    var (trace, d1) := DocNewNode(s.doc, TraceCls, None, []);
    var (filePb, d2) := DocCreateBundle(d1, trace, Some(Plain("File")), []);
    TraceWithFile(s.doc);
    var (lr, d3) := LocationF(filePb, ps.Attr("location"), d2);
    LayerAnnotates(filePb, ps, d2);
    var d4 := if lr.Err? then d3 else DocAdd(d3, filePb, Plain("fileSystemType"), FileSystemTypeOf(ps));
    AnnotatesKeeps(d2, d4, filePb);
    CachePair(s.caches, ps, (trace, filePb), s.doc.next, s.doc.next + 2);
  }

  /** What a rule's bundle does to the types: nothing outside the bundle types, and nothing about other nodes. */
  lemma FreshBundleTypes(d: Doc, d': Doc, ty: Term, x: Term)
    requires PropertyBundles.FreshBundle(d, d')
    requires ty !in PropertyBundles.BundleTypes && x != Blank(d.next)
    ensures Typed(d'.graph, ty) == Typed(d.graph, ty)
    ensures TypesOf(d'.graph, x) == TypesOf(d.graph, x)
  {
    forall t | t in d'.graph - d.graph ensures !(t.pred == RdfType && t.obj == ty) && t.subj != x {
      assert PropertyBundles.AboutBundle(t, d.next);
    }
  }

  /** Attaching the rule's bundle keeps the document well formed and only adds to it. */
  lemma AttachSpec(rel: Node, ps: PathSpec, d: Doc)
    requires WellFormed(d) && rel.id < d.next
    ensures var (r, d') := AttachF(rel, ps, d);
            && WellFormed(d') && d.graph <= d'.graph && d.next <= d'.next
            && (r.Ok? ==> r.value == rel)
  {
    var (r, d1) := PropertyBundles.ConstructF(ps.typeIndicator, ps, d);
    PropertyBundles.ConstructSpec(ps.typeIndicator, ps, d);
    if r.Ok? && r.value.Some? {
      AddKeepsWellFormed(d1, rel, Uri(CASE, "propertyBundle"), Res(r.value.value));
    }
  }

  /** Attaching the rule's bundle creates no trace or relationship and does not retype the relationship. */
  lemma AttachTypes(rel: Node, ps: PathSpec, d: Doc)
    requires WellFormed(d) && rel.id < d.next
    ensures var (r, d') := AttachF(rel, ps, d);
            && TypesOf(d'.graph, Blank(rel.id)) == TypesOf(d.graph, Blank(rel.id))
            && Typed(d'.graph, TraceType) == Typed(d.graph, TraceType)
            && Typed(d'.graph, RelationshipType) == Typed(d.graph, RelationshipType)
  {
    var (r, d1) := PropertyBundles.ConstructF(ps.typeIndicator, ps, d);
    PropertyBundles.ConstructSpec(ps.typeIndicator, ps, d);
    if ps.typeIndicator in PropertyBundles.Rules {
      FreshBundleTypes(d, d1, TraceType, Blank(rel.id));
      FreshBundleTypes(d, d1, RelationshipType, Blank(rel.id));
    }
    if r.Ok? && r.value.Some? {
      var pb := r.value.value;
      TypedAdd(d1, rel, Uri(CASE, "propertyBundle"), Res(pb), TraceType);
      TypedAdd(d1, rel, Uri(CASE, "propertyBundle"), Res(pb), RelationshipType);
      assert TypesOf(DocAdd(d1, rel, Uri(CASE, "propertyBundle"), Res(pb)).graph, Blank(rel.id)) == TypesOf(d1.graph, Blank(rel.id));
    }
  }

  /**
   * Linking a layer to its parent creates one Relationship whose source is the
   * layer's trace, whose target is the parent's trace, whose kind comes from
   * the relationship table and which is directional; it creates no trace and
   * no other relationship.
   */
  lemma LinkSpec(trace: Node, parentTrace: Node, ps: PathSpec, d: Doc)
    requires WellFormed(d) && trace.id < d.next && parentTrace.id < d.next
    ensures var (r, d') := LinkF(trace, parentTrace, ps, d);
            var rel := Blank(d.next);
            && WellFormed(d') && d.graph <= d'.graph && d.next < d'.next
            && (r.Ok? ==> r.value == Node(d.next, RelationshipCls))
            && TypesOf(d'.graph, rel) == {RelationshipType}
            && Triple(rel, P("source"), Blank(trace.id)) in d'.graph
            && Triple(rel, P("target"), Blank(parentTrace.id)) in d'.graph
            && Triple(rel, P("kindOfRelationship"), Literal(PyStr(RelationshipKind(ps.typeIndicator)))) in d'.graph
            && Triple(rel, P("isDirectional"), Literal(PyBool(true))) in d'.graph
            && Typed(d'.graph, TraceType) == Typed(d.graph, TraceType)
            && Typed(d'.graph, RelationshipType) == Typed(d.graph, RelationshipType) + {rel}
  {
    var props := RelationshipProps(trace, parentTrace, ps.typeIndicator);
    var (rel, d1) := DocNewNode(d, RelationshipCls, None, props);
    NewNodeSpec(d, RelationshipCls, None, props);
    TypedNewNode(d, RelationshipCls, None, props, TraceType);
    TypedNewNode(d, RelationshipCls, None, props, RelationshipType);
    RelationshipTriples(Blank(rel.id), props, trace, parentTrace, ps.typeIndicator);
    AttachSpec(rel, ps, d1);
    AttachTypes(rel, ps, d1);
  }

  /** The four keyword triples of a relationship. */
  lemma RelationshipTriples(x: Term, props: seq<(string, Value)>, source: Node, target: Node, typeIndicator: string)
    requires props == RelationshipProps(source, target, typeIndicator)
    ensures Triple(x, P("source"), Blank(source.id)) in PropsTriples(x, props)
    ensures Triple(x, P("target"), Blank(target.id)) in PropsTriples(x, props)
    ensures Triple(x, P("kindOfRelationship"), Literal(PyStr(RelationshipKind(typeIndicator)))) in PropsTriples(x, props)
    ensures Triple(x, P("isDirectional"), Literal(PyBool(true))) in PropsTriples(x, props)
  {
    assert props[..3][..2][..1][..0] == [];
    assert props[..3][..2] == props[..2] && props[..2][..1] == props[..1];
    assert Triple(x, P("source"), Blank(source.id)) in PropsTriples(x, props[..1]);
    assert Triple(x, P("target"), Blank(target.id)) in PropsTriples(x, props[..2]);
    assert Triple(x, P("kindOfRelationship"), Literal(PyStr(RelationshipKind(typeIndicator)))) in PropsTriples(x, props[..3]);
  }

  /** A cached path spec is answered from the cache, and nothing changes. */
  lemma ResolveCached(ps: PathSpec, s: ExportState)
    requires ps in s.caches.pathSpecs
    ensures ResolveF(ps, s) == (Ok(s.caches.pathSpecs[ps]), s)
  {
  }

  /**
   * Resolution only adds to the path-spec cache: the path spec ends up cached
   * (even when resolution fails part-way, since the pair is cached first),
   * earlier entries and the other caches are untouched, and a successful result
   * is the cached pair.
   */
  lemma {:induction false} ResolveCaches(ps: PathSpec, s: ExportState)
    ensures var (r, s') := ResolveF(ps, s);
            && ps in s'.caches.pathSpecs
            && (forall k :: k in s.caches.pathSpecs ==>
                  k in s'.caches.pathSpecs && s'.caches.pathSpecs[k] == s.caches.pathSpecs[k])
            && s'.caches == s.caches.(pathSpecs := s'.caches.pathSpecs)
            && (r.Ok? ==> s'.caches.pathSpecs[ps] == r.value)
    decreases ps
  {
    hide NewLayerF, LinkF;
    if ps !in s.caches.pathSpecs {
      var (r, s1) := NewLayerF(ps, s);
      NewLayerSpec(ps, s);
      if r.Ok? && ps.parent.Some? {
        var (pr, s2) := ResolveF(ps.parent.value, s1);
        ResolveCaches(ps.parent.value, s1);
        assert ResolveF(ps, s).1.caches == s2.caches;
      } else {
        assert ResolveF(ps, s) == (r, s1);
      }
    }
  }

  /** Resolution keeps the document well formed and the caches pointing into it, and only adds to the graph. */
  lemma {:induction false} ResolveSound(ps: PathSpec, s: ExportState)
    requires Sound(s)
    ensures var (r, s') := ResolveF(ps, s);
            Sound(s') && s.doc.graph <= s'.doc.graph && s.doc.next <= s'.doc.next
    decreases ps
  {
    hide NewLayerF, LinkF;
    if ps !in s.caches.pathSpecs {
      var (r, s1) := NewLayerF(ps, s);
      NewLayerSpec(ps, s);
      NewLayerSound(ps, s);
      if r.Ok? && ps.parent.Some? {
        var (pr, s2) := ResolveF(ps.parent.value, s1);
        ResolveSound(ps.parent.value, s1);
        ResolveCaches(ps.parent.value, s1);
        if pr.Ok? {
          assert NodeBelow(s2.caches.pathSpecs[ps.parent.value].0, s2.doc.next);
          var (kr, d3) := LinkF(r.value.0, pr.value.0, ps, s2.doc);
          LinkSpec(r.value.0, pr.value.0, ps, s2.doc);
          CachesBelowMono(s2.caches, s2.doc.next, d3.next);
          assert ResolveF(ps, s).1 == ExportState(s2.caches, d3);
        } else {
          assert ResolveF(ps, s).1 == s2;
        }
      } else {
        assert ResolveF(ps, s) == (r, s1);
      }
    }
  }

  /** Resolving a path spec a second time returns the same pair and changes nothing. */
  lemma ResolveIdempotent(ps: PathSpec, s: ExportState)
    ensures var (r, s') := ResolveF(ps, s);
            r.Ok? ==> ResolveF(ps, s') == (r, s')
  {
    ResolveCaches(ps, s);
  }

  /** The three ways resolving an uncached path spec can go. */
  lemma ResolveUnfold(ps: PathSpec, s: ExportState)
    requires ps !in s.caches.pathSpecs
    ensures var (r, s1) := NewLayerF(ps, s);
            (r.Err? || ps.parent.None?) ==> ResolveF(ps, s) == (r, s1)
    ensures var (r, s1) := NewLayerF(ps, s);
            r.Ok? && ps.parent.Some? ==>
              var (pr, s2) := ResolveF(ps.parent.value, s1);
              && (pr.Err? ==> ResolveF(ps, s).0.Err?)
              && (pr.Ok? ==>
                    var (kr, d3) := LinkF(r.value.0, pr.value.0, ps, s2.doc);
                    && (kr.Err? ==> ResolveF(ps, s).0.Err?)
                    && (kr.Ok? ==> ResolveF(ps, s) == (r, ExportState(s2.caches, d3))))
  {
  }

  /** The layers of a path-spec chain. */
  function Layers(ps: PathSpec): set<PathSpec>
    decreases ps
  {
    {ps} + (if ps.parent.None? then {} else Layers(ps.parent.value))
  }

  lemma {:induction false} LayersShallower(ps: PathSpec)
    ensures forall l :: l in Layers(ps) ==> Depth(l) <= Depth(ps)
    decreases ps
  {
    if ps.parent.Some? {
      LayersShallower(ps.parent.value);
    }
  }

  lemma TypedGrows(g: set<Triple>, g': set<Triple>, ty: Term)
    requires g <= g'
    ensures Typed(g, ty) <= Typed(g', ty)
  {
  }

  lemma DiffSplit<T>(a: set<T>, b: set<T>, c: set<T>)
    requires a <= b <= c
    ensures |c - a| == |b - a| + |c - b|
  {
    assert c - a == (b - a) + (c - b);
    assert (b - a) * (c - b) == {};
  }

  /** `g'` holds exactly `n` traces and `n - 1` relationships that `g` does not. */
  ghost predicate Counted(g: set<Triple>, g': set<Triple>, n: nat) {
    && |Typed(g', TraceType) - Typed(g, TraceType)| == n
    && |Typed(g', RelationshipType) - Typed(g, RelationshipType)| + 1 == n
  }

  /** One new layer on its own: one trace, no relationship. */
  lemma CountLayer(g: set<Triple>, g1: set<Triple>, x: Term)
    requires Typed(g1, TraceType) == Typed(g, TraceType) + {x} && x !in Typed(g, TraceType)
    requires Typed(g1, RelationshipType) == Typed(g, RelationshipType)
    ensures Counted(g, g1, 1)
  {
    assert Typed(g1, TraceType) - Typed(g, TraceType) == {x};
    assert Typed(g1, RelationshipType) - Typed(g, RelationshipType) == {};
  }

  /** A new layer, its resolved parent chain of `n` layers, and the link between them. */
  lemma CountLink(g: set<Triple>, g1: set<Triple>, g2: set<Triple>, g3: set<Triple>, x: Term, y: Term, n: nat)
    requires Counted(g, g1, 1) && g <= g1 && Typed(g1, RelationshipType) == Typed(g, RelationshipType)
    requires Counted(g1, g2, n) && g1 <= g2
    requires Typed(g3, TraceType) == Typed(g2, TraceType)
    requires Typed(g3, RelationshipType) == Typed(g2, RelationshipType) + {y} && y !in Typed(g2, RelationshipType)
    ensures Counted(g, g3, n + 1)
  {
    var T, R := TraceType, RelationshipType;
    TypedGrows(g, g1, T);
    TypedGrows(g1, g2, T);
    TypedGrows(g1, g2, R);
    DiffSplit(Typed(g, T), Typed(g1, T), Typed(g3, T));
    assert Typed(g3, R) - Typed(g2, R) == {y};
    DiffSplit(Typed(g1, R), Typed(g2, R), Typed(g3, R));
  }

  /**
   * A chain of N layers none of which is cached yet yields, when it resolves,
   * exactly N new traces and N - 1 new relationships: one trace per layer and
   * one relationship per layer that has a parent.
   */
  lemma {:induction false} ChainCount(ps: PathSpec, s: ExportState)
    requires Sound(s) && Layers(ps) !! s.caches.pathSpecs.Keys
    ensures var (r, s') := ResolveF(ps, s);
            r.Ok? ==> Counted(s.doc.graph, s'.doc.graph, Depth(ps))
    decreases ps
  {
    hide NewLayerF, LinkF;
    var (r, s1) := NewLayerF(ps, s);
    ResolveUnfold(ps, s);
    NewLayerSound(ps, s);
    FreshUntyped(s.doc, s.doc.next, TraceType);
    if r.Ok? {
      CountLayer(s.doc.graph, s1.doc.graph, Blank(s.doc.next));
    }
    if r.Ok? && ps.parent.Some? {
      var p := ps.parent.value;
      NewLayerSpec(ps, s);
      LayersShallower(p);
      assert ps !in Layers(p);
      ChainCount(p, s1);
      ResolveSound(p, s1);
      ResolveCaches(p, s1);
      var (pr, s2) := ResolveF(p, s1);
      if pr.Ok? {
        assert NodeBelow(s2.caches.pathSpecs[p].0, s2.doc.next);
        var (kr, d3) := LinkF(r.value.0, pr.value.0, ps, s2.doc);
        if kr.Ok? {
          LinkSpec(r.value.0, pr.value.0, ps, s2.doc);
          FreshUntyped(s2.doc, s2.doc.next, RelationshipType);
          CountLink(s.doc.graph, s1.doc.graph, s2.doc.graph, d3.graph, Blank(s.doc.next), Blank(s2.doc.next), Depth(p));
        }
      }
    }
  }

  /**
   * A falsy location writes nothing. A truthy string location is written as
   * `filePath`, and its basename as `fileName` and, only when non-empty,
   * `extension`, the two together spelling the basename. A truthy location
   * that is not a string fails after `filePath` was written.
   */
  lemma LocationSpec(filePb: Node, location: PyValue, d: Doc)
    ensures var (r, d') := LocationF(filePb, location, d);
            var x := Blank(filePb.id);
            && d'.next == d.next
            && (r.Ok? <==> !Truthy(location) || location.PyStr?)
            && (!Truthy(location) ==> d' == d)
            && (Truthy(location) && !location.PyStr? ==>
                  r == Err(AttributeError("rfind")) && d'.graph == d.graph + PyTriples(x, P("filePath"), location))
            && (Truthy(location) && location.PyStr? ==>
                  var (root, ext) := SplitExt(Basename(location.s));
                  && root + ext == Basename(location.s)
                  && (ext == "" || ext[0] == '.')
                  && d'.graph == d.graph + {Triple(x, P("filePath"), Literal(location))} + {Triple(x, P("fileName"), Literal(PyStr(root)))}
                                 + (if ext == "" then {} else {Triple(x, P("extension"), Literal(PyStr(ext)))}))
  {
    if Truthy(location) && location.PyStr? {
      var (root, ext) := SplitExt(Basename(location.s));
      SplitExtSpec(Basename(location.s));
      LocationString(filePb, location.s, root, ext, d);
    }
  }

  lemma LocationString(filePb: Node, loc: string, root: string, ext: string, d: Doc)
    requires loc != "" && (root, ext) == SplitExt(Basename(loc))
    ensures var x := Blank(filePb.id);
            LocationF(filePb, PyStr(loc), d)
            == (Ok(()), Doc(d.graph + {Triple(x, P("filePath"), Literal(PyStr(loc)))} + {Triple(x, P("fileName"), Literal(PyStr(root)))}
                           + (if ext == "" then {} else {Triple(x, P("extension"), Literal(PyStr(ext)))}), d.next))
  {
    var d1 := DocAdd(d, filePb, Plain("filePath"), Py(PyStr(loc)));
    AddLiteral(d, filePb, Plain("filePath"), PyStr(loc));
    var d2 := DocAdd(d1, filePb, Plain("fileName"), Py(PyStr(root)));
    AddLiteral(d1, filePb, Plain("fileName"), PyStr(root));
    assert Truthy(PyStr(loc));
    if ext != "" {
      AddLiteral(d2, filePb, Plain("extension"), PyStr(ext));
      assert LocationF(filePb, PyStr(loc), d) == (Ok(()), DocAdd(d2, filePb, Plain("extension"), Py(PyStr(ext))));
    } else {
      assert LocationF(filePb, PyStr(loc), d) == (Ok(()), d2);
      var none: set<Triple> := {};
      assert d2.graph + none == d2.graph;
    }
  }

  /** Adding a plain value writes exactly one triple. */
  lemma AddLiteral(d: Doc, n: Node, name: Name, v: PyValue)
    requires !v.PyNone? && !v.PyList?
    ensures DocAdd(d, n, name, Py(v)) == Doc(d.graph + {Triple(Blank(n.id), Qualify(name), Literal(v))}, d.next)
  {
  }

  /**
   * The `File` bundle of a new layer gets a `fileSystemType` exactly when the
   * type indicator is a key of the file-system table, and then it is that
   * table's term.
   */
  lemma NewLayerFileSystemType(ps: PathSpec, s: ExportState)
    requires WellFormed(s.doc)
    ensures var (r, s') := NewLayerF(ps, s);
            var filePb := Blank(s.doc.next + 1);
            r.Ok? ==>
              && (forall t :: t in s'.doc.graph && t.subj == filePb && t.pred == P("fileSystemType") ==>
                    ps.typeIndicator in FileSystemType && t.obj == FileSystemType[ps.typeIndicator])
              && (ps.typeIndicator in FileSystemType ==>
                    Triple(filePb, P("fileSystemType"), FileSystemType[ps.typeIndicator]) in s'.doc.graph)
  {
    var (trace, d1) := DocNewNode(s.doc, TraceCls, None, []);
    var (pb, d2) := DocCreateBundle(d1, trace, Some(Plain("File")), []);
    var (lr, d3) := LocationF(pb, ps.Attr("location"), d2);
    FileBundleUntyped(s.doc);
    LocationPreds(pb, ps.Attr("location"), d2);
    if lr.Ok? {
      var x := Blank(s.doc.next + 1);
      var d4 := DocAdd(d3, pb, Plain("fileSystemType"), FileSystemTypeOf(ps));
      assert NewLayerF(ps, s).1.doc == d4;
      forall t | t in d4.graph && t.subj == x && t.pred == P("fileSystemType")
        ensures ps.typeIndicator in FileSystemType && t.obj == FileSystemType[ps.typeIndicator]
      {
        assert t !in d2.graph;
        assert t !in d3.graph - d2.graph;
      }
    }
  }

  /** Right after its creation, the `File` bundle carries nothing but its type. */
  lemma FileBundleUntyped(d: Doc)
    requires WellFormed(d)
    ensures var (trace, d1) := DocNewNode(d, TraceCls, None, []);
            var (pb, d2) := DocCreateBundle(d1, trace, Some(Plain("File")), []);
            pb.id == d.next + 1
            && forall t :: t in d2.graph && t.subj == Blank(pb.id) ==> t.pred == RdfType
  {
    var x := Blank(d.next + 1);
    forall t | t in d.graph ensures t.subj != x {
      assert TripleBelow(t, d.next);
    }
  }

  /** A location that succeeds writes only `filePath`, `fileName` and `extension`. */
  lemma LocationPreds(filePb: Node, location: PyValue, d: Doc)
    ensures var (r, d') := LocationF(filePb, location, d);
            r.Ok? ==> forall t :: t in d'.graph - d.graph ==> t.pred in {P("filePath"), P("fileName"), P("extension")}
  {
    hide LocationF, DocAdd, SplitExt, Basename;
    LocationSpec(filePb, location, d);
  }

  /**
   * `d'` is `d` with one more property bundle on `owner`: typed `ty` and
   * carrying `prop` with value `v`.
   */
  ghost predicate BundleStamped(d: Doc, d': Doc, owner: Node, ty: string, prop: string, v: Term) {
    && d'.next == d.next + 1 && d.graph <= d'.graph
    && BundlesOf(d'.graph, owner) == BundlesOf(d.graph, owner) + {Blank(d.next)}
    && Blank(d.next) !in BundlesOf(d.graph, owner)
    && TypesOf(d'.graph, Blank(d.next)) == {P(ty)}
    && Triple(Blank(d.next), P(prop), v) in d'.graph
  }

  lemma StampedBundle(d: Doc, owner: Node, ty: string, prop: string, v: PyValue)
    requires WellFormed(d) && owner.id < d.next && ty != "" && !v.PyNone? && !v.PyList?
    ensures BundleStamped(d, DocCreateBundle(d, owner, Some(Plain(ty)), [(prop, Py(v))]).1, owner, ty, prop, Literal(v))
  {
    var props := [(prop, Py(v))];
    OneMoreBundle(d, owner, Some(Plain(ty)), props);
    BundleHasOneOwner(d, owner, Some(Plain(ty)), props);
    PropInTriples(Blank(d.next), props, 0);
    assert Triple(Blank(d.next), P(prop), Literal(v)) in ValueTriples(Blank(d.next), Iri(CASE, props[0].0), props[0].1);
    assert Triple(Blank(d.next), P(prop), Literal(v)) in NodeTriples(d.next, PropertyBundleCls, Some(Plain(ty)), props);
  }

  /**
   * The timestamp of a stat event: a mapped label adds exactly one timestamp to
   * the `File` bundle; `bkup_time` instead gives the trace a new
   * `HFSFileSystem` bundle, `dtime` a new `ExtInode` bundle; any other label
   * adds nothing.
   */
  lemma FileTimestampSpec(ev: Event, trace: Node, filePb: Node, d: Doc)
    requires WellFormed(d) && trace.id < d.next
    ensures var d' := FileTimestampF(ev, trace, filePb, d);
            var desc, stamp := ev.timestampDesc, Literal(PyDateTime(ev.timestamp));
            && (desc in TimestampMap ==>
                  d' == Doc(d.graph + {Triple(Blank(filePb.id), Qualify(TimestampMap[desc]), stamp)}, d.next))
            && (desc == "bkup_time" ==> BundleStamped(d, d', trace, "HFSFileSystem", "hfsBackupTime", stamp))
            && (desc == "dtime" ==> BundleStamped(d, d', trace, "ExtInode", "extDeletionTime", stamp))
            && (desc !in TimestampMap && desc != "bkup_time" && desc != "dtime" ==> d' == d)
  {
    if ev.timestampDesc == "bkup_time" {
      StampedBundle(d, trace, "HFSFileSystem", "hfsBackupTime", PyDateTime(ev.timestamp));
    } else if ev.timestampDesc == "dtime" {
      StampedBundle(d, trace, "ExtInode", "extDeletionTime", PyDateTime(ev.timestamp));
    }
  }

  /**
   * A stat event for a path spec already resolved writes only onto that path
   * spec's cached `File` bundle (a timestamp label that creates a bundle
   * aside): no node is created and the caches are unchanged.
   */
  lemma ExportEventCached(ev: Event, s: ExportState)
    requires ev.pathspec.Some? && ev.pathspec.value in s.caches.pathSpecs
    requires ev.timestampDesc != "bkup_time" && ev.timestampDesc != "dtime"
    ensures var (r, s') := ExportEventF(ev, s);
            var filePb := s.caches.pathSpecs[ev.pathspec.value].1;
            && r.Ok? && s'.caches == s.caches && s'.doc.next == s.doc.next && s.doc.graph <= s'.doc.graph
            && (forall t :: t in s'.doc.graph - s.doc.graph ==> t.subj == Blank(filePb.id))
  {
    var (trace, filePb) := s.caches.pathSpecs[ev.pathspec.value];
    var x := Blank(filePb.id);
    PyTriplesShape(x, P("isAllocated"), ev.Attr("is_allocated"));
    PyTriplesShape(x, P("fileSize"), ev.Attr("file_size"));
  }
}
