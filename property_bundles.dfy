/**
 * `property_bundles`: rules keyed by path-spec type indicator that write a
 * property bundle directly into the graph, on a fresh blank node, and return it.
 */
module PropertyBundles {
  import opened Wrappers
  import opened Python
  import opened Case
  import opened Dfvfs
  import opened Records
  import Mappings
  import Registry

  /** The registered rules. */
  datatype Rule = DataRange | Encoding | Encryption | SQLiteBlob

  /** The `@register` decorators, in declaration order. */
  const Registrations: seq<(string, Rule)> :=
    [(TypeDataRange, DataRange), (TypeEncodedStream, Encoding),
     (TypeEncryptedStream, Encryption), (TypeSqliteBlob, SQLiteBlob)]

  /** `registry` once the module is imported. */
  const Rules: map<string, Rule> :=
    map[TypeDataRange := DataRange, TypeEncodedStream := Encoding,
        TypeEncryptedStream := Encryption, TypeSqliteBlob := SQLiteBlob]

  /** Importing the module leaves `registry` holding exactly `Rules`. */
  method ImportRegistry() returns (registry: Registry.Registry<string, Rule>)
    ensures fresh(registry) && registry.entries == Rules
  {
    registry := new Registry.Registry();
    registry.RegisterAll(Registrations);
    RulesRegistered();
  }

  lemma RulesRegistered()
    ensures Registry.Registered(map[], Registrations) == Rules
  {
    var r := Registrations;
    assert r[..3][..2] == r[..2] && r[..2][..1] == r[..1] && r[..1][..0] == [];
    assert Registry.Registered(map[], r[..1]) == map[TypeDataRange := DataRange];
    assert Registry.Registered(map[], r[..2]) == map[TypeDataRange := DataRange, TypeEncodedStream := Encoding];
    assert Registry.Registered(map[], r[..3])
        == map[TypeDataRange := DataRange, TypeEncodedStream := Encoding, TypeEncryptedStream := Encryption];
    assert r[..|r| - 1] == r[..3];
  }

  function P(local: string): Term { Iri(CASE, local) }

  /** `DataRange(graph, path_spec)`. */
  function DataRangeF(ps: PathSpec, d: Doc): (Result<Term, PyError>, Doc) {
    var (pb, d1) := DocNewBlank(d);
    var d2 := DocAddTriple(d1, Triple(pb, RdfType, P("DataRange")));
    var d3 := DocAddTriple(d2, Triple(pb, P("rangeOffset"), Literal(ps.Attr("range_offset"))));
    var d4 := DocAddTriple(d3, Triple(pb, P("rangeSize"), Literal(ps.Attr("range_size"))));
    (Ok(pb), d4)
  }

  /** The encoding term: the CASE term when the method is mapped, otherwise the raw value. */
  function EncodingTerm(m: PyValue): Term {
    match Mappings.GetTerm(Mappings.EncodingMethod, m)
    case Some(t) => t
    case None => Literal(m)
  }

  /** `Encoding(graph, path_spec)`. */
  function EncodingF(ps: PathSpec, d: Doc): (Result<Term, PyError>, Doc) {
    var (pb, d1) := DocNewBlank(d);
    var d2 := DocAddTriple(d1, Triple(pb, RdfType, P("Encoding")));
    var d3 := DocAddTriple(d2, Triple(pb, P("encodingMethod"), EncodingTerm(ps.Attr("encoding_method"))));
    (Ok(pb), d3)
  }

  /** `Encryption(graph, path_spec)`: raises after writing the type, IV and key when a cipher entry is unmapped. */
  function EncryptionF(ps: PathSpec, d: Doc): (Result<Term, PyError>, Doc) {
    var (pb, d1) := DocNewBlank(d);
    var d2 := DocAddTriple(d1, Triple(pb, RdfType, P("Encryption")));
    var d3 := DocAddTriple(d2, Triple(pb, P("encryptionIV"), Literal(ps.Attr("initialization_vector"))));
    var d4 := DocAddTriple(d3, Triple(pb, P("encryptionKey"), Literal(ps.Attr("key"))));
    match Mappings.GetTerm(Mappings.EncryptionMode, ps.Attr("cipher_mode"))
    case None => (Err(RuntimeError("Unknown encryption mode.")), d4)
    case Some(mode) =>
      var d5 := DocAddTriple(d4, Triple(pb, P("encryptionMode"), mode));
      match Mappings.GetTerm(Mappings.EncryptionMethod, ps.Attr("encryption_method"))
      case None => (Err(RuntimeError("Unknown encryption method.")), d5)
      case Some(cipher) => (Ok(pb), DocAddTriple(d5, Triple(pb, P("encryptionMethod"), cipher)))
  }

  /**
   * `SQLiteBlob(graph, path_spec)` as written: no type triple; `rowIndex` when
   * the path spec has that attribute, otherwise `rowCondition` when it has
   * that one. A dfvfs SQLite blob path spec always has both, one of them None.
   */
  function SQLiteBlobAsWrittenF(ps: PathSpec, d: Doc): (Result<Term, PyError>, Doc) {
    var (pb, d1) := DocNewBlank(d);
    var d2 := DocAddTriple(d1, Triple(pb, P("columnName"), Literal(ps.Attr("column_name"))));
    var d3 := DocAddTriple(d2, Triple(pb, P("tableName"), Literal(ps.Attr("table_name"))));
    if ps.Has("row_index") then
      (Ok(pb), DocAddTriple(d3, Triple(pb, P("rowIndex"), Literal(ps.Attr("row_index")))))
    else if ps.Has("row_condition") then
      (Ok(pb), DocAddTriple(d3, Triple(pb, P("rowCondition"), Literal(ps.Attr("row_condition")))))
    else (Ok(pb), d3)
  }

  /**
   * `SQLiteBlob(graph, path_spec)` as evidently intended: `rowIndex` when the
   * row index is not None, otherwise `rowCondition` when the condition is not None.
   */
  function SQLiteBlobF(ps: PathSpec, d: Doc): (Result<Term, PyError>, Doc) {
    var (pb, d1) := DocNewBlank(d);
    var d2 := DocAddTriple(d1, Triple(pb, P("columnName"), Literal(ps.Attr("column_name"))));
    var d3 := DocAddTriple(d2, Triple(pb, P("tableName"), Literal(ps.Attr("table_name"))));
    if ps.Attr("row_index") != PyNone then
      (Ok(pb), DocAddTriple(d3, Triple(pb, P("rowIndex"), Literal(ps.Attr("row_index")))))
    else if ps.Attr("row_condition") != PyNone then
      (Ok(pb), DocAddTriple(d3, Triple(pb, P("rowCondition"), Literal(ps.Attr("row_condition")))))
    else (Ok(pb), d3)
  }

  function ApplyF(rule: Rule, ps: PathSpec, d: Doc): (Result<Term, PyError>, Doc) {
    match rule
    case DataRange => DataRangeF(ps, d)
    case Encoding => EncodingF(ps, d)
    case Encryption => EncryptionF(ps, d)
    case SQLiteBlob => SQLiteBlobF(ps, d)
  }

  /** `construct(identifier, graph, path_spec)`: None when no rule is registered for the identifier. */
  function ConstructF(identifier: string, ps: PathSpec, d: Doc): (Result<Option<Term>, PyError>, Doc) {
    if identifier !in Rules then (Ok(None), d)
    else
      var (r, d') := ApplyF(Rules[identifier], ps, d);
      match r
      case Ok(pb) => (Ok(Some(pb)), d')
      case Err(e) => (Err(e), d')
  }

  // ----- the rules, writing into a document -----

  method DataRangeRule(doc: Document, ps: PathSpec) returns (r: Result<Term, PyError>)
    modifies doc
    ensures (r, doc.State()) == DataRangeF(ps, old(doc.State()))
  {
    var pb := doc.NewBlank();
    doc.AddTriple(Triple(pb, RdfType, P("DataRange")));
    doc.AddTriple(Triple(pb, P("rangeOffset"), Literal(ps.Attr("range_offset"))));
    doc.AddTriple(Triple(pb, P("rangeSize"), Literal(ps.Attr("range_size"))));
    r := Ok(pb);
  }

  method EncodingRule(doc: Document, ps: PathSpec) returns (r: Result<Term, PyError>)
    modifies doc
    ensures (r, doc.State()) == EncodingF(ps, old(doc.State()))
  {
    var pb := doc.NewBlank();
    doc.AddTriple(Triple(pb, RdfType, P("Encoding")));
    var encodingMethod := EncodingTerm(ps.Attr("encoding_method"));
    doc.AddTriple(Triple(pb, P("encodingMethod"), encodingMethod));
    r := Ok(pb);
  }

  method EncryptionRule(doc: Document, ps: PathSpec) returns (r: Result<Term, PyError>)
    modifies doc
    ensures (r, doc.State()) == EncryptionF(ps, old(doc.State()))
  {
    var pb := doc.NewBlank();
    doc.AddTriple(Triple(pb, RdfType, P("Encryption")));
    doc.AddTriple(Triple(pb, P("encryptionIV"), Literal(ps.Attr("initialization_vector"))));
    doc.AddTriple(Triple(pb, P("encryptionKey"), Literal(ps.Attr("key"))));
    var encryptionMode := Mappings.GetTerm(Mappings.EncryptionMode, ps.Attr("cipher_mode"));
    if encryptionMode.None? {
      return Err(RuntimeError("Unknown encryption mode."));
    }
    doc.AddTriple(Triple(pb, P("encryptionMode"), encryptionMode.value));
    var encryptionMethod := Mappings.GetTerm(Mappings.EncryptionMethod, ps.Attr("encryption_method"));
    if encryptionMethod.None? {
      return Err(RuntimeError("Unknown encryption method."));
    }
    doc.AddTriple(Triple(pb, P("encryptionMethod"), encryptionMethod.value));
    r := Ok(pb);
  }

  method SQLiteBlobRule(doc: Document, ps: PathSpec) returns (r: Result<Term, PyError>)
    modifies doc
    ensures (r, doc.State()) == SQLiteBlobF(ps, old(doc.State()))
  {
    var pb := doc.NewBlank();
    doc.AddTriple(Triple(pb, P("columnName"), Literal(ps.Attr("column_name"))));
    doc.AddTriple(Triple(pb, P("tableName"), Literal(ps.Attr("table_name"))));
    if ps.Attr("row_index") != PyNone {
      doc.AddTriple(Triple(pb, P("rowIndex"), Literal(ps.Attr("row_index"))));
    } else if ps.Attr("row_condition") != PyNone {
      doc.AddTriple(Triple(pb, P("rowCondition"), Literal(ps.Attr("row_condition"))));
    }
    r := Ok(pb);
  }

  /** `construct(identifier, graph, path_spec)`. */
  method Construct(identifier: string, doc: Document, ps: PathSpec) returns (r: Result<Option<Term>, PyError>)
    modifies doc
    ensures (r, doc.State()) == ConstructF(identifier, ps, old(doc.State()))
  {
    if identifier !in Rules {
      return Ok(None);
    }
    var pb: Result<Term, PyError>;
    match Rules[identifier] {
      case DataRange => pb := DataRangeRule(doc, ps);
      case Encoding => pb := EncodingRule(doc, ps);
      case Encryption => pb := EncryptionRule(doc, ps);
      case SQLiteBlob => pb := SQLiteBlobRule(doc, ps);
    }
    match pb {
      case Ok(t) => r := Ok(Some(t));
      case Err(e) => r := Err(e);
    }
  }

  // ----- properties -----

  /** The triples a rule wrote about its bundle `pb`. */
  function About(g: set<Triple>, pb: Term): set<Triple> {
    set t | t in g && t.subj == pb
  }

  /**
   * What every rule does to the document: one fresh node, described by triples
   * that point at no blank node, typed (if at all) as one of the bundle types.
   */
  ghost predicate FreshBundle(d: Doc, d': Doc) {
    && d'.next == d.next + 1 && d.graph <= d'.graph
    && forall t :: t in d'.graph - d.graph ==> AboutBundle(t, d.next)
  }

  /** The types the rules give their bundles (`SQLiteBlob` gives none). */
  const BundleTypes: set<Term> := {P("DataRange"), P("Encoding"), P("Encryption")}

  /** A triple a rule may write about its bundle `Blank(id)`. */
  predicate AboutBundle(t: Triple, id: nat) {
    t.subj == Blank(id) && t.pred.Iri? && !t.obj.Blank? && (t.pred == RdfType ==> t.obj in BundleTypes)
  }

  lemma FreshBundleAdd(d: Doc, d': Doc, t: Triple)
    requires FreshBundle(d, d') && AboutBundle(t, d.next)
    ensures FreshBundle(d, DocAddTriple(d', t))
  {
  }

  /** `DataRange` mints one bundle, typed `DataRange`, with its offset and size. */
  lemma DataRangeFresh(ps: PathSpec, d: Doc)
    ensures FreshBundle(d, DataRangeF(ps, d).1) && DataRangeF(ps, d).0 == Ok(Blank(d.next))
  {
    var (pb, d1) := DocNewBlank(d);
    var t1 := Triple(pb, RdfType, P("DataRange"));
    var t2 := Triple(pb, P("rangeOffset"), Literal(ps.Attr("range_offset")));
    FreshBundleAdd(d, d1, t1);
    FreshBundleAdd(d, DocAddTriple(d1, t1), t2);
    FreshBundleAdd(d, DocAddTriple(DocAddTriple(d1, t1), t2), Triple(pb, P("rangeSize"), Literal(ps.Attr("range_size"))));
  }

  /** `Encoding` mints one bundle, typed `Encoding`, with its method. */
  lemma EncodingFresh(ps: PathSpec, d: Doc)
    ensures FreshBundle(d, EncodingF(ps, d).1) && EncodingF(ps, d).0 == Ok(Blank(d.next))
  {
    var (pb, d1) := DocNewBlank(d);
    var t1 := Triple(pb, RdfType, P("Encoding"));
    FreshBundleAdd(d, d1, t1);
    FreshBundleAdd(d, DocAddTriple(d1, t1), Triple(pb, P("encodingMethod"), EncodingTerm(ps.Attr("encoding_method"))));
  }

  /** `Encryption` mints one bundle even when it raises half-way; when it returns, it returns that bundle. */
  lemma EncryptionFresh(ps: PathSpec, d: Doc)
    ensures FreshBundle(d, EncryptionF(ps, d).1)
    ensures EncryptionF(ps, d).0.Ok? ==> EncryptionF(ps, d).0.value == Blank(d.next)
  {
    var (pb, d1) := DocNewBlank(d);
    var d2 := DocAddTriple(d1, Triple(pb, RdfType, P("Encryption")));
    FreshBundleAdd(d, d1, Triple(pb, RdfType, P("Encryption")));
    var d3 := DocAddTriple(d2, Triple(pb, P("encryptionIV"), Literal(ps.Attr("initialization_vector"))));
    FreshBundleAdd(d, d2, Triple(pb, P("encryptionIV"), Literal(ps.Attr("initialization_vector"))));
    var d4 := DocAddTriple(d3, Triple(pb, P("encryptionKey"), Literal(ps.Attr("key"))));
    FreshBundleAdd(d, d3, Triple(pb, P("encryptionKey"), Literal(ps.Attr("key"))));
    var mode := Mappings.GetTerm(Mappings.EncryptionMode, ps.Attr("cipher_mode"));
    if mode.Some? {
      var d5 := DocAddTriple(d4, Triple(pb, P("encryptionMode"), mode.value));
      FreshBundleAdd(d, d4, Triple(pb, P("encryptionMode"), mode.value));
      var cipher := Mappings.GetTerm(Mappings.EncryptionMethod, ps.Attr("encryption_method"));
      if cipher.Some? {
        FreshBundleAdd(d, d5, Triple(pb, P("encryptionMethod"), cipher.value));
      }
    }
  }

  /** `SQLiteBlob` mints one untyped bundle with its column, table and row. */
  lemma SQLiteBlobFresh(ps: PathSpec, d: Doc)
    ensures FreshBundle(d, SQLiteBlobF(ps, d).1) && SQLiteBlobF(ps, d).0 == Ok(Blank(d.next))
  {
    var (pb, d1) := DocNewBlank(d);
    var t1 := Triple(pb, P("columnName"), Literal(ps.Attr("column_name")));
    var t2 := Triple(pb, P("tableName"), Literal(ps.Attr("table_name")));
    FreshBundleAdd(d, d1, t1);
    FreshBundleAdd(d, DocAddTriple(d1, t1), t2);
    var d3 := DocAddTriple(DocAddTriple(d1, t1), t2);
    FreshBundleAdd(d, d3, Triple(pb, P("rowIndex"), Literal(ps.Attr("row_index"))));
    FreshBundleAdd(d, d3, Triple(pb, P("rowCondition"), Literal(ps.Attr("row_condition"))));
  }

  lemma ApplySpec(rule: Rule, ps: PathSpec, d: Doc)
    ensures FreshBundle(d, ApplyF(rule, ps, d).1)
    ensures ApplyF(rule, ps, d).0.Ok? ==> ApplyF(rule, ps, d).0.value == Blank(d.next)
  {
    hide DataRangeF, EncodingF, EncryptionF, SQLiteBlobF;
    match rule
    case DataRange => DataRangeFresh(ps, d);
    case Encoding => EncodingFresh(ps, d);
    case Encryption => EncryptionFresh(ps, d);
    case SQLiteBlob => SQLiteBlobFresh(ps, d);
  }

  /**
   * A registered rule always mints one fresh blank node, writes only about that
   * node, never points at a blank node, and so keeps the document well formed;
   * an unregistered identifier returns None and changes nothing.
   */
  lemma ConstructSpec(identifier: string, ps: PathSpec, d: Doc)
    requires WellFormed(d)
    ensures var (r, d') := ConstructF(identifier, ps, d);
            && (identifier !in Rules ==> r == Ok(None) && d' == d)
            && (identifier in Rules ==>
                  && FreshBundle(d, d') && WellFormed(d')
                  && (r.Ok? ==> r.value == Some(Blank(d.next))))
  {
    if identifier in Rules {
      var (_, d') := ApplyF(Rules[identifier], ps, d);
      ApplySpec(Rules[identifier], ps, d);
      FreshBundleWellFormed(d, d');
    }
  }

  lemma FreshBundleWellFormed(d: Doc, d': Doc)
    requires WellFormed(d) && FreshBundle(d, d')
    ensures WellFormed(d')
  {
    forall t | t in d'.graph ensures TripleBelow(t, d'.next) {
      if t in d.graph { assert TripleBelow(t, d.next); } else { assert AboutBundle(t, d.next); }
    }
  }

  /** `DataRange` writes exactly the type, offset and size of the range, on a fresh node it returns. */
  lemma DataRangeSpec(ps: PathSpec, d: Doc)
    requires WellFormed(d)
    ensures var (r, d') := ConstructF(TypeDataRange, ps, d);
            var pb := Blank(d.next);
            && r == Ok(Some(pb))
            && About(d.graph, pb) == {}
            && About(d'.graph, pb) == {Triple(pb, RdfType, P("DataRange")),
                                        Triple(pb, P("rangeOffset"), Literal(ps.Attr("range_offset"))),
                                        Triple(pb, P("rangeSize"), Literal(ps.Attr("range_size")))}
  {
    var pb := Blank(d.next);
    forall t | t in d.graph ensures t.subj != pb {
      assert TripleBelow(t, d.next);
    }
  }

  /** An unmapped encoding method is written as the raw value. */
  lemma EncodingFallback(ps: PathSpec, d: Doc)
    ensures var (r, d') := ConstructF(TypeEncodedStream, ps, d);
            var m := ps.Attr("encoding_method");
            && r == Ok(Some(Blank(d.next)))
            && (m.PyStr? && m.s in Mappings.EncodingMethod ==>
                  Triple(Blank(d.next), P("encodingMethod"), Mappings.EncodingMethod[m.s]) in d'.graph)
            && (!(m.PyStr? && m.s in Mappings.EncodingMethod) ==>
                  Triple(Blank(d.next), P("encodingMethod"), Literal(m)) in d'.graph)
  {
  }

  /**
   * `Encryption` fails exactly when the cipher mode or method is unmapped, the
   * mode being checked first; the type, IV and key are written in every case,
   * and no method triple is written when the mode is unknown.
   */
  lemma EncryptionSpec(ps: PathSpec, d: Doc)
    requires WellFormed(d)
    ensures var (r, d') := ConstructF(TypeEncryptedStream, ps, d);
            var pb := Blank(d.next);
            var mode := Mappings.GetTerm(Mappings.EncryptionMode, ps.Attr("cipher_mode"));
            var cipher := Mappings.GetTerm(Mappings.EncryptionMethod, ps.Attr("encryption_method"));
            && (r.Ok? <==> mode.Some? && cipher.Some?)
            && (mode.None? ==> r == Err(RuntimeError("Unknown encryption mode."))
                               && forall t :: t in About(d'.graph, pb) ==> t.pred != P("encryptionMethod") && t.pred != P("encryptionMode"))
            && (mode.Some? && cipher.None? ==> r == Err(RuntimeError("Unknown encryption method.")))
            && Triple(pb, RdfType, P("Encryption")) in d'.graph
            && Triple(pb, P("encryptionIV"), Literal(ps.Attr("initialization_vector"))) in d'.graph
            && Triple(pb, P("encryptionKey"), Literal(ps.Attr("key"))) in d'.graph
  {
    var pb := Blank(d.next);
    forall t | t in d.graph ensures t.subj != pb {
      assert TripleBelow(t, d.next);
    }
  }

  /** `SQLiteBlob` never writes both `rowIndex` and `rowCondition`, and writes no type. */
  lemma SQLiteBlobSpec(ps: PathSpec, d: Doc)
    requires WellFormed(d)
    ensures var (r, d') := ConstructF(TypeSqliteBlob, ps, d);
            var pb := Blank(d.next);
            var preds := set t | t in About(d'.graph, pb) :: t.pred;
            && r == Ok(Some(pb))
            && RdfType !in preds
            && !(P("rowIndex") in preds && P("rowCondition") in preds)
            && (P("rowIndex") in preds <==> ps.Attr("row_index") != PyNone)
            && (P("rowCondition") in preds <==> ps.Attr("row_index") == PyNone && ps.Attr("row_condition") != PyNone)
  {
    var pb := Blank(d.next);
    forall t | t in d.graph ensures t.subj != pb {
      assert TripleBelow(t, d.next);
    }
    var (r, d') := ConstructF(TypeSqliteBlob, ps, d);
    if ps.Attr("row_index") != PyNone {
      assert Triple(pb, P("rowIndex"), Literal(ps.Attr("row_index"))) in About(d'.graph, pb);
    } else if ps.Attr("row_condition") != PyNone {
      assert Triple(pb, P("rowCondition"), Literal(ps.Attr("row_condition"))) in About(d'.graph, pb);
    }
  }

  /**
   * As written, a path spec made from a row condition, whose `row_index` dfvfs
   * sets to None, gets the literal None as its `rowIndex` and loses its
   * condition; the intended test writes the condition and no `rowIndex`.
   */
  lemma SQLiteBlobConditionLostAsWritten(ps: PathSpec, d: Doc)
    requires WellFormed(d)
    requires ps.Has("row_index") && ps.Attr("row_index") == PyNone && ps.Attr("row_condition") != PyNone
    ensures var pb := Blank(d.next);
            var written := SQLiteBlobAsWrittenF(ps, d).1.graph;
            var intended := SQLiteBlobF(ps, d).1.graph;
            && Triple(pb, P("rowIndex"), Literal(PyNone)) in written
            && Triple(pb, P("rowCondition"), Literal(ps.Attr("row_condition"))) !in written
            && Triple(pb, P("rowCondition"), Literal(ps.Attr("row_condition"))) in intended
            && (forall t :: t in intended && t.subj == pb ==> t.pred != P("rowIndex"))
  {
    var pb := Blank(d.next);
    forall t | t in d.graph ensures t.subj != pb {
      assert TripleBelow(t, d.next);
    }
  }
}
