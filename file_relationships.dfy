/**
 * `file_relationships`: rules keyed by path-spec type indicator that describe
 * a layer as one property bundle on a given UCO object. Every argument is
 * evaluated before the bundle is created, so a failed table lookup leaves the
 * graph untouched.
 */
module FileRelationships {
  import opened Wrappers
  import opened Python
  import opened Case
  import opened Dfvfs
  import opened Records
  import Mappings
  import Registry

  datatype Rule =
    | BDE | Compression | DataRange | Encoding | Encryption | FVDE | LVM
    | Mount | NTFS | SQLiteBlob | TSK | TSKPartition | VShadow

  /** `registry` once the module is imported. */
  const Rules: map<string, Rule> :=
    map[TypeBde := BDE, TypeCompressedStream := Compression, TypeGzip := Compression,
        TypeDataRange := DataRange, TypeEncodedStream := Encoding, TypeEncryptedStream := Encryption,
        TypeFvde := FVDE, TypeLvm := LVM, TypeMount := Mount, TypeNtfs := NTFS,
        TypeSqliteBlob := SQLiteBlob, TypeTsk := TSK, TypeTskPartition := TSKPartition,
        TypeVshadow := VShadow]

  /** Importing the module runs the `@register` decorators in order; the inner decorator of `Compression` runs first. */
  method ImportRegistry() returns (registry: Registry.Registry<string, Rule>)
    ensures fresh(registry) && registry.entries == Rules
  {
    registry := new Registry.Registry();
    registry.Register(TypeBde, BDE);
    registry.Register(TypeCompressedStream, Compression);
    registry.Register(TypeGzip, Compression);
    registry.Register(TypeDataRange, DataRange);
    registry.Register(TypeEncodedStream, Encoding);
    registry.Register(TypeEncryptedStream, Encryption);
    registry.Register(TypeFvde, FVDE);
    registry.Register(TypeLvm, LVM);
    registry.Register(TypeMount, Mount);
    registry.Register(TypeNtfs, NTFS);
    registry.Register(TypeSqliteBlob, SQLiteBlob);
    registry.Register(TypeTsk, TSK);
    registry.Register(TypeTskPartition, TSKPartition);
    registry.Register(TypeVshadow, VShadow);
  }

  // ----- argument evaluation -----

  /** `table[key]` on a table keyed by strings: any other key raises KeyError. */
  function Index(table: map<string, Term>, key: PyValue): Result<Term, PyError> {
    if key.PyStr? && key.s in table then Ok(table[key.s]) else Err(KeyError(key))
  }

  /** The compression method: always GZIP for a GZIP layer, otherwise the mapped method or a RuntimeError naming it. */
  function CompressionMethodOf(ps: PathSpec): Result<Term, PyError> {
    if ps.typeIndicator == TypeGzip then Ok(Iri(CASE, "GZIP"))
    else
      var m := ps.Attr("compression_method");
      match Index(Mappings.CompressionMethod, m)
      case Ok(t) => Ok(t)
      case Err(_) => Err(RuntimeError("Unsupported compression method: " + ToStr(m)))
  }

  /** `' '.join(v)`: a string is joined character by character; a collection must hold only strings. */
  function JoinWithSpaces(v: PyValue): Result<string, PyError> {
    match v
    case PyStr(s) => Ok(Join(seq(|s|, i requires 0 <= i < |s| => [s[i]]), " "))
    case PyList(items) =>
      if forall i :: 0 <= i < |items| ==> items[i].PyStr? then
        Ok(Join(seq(|items|, i requires 0 <= i < |items| && items[i].PyStr? => items[i].s), " "))
      else Err(TypeError("sequence item: expected str instance"))
    case _ => Err(TypeError("can only join an iterable"))
  }

  predicate StartsWith(s: string, prefix: string) {
    |prefix| <= |s| && s[..|prefix|] == prefix
  }

  /**
   * The partition index as `TSKPartition` derives it, as written: `int()` raises
   * ValueError on a suffix that is not a number, and the handler only catches
   * KeyError, so the error escapes.
   */
  function PartitionIndexAsWritten(ps: PathSpec): Result<PyValue, PyError> {
    var partIndex := ps.Attr("part_index");
    var location := ps.Attr("location");
    if !Truthy(partIndex) && Truthy(location) then
      if !location.PyStr? then Err(AttributeError("startswith"))
      else if StartsWith(location.s, "/p") then
        match ParseInt(location.s[2..])
        case Some(n) => Ok(PyInt(n - 1))
        case None => Err(ValueError("invalid literal for int() with base 10: " + Repr(PyStr(location.s[2..]))))
      else Ok(partIndex)
    else Ok(partIndex)
  }

  /** The partition index as evidently intended: a suffix that is not a number leaves the index as it was. */
  function PartitionIndex(ps: PathSpec): Result<PyValue, PyError> {
    var partIndex := ps.Attr("part_index");
    var location := ps.Attr("location");
    if !Truthy(partIndex) && Truthy(location) then
      if !location.PyStr? then Err(AttributeError("startswith"))
      else if StartsWith(location.s, "/p") then
        match ParseInt(location.s[2..])
        case Some(n) => Ok(PyInt(n - 1))
        case None => Ok(partIndex)
      else Ok(partIndex)
    else Ok(partIndex)
  }

  /** The type and keyword arguments each rule passes to `create_property_bundle`, evaluated in order. */
  function Args(rule: Rule, ps: PathSpec, volumeIndex: PyValue): Result<(Name, seq<(string, Value)>), PyError> {
    match rule
    case BDE =>
      Ok((Plain("BDEVolume"), [("password", Py(ps.Attr("password"))),
                              ("recoveryPassword", Py(ps.Attr("recovery_password"))),
                              ("startupKey", Py(ps.Attr("startup_key")))]))
    case Compression =>
      var m :- CompressionMethodOf(ps);
      Ok((Plain("Compression"), [("compressionMethod", Res(m))]))
    case DataRange =>
      Ok((Plain("DataRange"), [("rangeOffset", Py(ps.Attr("range_offset"))), ("rangeSize", Py(ps.Attr("range_size")))]))
    case Encoding =>
      var m :- Index(Mappings.EncodingMethod, ps.Attr("encoding_method"));
      Ok((Plain("Encoding"), [("encodingMethod", Res(m))]))
    case Encryption =>
      var mode :- Index(Mappings.EncryptionMode, ps.Attr("cipher_mode"));
      var cipher :- Index(Mappings.EncryptionMethod, ps.Attr("encryption_method"));
      Ok((Plain("Encryption"), [("encryptionIV", Py(ps.Attr("initialization_vector"))),
                               ("encryptionKey", Py(ps.Attr("key"))),
                               ("encryptionMode", Res(mode)),
                               ("encryptionMethod", Res(cipher))]))
    case FVDE =>
      Ok((Plain("FVDEEncryption"), [("encryptedRootPlist", Py(ps.Attr("encrypted_root_plist"))),
                                   ("password", Py(ps.Attr("password"))),
                                   ("recoveryPassword", Py(ps.Attr("recovery_password")))]))
    case LVM =>
      Ok((Plain("LVMVolume"), [("volumeIndex", Py(volumeIndex))]))
    case Mount =>
      Ok((Plain("Volume"), [("volumeID", Py(ps.Attr("identifier")))]))
    case NTFS =>
      Ok((Plain("NTFSFileSystem"), [("alternateDataStream", Py(ps.Attr("data_stream"))),
                                   ("MFTAttribute", Py(ps.Attr("mft_attribute"))),
                                   ("MFTEntry", Py(ps.Attr("mft_entry")))]))
    case SQLiteBlob =>
      Ok((Plain("SQLiteBlob"), [("columnName", Py(ps.Attr("column_name"))), ("tableName", Py(ps.Attr("table_name")))]))
    case TSK =>
      Ok((Uri(PLASO, "TSK"), [("dataStream", Py(ps.Attr("data_stream"))), ("inode", Py(ps.Attr("inode")))]))
    case TSKPartition =>
      var index :- PartitionIndex(ps);
      Ok((Plain("DiskPartition"), [("paritionOffset", Py(ps.Attr("start_offset"))), ("partitionID", Py(index))]))
    case VShadow =>
      Ok((Plain("VShadow"), [("snapshotID", Py(ps.Attr("store_index")))]))
  }

  /**
   * The row property `SQLiteBlob` adds to its bundle afterwards, as written:
   * `rowIndex` if the path spec has that attribute, else the joined
   * `rowCondition` if it has that one. A dfvfs SQLite blob path spec always
   * has both, one of them None.
   */
  function RowPropertyAsWritten(ps: PathSpec): Result<Option<(string, PyValue)>, PyError> {
    if ps.Has("row_index") then Ok(Some(("rowIndex", ps.Attr("row_index"))))
    else if ps.Has("row_condition") then
      var joined :- JoinWithSpaces(ps.Attr("row_condition"));
      Ok(Some(("rowCondition", PyStr(joined))))
    else Ok(None)
  }

  /**
   * The row property as evidently intended: `rowIndex` if the row index is not
   * None, else the joined `rowCondition` if the condition is not None.
   */
  function RowProperty(ps: PathSpec): Result<Option<(string, PyValue)>, PyError> {
    if ps.Attr("row_index") != PyNone then Ok(Some(("rowIndex", ps.Attr("row_index"))))
    else if ps.Attr("row_condition") != PyNone then
      var joined :- JoinWithSpaces(ps.Attr("row_condition"));
      Ok(Some(("rowCondition", PyStr(joined))))
    else Ok(None)
  }

  /** `construct(identifier, uco_object, path_spec)`; the LVM volume index is supplied by the caller. */
  function ConstructF(identifier: string, owner: Node, ps: PathSpec, volumeIndex: PyValue, d: Doc): (Result<(), PyError>, Doc) {
    if identifier !in Rules then (Ok(()), d)
    else
      var rule := Rules[identifier];
      match Args(rule, ps, volumeIndex)
      case Err(e) => (Err(e), d)
      case Ok(args) =>
        var (pb, d1) := DocCreateBundle(d, owner, Some(args.0), args.1);
        if rule != SQLiteBlob then (Ok(()), d1)
        else
          match RowProperty(ps)
          case Err(e) => (Err(e), d1)
          case Ok(None) => (Ok(()), d1)
          case Ok(Some(row)) => (Ok(()), DocAdd(d1, pb, Plain(row.0), Py(row.1)))
  }

  /** `construct(identifier, uco_object, path_spec)`, writing into the document. */
  method Construct(identifier: string, owner: Node, ps: PathSpec, volumeIndex: PyValue, doc: Document)
    returns (r: Result<(), PyError>)
    requires IsUcoObject(owner.cls)
    modifies doc
    ensures (r, doc.State()) == ConstructF(identifier, owner, ps, volumeIndex, old(doc.State()))
  {
    if identifier !in Rules {
      return Ok(());
    }
    var rule := Rules[identifier];
    var args := Args(rule, ps, volumeIndex);
    if args.Err? {
      return Err(args.error);
    }
    var pb := doc.CreatePropertyBundle(owner, Some(args.value.0), args.value.1);
    if rule == SQLiteBlob {
      var row := RowProperty(ps);
      if row.Err? {
        return Err(row.error);
      }
      if row.value.Some? {
        doc.Add(pb, Plain(row.value.value.0), Py(row.value.value.1));
      }
    }
    r := Ok(());
  }

  // ----- properties -----

  /**
   * An unregistered identifier does nothing. A registered rule either fails
   * while evaluating its arguments, leaving the graph as it was, or gives the
   * object exactly one new property bundle.
   */
  lemma ConstructSpec(identifier: string, owner: Node, ps: PathSpec, volumeIndex: PyValue, d: Doc)
    requires WellFormed(d) && owner.id < d.next
    ensures var (r, d') := ConstructF(identifier, owner, ps, volumeIndex, d);
            && (identifier !in Rules ==> r.Ok? && d' == d)
            && (identifier in Rules && Args(Rules[identifier], ps, volumeIndex).Err? ==> r.Err? && d' == d)
            && (identifier in Rules && Args(Rules[identifier], ps, volumeIndex).Ok? ==>
                  && Blank(d.next) !in BundlesOf(d.graph, owner)
                  && BundlesOf(d'.graph, owner) == BundlesOf(d.graph, owner) + {Blank(d.next)})
  {
    var (r, d') := ConstructF(identifier, owner, ps, volumeIndex, d);
    if identifier in Rules && Args(Rules[identifier], ps, volumeIndex).Ok? {
      var args := Args(Rules[identifier], ps, volumeIndex).value;
      OneMoreBundle(d, owner, Some(args.0), args.1);
      var (pb, d1) := DocCreateBundle(d, owner, Some(args.0), args.1);
      if Rules[identifier] == SQLiteBlob && RowProperty(ps).Ok? && RowProperty(ps).value.Some? {
        var row := RowProperty(ps).value.value;
        assert pb.id != owner.id;
        forall t | t in ValueTriples(Blank(pb.id), Qualify(Plain(row.0)), Py(row.1)) ensures t.subj != Blank(owner.id) {
          PyTriplesShape(Blank(pb.id), Qualify(Plain(row.0)), row.1);
        }
        assert BundlesOf(d'.graph, owner) == BundlesOf(d1.graph, owner);
      }
    }
  }

  /** Both GZIP and compressed-stream layers go to `Compression`; a GZIP layer is always GZIP-compressed. */
  lemma CompressionSpec(ps: PathSpec, volumeIndex: PyValue)
    ensures Rules[TypeGzip] == Compression && Rules[TypeCompressedStream] == Compression
    ensures ps.typeIndicator == TypeGzip ==>
              Args(Compression, ps, volumeIndex) == Ok((Plain("Compression"), [("compressionMethod", Res(Iri(CASE, "GZIP")))]))
    ensures ps.typeIndicator != TypeGzip ==>
              var m := ps.Attr("compression_method");
              (Args(Compression, ps, volumeIndex).Err? <==> !(m.PyStr? && m.s in Mappings.CompressionMethod))
              && (Args(Compression, ps, volumeIndex).Err? ==>
                    Args(Compression, ps, volumeIndex).error == RuntimeError("Unsupported compression method: " + ToStr(m)))
  {
  }

  /** An unmapped encoding method, cipher mode or encryption method raises KeyError, the mode before the method. */
  lemma LookupFailures(ps: PathSpec, volumeIndex: PyValue)
    ensures var m := ps.Attr("encoding_method");
            Args(Encoding, ps, volumeIndex).Err? <==> !(m.PyStr? && m.s in Mappings.EncodingMethod)
    ensures var mode := ps.Attr("cipher_mode");
            !(mode.PyStr? && mode.s in Mappings.EncryptionMode) ==> Args(Encryption, ps, volumeIndex) == Err(KeyError(mode))
    ensures var mode, cipher := ps.Attr("cipher_mode"), ps.Attr("encryption_method");
            mode.PyStr? && mode.s in Mappings.EncryptionMode && !(cipher.PyStr? && cipher.s in Mappings.EncryptionMethod)
            ==> Args(Encryption, ps, volumeIndex) == Err(KeyError(cipher))
  {
  }

  /** A falsy `part_index` with a location `/p<n>` gives partition `n - 1`; a truthy one is kept. */
  lemma PartitionFromLocation(ps: PathSpec, n: int)
    requires !Truthy(ps.Attr("part_index")) && ps.Attr("location") == PyStr("/p" + IntToString(n))
    ensures PartitionIndex(ps) == Ok(PyInt(n - 1))
    ensures PartitionIndexAsWritten(ps) == Ok(PyInt(n - 1))
  {
    hide ParseInt, Strip, TrimStart, TrimEnd, DigitsValue;
    var s := "/p" + IntToString(n);
    assert StartsWith(s, "/p") && s[2..] == IntToString(n);
    ParseIntRoundTrip(n);
  }

  /** The derivation as written and as intended agree wherever the written one succeeds, and only the written one raises ValueError. */
  lemma PartitionIndexAgrees(ps: PathSpec)
    ensures PartitionIndexAsWritten(ps).Ok? ==> PartitionIndex(ps) == PartitionIndexAsWritten(ps)
    ensures PartitionIndex(ps).Err? ==> PartitionIndex(ps).error == AttributeError("startswith")
    ensures Truthy(ps.Attr("part_index")) ==> PartitionIndex(ps) == Ok(ps.Attr("part_index"))
  {
  }

  /** A location `/px` without a part index makes the written code raise, where the intended code leaves the index unset. */
  lemma PartitionSuffixNotNumber()
    ensures var ps := PathSpec(TypeTskPartition, [("location", PyStr("/px"))], None);
            && PartitionIndexAsWritten(ps).Err? && PartitionIndexAsWritten(ps).error.ValueError?
            && PartitionIndex(ps) == Ok(PyNone)
  {
    var ps := PathSpec(TypeTskPartition, [("location", PyStr("/px"))], None);
    assert ps.Attr("location") == PyStr("/px");
    assert ps.Attr("part_index") == PyNone;
    assert StartsWith("/px", "/p") && "/px"[2..] == "x";
    assert ParseInt("x") == None;
  }

  /** `SQLiteBlob` adds a row index that is not None; otherwise a condition of strings is joined with single spaces. */
  lemma RowPropertySpec(ps: PathSpec)
    ensures ps.Attr("row_index") != PyNone ==> RowProperty(ps) == Ok(Some(("rowIndex", ps.Attr("row_index"))))
    ensures ps.Attr("row_index") == PyNone && ps.Attr("row_condition").PyList? ==>
              var items := ps.Attr("row_condition").items;
              (forall i :: 0 <= i < |items| ==> items[i].PyStr?) ==>
                RowProperty(ps) == Ok(Some(("rowCondition",
                  PyStr(Join(seq(|items|, i requires 0 <= i < |items| && items[i].PyStr? => items[i].s), " ")))))
    ensures ps.Attr("row_index") == PyNone && ps.Attr("row_condition") == PyNone ==> RowProperty(ps) == Ok(None)
  {
  }

  /**
   * As written, a path spec made from a row condition of strings, whose
   * `row_index` dfvfs sets to None, asks for `rowIndex` None, which `add`
   * skips, so the bundle gets no row property at all; the intended test gives
   * it the joined condition.
   */
  lemma RowConditionLostAsWritten(ps: PathSpec, pb: Node, d: Doc)
    requires ps.Has("row_index") && ps.Attr("row_index") == PyNone
    requires ps.Attr("row_condition").PyList? && ps.Attr("row_condition").items != []
    requires forall i :: 0 <= i < |ps.Attr("row_condition").items| ==> ps.Attr("row_condition").items[i].PyStr?
    ensures RowPropertyAsWritten(ps) == Ok(Some(("rowIndex", PyNone)))
    ensures DocAdd(d, pb, Plain("rowIndex"), Py(PyNone)) == d
    ensures RowProperty(ps).Ok? && RowProperty(ps).value.Some? && RowProperty(ps).value.value.0 == "rowCondition"
  {
    assert ValueTriples(Blank(pb.id), Qualify(Plain("rowIndex")), Py(PyNone)) == {};
  }
}
