/**
 * The event-exporter base: the registry from plaso data types to exporter
 * classes, the factory that falls back to the default (do-nothing) exporter,
 * and the state every exporter instance keeps. The subclasses are told apart
 * by a `Kind`; each keeps its own caches in the fields of one class, which the
 * per-kind modules update. The content-key template `export_event` is in
 * module Exporting, next to the per-kind operations it dispatches to.
 */
module EventExporters {
  import opened Wrappers
  import opened Python
  import opened Case
  import opened Records
  import Lib
  import Registry

  /** The exporter classes of the package: the default exporter and each registered subclass. */
  datatype Kind =
    | DefaultKind
    | FileStatKind
    | AndroidCallKind
    | AndroidSmsKind
    | NtfsKind
    | SkypeAccountKind
    | SkypeCallKind
    | SkypeChatKind
    | SkypeFileTransferKind

  /** The registry once every exporter module has been imported. */
  const Kinds: map<string, Kind> := map[
    "android:event:call" := AndroidCallKind,
    "android:messaging:sms" := AndroidSmsKind,
    "fs:stat" := FileStatKind,
    "fs:stat:ntfs" := NtfsKind,
    "skype:event:account" := SkypeAccountKind,
    "skype:event:call" := SkypeCallKind,
    "skype:event:chat" := SkypeChatKind,
    "skype:event:transferfile" := SkypeFileTransferKind]

  /** The `register` decorators of the exporter modules, in import order, each under its class's `DATA_TYPE`. */
  method ImportRegistry() returns (registry: Registry.Registry<string, Kind>)
    ensures fresh(registry) && registry.entries == Kinds
  {
    registry := new Registry.Registry();
    registry.Register("android:event:call", AndroidCallKind);
    registry.Register("android:messaging:sms", AndroidSmsKind);
    registry.Register("fs:stat", FileStatKind);
    registry.Register("fs:stat:ntfs", NtfsKind);
    registry.Register("skype:event:account", SkypeAccountKind);
    registry.Register("skype:event:call", SkypeCallKind);
    registry.Register("skype:event:chat", SkypeChatKind);
    registry.Register("skype:event:transferfile", SkypeFileTransferKind);
  }

  /** The class `from_data_type` instantiates: the registered one, or the default exporter on the KeyError. */
  function KindFor(dataType: string): (k: Kind)
    ensures k == DefaultKind <==> dataType !in Kinds
    ensures dataType in Kinds ==> k == Kinds[dataType]
  {
    if dataType in Kinds then Kinds[dataType] else DefaultKind
  }

  /** Distinct registered data types are served by distinct exporter classes. */
  lemma KindsDistinct(a: string, b: string)
    requires a in Kinds && b in Kinds && a != b
    ensures KindFor(a) != KindFor(b)
  {
  }

  /** What `export_path_spec` caches for a path spec: its trace and the trace's `File` bundle. */
  type FileLayer = p: (Node, Node) | p.0.cls == TraceCls && p.1.cls == PropertyBundleCls
    witness (Node(0, TraceCls), Node(0, PropertyBundleCls))

  /**
   * The caches of one exporter instance: the base class's content-key cache and
   * the caches of the subclasses (path specs for `fs:stat`, contacts for the
   * Android exporters, and the Skype accounts and message threads).
   */
  datatype ExporterCaches = ExporterCaches(
    elements: map<Lib.Key, Node>,
    pathSpecs: map<PathSpec, FileLayer>,
    callContacts: map<(PyValue, PyValue), Node>,
    smsContacts: map<PyValue, Node>,
    accounts: map<PyValue, (Node, Node)>,
    threads: map<PyValue, (Node, Node)>)

  const NoCaches: ExporterCaches := ExporterCaches(map[], map[], map[], map[], map[], map[])

  /** An exporter's caches together with the document it writes into. */
  datatype ExportState = ExportState(caches: ExporterCaches, doc: Doc)

  predicate NodeBelow(n: Node, bound: nat) {
    n.id < bound
  }

  /** Every node an exporter has cached was created before `bound`. */
  predicate CachesBelow(c: ExporterCaches, bound: nat) {
    && (forall k :: k in c.elements ==> NodeBelow(c.elements[k], bound))
    && (forall k :: k in c.pathSpecs ==> NodeBelow(c.pathSpecs[k].0, bound) && NodeBelow(c.pathSpecs[k].1, bound))
    && (forall k :: k in c.callContacts ==> NodeBelow(c.callContacts[k], bound))
    && (forall k :: k in c.smsContacts ==> NodeBelow(c.smsContacts[k], bound))
    && (forall k :: k in c.accounts ==> NodeBelow(c.accounts[k].0, bound) && NodeBelow(c.accounts[k].1, bound))
    && (forall k :: k in c.threads ==> NodeBelow(c.threads[k].0, bound) && NodeBelow(c.threads[k].1, bound))
  }

  /** A document that is well formed and caches that point only into it. */
  ghost predicate Sound(s: ExportState) {
    WellFormed(s.doc) && CachesBelow(s.caches, s.doc.next)
  }

  /** A cache bound stays a bound when more nodes are created. */
  lemma CachesBelowMono(c: ExporterCaches, lo: nat, hi: nat)
    requires CachesBelow(c, lo) && lo <= hi
    ensures CachesBelow(c, hi)
  {
  }

  /** An exporter instance: its class, its document, and the caches its class keeps. */
  class EventExporter {
    const kind: Kind
    const document: Document
    /** The data type the exporter was created for; the object itself does not record it. */
    ghost const dataType: string
    var cachedElements: map<Lib.Key, Node>
    var pathSpecTraces: map<PathSpec, FileLayer>
    var callContacts: map<(PyValue, PyValue), Node>
    var smsContacts: map<PyValue, Node>
    var accounts: map<PyValue, (Node, Node)>
    var threads: map<PyValue, (Node, Node)>

    function Caches(): ExporterCaches
      reads this
    {
      ExporterCaches(cachedElements, pathSpecTraces, callContacts, smsContacts, accounts, threads)
    }

    function State(): ExportState
      reads this, document
    {
      ExportState(Caches(), document.State())
    }

    /** `__init__` of the class `kind`: every cache starts empty. */
    constructor (kind: Kind, document: Document, ghost dataType: string)
      ensures this.kind == kind && this.document == document && this.dataType == dataType && Caches() == NoCaches
    {
      this.kind := kind;
      this.document := document;
      this.dataType := dataType;
      cachedElements := map[];
      pathSpecTraces := map[];
      callContacts := map[];
      smsContacts := map[];
      accounts := map[];
      threads := map[];
    }
  }

  /** `EventExporter.from_data_type(data_type, document)`. */
  method FromDataType(dataType: string, document: Document) returns (e: EventExporter)
    ensures fresh(e) && e.kind == KindFor(dataType) && e.dataType == dataType
    ensures e.document == document && e.Caches() == NoCaches
  {
    e := new EventExporter(KindFor(dataType), document, dataType);
  }

  /**
   * `pb.add(TIMESTAMP_MAP[desc], convert_timestamp(t))` inside `try ... except KeyError: pass`:
   * a description that is not a key of the table adds nothing.
   */
  function StampF(table: map<string, Name>, desc: PyValue, pb: Node, t: int, d: Doc): Doc {
    if desc.PyStr? && desc.s in table then DocAdd(d, pb, table[desc.s], Py(ConvertTimestamp(t)))
    else d
  }

  method Stamp(doc: Document, table: map<string, Name>, desc: PyValue, pb: Node, t: int)
    modifies doc
    ensures doc.State() == StampF(table, desc, pb, t, old(doc.State()))
  {
    if desc.PyStr? && desc.s in table {
      doc.Add(pb, table[desc.s], Py(ConvertTimestamp(t)));
    }
  }

  /** A mapped description adds exactly one timestamp to the bundle, under the mapped name; any other adds nothing. */
  lemma StampSpec(table: map<string, Name>, desc: PyValue, pb: Node, t: int, d: Doc)
    ensures var d' := StampF(table, desc, pb, t, d);
            && d'.next == d.next
            && (desc.PyStr? && desc.s in table ==>
                  d'.graph == d.graph + {Triple(Blank(pb.id), Qualify(table[desc.s]), Literal(PyDateTime(t)))})
            && (!(desc.PyStr? && desc.s in table) ==> d' == d)
  {
  }
}
