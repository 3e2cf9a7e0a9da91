/**
 * The `fs:stat:ntfs` exporter: the body of an NTFS event becomes a trace with
 * one `MftRecord` bundle holding the MFT identifiers the event has; each of
 * the four file-name timestamps goes onto that bundle.
 */
module Ntfs {
  import opened Wrappers
  import opened Python
  import opened Case
  import opened Records
  import opened Dfvfs
  import opened EventExporters

  const TimestampMap: map<string, Name> := map[
    CreationTime := Plain("mftFileNameCreatedTime"),
    ModificationTime := Plain("mftFileNameModifiedTime"),
    AccessTime := Plain("mftFileNameAccessedTime"),
    EntryModificationTime := Plain("mftFileNameRecordChangeTime")]

  /** Each property of the `MftRecord` bundle and the event attribute it is read from. */
  const MftFields: seq<(string, string)> := [
    ("mftFileID", "file_reference"),
    ("mftFlags", "file_attribute_flags"),
    ("mftParentID", "parent_file_reference")]

  function MftProps(ev: Event): seq<(string, Value)> {
    [(MftFields[0].0, Py(ev.Attr(MftFields[0].1))),
     (MftFields[1].0, Py(ev.Attr(MftFields[1].1))),
     (MftFields[2].0, Py(ev.Attr(MftFields[2].1)))]
  }

  /** `export_event_data`: a new trace with its `MftRecord` bundle. */
  function ExportEventDataF(ev: Event, d: Doc): (Node, Doc) {
    var (trace, d1) := DocNewNode(d, TraceCls, None, []);
    DocCreateBundle(d1, trace, Some(Plain("MftRecord")), MftProps(ev))
  }

  /** `export_timestamp`: the mapped file-name timestamp onto the `MftRecord` bundle; other labels are dropped. */
  function ExportTimestampF(ev: Event, pb: Node, d: Doc): Doc {
    StampF(TimestampMap, PyStr(ev.timestampDesc), pb, ev.timestamp, d)
  }

  method ExportEventData(doc: Document, ev: Event) returns (pb: Node)
    modifies doc
    ensures (pb, doc.State()) == ExportEventDataF(ev, old(doc.State()))
  {
    var trace := doc.CreateTrace([]);
    pb := doc.CreatePropertyBundle(trace, Some(Plain("MftRecord")), MftProps(ev));
  }

  method ExportTimestamp(doc: Document, ev: Event, pb: Node)
    modifies doc
    ensures doc.State() == ExportTimestampF(ev, pb, old(doc.State()))
  {
    Stamp(doc, TimestampMap, PyStr(ev.timestampDesc), pb, ev.timestamp);
  }

  // ----- properties -----

  /**
   * The body of an NTFS event is exactly one new trace holding exactly one
   * bundle, of type `MftRecord`, which describes each MFT property with the
   * event's attribute: nothing when the attribute is missing (None), the value
   * otherwise.
   */
  lemma ExportEventDataSpec(ev: Event, d: Doc)
    requires WellFormed(d)
    ensures var (pb, d') := ExportEventDataF(ev, d);
            var trace, x := Node(d.next, TraceCls), Blank(pb.id);
            && pb == Node(d.next + 1, PropertyBundleCls) && d'.next == d.next + 2
            && WellFormed(d') && d.graph <= d'.graph
            && Typed(d'.graph, DefaultType(TraceCls)) == Typed(d.graph, DefaultType(TraceCls)) + {Blank(trace.id)}
            && BundlesOf(d'.graph, trace) == {x}
            && TypesOf(d'.graph, x) == {Iri(CASE, "MftRecord")}
            && (forall i :: 0 <= i < |MftFields| ==>
                  Described(d'.graph, x, Iri(CASE, MftFields[i].0)) == PyTriples(x, Iri(CASE, MftFields[i].0), ev.Attr(MftFields[i].1)))
  {
    var (trace, d1) := DocNewNode(d, TraceCls, None, []);
    NewNodeSpec(d, TraceCls, None, []);
    TypedNewNode(d, TraceCls, None, [], DefaultType(TraceCls));
    var props := MftProps(ev);
    BundleHasOneOwner(d1, trace, Some(Plain("MftRecord")), props);
    OneMoreBundle(d1, trace, Some(Plain("MftRecord")), props);
    TypedCreateBundle(d1, trace, Some(Plain("MftRecord")), props, DefaultType(TraceCls));
    NoBundleYet(d);
    MftFieldsSpec(ev, d1, trace);
  }

  /** A new trace has no bundle yet. */
  lemma NoBundleYet(d: Doc)
    requires WellFormed(d)
    ensures var (trace, d1) := DocNewNode(d, TraceCls, None, []);
            BundlesOf(d1.graph, trace) == {}
  {
    var (trace, d1) := DocNewNode(d, TraceCls, None, []);
    forall t | t in d1.graph && t.subj == Blank(trace.id) ensures t.pred != PropertyBundleEdge {
      assert !TripleBelow(t, d.next);
      assert t in NodeTriples(d.next, TraceCls, None, []);
    }
  }

  /** Each MFT property of the new bundle is described by the event's attribute and nothing else. */
  lemma MftFieldsSpec(ev: Event, d1: Doc, trace: Node)
    requires WellFormed(d1) && trace.id < d1.next
    ensures var (pb, d') := DocCreateBundle(d1, trace, Some(Plain("MftRecord")), MftProps(ev));
            forall i :: 0 <= i < |MftFields| ==>
              Described(d'.graph, Blank(pb.id), Iri(CASE, MftFields[i].0)) == PyTriples(Blank(pb.id), Iri(CASE, MftFields[i].0), ev.Attr(MftFields[i].1))
  {
    var props := MftProps(ev);
    forall i | 0 <= i < |MftFields|
      ensures Described(DocCreateBundle(d1, trace, Some(Plain("MftRecord")), props).1.graph, Blank(d1.next), Iri(CASE, MftFields[i].0))
              == PyTriples(Blank(d1.next), Iri(CASE, MftFields[i].0), ev.Attr(MftFields[i].1))
    {
      FreshBundleKeyword(d1, trace, Some(Plain("MftRecord")), props, i);
    }
  }

  /** A missing MFT attribute leaves its property off the bundle. */
  lemma MissingFieldOmitted(ev: Event, d: Doc, i: nat)
    requires WellFormed(d) && i < |MftFields| && ev.Attr(MftFields[i].1) == PyNone
    ensures var (pb, d') := ExportEventDataF(ev, d);
            Described(d'.graph, Blank(pb.id), Iri(CASE, MftFields[i].0)) == {}
  {
    ExportEventDataSpec(ev, d);
  }

  /**
   * The four file-name timestamps go to the four `mftFileName*` properties, one
   * triple each; any other label adds nothing and raises nothing.
   */
  lemma ExportTimestampSpec(ev: Event, pb: Node, d: Doc)
    ensures var d' := ExportTimestampF(ev, pb, d);
            var stamp := Literal(PyDateTime(ev.timestamp));
            && (ev.timestampDesc == CreationTime ==>
                  d'.graph == d.graph + {Triple(Blank(pb.id), Iri(CASE, "mftFileNameCreatedTime"), stamp)})
            && (ev.timestampDesc == ModificationTime ==>
                  d'.graph == d.graph + {Triple(Blank(pb.id), Iri(CASE, "mftFileNameModifiedTime"), stamp)})
            && (ev.timestampDesc == AccessTime ==>
                  d'.graph == d.graph + {Triple(Blank(pb.id), Iri(CASE, "mftFileNameAccessedTime"), stamp)})
            && (ev.timestampDesc == EntryModificationTime ==>
                  d'.graph == d.graph + {Triple(Blank(pb.id), Iri(CASE, "mftFileNameRecordChangeTime"), stamp)})
            && (ev.timestampDesc !in TimestampMap ==> d' == d)
            && d'.next == d.next
  {
    StampSpec(TimestampMap, PyStr(ev.timestampDesc), pb, ev.timestamp, d);
  }
}
