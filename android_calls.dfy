/**
 * The `android:event:call` exporter: the body of a call event becomes a trace
 * with a `PhoneCall` bundle linked to the caller's contact, which is created
 * once per (name, number) pair; the start and end timestamps go onto the
 * `PhoneCall` bundle.
 */
module AndroidCalls {
  import opened Wrappers
  import opened Python
  import opened Case
  import opened Records
  import opened EventExporters

  const TimestampMap: map<string, Name> := map[
    "Call Ended" := Plain("endTime"),
    "Call Started" := Plain("startTime")]

  function P(local: string): Term { Iri(CASE, local) }

  /** The three edges a call can have to its contact. */
  const DirectionEdges: set<Term> := {P("from"), P("to"), P("participant")}

  /** The edge from the call to its contact: `from` for incoming and missed calls, `to` for outgoing ones. */
  function Direction(callType: PyValue): (edge: string)
    ensures edge == "from" <==> callType == PyStr("INCOMING") || callType == PyStr("MISSED")
    ensures edge == "to" <==> callType == PyStr("OUTGOING")
    ensures edge == "participant" <==> callType !in {PyStr("INCOMING"), PyStr("MISSED"), PyStr("OUTGOING")}
  {
    if callType == PyStr("INCOMING") || callType == PyStr("MISSED") then "from"
    else if callType == PyStr("OUTGOING") then "to"
    else "participant"
  }

  function ContactProps(name: PyValue, number: PyValue): seq<(string, Value)> {
    [("contactName", Py(name)), ("phoneNumber", Py(number))]
  }

  /** The contact trace of a (name, number) pair: the cached one, or a new trace with a `Contact` bundle. */
  function ContactF(name: PyValue, number: PyValue, s: ExportState): (Node, ExportState) {
    if (name, number) in s.caches.callContacts then (s.caches.callContacts[(name, number)], s)
    else
      var (contact, d1) := DocNewNode(s.doc, TraceCls, None, []);
      var (_, d2) := DocCreateBundle(d1, contact, Some(Plain("Contact")), ContactProps(name, number));
      (contact, ExportState(s.caches.(callContacts := s.caches.callContacts[(name, number) := contact]), d2))
  }

  function CallProps(ev: Event): seq<(string, Value)> {
    [("duration", Py(ev.Attr("duration"))), ("callType", Py(ev.Attr("call_type")))]
  }

  /** `export_event_data`: a new trace with a `PhoneCall` bundle, linked to the contact by the direction edge. */
  function ExportEventDataF(ev: Event, s: ExportState): (Node, ExportState) {
    var (trace, d1) := DocNewNode(s.doc, TraceCls, None, []);
    var (pb, d2) := DocCreateBundle(d1, trace, Some(Plain("PhoneCall")), CallProps(ev));
    var (contact, s3) := ContactF(ev.Attr("name"), ev.Attr("number"), ExportState(s.caches, d2));
    (pb, ExportState(s3.caches, DocAdd(s3.doc, pb, Plain(Direction(ev.Attr("call_type"))), Ref(contact))))
  }

  /** `export_timestamp`: the mapped timestamp onto the `PhoneCall` bundle; other labels are dropped. */
  function ExportTimestampF(ev: Event, pb: Node, d: Doc): Doc {
    StampF(TimestampMap, PyStr(ev.timestampDesc), pb, ev.timestamp, d)
  }

  // ----- the operations, on the exporter object -----

  method Contact(e: EventExporter, name: PyValue, number: PyValue) returns (contact: Node)
    modifies e, e.document
    ensures (contact, e.State()) == ContactF(name, number, old(e.State()))
  {
    if (name, number) in e.callContacts {
      return e.callContacts[(name, number)];
    }
    contact := e.document.CreateTrace([]);
    var _ := e.document.CreatePropertyBundle(contact, Some(Plain("Contact")), ContactProps(name, number));
    e.callContacts := e.callContacts[(name, number) := contact];
  }

  method ExportEventData(e: EventExporter, ev: Event) returns (pb: Node)
    modifies e, e.document
    ensures (pb, e.State()) == ExportEventDataF(ev, old(e.State()))
  {
    var trace := e.document.CreateTrace([]);
    pb := e.document.CreatePropertyBundle(trace, Some(Plain("PhoneCall")), CallProps(ev));
    var contact := Contact(e, ev.Attr("name"), ev.Attr("number"));
    e.document.Add(pb, Plain(Direction(ev.Attr("call_type"))), Ref(contact));
  }

  method ExportTimestamp(doc: Document, ev: Event, pb: Node)
    modifies doc
    ensures doc.State() == ExportTimestampF(ev, pb, old(doc.State()))
  {
    Stamp(doc, TimestampMap, PyStr(ev.timestampDesc), pb, ev.timestamp);
  }

  // ----- properties -----

  /**
   * A (name, number) pair gets a contact trace only the first time: a cached
   * pair creates nothing, a new pair creates exactly one trace, and the pair
   * is answered from the cache from then on.
   */
  lemma ContactOnce(name: PyValue, number: PyValue, s: ExportState)
    requires WellFormed(s.doc)
    ensures var (contact, s') := ContactF(name, number, s);
            var key := (name, number);
            && s'.caches == s.caches.(callContacts := s.caches.callContacts[key := contact])
            && ContactF(name, number, s') == (contact, s')
            && (key in s.caches.callContacts ==> s' == s)
            && (key !in s.caches.callContacts ==>
                  && contact == Node(s.doc.next, TraceCls)
                  && Typed(s'.doc.graph, DefaultType(TraceCls)) == Typed(s.doc.graph, DefaultType(TraceCls)) + {Blank(s.doc.next)})
            && ExtendsFrom(s.doc, s'.doc, s.doc.next)
  {
    if (name, number) !in s.caches.callContacts {
      var (contact, d1) := DocNewNode(s.doc, TraceCls, None, []);
      TypedNewNode(s.doc, TraceCls, None, [], DefaultType(TraceCls));
      TypedCreateBundle(d1, contact, Some(Plain("Contact")), ContactProps(name, number), DefaultType(TraceCls));
      NewNodeExtends(s.doc, TraceCls, None, [], s.doc.next);
      CreateBundleExtends(d1, contact, Some(Plain("Contact")), ContactProps(name, number), s.doc.next);
    }
  }

  /**
   * The body of a call event is one new `PhoneCall` bundle, owned by one new
   * trace, and it has exactly one direction edge: the one the call type picks,
   * to the contact cached for the event's (name, number).
   */
  lemma ExportEventDataSpec(ev: Event, s: ExportState)
    requires WellFormed(s.doc)
    ensures var (pb, s') := ExportEventDataF(ev, s);
            var key := (ev.Attr("name"), ev.Attr("number"));
            var x := Blank(pb.id);
            && pb == Node(s.doc.next + 1, PropertyBundleCls)
            && key in s'.caches.callContacts
            && TypesOf(s'.doc.graph, x) == {P("PhoneCall")}
            && Owners(s'.doc.graph, x) == {Blank(s.doc.next)}
            && (forall t :: t in s'.doc.graph && t.subj == x && t.pred in DirectionEdges ==>
                  t == Triple(x, P(Direction(ev.Attr("call_type"))), Blank(s'.caches.callContacts[key].id)))
            && Triple(x, P(Direction(ev.Attr("call_type"))), Blank(s'.caches.callContacts[key].id)) in s'.doc.graph
  {
    hide DocNewNode, DocCreateBundle, ContactF, NodeTriples;
    var (trace, d1) := DocNewNode(s.doc, TraceCls, None, []);
    NewNodeSpec(s.doc, TraceCls, None, []);
    var (pb, d2) := DocCreateBundle(d1, trace, Some(Plain("PhoneCall")), CallProps(ev));
    BundleHasOneOwner(d1, trace, Some(Plain("PhoneCall")), CallProps(ev));
    BundleTriples(d1, trace, Some(Plain("PhoneCall")), CallProps(ev));
    var s2 := ExportState(s.caches, d2);
    var (contact, s3) := ContactF(ev.Attr("name"), ev.Attr("number"), s2);
    ContactOnce(ev.Attr("name"), ev.Attr("number"), s2);
    var x := Blank(pb.id);
    var edge := Triple(x, P(Direction(ev.Attr("call_type"))), Blank(contact.id));
    var d4 := DocAdd(s3.doc, pb, Plain(Direction(ev.Attr("call_type"))), Ref(contact));
    assert d4.graph == s3.doc.graph + {edge};
    BundleNoDirection(d1, trace, ev);
    forall t | t in d4.graph && t.subj == x && t.pred in DirectionEdges ensures t == edge {
      assert t == edge || t in s3.doc.graph;
      assert t in s3.doc.graph ==> t in d2.graph;
    }
    assert TypesOf(d4.graph, x) == TypesOf(d2.graph, x);
    assert Owners(d4.graph, x) == Owners(d2.graph, x) by {
      forall t | t in d4.graph - d2.graph ensures t.obj != x || t.pred != PropertyBundleEdge {
        if t != edge {
          assert t in s3.doc.graph - d2.graph;
          NewBundleNotOwned(s2, ev.Attr("name"), ev.Attr("number"), t, pb.id);
        }
      }
    }
  }

  /** The `PhoneCall` bundle is created with no direction edge. */
  lemma BundleNoDirection(d1: Doc, trace: Node, ev: Event)
    requires WellFormed(d1) && trace.id < d1.next
    ensures var (pb, d2) := DocCreateBundle(d1, trace, Some(Plain("PhoneCall")), CallProps(ev));
            forall t :: t in d2.graph && t.subj == Blank(pb.id) ==> t.pred !in DirectionEdges
  {
    BundleTriples(d1, trace, Some(Plain("PhoneCall")), CallProps(ev));
  }

  /** A contact created after the bundle `id` never takes it as a property bundle. */
  lemma NewBundleNotOwned(s: ExportState, name: PyValue, number: PyValue, t: Triple, id: nat)
    requires WellFormed(s.doc) && id < s.doc.next
    requires t in ContactF(name, number, s).1.doc.graph - s.doc.graph
    ensures t.obj != Blank(id) || t.pred != PropertyBundleEdge
  {
    var (contact, d1) := DocNewNode(s.doc, TraceCls, None, []);
    PropsTriplesShape(Blank(s.doc.next), []);
    PropsTriplesShape(Blank(s.doc.next + 1), ContactProps(name, number));
    var props := ContactProps(name, number);
    PyTriplesShape(Blank(s.doc.next + 1), P("contactName"), name);
    PyTriplesShape(Blank(s.doc.next + 1), P("phoneNumber"), number);
  }

  /** A label of the table adds one timestamp to the `PhoneCall` bundle; any other label adds nothing. */
  lemma ExportTimestampSpec(ev: Event, pb: Node, d: Doc)
    ensures var d' := ExportTimestampF(ev, pb, d);
            && (ev.timestampDesc in TimestampMap ==>
                  d' == Doc(d.graph + {Triple(Blank(pb.id), Qualify(TimestampMap[ev.timestampDesc]), Literal(PyDateTime(ev.timestamp)))}, d.next))
            && (ev.timestampDesc !in TimestampMap ==> d' == d)
  {
    StampSpec(TimestampMap, PyStr(ev.timestampDesc), pb, ev.timestamp, d);
  }
}
