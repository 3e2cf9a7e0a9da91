/**
 * The `android:messaging:sms` exporter. It overrides `export_event`, so there
 * is no content-key deduplication: every event becomes a new trace with a
 * `Message` bundle. The bundle is linked to the contact of the event's
 * address, created once per address, and carries the read flag unless the
 * flag is unknown.
 */
module AndroidSms {
  import opened Wrappers
  import opened Python
  import opened Case
  import opened Records
  import opened EventExporters

  function P(local: string): Term { Iri(CASE, local) }

  const MessageType: Term := P("Message")

  /** The three edges a message can have to its contact. */
  const DirectionEdges: set<Term> := {P("from"), P("to"), P("participant")}

  /** The edge from the message to its contact: `from` for received messages, `to` for sent ones. */
  function Direction(smsType: PyValue): (edge: string)
    ensures edge == "from" <==> smsType == PyStr("RECEIVED")
    ensures edge == "to" <==> smsType == PyStr("SENT")
    ensures edge == "participant" <==> smsType !in {PyStr("RECEIVED"), PyStr("SENT")}
  {
    if smsType == PyStr("RECEIVED") then "from"
    else if smsType == PyStr("SENT") then "to"
    else "participant"
  }

  /** The `isRead` value written for a read flag: none for an unknown flag, else whether it is `READ`. */
  function ReadFlag(smsRead: PyValue): (r: Option<bool>)
    ensures r.None? <==> smsRead == PyStr("UNKNOWN")
    ensures r.Some? ==> (r.value <==> smsRead == PyStr("READ"))
  {
    if smsRead != PyStr("UNKNOWN") then Some(smsRead == PyStr("READ")) else None
  }

  /** The contact trace of an address: the cached one, or a new trace with a `Contact` bundle. */
  function ContactF(address: PyValue, s: ExportState): (Node, ExportState) {
    if address in s.caches.smsContacts then (s.caches.smsContacts[address], s)
    else
      var (contact, d1) := DocNewNode(s.doc, TraceCls, None, []);
      var (_, d2) := DocCreateBundle(d1, contact, Some(Plain("Contact")), [("phoneNumber", Py(address))]);
      (contact, ExportState(s.caches.(smsContacts := s.caches.smsContacts[address := contact]), d2))
  }

  function MessageProps(ev: Event): seq<(string, Value)> {
    [("sentTime", Py(ConvertTimestamp(ev.timestamp))), ("messageText", Py(ev.Attr("body")))]
  }

  /** The message part of `export_event`: a new trace with a `Message` bundle, its read flag and its direction edge. */
  function MessageF(ev: Event, contact: Node, d: Doc): (Node, Doc) {
    var (trace, d1) := DocNewNode(d, TraceCls, None, []);
    var (pb, d2) := DocCreateBundle(d1, trace, Some(Plain("Message")), MessageProps(ev));
    var flag := ReadFlag(ev.Attr("sms_read"));
    var d3 := if flag.Some? then DocAdd(d2, pb, Plain("isRead"), Py(PyBool(flag.value))) else d2;
    (pb, DocAdd(d3, pb, Plain(Direction(ev.Attr("sms_type"))), Ref(contact)))
  }

  /** `AndroidSMSExporter.export_event`. */
  function ExportEventF(ev: Event, s: ExportState): ExportState {
    var (contact, s1) := ContactF(ev.Attr("address"), s);
    ExportState(s1.caches, MessageF(ev, contact, s1.doc).1)
  }

  // ----- the operations, on the exporter object -----

  method Contact(e: EventExporter, address: PyValue) returns (contact: Node)
    modifies e, e.document
    ensures (contact, e.State()) == ContactF(address, old(e.State()))
  {
    if address in e.smsContacts {
      return e.smsContacts[address];
    }
    contact := e.document.CreateTrace([]);
    var _ := e.document.CreatePropertyBundle(contact, Some(Plain("Contact")), [("phoneNumber", Py(address))]);
    e.smsContacts := e.smsContacts[address := contact];
  }

  method Message(doc: Document, ev: Event, contact: Node) returns (pb: Node)
    modifies doc
    ensures (pb, doc.State()) == MessageF(ev, contact, old(doc.State()))
  {
    var trace := doc.CreateTrace([]);
    pb := doc.CreatePropertyBundle(trace, Some(Plain("Message")), MessageProps(ev));
    if ev.Attr("sms_read") != PyStr("UNKNOWN") {
      doc.Add(pb, Plain("isRead"), Py(PyBool(ev.Attr("sms_read") == PyStr("READ"))));
    }
    doc.Add(pb, Plain(Direction(ev.Attr("sms_type"))), Ref(contact));
  }

  method ExportEvent(e: EventExporter, ev: Event)
    modifies e, e.document
    ensures e.State() == ExportEventF(ev, old(e.State()))
  {
    var contact := Contact(e, ev.Attr("address"));
    var _ := Message(e.document, ev, contact);
  }

  // ----- properties -----

  /**
   * An address gets a contact trace only the first time: a cached address
   * creates nothing, a new one creates exactly one trace, and the address is
   * answered from the cache from then on.
   */
  lemma ContactOnce(address: PyValue, s: ExportState)
    requires Sound(s)
    ensures var (contact, s') := ContactF(address, s);
            && s'.caches == s.caches.(smsContacts := s.caches.smsContacts[address := contact])
            && ContactF(address, s') == (contact, s')
            && (address in s.caches.smsContacts ==> s' == s)
            && (address !in s.caches.smsContacts ==>
                  && contact == Node(s.doc.next, TraceCls)
                  && Typed(s'.doc.graph, DefaultType(TraceCls)) == Typed(s.doc.graph, DefaultType(TraceCls)) + {Blank(s.doc.next)})
            && WellFormed(s'.doc) && contact.id < s'.doc.next
            && Typed(s'.doc.graph, MessageType) == Typed(s.doc.graph, MessageType)
  {
    if address !in s.caches.smsContacts {
      var props := [("phoneNumber", Py(address))];
      var (contact, d1) := DocNewNode(s.doc, TraceCls, None, []);
      NewNodeSpec(s.doc, TraceCls, None, []);
      BundleHasOneOwner(d1, contact, Some(Plain("Contact")), props);
      TypedNewNode(s.doc, TraceCls, None, [], DefaultType(TraceCls));
      TypedCreateBundle(d1, contact, Some(Plain("Contact")), props, DefaultType(TraceCls));
      TypedNewNode(s.doc, TraceCls, None, [], MessageType);
      TypedCreateBundle(d1, contact, Some(Plain("Contact")), props, MessageType);
    }
  }

  /**
   * A message is a new `Message` bundle that no earlier node had; it carries
   * `isRead` exactly when the read flag is known, with whether it is `READ`,
   * and exactly one direction edge, the one the message type picks, to the
   * contact.
   */
  lemma MessageSpec(ev: Event, contact: Node, d: Doc)
    requires WellFormed(d) && contact.id < d.next
    ensures var (pb, d') := MessageF(ev, contact, d);
            var x := Blank(pb.id);
            var flag := ReadFlag(ev.Attr("sms_read"));
            && WellFormed(d') && d.graph <= d'.graph
            && x !in Typed(d.graph, MessageType)
            && Typed(d'.graph, MessageType) == Typed(d.graph, MessageType) + {x}
            && (forall t :: t in d'.graph && t.subj == x && t.pred == P("isRead") ==>
                  flag.Some? && t.obj == Literal(PyBool(flag.value)))
            && (flag.Some? ==> Triple(x, P("isRead"), Literal(PyBool(flag.value))) in d'.graph)
            && (forall t :: t in d'.graph && t.subj == x && t.pred in DirectionEdges ==>
                  t == Triple(x, P(Direction(ev.Attr("sms_type"))), Blank(contact.id)))
            && Triple(x, P(Direction(ev.Attr("sms_type"))), Blank(contact.id)) in d'.graph
  {
    var (trace, d1) := DocNewNode(d, TraceCls, None, []);
    var (pb, d2) := DocCreateBundle(d1, trace, Some(Plain("Message")), MessageProps(ev));
    MessageBundle(ev, d);
    FreshUntyped(d, pb.id, MessageType);
    FlagAndEdge(d2, pb, ReadFlag(ev.Attr("sms_read")), Direction(ev.Attr("sms_type")), contact);
  }

  /** The new `Message` bundle: typed `Message`, and described so far only by its type and its keywords. */
  lemma MessageBundle(ev: Event, d: Doc)
    requires WellFormed(d)
    ensures var (trace, d1) := DocNewNode(d, TraceCls, None, []);
            var (pb, d2) := DocCreateBundle(d1, trace, Some(Plain("Message")), MessageProps(ev));
            && pb.id == d.next + 1 && WellFormed(d2) && d.graph <= d2.graph && d2.next == d.next + 2
            && Typed(d2.graph, MessageType) == Typed(d.graph, MessageType) + {Blank(pb.id)}
            && (forall t :: t in d2.graph && t.subj == Blank(pb.id) ==>
                  t.pred in {RdfType, P("sentTime"), P("messageText")})
  {
    var (trace, d1) := DocNewNode(d, TraceCls, None, []);
    NewNodeSpec(d, TraceCls, None, []);
    TypedNewNode(d, TraceCls, None, [], MessageType);
    BundleHasOneOwner(d1, trace, Some(Plain("Message")), MessageProps(ev));
    BundleTriples(d1, trace, Some(Plain("Message")), MessageProps(ev));
    TypedCreateBundle(d1, trace, Some(Plain("Message")), MessageProps(ev), MessageType);
  }

  /** The read flag and the direction edge written onto a bundle that had neither. */
  lemma FlagAndEdge(d2: Doc, pb: Node, flag: Option<bool>, dir: string, contact: Node)
    requires WellFormed(d2) && pb.id < d2.next && contact.id < d2.next
    requires forall t :: t in d2.graph && t.subj == Blank(pb.id) ==> t.pred in {RdfType, P("sentTime"), P("messageText")}
    requires dir in {"from", "to", "participant"}
    ensures var d3 := if flag.Some? then DocAdd(d2, pb, Plain("isRead"), Py(PyBool(flag.value))) else d2;
            var d4 := DocAdd(d3, pb, Plain(dir), Ref(contact));
            var x := Blank(pb.id);
            && WellFormed(d4) && d2.graph <= d4.graph
            && (forall ty :: Typed(d4.graph, ty) == Typed(d2.graph, ty))
            && (forall t :: t in d4.graph && t.subj == x && t.pred == P("isRead") ==>
                  flag.Some? && t.obj == Literal(PyBool(flag.value)))
            && (flag.Some? ==> Triple(x, P("isRead"), Literal(PyBool(flag.value))) in d4.graph)
            && (forall t :: t in d4.graph && t.subj == x && t.pred in DirectionEdges ==> t == Triple(x, P(dir), Blank(contact.id)))
            && Triple(x, P(dir), Blank(contact.id)) in d4.graph
  {
    var x := Blank(pb.id);
    var b := if flag.Some? then flag.value else false;
    var d3 := if flag.Some? then DocAdd(d2, pb, Plain("isRead"), Py(PyBool(b))) else d2;
    var read := Triple(x, P("isRead"), Literal(PyBool(b)));
    assert flag.Some? ==> d3.graph == d2.graph + {read};
    assert flag.None? ==> d3 == d2;
    var edge := Triple(x, P(dir), Blank(contact.id));
    var d4 := DocAdd(d3, pb, Plain(dir), Ref(contact));
    assert d4.graph == d3.graph + {edge};
    assert WellFormed(d3) by {
      if flag.Some? { AddKeepsWellFormed(d2, pb, Plain("isRead"), Py(PyBool(b))); }
    }
    AddKeepsWellFormed(d3, pb, Plain(dir), Ref(contact));
    forall ty ensures Typed(d4.graph, ty) == Typed(d2.graph, ty) {
      TypedAdd(d3, pb, Plain(dir), Ref(contact), ty);
      if flag.Some? { TypedAdd(d2, pb, Plain("isRead"), Py(PyBool(b)), ty); }
    }
    forall t | t in d4.graph && t.subj == x && t.pred == P("isRead")
      ensures flag.Some? && t.obj == Literal(PyBool(flag.value))
    {
      assert t == edge || t == read || t in d2.graph;
    }
    forall t | t in d4.graph && t.subj == x && t.pred in DirectionEdges ensures t == edge {
      assert t == edge || t == read || t in d2.graph;
    }
  }

  /**
   * Every event creates one more `Message` bundle, even an event exported
   * before: there is no deduplication.
   */
  lemma ExportEventNewMessage(ev: Event, s: ExportState)
    requires Sound(s)
    ensures var s' := ExportEventF(ev, s);
            && WellFormed(s'.doc)
            && |Typed(s'.doc.graph, MessageType)| == |Typed(s.doc.graph, MessageType)| + 1
  {
    var (contact, s1) := ContactF(ev.Attr("address"), s);
    ContactOnce(ev.Attr("address"), s);
    MessageSpec(ev, contact, s1.doc);
  }
}
