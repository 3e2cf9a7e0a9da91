/**
 * `EventExporter.export_event` and its dispatch over the exporter classes.
 * The base class's template exports an event's data once per content key and
 * writes every event's timestamp onto the element cached for its key; the
 * `fs:stat`, Android SMS and Skype chat exporters override `export_event`; the
 * default and the Skype file-transfer exporters do nothing.
 */
module Exporting {
  import opened Wrappers
  import opened Python
  import opened Case
  import opened Records
  import opened EventExporters
  import Lib
  import FileStat
  import AndroidCalls
  import AndroidSms
  import Ntfs
  import Skype

  /** The classes that keep the base `export_event`. */
  predicate UsesTemplate(kind: Kind) {
    kind == AndroidCallKind || kind == NtfsKind || kind == SkypeAccountKind || kind == SkypeCallKind
  }

  /** `export_event_data` of a class that keeps the template. */
  function EventDataF(kind: Kind, ev: Event, s: ExportState): (Result<Node, PyError>, ExportState)
    requires UsesTemplate(kind)
  {
    if kind == AndroidCallKind then
      var (pb, s') := AndroidCalls.ExportEventDataF(ev, s); (Ok(pb), s')
    else if kind == NtfsKind then
      var (pb, d') := Ntfs.ExportEventDataF(ev, s.doc); (Ok(pb), ExportState(s.caches, d'))
    else if kind == SkypeAccountKind then
      var (r, d') := Skype.AccountDataF(ev, s.doc); (r, ExportState(s.caches, d'))
    else
      var (pb, s') := Skype.CallDataF(ev, s); (Ok(pb), s')
  }

  /** `export_timestamp` of a class that keeps the template (for the Skype account class, the one its table intends). */
  function TimestampF(kind: Kind, ev: Event, pb: Node, d: Doc): Doc
    requires UsesTemplate(kind)
  {
    if kind == AndroidCallKind then AndroidCalls.ExportTimestampF(ev, pb, d)
    else if kind == NtfsKind then Ntfs.ExportTimestampF(ev, pb, d)
    else if kind == SkypeAccountKind then Skype.AccountTimestampF(ev, pb, d)
    else Skype.CallTimestampF(ev, pb, d)
  }

  /**
   * The base `export_event`: on the first event of a content key, export its
   * data and cache the element (a failure propagates and caches nothing);
   * then stamp the cached element with the event's timestamp.
   */
  function TemplateF(kind: Kind, ev: Event, s: ExportState): (Result<(), PyError>, ExportState)
    requires UsesTemplate(kind)
  {
    var key := Lib.ContentKey(ev.Attributes());
    if key in s.caches.elements then
      (Ok(()), ExportState(s.caches, TimestampF(kind, ev, s.caches.elements[key], s.doc)))
    else
      var (r, s1) := EventDataF(kind, ev, s);
      if r.Err? then (Err(r.error), s1)
      else
        var c := s1.caches.(elements := s1.caches.elements[key := r.value]);
        (Ok(()), ExportState(c, TimestampF(kind, ev, r.value, s1.doc)))
  }

  /** `exporter.export_event(event)` for an exporter of class `kind`. */
  function ExportEventF(kind: Kind, ev: Event, s: ExportState): (Result<(), PyError>, ExportState) {
    if UsesTemplate(kind) then TemplateF(kind, ev, s)
    else if kind == FileStatKind then FileStat.ExportEventF(ev, s)
    else if kind == AndroidSmsKind then (Ok(()), AndroidSms.ExportEventF(ev, s))
    else if kind == SkypeChatKind then Skype.ChatF(ev, s)
    else (Ok(()), s)
  }

  /**
   * The template for `skype:event:account` as the class is written: its
   * timestamp step is the base class's, which raises NotImplementedError.
   */
  function SkypeAccountAsWrittenF(ev: Event, s: ExportState): (Result<(), PyError>, ExportState) {
    var key := Lib.ContentKey(ev.Attributes());
    if key in s.caches.elements then
      var (tr, d') := Skype.AccountTimestampAsWrittenF(ev, s.caches.elements[key], s.doc);
      (tr, ExportState(s.caches, d'))
    else
      var (r, d1) := Skype.AccountDataF(ev, s.doc);
      if r.Err? then (Err(r.error), ExportState(s.caches, d1))
      else
        var (tr, d2) := Skype.AccountTimestampAsWrittenF(ev, r.value, d1);
        (tr, ExportState(s.caches.(elements := s.caches.elements[key := r.value]), d2))
  }

  // ----- the operations, on the exporter object -----

  method EventData(e: EventExporter, ev: Event) returns (r: Result<Node, PyError>)
    requires UsesTemplate(e.kind)
    modifies e, e.document
    ensures (r, e.State()) == EventDataF(e.kind, ev, old(e.State()))
  {
    if e.kind == AndroidCallKind {
      var pb := AndroidCalls.ExportEventData(e, ev);
      r := Ok(pb);
    } else if e.kind == NtfsKind {
      var pb := Ntfs.ExportEventData(e.document, ev);
      r := Ok(pb);
    } else if e.kind == SkypeAccountKind {
      r := Skype.AccountData(e.document, ev);
    } else {
      var pb := Skype.CallData(e, ev);
      r := Ok(pb);
    }
  }

  method Timestamp(doc: Document, kind: Kind, ev: Event, pb: Node)
    requires UsesTemplate(kind)
    modifies doc
    ensures doc.State() == TimestampF(kind, ev, pb, old(doc.State()))
  {
    if kind == AndroidCallKind {
      AndroidCalls.ExportTimestamp(doc, ev, pb);
    } else if kind == NtfsKind {
      Ntfs.ExportTimestamp(doc, ev, pb);
    } else if kind == SkypeAccountKind {
      Skype.AccountTimestamp(doc, ev, pb);
    } else {
      Skype.CallTimestamp(doc, ev, pb);
    }
  }

  /** The base `export_event`. */
  method Template(e: EventExporter, ev: Event) returns (r: Result<(), PyError>)
    requires UsesTemplate(e.kind)
    modifies e, e.document
    ensures (r, e.State()) == TemplateF(e.kind, ev, old(e.State()))
  {
    hide EventDataF, TimestampF;
    var key := Lib.HashEventData(ev.Attributes());
    if key !in e.cachedElements {
      var dr := EventData(e, ev);
      if dr.Err? {
        return Err(dr.error);
      }
      e.cachedElements := e.cachedElements[key := dr.value];
    }
    Timestamp(e.document, e.kind, ev, e.cachedElements[key]);
    return Ok(());
  }

  /** `exporter.export_event(event)`, dispatched on the exporter's class. */
  method ExportEvent(e: EventExporter, ev: Event) returns (r: Result<(), PyError>)
    modifies e, e.document
    ensures (r, e.State()) == ExportEventF(e.kind, ev, old(e.State()))
  {
    if e.kind == FileStatKind {
      r := FileStat.ExportEvent(e, ev);
      return;
    }
    if UsesTemplate(e.kind) {
      r := Template(e, ev);
    } else if e.kind == AndroidSmsKind {
      AndroidSms.ExportEvent(e, ev);
      r := Ok(());
    } else if e.kind == SkypeChatKind {
      r := Skype.Chat(e, ev);
    } else {
      r := Ok(());
    }
  }

  // ----- properties -----

  /** Only the `fs:stat` exporter changes the path-spec cache. */
  lemma PathSpecsKept(kind: Kind, ev: Event, s: ExportState)
    requires kind != FileStatKind
    ensures ExportEventF(kind, ev, s).1.caches.pathSpecs == s.caches.pathSpecs
  {
    hide FileStat.ExportEventF, AndroidSms.ExportEventF, Skype.ChatF, EventDataF, TimestampF;
    if UsesTemplate(kind) {
      EventDataPathSpecs(kind, ev, s);
    } else if kind == AndroidSmsKind {
      SmsPathSpecs(ev, s);
    } else if kind == SkypeChatKind {
      Skype.ChatOthersKept(ev, s);
    }
  }

  lemma EventDataPathSpecs(kind: Kind, ev: Event, s: ExportState)
    requires UsesTemplate(kind)
    ensures EventDataF(kind, ev, s).1.caches.pathSpecs == s.caches.pathSpecs
  {
    if kind == AndroidCallKind {
      var (trace, d1) := DocNewNode(s.doc, TraceCls, None, []);
      var (pb, d2) := DocCreateBundle(d1, trace, Some(Plain("PhoneCall")), AndroidCalls.CallProps(ev));
      assert AndroidCalls.ContactF(ev.Attr("name"), ev.Attr("number"), ExportState(s.caches, d2)).1.caches.pathSpecs == s.caches.pathSpecs;
    } else if kind == SkypeCallKind {
      Skype.CallOthersKept(ev, s);
    }
  }

  lemma SmsPathSpecs(ev: Event, s: ExportState)
    ensures AndroidSms.ExportEventF(ev, s).caches.pathSpecs == s.caches.pathSpecs
  {
    assert AndroidSms.ContactF(ev.Attr("address"), s).1.caches.pathSpecs == s.caches.pathSpecs;
  }

  /** The table and the label a template class stamps an event with. */
  function StampTable(kind: Kind, ev: Event): (map<string, Name>, PyValue)
    requires UsesTemplate(kind)
  {
    if kind == AndroidCallKind then (AndroidCalls.TimestampMap, PyStr(ev.timestampDesc))
    else if kind == NtfsKind then (Ntfs.TimestampMap, PyStr(ev.timestampDesc))
    else if kind == SkypeAccountKind then (Skype.AccountTimestampMap, PyStr(ev.timestampDesc))
    else (Skype.CallTimestampMap, ev.Attr("call_type"))
  }

  lemma StampOnce(table: map<string, Name>, desc: PyValue, pb: Node, t: int, d: Doc)
    ensures var d' := StampF(table, desc, pb, t, d);
            && d'.next == d.next && d.graph <= d'.graph
            && (forall x :: x in d'.graph - d.graph ==> x.subj == Blank(pb.id) && x.obj == Literal(PyDateTime(t)))
            && StampF(table, desc, pb, t, d') == d'
  {
    var d' := StampF(table, desc, pb, t, d);
    StampSpec(table, desc, pb, t, d);
    StampSpec(table, desc, pb, t, d');
  }

  /**
   * The timestamp step writes nothing but timestamps of this event onto the
   * given bundle, allocates nothing, and stamping the same event again adds
   * nothing.
   */
  lemma TimestampSpec(kind: Kind, ev: Event, pb: Node, d: Doc)
    requires UsesTemplate(kind)
    ensures var d' := TimestampF(kind, ev, pb, d);
            && d'.next == d.next && d.graph <= d'.graph
            && (forall t :: t in d'.graph - d.graph ==> t.subj == Blank(pb.id) && t.obj == Literal(PyDateTime(ev.timestamp)))
            && TimestampF(kind, ev, pb, d') == d'
  {
    var (table, desc) := StampTable(kind, ev);
    assert forall d0 :: TimestampF(kind, ev, pb, d0) == StampF(table, desc, pb, ev.timestamp, d0);
    StampOnce(table, desc, pb, ev.timestamp, d);
  }

  /** The data step of a template class allocates a fresh element and leaves the element and path-spec caches alone. */
  lemma EventDataSpec(kind: Kind, ev: Event, s: ExportState)
    requires UsesTemplate(kind) && WellFormed(s.doc)
    ensures var (r, s') := EventDataF(kind, ev, s);
            && s'.caches.elements == s.caches.elements
            && s'.caches.pathSpecs == s.caches.pathSpecs
            && (r.Err? <==> kind == SkypeAccountKind && !ev.Attr("username").PyStr?)
            && (r.Ok? ==> s.doc.next <= r.value.id)
  {
    EventDataPathSpecs(kind, ev, s);
    if kind == SkypeAccountKind {
      Skype.AccountDataSpec(ev, s.doc);
    } else if kind == AndroidCallKind {
      var (trace, d1) := DocNewNode(s.doc, TraceCls, None, []);
      var (pb, d2) := DocCreateBundle(d1, trace, Some(Plain("PhoneCall")), AndroidCalls.CallProps(ev));
      assert AndroidCalls.ContactF(ev.Attr("name"), ev.Attr("number"), ExportState(s.caches, d2)).1.caches.elements == s.caches.elements;
    } else if kind == SkypeCallKind {
      Skype.CallOthersKept(ev, s);
    }
  }

  /**
   * An event whose content key is already cached exports no data: it
   * succeeds, changes no cache, allocates nothing, and only stamps the cached
   * element with its own timestamp.
   */
  lemma TemplateHit(kind: Kind, ev: Event, s: ExportState)
    requires UsesTemplate(kind) && Lib.ContentKey(ev.Attributes()) in s.caches.elements
    ensures var (r, s') := TemplateF(kind, ev, s);
            var elem := s.caches.elements[Lib.ContentKey(ev.Attributes())];
            && r == Ok(()) && s'.caches == s.caches
            && s'.doc.next == s.doc.next && s.doc.graph <= s'.doc.graph
            && (forall t :: t in s'.doc.graph - s.doc.graph ==> t.subj == Blank(elem.id) && t.obj == Literal(PyDateTime(ev.timestamp)))
  {
    TimestampSpec(kind, ev, s.caches.elements[Lib.ContentKey(ev.Attributes())], s.doc);
  }

  /**
   * The first event of a content key caches a fresh element under that key
   * and under no other; only a Skype account event whose username is not a
   * string fails, and then nothing is cached.
   */
  lemma TemplateMiss(kind: Kind, ev: Event, s: ExportState)
    requires UsesTemplate(kind) && WellFormed(s.doc) && Lib.ContentKey(ev.Attributes()) !in s.caches.elements
    ensures var (r, s') := TemplateF(kind, ev, s);
            var key := Lib.ContentKey(ev.Attributes());
            && (r.Err? <==> kind == SkypeAccountKind && !ev.Attr("username").PyStr?)
            && (r.Ok? ==> && key in s'.caches.elements && s.doc.next <= s'.caches.elements[key].id
                          && s'.caches.elements == s.caches.elements[key := s'.caches.elements[key]])
            && (r.Err? ==> s'.caches.elements == s.caches.elements)
  {
    hide TimestampF;
    EventDataSpec(kind, ev, s);
  }

  /** Exporting the same event twice is the same as exporting it once. */
  lemma TemplateRepeat(kind: Kind, ev: Event, s: ExportState)
    requires UsesTemplate(kind)
    ensures var (r, s1) := TemplateF(kind, ev, s);
            r.Ok? ==> TemplateF(kind, ev, s1) == (Ok(()), s1)
  {
    var key := Lib.ContentKey(ev.Attributes());
    var (r, s1) := TemplateF(kind, ev, s);
    if r.Ok? {
      var elem := s1.caches.elements[key];
      if key in s.caches.elements {
        TimestampSpec(kind, ev, elem, s.doc);
      } else {
        var (_, sd) := EventDataF(kind, ev, s);
        TimestampSpec(kind, ev, elem, sd.doc);
      }
    }
  }

  /** The same, for the dispatch of `export_event` to a template exporter. */
  lemma ExportRepeat(kind: Kind, ev: Event, s: ExportState)
    requires UsesTemplate(kind)
    ensures var (r, s1) := ExportEventF(kind, ev, s);
            r.Ok? ==> ExportEventF(kind, ev, s1) == (Ok(()), s1)
  {
    TemplateRepeat(kind, ev, s);
  }

  /**
   * Two events that differ only in the attributes left out of the content
   * key share one element: once the first is exported, the second exports no
   * data and only stamps the first one's element.
   */
  lemma SameContentShared(kind: Kind, ev1: Event, ev2: Event, s: ExportState)
    requires UsesTemplate(kind)
    requires forall n :: n !in Lib.Excluded ==> Lookup(ev1.Attributes(), n) == Lookup(ev2.Attributes(), n)
    ensures var (r1, s1) := TemplateF(kind, ev1, s);
            var (r2, s2) := TemplateF(kind, ev2, s1);
            var key := Lib.ContentKey(ev1.Attributes());
            r1.Ok? ==>
              && key in s1.caches.elements
              && r2 == Ok(()) && s2.caches == s1.caches && s2.doc.next == s1.doc.next
              && (forall t :: t in s2.doc.graph - s1.doc.graph ==>
                    t.subj == Blank(s1.caches.elements[key].id) && t.obj == Literal(PyDateTime(ev2.timestamp)))
  {
    Lib.ExcludedIgnored(ev1.Attributes(), ev2.Attributes());
    var (r1, s1) := TemplateF(kind, ev1, s);
    if r1.Ok? {
      TemplateHit(kind, ev2, s1);
    }
  }

  /**
   * As written, a Skype account event never succeeds: with a string username
   * or an already cached key it fails with NotImplementedError, and the
   * document is left as the data step left it, with no timestamp written.
   */
  lemma SkypeAccountFailsAsWritten(ev: Event, s: ExportState)
    ensures var (r, s') := SkypeAccountAsWrittenF(ev, s);
            var key := Lib.ContentKey(ev.Attributes());
            && r.Err?
            && (ev.Attr("username").PyStr? || key in s.caches.elements ==> r.error == NotImplementedError)
            && s'.doc == (if key in s.caches.elements then s.doc else Skype.AccountDataF(ev, s.doc).1)
  {
    hide DocNewNode, DocCreateBundle;
    var key := Lib.ContentKey(ev.Attributes());
    if key !in s.caches.elements {
      var (r, d1) := Skype.AccountDataF(ev, s.doc);
      if ev.Attr("username").PyStr? {
        assert r.Ok?;
      }
    }
  }

  /**
   * With the timestamp step its table intends, a Skype account event with a
   * string username succeeds and its mapped timestamp is on the account's
   * element.
   */
  lemma SkypeAccountCorrected(ev: Event, s: ExportState)
    requires WellFormed(s.doc) && ev.Attr("username").PyStr? && ev.timestampDesc in Skype.AccountTimestampMap
    ensures var (r, s') := TemplateF(SkypeAccountKind, ev, s);
            var key := Lib.ContentKey(ev.Attributes());
            && r == Ok(()) && key in s'.caches.elements
            && Triple(Blank(s'.caches.elements[key].id), Qualify(Skype.AccountTimestampMap[ev.timestampDesc]),
                      Literal(PyDateTime(ev.timestamp))) in s'.doc.graph
  {
    var key := Lib.ContentKey(ev.Attributes());
    if key in s.caches.elements {
      StampSpec(Skype.AccountTimestampMap, PyStr(ev.timestampDesc), s.caches.elements[key], ev.timestamp, s.doc);
    } else {
      var (r, s1) := EventDataF(SkypeAccountKind, ev, s);
      EventDataSpec(SkypeAccountKind, ev, s);
      StampSpec(Skype.AccountTimestampMap, PyStr(ev.timestampDesc), r.value, ev.timestamp, s1.doc);
    }
  }
}
