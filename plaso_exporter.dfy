/**
 * `PlasoExporter`: the entry point that turns plaso records into CASE. It keeps
 * one event exporter per plaso data type, created on first use; path specs and
 * event sources go through the `fs:stat` exporter, events through the exporter
 * of their data type, and a session becomes a tool with its configuration, an
 * identity and a forensic action.
 */
module Plaso {
  import opened Wrappers
  import opened Python
  import opened Case
  import opened Records
  import opened Dfvfs
  import opened EventExporters
  import FileStat
  import Exporting

  /** The caches of each exporter, by the data type it was created for, and the shared document. */
  datatype PlasoState = PlasoState(exporters: map<string, ExporterCaches>, doc: Doc)

  /** The data type whose exporter resolves path specs. */
  const FileStatType := "fs:stat"

  /** The session attributes that are recorded as configuration settings, in order. */
  const ConfigurationAttributes: seq<string> := [
    "identifier",
    "command_line_arguments",
    "debug_mode",
    "enabled_parser_names",
    "filter_expression",
    "filter_file",
    "parser_filter_expression",
    "preferred_encoding",
    "preferred_year"]

  function P(local: string): Term { Iri(CASE, local) }

  // ----- the operations, as functions on values -----

  /** `get_event_exporter(data_type)`: a new exporter, with empty caches, only for a data type not seen before. */
  function GetExporterF(dataType: string, ps: PlasoState): (ps': PlasoState)
    ensures dataType in ps'.exporters
  {
    if dataType in ps.exporters then ps
    else ps.(exporters := ps.exporters[dataType := NoCaches])
  }

  /** What the exporter of `dataType` works on. */
  function ExporterState(dataType: string, ps: PlasoState): ExportState
    requires dataType in ps.exporters
  {
    ExportState(ps.exporters[dataType], ps.doc)
  }

  /** The state once the exporter of `dataType` has run and left `s`. */
  function WithExporter(dataType: string, s: ExportState, ps: PlasoState): PlasoState {
    PlasoState(ps.exporters[dataType := s.caches], s.doc)
  }

  /** `export_path_spec(path_spec)`: resolution by the `fs:stat` exporter. */
  function ExportPathSpecF(path: PathSpec, ps: PlasoState): (Result<FileLayer, PyError>, PlasoState) {
    var ps1 := GetExporterF(FileStatType, ps);
    var (r, s) := FileStat.ResolveF(path, ExporterState(FileStatType, ps1));
    (r, WithExporter(FileStatType, s, ps1))
  }

  /**
   * `export_event_source(event_source)`: a directory or a file has its path
   * spec exported and `isDirectory` set on its `File` bundle; devices and the
   * other entry types are skipped.
   */
  function ExportEventSourceF(src: EventSource, ps: PlasoState): (Result<(), PyError>, PlasoState) {
    if src.fileEntryType == FileEntryDevice then (Ok(()), ps)
    else if src.fileEntryType == FileEntryDirectory || src.fileEntryType == FileEntryFile then
      var (r, ps1) := ExportPathSpecF(src.pathSpec, ps);
      if r.Err? then (Err(r.error), ps1)
      else
        var isDirectory := Py(PyBool(src.fileEntryType == FileEntryDirectory));
        (Ok(()), ps1.(doc := DocAdd(ps1.doc, r.value.1, Plain("isDirectory"), isDirectory)))
    else (Ok(()), ps)
  }

  /** `export_event(event)`: the exporter of the event's data type exports it. */
  function ExportEventF(ev: Event, ps: PlasoState): (Result<(), PyError>, PlasoState) {
    var ps1 := GetExporterF(ev.dataType, ps);
    var (r, s) := Exporting.ExportEventF(KindFor(ev.dataType), ev, ExporterState(ev.dataType, ps1));
    (r, WithExporter(ev.dataType, s, ps1))
  }

  /** The `itemValue` of a configuration setting: None becomes the empty string, anything else its `str`. */
  function SettingValue(v: PyValue): string {
    if v == PyNone then "" else ToStr(v)
  }

  /** The properties of a `ConfigurationSetting` node. */
  function SettingProps(name: string, value: string): seq<(string, Value)> {
    [("itemName", Py(PyStr(name))), ("itemValue", Py(PyStr(value)))]
  }

  /** The properties as the call is written: `bnode=True` reaches the node as one more keyword property. */
  function SettingPropsAsWritten(name: string, value: string): seq<(string, Value)> {
    [("bnode", Py(PyBool(true)))] + SettingProps(name, value)
  }

  const SettingTag: Option<Name> := Some(Plain("ConfigurationSetting"))

  /** The configuration loop: a setting node, linked from `config`, for each attribute the session has. */
  function SettingsF(names: seq<string>, session: Session, config: Node, d: Doc): Doc
    decreases |names|
  {
    if names == [] then d
    else if !HasAttr(session.attrs, names[0]) then SettingsF(names[1..], session, config, d)
    else
      var value := SettingValue(GetAttr(session.attrs, names[0]));
      var (setting, d1) := DocNewNode(d, NodeCls, SettingTag, SettingProps(names[0], value));
      SettingsF(names[1..], session, config, DocAdd(d1, config, Plain("configurationSetting"), Ref(setting)))
  }

  function ToolProps(session: Session): seq<(string, Value)> {
    [("name", Py(session.productName)), ("version", Py(session.productVersion)),
     ("toolType", Py(PyStr("parser?"))), ("creator", Py(PyStr("Joachim Metz")))]
  }

  function PerformerNameProps(): seq<(string, Value)> {
    [("givenName", Py(PyStr("John"))), ("familyName", Py(PyStr("Doe")))]
  }

  function ActionProps(session: Session): seq<(string, Value)> {
    [("startTime", Py(ConvertTimestamp(session.startTime))), ("endTime", Py(ConvertTimestamp(session.completionTime)))]
  }

  function ReferenceProps(performer: Node, instrument: Node): seq<(string, Value)> {
    [("performer", Ref(performer)), ("instrument", Ref(instrument)), ("result", Py(PyNone)), ("location", Py(PyNone))]
  }

  /** The tool and its configuration: the first part of `export_session`. */
  function ToolF(session: Session, d: Doc): (Node, Doc) {
    var (instrument, d1) := DocNewNode(d, UcoObjectCls, Some(Plain("Tool")), ToolProps(session));
    var (config, d2) := DocCreateBundle(d1, instrument, Some(Plain("ToolConfiguration")), []);
    (instrument, SettingsF(ConfigurationAttributes, session, config, d2))
  }

  /** The performer and the action: the rest of `export_session`. */
  function ActionF(session: Session, instrument: Node, d: Doc): Doc {
    var (performer, d1) := DocNewNode(d, UcoObjectCls, Some(Plain("Identity")), []);
    var (_, d2) := DocCreateBundle(d1, performer, Some(Plain("SimpleName")), PerformerNameProps());
    var (action, d3) := DocNewNode(d2, UcoObjectCls, Some(Plain("ForensicAction")), ActionProps(session));
    DocCreateBundle(d3, action, Some(Plain("ActionReferences")), ReferenceProps(performer, instrument)).1
  }

  /** `export_session(session)`. */
  function ExportSessionF(session: Session, d: Doc): Doc {
    var (instrument, d1) := ToolF(session, d);
    ActionF(session, instrument, d1)
  }

  lemma PathSpecStep(path: PathSpec, ps: PlasoState, ps1: PlasoState, s0: ExportState, r: Result<FileLayer, PyError>, s: ExportState)
    requires ps1 == GetExporterF(FileStatType, ps) && s0 == ExporterState(FileStatType, ps1)
    requires (r, s) == FileStat.ResolveF(path, s0)
    ensures ExportPathSpecF(path, ps) == (r, WithExporter(FileStatType, s, ps1))
  {
  }

  lemma EventStep(ev: Event, ps: PlasoState, ps1: PlasoState, kind: Kind, s0: ExportState, r: Result<(), PyError>, s: ExportState)
    requires ps1 == GetExporterF(ev.dataType, ps)
    requires kind == KindFor(ev.dataType) && s0 == ExporterState(ev.dataType, ps1)
    requires (r, s) == Exporting.ExportEventF(kind, ev, s0)
    ensures ExportEventF(ev, ps) == (r, WithExporter(ev.dataType, s, ps1))
  {
  }

  /** The caches held by a map of exporters, given pointwise. */
  lemma CachesMap(exporters: map<string, EventExporter>, caches: map<string, ExporterCaches>)
    requires exporters.Keys == caches.Keys
    requires forall k :: k in exporters ==> exporters[k].Caches() == caches[k]
    ensures (map k | k in exporters :: exporters[k].Caches()) == caches
  {
  }

  /** The caches held by a map of exporters, when only the exporter of `dataType` may have changed. */
  lemma CachesUpdate(exporters: map<string, EventExporter>, before: map<string, ExporterCaches>, dataType: string)
    requires exporters.Keys == before.Keys && dataType in exporters
    requires forall k :: k in exporters && k != dataType ==> exporters[k].Caches() == before[k]
    ensures (map k | k in exporters :: exporters[k].Caches()) == before[dataType := exporters[dataType].Caches()]
  {
  }

  // ----- the exporter object -----

  class PlasoExporter {
    const document: Document
    var exporters: map<string, EventExporter>

    /**
     * Each cached exporter was created for its own data type (so no two share
     * an object), writes into this document and is of the class its data type
     * selects.
     */
    ghost predicate Valid()
      reads this
    {
      forall k :: k in exporters ==>
        exporters[k].dataType == k && exporters[k].document == document && exporters[k].kind == KindFor(k)
    }

    function State(): PlasoState
      reads this, exporters.Values, document
    {
      PlasoState(map k | k in exporters :: exporters[k].Caches(), document.State())
    }

    /** `__init__(document)`: no exporter yet. */
    constructor (document: Document)
      ensures this.document == document && exporters == map[] && Valid()
    {
      this.document := document;
      exporters := map[];
    }

    method GetEventExporter(dataType: string) returns (e: EventExporter)
      requires Valid()
      modifies this
      ensures Valid()
      ensures State() == GetExporterF(dataType, old(State()))
      ensures dataType in exporters && e == exporters[dataType]
      ensures dataType in old(exporters) ==> exporters == old(exporters)
      ensures dataType !in old(exporters) ==> fresh(e) && exporters == old(exporters)[dataType := e]
    {
      if dataType in exporters {
        e := exporters[dataType];
        return;
      }
      ghost var before := State().exporters;
      e := FromDataType(dataType, document);
      exporters := exporters[dataType := e];
      CachesMap(exporters, before[dataType := NoCaches]);
    }

    method ExportPathSpec(path: PathSpec) returns (r: Result<FileLayer, PyError>)
      requires Valid()
      modifies this, document, exporters.Values
      ensures Valid() && (r, State()) == ExportPathSpecF(path, old(State()))
    {
      hide FileStat.ResolveF;
      var e := GetEventExporter(FileStatType);
      ghost var ps1 := State();
      ghost var s0 := e.State();
      r := FileStat.ExportPathSpec(e, path);
      CachesUpdate(exporters, ps1.exporters, FileStatType);
      PathSpecStep(path, old(State()), ps1, s0, r, e.State());
    }

    method ExportEventSource(src: EventSource) returns (r: Result<(), PyError>)
      requires Valid()
      modifies this, document, exporters.Values
      ensures Valid() && (r, State()) == ExportEventSourceF(src, old(State()))
    {
      hide ExportPathSpecF;
      if src.fileEntryType == FileEntryDevice {
        r := Ok(());
      } else if src.fileEntryType == FileEntryDirectory || src.fileEntryType == FileEntryFile {
        var pr := ExportPathSpec(src.pathSpec);
        ghost var ps1 := State();
        if pr.Err? {
          return Err(pr.error);
        }
        document.Add(pr.value.1, Plain("isDirectory"), Py(PyBool(src.fileEntryType == FileEntryDirectory)));
        r := Ok(());
        CachesMap(exporters, ps1.exporters);
      } else {
        r := Ok(());
      }
    }

    method ExportEvent(ev: Event) returns (r: Result<(), PyError>)
      requires Valid()
      modifies this, document, exporters.Values
      ensures Valid() && (r, State()) == ExportEventF(ev, old(State()))
    {
      hide Exporting.ExportEventF;
      var e := GetEventExporter(ev.dataType);
      ghost var ps1 := State();
      ghost var s0 := e.State();
      r := Exporting.ExportEvent(e, ev);
      CachesUpdate(exporters, ps1.exporters, ev.dataType);
      EventStep(ev, old(State()), ps1, e.kind, s0, r, e.State());
    }

    method ExportSession(session: Session)
      modifies document
      ensures document.State() == ExportSessionF(session, old(document.State()))
    {
      hide ToolF, ActionF;
      var instrument := ExportTool(session);
      ExportAction(session, instrument);
    }

    /** The `Tool`, its `ToolConfiguration` bundle and one `ConfigurationSetting` per attribute the session has. */
    method ExportTool(session: Session) returns (instrument: Node)
      modifies document
      ensures (instrument, document.State()) == ToolF(session, old(document.State()))
    {
      instrument := document.CreateUcoObject(Some(Plain("Tool")), ToolProps(session));
      var config := document.CreatePropertyBundle(instrument, Some(Plain("ToolConfiguration")), []);
      ghost var d2 := document.State();
      for i := 0 to |ConfigurationAttributes|
        invariant SettingsF(ConfigurationAttributes[i..], session, config, document.State())
               == SettingsF(ConfigurationAttributes, session, config, d2)
      {
        var attribute := ConfigurationAttributes[i];
        assert ConfigurationAttributes[i..][1..] == ConfigurationAttributes[i + 1..];
        if HasAttr(session.attrs, attribute) {
          var value := GetAttr(session.attrs, attribute);
          if value == PyNone {
            value := PyStr("");
          }
          var setting := document.CreateNode(SettingTag, SettingProps(attribute, ToStr(value)));
          document.Add(config, Plain("configurationSetting"), Ref(setting));
        }
      }
    }

    /** The performer `Identity` and the `ForensicAction` that references it and the tool. */
    method ExportAction(session: Session, instrument: Node)
      modifies document
      ensures document.State() == ActionF(session, instrument, old(document.State()))
    {
      var performer := document.CreateUcoObject(Some(Plain("Identity")), []);
      var _ := document.CreatePropertyBundle(performer, Some(Plain("SimpleName")), PerformerNameProps());
      var action := document.CreateUcoObject(Some(Plain("ForensicAction")), ActionProps(session));
      var _ := document.CreatePropertyBundle(action, Some(Plain("ActionReferences")), ReferenceProps(performer, instrument));
    }
  }

  // ----- properties -----

  /**
   * `get_event_exporter` creates at most one exporter per data type: an
   * existing exporter is kept as it is, a new one starts with empty caches, no
   * other entry changes, and asking again changes nothing.
   */
  lemma GetExporterSpec(dataType: string, ps: PlasoState)
    ensures var ps' := GetExporterF(dataType, ps);
            && ps'.exporters.Keys == ps.exporters.Keys + {dataType}
            && (forall k :: k in ps.exporters ==> ps'.exporters[k] == ps.exporters[k])
            && (dataType !in ps.exporters ==> ps'.exporters[dataType] == NoCaches)
            && ps'.doc == ps.doc
            && GetExporterF(dataType, ps') == ps'
  {
  }

  /**
   * Every path spec is resolved by the single `fs:stat` exporter: afterwards
   * the path spec is in that exporter's cache (holding the returned pair on
   * success), no other exporter has changed, and exporting it again returns the
   * same pair and changes nothing.
   */
  lemma PathSpecShared(path: PathSpec, ps: PlasoState)
    ensures var (r, ps') := ExportPathSpecF(path, ps);
            && FileStatType in ps'.exporters && path in ps'.exporters[FileStatType].pathSpecs
            && (r.Ok? ==> ps'.exporters[FileStatType].pathSpecs[path] == r.value)
            && (forall k :: k in ps.exporters && k != FileStatType ==> k in ps'.exporters && ps'.exporters[k] == ps.exporters[k])
            && (r.Ok? ==> ExportPathSpecF(path, ps') == (r, ps'))
  {
    var ps1 := GetExporterF(FileStatType, ps);
    var (r, s) := FileStat.ResolveF(path, ExporterState(FileStatType, ps1));
    FileStat.ResolveCaches(path, ExporterState(FileStatType, ps1));
    FileStat.ResolveIdempotent(path, ExporterState(FileStatType, ps1));
    var ps' := WithExporter(FileStatType, s, ps1);
    assert GetExporterF(FileStatType, ps') == ps';
    assert ExporterState(FileStatType, ps') == s;
    assert WithExporter(FileStatType, s, ps') == ps';
  }

  /**
   * A directory's or a file's `File` bundle (the one cached for its path spec)
   * gets `isDirectory` true or false; a failed path-spec export is passed on;
   * devices and every other entry type change nothing.
   */
  lemma EventSourceSpec(src: EventSource, ps: PlasoState)
    ensures var (r, ps') := ExportEventSourceF(src, ps);
            var (pr, ps1) := ExportPathSpecF(src.pathSpec, ps);
            && (src.fileEntryType !in {FileEntryDirectory, FileEntryFile} ==> r == Ok(()) && ps' == ps)
            && (src.fileEntryType in {FileEntryDirectory, FileEntryFile} ==>
                  && (r.Ok? <==> pr.Ok?)
                  && ps'.exporters == ps1.exporters
                  && (pr.Ok? ==>
                        && FileStatType in ps'.exporters && src.pathSpec in ps'.exporters[FileStatType].pathSpecs
                        && var filePb := ps'.exporters[FileStatType].pathSpecs[src.pathSpec].1;
                           Triple(Blank(filePb.id), P("isDirectory"), Literal(PyBool(src.fileEntryType == FileEntryDirectory))) in ps'.doc.graph))
  {
    PathSpecShared(src.pathSpec, ps);
  }

  /**
   * `export_event` goes to the exporter of the event's data type, created if
   * need be; no other exporter changes.
   */
  lemma EventDelegated(ev: Event, ps: PlasoState)
    ensures var (r, ps') := ExportEventF(ev, ps);
            && ps'.exporters.Keys == ps.exporters.Keys + {ev.dataType}
            && (forall k :: k in ps.exporters && k != ev.dataType ==> ps'.exporters[k] == ps.exporters[k])
  {
  }

  /**
   * Because the exporter of a data type is kept, an event that the
   * content-key template has exported is not exported again: a repeat of it
   * changes nothing.
   */
  lemma RepeatedEventIgnored(ev: Event, ps: PlasoState)
    requires Exporting.UsesTemplate(KindFor(ev.dataType))
    ensures var (r, ps') := ExportEventF(ev, ps);
            r.Ok? ==> ExportEventF(ev, ps') == (Ok(()), ps')
  {
    var kind := KindFor(ev.dataType);
    var ps1 := GetExporterF(ev.dataType, ps);
    var s0 := ExporterState(ev.dataType, ps1);
    var (r, s) := Exporting.ExportEventF(kind, ev, s0);
    EventStep(ev, ps, ps1, kind, s0, r, s);
    Exporting.ExportRepeat(kind, ev, s0);
    if r.Ok? {
      var ps' := WithExporter(ev.dataType, s, ps1);
      Revisit(ev.dataType, s, ps1);
      EventStep(ev, ps', ps', kind, s, Ok(()), s);
    }
  }

  /** Once an exporter has run, it is found again, with the state it left. */
  lemma Revisit(dataType: string, s: ExportState, ps1: PlasoState)
    requires dataType in ps1.exporters
    ensures var ps' := WithExporter(dataType, s, ps1);
            && GetExporterF(dataType, ps') == ps' && ExporterState(dataType, ps') == s
            && WithExporter(dataType, s, ps') == ps'
  {
  }

  // ----- export_session -----

  /** The attributes of `names` that the session has, in order. */
  function Present(names: seq<string>, session: Session): seq<string>
    decreases |names|
  {
    if names == [] then []
    else (if HasAttr(session.attrs, names[0]) then [names[0]] else []) + Present(names[1..], session)
  }

  /** Node `id` is a `ConfigurationSetting` of `config` recording `name` with `value`. */
  ghost predicate HasSetting(g: set<Triple>, config: Node, id: nat, name: string, value: string) {
    && Triple(Blank(config.id), P("configurationSetting"), Blank(id)) in g
    && Triple(Blank(id), RdfType, P("ConfigurationSetting")) in g
    && Triple(Blank(id), P("itemName"), Literal(PyStr(name))) in g
    && Triple(Blank(id), P("itemValue"), Literal(PyStr(value))) in g
  }

  /** The triples of one setting: its type, its name and value, and the edge from the configuration. */
  function SettingTriples(config: Node, id: nat, name: string, value: string): set<Triple> {
    {Triple(Blank(config.id), P("configurationSetting"), Blank(id)),
     Triple(Blank(id), RdfType, P("ConfigurationSetting")),
     Triple(Blank(id), P("itemName"), Literal(PyStr(name))),
     Triple(Blank(id), P("itemValue"), Literal(PyStr(value)))}
  }

  /** One pass of the configuration loop writes exactly one fresh setting node and its edge. */
  lemma SettingStep(name: string, value: string, config: Node, d: Doc)
    requires WellFormed(d) && config.id < d.next
    ensures var (setting, d1) := DocNewNode(d, NodeCls, SettingTag, SettingProps(name, value));
            var d2 := DocAdd(d1, config, Plain("configurationSetting"), Ref(setting));
            && setting.id == d.next && d2.next == d.next + 1 && WellFormed(d2)
            && d2.graph == d.graph + SettingTriples(config, d.next, name, value)
  {
    var x := Blank(d.next);
    var props := SettingProps(name, value);
    assert PropsTriples(x, props[..1]) == {Triple(x, P("itemName"), Literal(PyStr(name)))};
    assert props[..1] == props[..|props| - 1];
    var (setting, d1) := DocNewNode(d, NodeCls, SettingTag, props);
    NewNodeSpec(d, NodeCls, SettingTag, props);
    AddKeepsWellFormed(d1, config, Plain("configurationSetting"), Ref(setting));
  }

  /** The setting node as written carries a `bnode` property, set to true. */
  lemma SettingMarkedAsWritten(name: string, value: string, d: Doc)
    ensures var (setting, d1) := DocNewNode(d, NodeCls, SettingTag, SettingPropsAsWritten(name, value));
            Triple(Blank(setting.id), P("bnode"), Literal(PyBool(true))) in d1.graph
  {
    PropInTriples(Blank(d.next), SettingPropsAsWritten(name, value), 0);
  }

  /** The setting node as intended has no `bnode` property. */
  lemma SettingUnmarked(name: string, value: string, config: Node, d: Doc)
    requires WellFormed(d) && config.id < d.next
    ensures var (setting, d1) := DocNewNode(d, NodeCls, SettingTag, SettingProps(name, value));
            var d2 := DocAdd(d1, config, Plain("configurationSetting"), Ref(setting));
            Described(d2.graph, Blank(setting.id), P("bnode")) == {}
  {
    SettingStep(name, value, config, d);
    forall t | t in d.graph ensures t.subj != Blank(d.next) {
      assert TripleBelow(t, d.next);
    }
  }

  /**
   * The configuration loop: one fresh `ConfigurationSetting` per attribute
   * the session has, recording the attribute's name and its value (None as
   * the empty string); an attribute the session lacks gives no setting.
   */
  lemma {:induction false} SettingsSpec(names: seq<string>, session: Session, config: Node, d: Doc)
    requires WellFormed(d) && config.id < d.next
    ensures var d' := SettingsF(names, session, config, d);
            && WellFormed(d') && d.graph <= d'.graph
            && d'.next == d.next + |Present(names, session)|
            && (forall i :: 0 <= i < |names| && HasAttr(session.attrs, names[i]) ==>
                  exists id :: d.next <= id < d'.next &&
                    HasSetting(d'.graph, config, id, names[i], SettingValue(GetAttr(session.attrs, names[i]))))
            && (forall t :: t in d'.graph - d.graph && t.pred == P("itemName") ==>
                  exists i :: 0 <= i < |names| && HasAttr(session.attrs, names[i]) && t.obj == Literal(PyStr(names[i])))
    decreases |names|, 1
  {
    if names != [] {
      if !HasAttr(session.attrs, names[0]) {
        SettingsSkip(names, session, config, d);
      } else {
        SettingsTake(names, session, config, d);
      }
    }
  }

  /** An attribute the session does not have adds no setting. */
  lemma {:induction false} SettingsSkip(names: seq<string>, session: Session, config: Node, d: Doc)
    requires WellFormed(d) && config.id < d.next
    requires names != [] && !HasAttr(session.attrs, names[0])
    ensures var d' := SettingsF(names, session, config, d);
            && WellFormed(d') && d.graph <= d'.graph
            && d'.next == d.next + |Present(names, session)|
            && (forall i :: 0 <= i < |names| && HasAttr(session.attrs, names[i]) ==>
                  exists id :: d.next <= id < d'.next &&
                    HasSetting(d'.graph, config, id, names[i], SettingValue(GetAttr(session.attrs, names[i]))))
            && (forall t :: t in d'.graph - d.graph && t.pred == P("itemName") ==>
                  exists i :: 0 <= i < |names| && HasAttr(session.attrs, names[i]) && t.obj == Literal(PyStr(names[i])))
    decreases |names|, 0
  {
    var rest := names[1..];
    SettingsSpec(rest, session, config, d);
    var d' := SettingsF(rest, session, config, d);
    forall i | 0 <= i < |names| && HasAttr(session.attrs, names[i])
      ensures exists id :: d.next <= id < d'.next &&
                HasSetting(d'.graph, config, id, names[i], SettingValue(GetAttr(session.attrs, names[i])))
    {
      assert names[i] == rest[i - 1];
    }
    forall t | t in d'.graph - d.graph && t.pred == P("itemName")
      ensures exists i :: 0 <= i < |names| && HasAttr(session.attrs, names[i]) && t.obj == Literal(PyStr(names[i]))
    {
      var j :| 0 <= j < |rest| && HasAttr(session.attrs, rest[j]) && t.obj == Literal(PyStr(rest[j]));
      assert names[j + 1] == rest[j];
    }
  }

  /** An attribute the session has adds one setting before the rest. */
  lemma {:induction false} SettingsTake(names: seq<string>, session: Session, config: Node, d: Doc)
    requires WellFormed(d) && config.id < d.next
    requires names != [] && HasAttr(session.attrs, names[0])
    ensures var d' := SettingsF(names, session, config, d);
            && WellFormed(d') && d.graph <= d'.graph
            && d'.next == d.next + |Present(names, session)|
            && (forall i :: 0 <= i < |names| && HasAttr(session.attrs, names[i]) ==>
                  exists id :: d.next <= id < d'.next &&
                    HasSetting(d'.graph, config, id, names[i], SettingValue(GetAttr(session.attrs, names[i]))))
            && (forall t :: t in d'.graph - d.graph && t.pred == P("itemName") ==>
                  exists i :: 0 <= i < |names| && HasAttr(session.attrs, names[i]) && t.obj == Literal(PyStr(names[i])))
    decreases |names|, 0
  {
    var rest := names[1..];
    hide DocNewNode, DocAdd;
    var value := SettingValue(GetAttr(session.attrs, names[0]));
    var (setting, d1) := DocNewNode(d, NodeCls, SettingTag, SettingProps(names[0], value));
    var d2 := DocAdd(d1, config, Plain("configurationSetting"), Ref(setting));
    SettingStep(names[0], value, config, d);
    SettingsSpec(rest, session, config, d2);
    var d' := SettingsF(rest, session, config, d2);
    assert SettingsF(names, session, config, d) == d';
    forall i | 0 <= i < |names| && HasAttr(session.attrs, names[i])
      ensures exists id :: d.next <= id < d'.next &&
                HasSetting(d'.graph, config, id, names[i], SettingValue(GetAttr(session.attrs, names[i])))
    {
      if i == 0 {
        assert HasSetting(d'.graph, config, d.next, names[0], value);
      } else {
        assert names[i] == rest[i - 1];
      }
    }
    forall t | t in d'.graph - d.graph && t.pred == P("itemName")
      ensures exists i :: 0 <= i < |names| && HasAttr(session.attrs, names[i]) && t.obj == Literal(PyStr(names[i]))
    {
      if t in d2.graph {
        assert t.obj == Literal(PyStr(names[0]));
      } else {
        var j :| 0 <= j < |rest| && HasAttr(session.attrs, rest[j]) && t.obj == Literal(PyStr(rest[j]));
        assert names[j + 1] == rest[j];
      }
    }
  }

  /**
   * The tool part of a session: a `Tool` object with the product's name and
   * version, the fixed tool type and creator, owning a `ToolConfiguration`
   * bundle that holds one setting per configuration attribute present.
   */
  lemma ToolSpec(session: Session, d: Doc)
    requires WellFormed(d)
    ensures var (instrument, d') := ToolF(session, d);
            var tool, config := Blank(d.next), Node(d.next + 1, PropertyBundleCls);
            && instrument == Node(d.next, UcoObjectCls)
            && WellFormed(d') && d.graph <= d'.graph
            && d'.next == d.next + 2 + |Present(ConfigurationAttributes, session)|
            && Triple(tool, RdfType, P("Tool")) in d'.graph
            && Triple(tool, P("toolType"), Literal(PyStr("parser?"))) in d'.graph
            && Triple(tool, P("creator"), Literal(PyStr("Joachim Metz"))) in d'.graph
            && Triple(tool, PropertyBundleEdge, Blank(config.id)) in d'.graph
            && Triple(Blank(config.id), RdfType, P("ToolConfiguration")) in d'.graph
            && (forall i :: 0 <= i < |ConfigurationAttributes| && HasAttr(session.attrs, ConfigurationAttributes[i]) ==>
                  exists id :: HasSetting(d'.graph, config, id, ConfigurationAttributes[i],
                                          SettingValue(GetAttr(session.attrs, ConfigurationAttributes[i]))))
  {
    hide SettingsF, DocNewNode, DocCreateBundle;
    var (instrument, d1) := DocNewNode(d, UcoObjectCls, Some(Plain("Tool")), ToolProps(session));
    var (config, d2) := DocCreateBundle(d1, instrument, Some(Plain("ToolConfiguration")), []);
    ToolNodeSpec(session, d);
    SettingsSpec(ConfigurationAttributes, session, config, d2);
  }

  /** The `Tool` object and its empty `ToolConfiguration` bundle. */
  lemma ToolNodeSpec(session: Session, d: Doc)
    requires WellFormed(d)
    ensures var (instrument, d1) := DocNewNode(d, UcoObjectCls, Some(Plain("Tool")), ToolProps(session));
            var (config, d2) := DocCreateBundle(d1, instrument, Some(Plain("ToolConfiguration")), []);
            var tool := Blank(d.next);
            && instrument == Node(d.next, UcoObjectCls) && config == Node(d.next + 1, PropertyBundleCls)
            && WellFormed(d2) && d.graph <= d2.graph && d2.next == d.next + 2
            && Triple(tool, RdfType, P("Tool")) in d2.graph
            && Triple(tool, P("toolType"), Literal(PyStr("parser?"))) in d2.graph
            && Triple(tool, P("creator"), Literal(PyStr("Joachim Metz"))) in d2.graph
            && Triple(tool, PropertyBundleEdge, Blank(config.id)) in d2.graph
            && Triple(Blank(config.id), RdfType, P("ToolConfiguration")) in d2.graph
  {
    var props := ToolProps(session);
    var (instrument, d1) := DocNewNode(d, UcoObjectCls, Some(Plain("Tool")), props);
    NewNodeSpec(d, UcoObjectCls, Some(Plain("Tool")), props);
    PropInTriples(Blank(d.next), props, 2);
    PropInTriples(Blank(d.next), props, 3);
    BundleHasOneOwner(d1, instrument, Some(Plain("ToolConfiguration")), []);
  }

  /** The performer: an `Identity` owning a `SimpleName` bundle for John Doe. */
  lemma PerformerSpec(d: Doc)
    requires WellFormed(d)
    ensures var (performer, d1) := DocNewNode(d, UcoObjectCls, Some(Plain("Identity")), []);
            var (name, d2) := DocCreateBundle(d1, performer, Some(Plain("SimpleName")), PerformerNameProps());
            && performer.id == d.next && name.id == d.next + 1
            && WellFormed(d2) && d.graph <= d2.graph && d2.next == d.next + 2
            && Triple(Blank(performer.id), RdfType, P("Identity")) in d2.graph
            && Triple(Blank(performer.id), PropertyBundleEdge, Blank(name.id)) in d2.graph
            && Triple(Blank(name.id), P("givenName"), Literal(PyStr("John"))) in d2.graph
            && Triple(Blank(name.id), P("familyName"), Literal(PyStr("Doe"))) in d2.graph
  {
    var (performer, d1) := DocNewNode(d, UcoObjectCls, Some(Plain("Identity")), []);
    NewNodeSpec(d, UcoObjectCls, Some(Plain("Identity")), []);
    var nameProps := PerformerNameProps();
    BundleHasOneOwner(d1, performer, Some(Plain("SimpleName")), nameProps);
    PropInTriples(Blank(d1.next), nameProps, 0);
    PropInTriples(Blank(d1.next), nameProps, 1);
  }

  /**
   * The forensic action: it spans the session's start and completion, and its
   * `ActionReferences` bundle points at the performer and the instrument, with
   * no result and no location.
   */
  lemma ForensicActionSpec(session: Session, performer: Node, instrument: Node, d: Doc)
    requires WellFormed(d) && performer.id < d.next && instrument.id < d.next
    ensures var (action, d1) := DocNewNode(d, UcoObjectCls, Some(Plain("ForensicAction")), ActionProps(session));
            var d2 := DocCreateBundle(d1, action, Some(Plain("ActionReferences")), ReferenceProps(performer, instrument)).1;
            var refs := Blank(d.next + 1);
            && action.id == d.next
            && WellFormed(d2) && d.graph <= d2.graph && d2.next == d.next + 2
            && Triple(Blank(action.id), RdfType, P("ForensicAction")) in d2.graph
            && Triple(Blank(action.id), P("startTime"), Literal(PyDateTime(session.startTime))) in d2.graph
            && Triple(Blank(action.id), P("endTime"), Literal(PyDateTime(session.completionTime))) in d2.graph
            && Triple(Blank(action.id), PropertyBundleEdge, refs) in d2.graph
            && Triple(refs, P("performer"), Blank(performer.id)) in d2.graph
            && Triple(refs, P("instrument"), Blank(instrument.id)) in d2.graph
            && Described(d2.graph, refs, P("result")) == {}
            && Described(d2.graph, refs, P("location")) == {}
  {
    hide DocNewNode, DocCreateBundle;
    var (action, d1) := DocNewNode(d, UcoObjectCls, Some(Plain("ForensicAction")), ActionProps(session));
    ActionNodeSpec(session, d);
    ReferencesSpec(performer, instrument, action, d1);
  }

  /** The `ForensicAction` node with its start and end times. */
  lemma ActionNodeSpec(session: Session, d: Doc)
    requires WellFormed(d)
    ensures var (action, d1) := DocNewNode(d, UcoObjectCls, Some(Plain("ForensicAction")), ActionProps(session));
            && action.id == d.next && action.cls == UcoObjectCls
            && WellFormed(d1) && d.graph <= d1.graph && d1.next == d.next + 1
            && Triple(Blank(action.id), RdfType, P("ForensicAction")) in d1.graph
            && Triple(Blank(action.id), P("startTime"), Literal(PyDateTime(session.startTime))) in d1.graph
            && Triple(Blank(action.id), P("endTime"), Literal(PyDateTime(session.completionTime))) in d1.graph
  {
    var actionProps := ActionProps(session);
    NewNodeSpec(d, UcoObjectCls, Some(Plain("ForensicAction")), actionProps);
    PropInTriples(Blank(d.next), actionProps, 0);
    PropInTriples(Blank(d.next), actionProps, 1);
  }

  /** The `ActionReferences` bundle: the performer and the instrument, no result and no location. */
  lemma ReferencesSpec(performer: Node, instrument: Node, action: Node, d: Doc)
    requires WellFormed(d) && performer.id < d.next && instrument.id < d.next && action.id < d.next
    ensures var d' := DocCreateBundle(d, action, Some(Plain("ActionReferences")), ReferenceProps(performer, instrument)).1;
            var refs := Blank(d.next);
            && WellFormed(d') && d.graph <= d'.graph && d'.next == d.next + 1
            && Triple(Blank(action.id), PropertyBundleEdge, refs) in d'.graph
            && Triple(refs, P("performer"), Blank(performer.id)) in d'.graph
            && Triple(refs, P("instrument"), Blank(instrument.id)) in d'.graph
            && Described(d'.graph, refs, P("result")) == {}
            && Described(d'.graph, refs, P("location")) == {}
  {
    var refProps := ReferenceProps(performer, instrument);
    BundleHasOneOwner(d, action, Some(Plain("ActionReferences")), refProps);
    PropInTriples(Blank(d.next), refProps, 0);
    PropInTriples(Blank(d.next), refProps, 1);
    FreshBundleKeyword(d, action, Some(Plain("ActionReferences")), refProps, 2);
    FreshBundleKeyword(d, action, Some(Plain("ActionReferences")), refProps, 3);
  }


  /** The part of `export_session` after the configuration loop, from the performer on. */
  lemma ActionSpec(session: Session, instrument: Node, d: Doc)
    requires WellFormed(d) && instrument.id < d.next
    ensures var d' := ActionF(session, instrument, d);
            var n := d.next;
            && WellFormed(d') && d.graph <= d'.graph && d'.next == n + 4
            && Triple(Blank(n), RdfType, P("Identity")) in d'.graph
            && Triple(Blank(n + 2), RdfType, P("ForensicAction")) in d'.graph
            && Triple(Blank(n + 3), P("performer"), Blank(n)) in d'.graph
            && Triple(Blank(n + 3), P("instrument"), Blank(instrument.id)) in d'.graph
            && Described(d'.graph, Blank(n + 3), P("result")) == {}
  {
    hide DocNewNode, DocCreateBundle;
    var (performer, d1) := DocNewNode(d, UcoObjectCls, Some(Plain("Identity")), []);
    var (_, d2) := DocCreateBundle(d1, performer, Some(Plain("SimpleName")), PerformerNameProps());
    PerformerSpec(d);
    ForensicActionSpec(session, performer, instrument, d2);
  }

  /**
   * `export_session` as a whole: the tool with its settings, then the John Doe
   * performer and the forensic action, whose references point at that
   * performer and at the tool as instrument.
   */
  lemma SessionSpec(session: Session, d: Doc, instrument: Node, d1: Doc)
    requires WellFormed(d) && (instrument, d1) == ToolF(session, d)
    ensures var d' := ExportSessionF(session, d);
            var config := Node(d.next + 1, PropertyBundleCls);
            var n := d1.next;
            && instrument == Node(d.next, UcoObjectCls)
            && n == d.next + 2 + |Present(ConfigurationAttributes, session)|
            && WellFormed(d') && d.graph <= d'.graph && d'.next == n + 4
            && Triple(Blank(d.next), RdfType, P("Tool")) in d'.graph
            && (forall i :: 0 <= i < |ConfigurationAttributes| && HasAttr(session.attrs, ConfigurationAttributes[i]) ==>
                  exists id :: HasSetting(d'.graph, config, id, ConfigurationAttributes[i],
                                          SettingValue(GetAttr(session.attrs, ConfigurationAttributes[i]))))
            && Triple(Blank(n), RdfType, P("Identity")) in d'.graph
            && Triple(Blank(n + 2), RdfType, P("ForensicAction")) in d'.graph
            && Triple(Blank(n + 3), P("performer"), Blank(n)) in d'.graph
            && Triple(Blank(n + 3), P("instrument"), Blank(d.next)) in d'.graph
            && Described(d'.graph, Blank(n + 3), P("result")) == {}
  {
    ToolSpec(session, d);
    ActionSpec(session, instrument, d1);
    var d' := ActionF(session, instrument, d1);
    assert d' == ExportSessionF(session, d);
    var config := Node(d.next + 1, PropertyBundleCls);
    forall i | 0 <= i < |ConfigurationAttributes| && HasAttr(session.attrs, ConfigurationAttributes[i])
      ensures exists id :: HasSetting(d'.graph, config, id, ConfigurationAttributes[i],
                                      SettingValue(GetAttr(session.attrs, ConfigurationAttributes[i])))
    {
      var id :| HasSetting(d1.graph, config, id, ConfigurationAttributes[i], SettingValue(GetAttr(session.attrs, ConfigurationAttributes[i])));
      assert HasSetting(d'.graph, config, id, ConfigurationAttributes[i], SettingValue(GetAttr(session.attrs, ConfigurationAttributes[i])));
    }
  }
}
