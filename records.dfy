/** The plaso and dfvfs records the exporter reads: path specs, events, event sources and sessions. */
module Records {
  import opened Wrappers
  import opened Python

  /**
   * A dfvfs path specification: its type indicator, its own attributes, and the
   * layer it sits inside. Its `comparable` determines the whole chain, so the
   * value itself serves as the comparable.
   */
  datatype PathSpec = PathSpec(typeIndicator: string, attrs: seq<(string, PyValue)>, parent: Option<PathSpec>)
  {
    /** `path_spec.HasParent()`. */
    predicate HasParent() {
      parent.Some?
    }

    /** `getattr(path_spec, name, None)`, and a plain attribute read. */
    function Attr(name: string): PyValue {
      GetAttr(attrs, name)
    }

    /** `hasattr(path_spec, name)`. */
    predicate Has(name: string) {
      HasAttr(attrs, name)
    }
  }

  /** The number of layers in a path-spec chain. */
  function Depth(ps: PathSpec): nat {
    if ps.parent.None? then 1 else 1 + Depth(ps.parent.value)
  }

  /** A plaso event: the fields every event has, and its parser-specific attributes. */
  datatype Event = Event(
    dataType: string,
    timestamp: int,
    timestampDesc: string,
    pathspec: Option<PathSpec>,
    attrs: seq<(string, PyValue)>)
  {
    /** `getattr(event, name, None)`, and a plain attribute read. */
    function Attr(name: string): PyValue {
      GetAttr(attrs, name)
    }

    /** `event.GetAttributes()`. The path spec is left out, as the content key excludes it anyway. */
    function Attributes(): seq<(string, PyValue)> {
      [("data_type", PyStr(dataType)), ("timestamp", PyInt(timestamp)), ("timestamp_desc", PyStr(timestampDesc))] + attrs
    }
  }

  /** A plaso event source: the type of the file entry and where it is. */
  datatype EventSource = EventSource(fileEntryType: string, pathSpec: PathSpec)

  /** A plaso storage session: product fields, start and completion times, and the configuration attributes it has. */
  datatype Session = Session(
    productName: PyValue,
    productVersion: PyValue,
    startTime: int,
    completionTime: int,
    attrs: seq<(string, PyValue)>)

  /** `lib.convert_timestamp`: the datetime a plaso timestamp stands for. */
  function ConvertTimestamp(t: int): PyValue {
    PyDateTime(t)
  }
}
