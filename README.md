# CASE export of plaso storage: a verified model

This project models how the CASE/plaso exporter turns a plaso storage file into a
CASE graph. It covers:

- the `case` library's `Document`, `Node`, `UcoObject` and `PropertyBundle`, which write
  RDF triples about blank nodes into one graph;
- the `PlasoExporter`, which hands path specs, event sources, events and sessions to the
  right writer;
- the event exporters, which turn each event into traces, property bundles and
  relationships. They are registered per data type and use a content-key template that
  exports an event's data once and stamps each timestamp onto the cached element. The
  modelled exporters are `fs:stat`, `android:event:call`, `android:messaging:sms`,
  `fs:stat:ntfs`, and the Skype account, call and chat exporters;
- the dfvfs-to-CASE term tables (`mappings`), the path-spec property bundles
  (`property_bundles`), the relationship bundles (`file_relationships`), and the content
  key (`lib.hash_event_data`).

The graph is a `set<Triple>`, and a document is that set plus the next fresh blank-node
number (`Case.Doc`). `case.Document` is a class (`Case.Document`) whose methods update
that state in place. Each method is proved against a pure function on `Doc`
(`DocNewNode`, `DocCreateBundle`, `DocAdd`). Event exporters are objects with per-exporter
caches: the element cache of the template, the path-spec cache of `fs:stat`, the contact
caches of the Android exporters, and the Skype knowledge base. Their methods are proved
against functions on `(caches, Doc)` (`EventExporters.ExportState`). Those functions
carry the lemmas: soundness (every cached node exists and the graph stays well formed),
growth (nothing is removed), caching and idempotence, and the exact triples each step
writes.

Python values that flow into the graph are `Python.PyValue`: None, bool, int, str,
datetime and list. `str.rpartition`, `str.partition`, `str.split`, `int(s, 10)`,
`os.path.basename` and `os.path.splitext` are written out in `Python`, with their own
lemmas. `lib.convert_timestamp` is not defined in `lib.py`. It is modelled as wrapping the
raw plaso timestamp in `PyDateTime`. `datetime.now()` is the constant `PyNow`.

Modules: `Wrappers` (Option and Result), `Python`, `Records` (path specs, events, event
sources, sessions), `Registry` (the decorator dictionaries), `Case`, `Lib`, `Dfvfs` and
`Mappings`, `EventExporters` (the base class and registry), `Exporting` (the base
`export_event` template and per-class dispatch), `PropertyBundles`, `FileRelationships`,
`FileStat`, `AndroidCalls`, `AndroidSms`, `Ntfs`, `Skype` and `Plaso`.

## Model

| member | source | states |
|---|---|---|
| Case.Document.constructor | case.py:13-23 | A new document has an empty graph and no blank node handed out. |
| Case.Document.Add | case.py:97-122 | `Node.add` adds exactly the triples of the value: none for None, one per element of a list, a link to a node object, a literal otherwise, all under the CASE-qualified property name. Re-adding triples already present leaves the graph as it was. |
| Case.Document.NewNode | case.py:74-95 | A node takes a fresh identifier and writes its type (the class default when none is given) and its keyword properties. |
| Case.Document.CreateNode | case.py:46-47 | `create_node` is a plain `Node` with the given type and properties. |
| Case.Document.CreateUcoObject | case.py:33-35 | `create_uco_object` is a `UcoObject`, which also stamps `createdTime`. |
| Case.Document.CreateTrace | case.py:38-40 | `create_trace` is a `Trace` object. |
| Case.Document.CreateHash | case.py:43-44 | `create_hash` is a `Hash` node carrying `hashMethod` and `hashValue`. |
| Case.Document.CreatePropertyBundle | case.py:146-158 | `create_property_bundle` creates a new `PropertyBundle` and links it from its owner by `propertyBundle`. |
| Case.Document.CreateRelationship | case_plaso/event_exporters/filestat.py:53-59 | The `create_relationship` that the `fs:stat` exporter calls is a `UcoObject` of type `Relationship` with the given properties. |
| Case.Document.NewBlank | case_plaso/property_bundles.py:37 | `BNode()`: a blank term with the next unused identifier, which the counter then moves past, the graph unchanged. |
| Case.Document.AddTriple | case.py:122 | `graph.add` adds exactly one triple. |
| Case.PyTriplesShape | case.py:100-116 | `add` writes only about the node under the qualified name. It writes nothing exactly when the value is None or a list of such values. |
| Case.AddCollection | case.py:106-109 | A list of plain values adds one triple per element under the same property. |
| Case.PropsTriplesShape | case.py:94-95 | Keyword properties write only about their node, under one of the keywords' CASE names. |
| Case.PropsTriplesBelow | case.py:94-95 | Keyword values that name existing nodes point only at existing nodes. |
| Case.PropInTriples | case.py:94-95 | Each keyword's triples are among those of the node. |
| Case.PropsTriplesFrom | case.py:94-95 | Every keyword triple comes from one of the keywords. |
| Case.ItemsTriplesStep | case.py:106-109 | One step of the list loop of `add` writes that element's triples. |
| Case.NewNodeSpec | case.py:74-95 | A new node is fresh and has exactly one `rdf:type` (the class default when no type is given). Every UcoObject gets `createdTime`, and a plain node gets it only from a keyword. The document stays well formed. |
| Case.BundleHasOneOwner | case.py:146-158 | A property bundle is always a new node and has exactly one owner: the object it was created on. |
| Case.OneMoreBundle | case.py:146-158 | `create_property_bundle` gives its owner exactly one more bundle, which it did not have before. |
| Case.AddKeepsWellFormed | case.py:97-122 | Adding a value that names only existing nodes keeps every blank node below the fresh counter. |
| Case.FreshUntyped | case.py:74-95 | A node not yet created has no type. |
| Case.TypedAdd | case.py:97-122 | `add` never types anything. |
| Case.TypedNewNode | case.py:74-95 | Constructing a node types exactly that node, with its own type. |
| Case.TypedCreateBundle | case.py:146-158 | Creating a bundle types exactly the bundle. |
| Case.NewNodeExtends | case.py:74-95 | Constructing a node writes only about the new node. |
| Case.AddExtends | case.py:97-122 | Adding a property writes only about that node. |
| Case.CreateBundleExtends | case.py:146-158 | A bundle writes only about its owner and itself. |
| Case.BundleTriples | case.py:146-158 | The triples about a new bundle are its type and its keywords. |
| Case.FreshBundleKeyword | case.py:94-95 | On a new bundle, a keyword that occurs once is described by exactly the triples of its value. |
| Lib.HashEventData | case_plaso/lib.py:10-26 | The filtering loop builds the dictionary of the attributes minus the excluded ones, and the result is its `hash_dict`. |
| Lib.HashDictIncluded | case_plaso/lib.py:3-7 | The key of a dictionary holds exactly its live items, nested dictionaries replaced by their own key. |
| Lib.HashDictOrderFree | case_plaso/lib.py:3-7 | Equal dictionaries get equal keys, whatever their insertion order. |
| Lib.NestedDictHashed | case_plaso/lib.py:5-6 | A nested dictionary enters the key as its own `hash_dict`. |
| Lib.LookupLast | case_plaso/lib.py:21-24 | An item whose key is not bound again later in the list is the value read for that key. |
| Lib.PairsIncluded | case_plaso/lib.py:3-7 | Two item lists with the same keys and values hashing alike give included key sets. |
| Lib.EqualValuesShareKey | case_plaso/lib.py:3-7 | Two item lists with the same keys and values hashing alike get the same `hash_dict`. |
| Lib.BoolKeyedAsInt | case_plaso/lib.py:3-7 | A `True` or `False` value gets the same `hash_dict` as `1` or `0`, as Python's frozenset treats them as equal. |
| Lib.KeptDict | case_plaso/lib.py:17-24 | The filtered dictionary holds exactly the event's attributes minus the excluded names. |
| Lib.ExcludedIgnored | case_plaso/lib.py:17-24 | Events that differ only in excluded attributes share one content key. |
| Mappings.RelationshipKind | case_plaso/mappings.py:72-77 | `decompressed-from` exactly for compressed streams, `decoded-from` for encoded streams, `decrypted-from` for encrypted streams, and `contained-within` (the `_default`) for every other type indicator. |
| Mappings.ImageTypesAreFileSystemTypes | case_plaso/mappings.py:46-68 | Every disk-image type is also a file-system type, with the same CASE term. |
| Mappings.EncryptionTablesComplete | case_plaso/mappings.py:22-84 | The cipher tables cover exactly the four dfvfs modes and the four dfvfs methods, and the hash table exactly SHA-1, SHA-256 and MD5. |
| Registry.RegisteredLookup | case_plaso/event_exporter.py:5-11 | After a run of registrations, a key is present exactly when it was there before or was registered. A registered key maps to its last registration, and any other key keeps its old entry. |
| Registry.Registry.constructor | case_plaso/property_bundles.py:10 | A registry starts empty. |
| Registry.Registry.Register | case_plaso/property_bundles.py:11-15 | One decorator stores its function under its identifier, overwriting. |
| Registry.Registry.RegisterAll | case_plaso/file_relationships.py:11-16 | The decorators of a module, applied in order, leave the last registration per key. |
| EventExporters.ImportRegistry | case_plaso/event_exporter.py:5-11 | Importing the exporter modules registers exactly the modelled data types, each under its class. |
| EventExporters.KindFor | case_plaso/event_exporter.py:65-71 | A registered data type gets its class. Any other data type gets the default exporter, which ignores events. |
| EventExporters.KindsDistinct | case_plaso/event_exporter.py:5-11 | Distinct registered data types are served by distinct classes. |
| EventExporters.EventExporter.constructor | case_plaso/event_exporter.py:21-28 | A new exporter writes into the given document and starts with every cache empty. |
| EventExporters.FromDataType | case_plaso/event_exporter.py:65-71 | `from_data_type` builds a fresh exporter of the class registered for the data type, or of the default class. |
| EventExporters.Stamp | case_plaso/event_exporters/android_calls.py:43-47 | The guarded timestamp write changes the document as the stamping function says. |
| EventExporters.StampSpec | case_plaso/event_exporters/ntfs.py:30-37 | A mapped label adds exactly one timestamp under the mapped name. Any other label adds nothing and raises nothing. |
| Exporting.EventData | case_plaso/event_exporter.py:39-47 | `export_event_data`, dispatched on the class, as the state function says. |
| Exporting.Timestamp | case_plaso/event_exporter.py:30-37 | `export_timestamp`, dispatched on the class, as the state function says. For a Skype account event it follows the intended behaviour of Findings row 2 (as written: Exporting.SkypeAccountFailsAsWritten). |
| Exporting.Template | case_plaso/event_exporter.py:49-63 | The base `export_event` checks the content-key cache, exports and caches on a miss, then stamps. For a Skype account event the stamp follows the intended behaviour of Findings row 2 (as written: Exporting.SkypeAccountFailsAsWritten). |
| Exporting.ExportEvent | case_plaso/event_exporter.py:49-63 | `exporter.export_event(event)` runs the class's own override, or the template. For a Skype account event it follows the intended behaviour of Findings row 2 (as written: Exporting.SkypeAccountFailsAsWritten). |
| Exporting.PathSpecsKept | case_plaso/event_exporters/filestat.py:23-35 | Only the `fs:stat` exporter changes the path-spec cache. |
| Exporting.EventDataPathSpecs | case_plaso/event_exporter.py:39-47 | The data step of a template class leaves the path-spec cache alone. |
| Exporting.SmsPathSpecs | case_plaso/event_exporters/android_sms.py:15-39 | The SMS exporter leaves the path-spec cache alone. |
| Exporting.StampOnce | case_plaso/event_exporter.py:63 | Stamping the same event twice is the same as stamping it once. |
| Exporting.TimestampSpec | case_plaso/event_exporter.py:30-37 | The timestamp step writes only this event's timestamps onto the given bundle, creates no node, and repeats as a no-op. |
| Exporting.EventDataSpec | case_plaso/event_exporter.py:39-47 | The data step creates a new element and leaves the element and path-spec caches alone. |
| Exporting.TemplateHit | case_plaso/event_exporter.py:60-63 | An event whose content key is cached exports no data. It succeeds, changes no cache, creates no node, and only stamps the cached element. |
| Exporting.TemplateMiss | case_plaso/event_exporter.py:58-63 | The first event of a content key caches a new element under that key only. A failing data step caches nothing. |
| Exporting.TemplateRepeat | case_plaso/event_exporter.py:49-63 | Exporting the same event twice through the template is the same as exporting it once. |
| Exporting.ExportRepeat | case_plaso/event_exporter.py:49-63 | The same holds for `export_event` dispatched to any template class. |
| Exporting.SameContentShared | case_plaso/event_exporter.py:56-63 | Two events that differ only in excluded attributes share one element. The second only stamps the first's element. |
| Exporting.SkypeAccountFailsAsWritten | case_plaso/event_exporters/skype.py:35-64 | As written, a Skype account event never succeeds: it ends in NotImplementedError with no timestamp written. |
| Exporting.SkypeAccountCorrected | case_plaso/event_exporters/skype.py:39-64 | With the timestamp step its table intends, an account event with a string username succeeds and its mapped timestamp is on the cached element. |
| PropertyBundles.ImportRegistry | case_plaso/property_bundles.py:10-15 | Importing the module registers exactly the four rules under their type indicators. |
| PropertyBundles.RulesRegistered | case_plaso/property_bundles.py:35-82 | The four rules are registered under the data-range, encoding, encryption and SQLite-blob indicators, and under nothing else. |
| PropertyBundles.DataRangeRule | case_plaso/property_bundles.py:35-41 | The `DataRange` bundle, written into the document as its function says. |
| PropertyBundles.EncodingRule | case_plaso/property_bundles.py:44-51 | The `Encoding` bundle, written into the document as its function says. |
| PropertyBundles.EncryptionRule | case_plaso/property_bundles.py:54-70 | The `Encryption` bundle, written into the document as its function says, including the raise part-way. |
| PropertyBundles.SQLiteBlobRule | case_plaso/property_bundles.py:73-82 | The `SQLiteBlob` bundle, written into the document as its function says. It follows the intended behaviour of Findings row 5: a `row_index` of None counts as absent (as written: PropertyBundles.SQLiteBlobConditionLostAsWritten). |
| PropertyBundles.Construct | case_plaso/property_bundles.py:18-32 | `construct` runs the rule registered for the identifier, or returns None. |
| PropertyBundles.DataRangeFresh | case_plaso/property_bundles.py:35-41 | `DataRange` creates one fresh bundle and returns it. |
| PropertyBundles.EncodingFresh | case_plaso/property_bundles.py:44-51 | `Encoding` creates one fresh bundle and returns it. |
| PropertyBundles.EncryptionFresh | case_plaso/property_bundles.py:54-70 | `Encryption` creates one fresh bundle even when it raises. When it returns, it returns that bundle. |
| PropertyBundles.SQLiteBlobFresh | case_plaso/property_bundles.py:73-82 | `SQLiteBlob` creates one fresh untyped bundle and returns it. |
| PropertyBundles.ApplySpec | case_plaso/property_bundles.py:24-32 | Any registered rule creates one fresh bundle, writes only about it, and points at no blank node. |
| PropertyBundles.ConstructSpec | case_plaso/property_bundles.py:18-32 | A registered identifier creates one fresh bundle and keeps the document well formed. An unregistered one returns None and changes nothing. |
| PropertyBundles.DataRangeSpec | case_plaso/property_bundles.py:35-41 | `DataRange` writes exactly the type, the offset and the size, on the node it returns. |
| PropertyBundles.EncodingFallback | case_plaso/property_bundles.py:47-50 | An unmapped encoding method is written as a literal of the raw value. The source hands rdflib the raw string, not a term. |
| PropertyBundles.EncryptionSpec | case_plaso/property_bundles.py:54-70 | `Encryption` fails exactly when the mode or the method is unmapped, the mode checked first. The type, IV and key are always written, and no method triple is written when the mode is unknown. |
| PropertyBundles.SQLiteBlobSpec | case_plaso/property_bundles.py:73-82 | `SQLiteBlob` writes no type. It writes `rowIndex` exactly when the row index is not None, and `rowCondition` exactly when the row index is None and the condition is not (the intended reading of Findings row 5). |
| PropertyBundles.SQLiteBlobConditionLostAsWritten | case_plaso/property_bundles.py:73-82 | As written, a path spec with only a row condition gets `rowIndex` None and no `rowCondition`, while the intended reading writes the condition and no `rowIndex`. |
| FileRelationships.ImportRegistry | case_plaso/file_relationships.py:11-162 | Importing the module registers every rule under its type indicators. `Compression` is registered under both the GZIP and the compressed-stream indicators. |
| FileRelationships.Construct | case_plaso/file_relationships.py:19-28 | `construct` runs the registered rule on the object, writing as its function says. A TSK partition follows the intended behaviour of Findings row 1 (as written: FileRelationships.PartitionSuffixNotNumber), and a SQLite blob that of Findings row 6 (as written: FileRelationships.RowConditionLostAsWritten). |
| FileRelationships.ConstructSpec | case_plaso/file_relationships.py:19-162 | An unregistered identifier does nothing. A registered rule either fails while evaluating its arguments and changes nothing, or gives the object exactly one new bundle. |
| FileRelationships.CompressionSpec | case_plaso/file_relationships.py:41-54 | GZIP and compressed-stream layers both go to `Compression`, and a GZIP layer is always GZIP-compressed. |
| FileRelationships.LookupFailures | case_plaso/file_relationships.py:65-79 | An unmapped encoding method, cipher mode or encryption method raises KeyError, the mode before the method. |
| FileRelationships.PartitionFromLocation | case_plaso/file_relationships.py:145-155 | A falsy `part_index` with location `/p<n>` gives partition `n - 1`. A truthy one is kept. |
| FileRelationships.PartitionIndexAgrees | case_plaso/file_relationships.py:147-151 | The written and the corrected derivations agree wherever the written one succeeds. Only the written one raises ValueError. |
| FileRelationships.PartitionSuffixNotNumber | case_plaso/file_relationships.py:147-151 | Location `/px` without a part index makes the written code raise ValueError, while the corrected code leaves the index unset. |
| FileRelationships.RowPropertySpec | case_plaso/file_relationships.py:121-130 | `SQLiteBlob` adds `rowIndex` when the row index is not None. Otherwise it joins a condition of strings with single spaces (the intended reading of Findings row 6). |
| FileRelationships.RowConditionLostAsWritten | case_plaso/file_relationships.py:121-130 | As written, a path spec with only a row condition picks `rowIndex` None, whose `add` writes nothing, while the intended reading picks `rowCondition`. |
| FileStat.Location | case_plaso/event_exporters/filestat.py:38-44 | The location block, as its function says. |
| FileStat.Link | case_plaso/event_exporters/filestat.py:51-62 | The parent relationship and its bundle, as their function says. |
| FileStat.Attach | case_plaso/event_exporters/filestat.py:62 | The type indicator's bundle on the relationship, as its function says. |
| FileStat.NewLayer | case_plaso/event_exporters/filestat.py:32-47 | A new trace and `File` bundle, cached at once, then the location and the file-system type. |
| FileStat.ExportPathSpec | case_plaso/event_exporters/filestat.py:23-64 | `export_path_spec` returns the pair the resolution function gives and leaves its state. |
| FileStat.FileTimestamp | case_plaso/event_exporters/filestat.py:75-90 | The timestamp part of `export_event`, as its function says. |
| FileStat.ExportEvent | case_plaso/event_exporters/filestat.py:66-90 | `export_event` resolves the path spec, writes the file attributes and the timestamp. |
| FileStat.NewLayerSpec | case_plaso/event_exporters/filestat.py:32-35 | A new layer is a fresh trace and a fresh `File` bundle, cached under the path spec whatever happens next. |
| FileStat.AnnotatesKeeps | case_plaso/event_exporters/filestat.py:38-47 | Describing an existing node keeps the document well formed and types nothing new. |
| FileStat.LocationAnnotates | case_plaso/event_exporters/filestat.py:38-44 | The location block only describes the `File` bundle. |
| FileStat.AddAnnotates | case_plaso/event_exporters/filestat.py:46-47 | Adding a plain value only describes the node. |
| FileStat.LayerAnnotates | case_plaso/event_exporters/filestat.py:38-47 | The location and the file-system type only describe the `File` bundle. |
| FileStat.TraceWithFile | case_plaso/event_exporters/filestat.py:32-33 | A trace and its `File` bundle are two fresh nodes, and only the first is a trace. |
| FileStat.NewLayerSound | case_plaso/event_exporters/filestat.py:32-47 | A new layer keeps the state sound and adds exactly one trace, its own. |
| FileStat.FreshBundleTypes | case_plaso/event_exporters/filestat.py:62 | A rule's bundle types nothing outside the bundle types and nothing about other nodes. |
| FileStat.AttachSpec | case_plaso/event_exporters/filestat.py:62 | Attaching the rule's bundle keeps the document well formed and only adds to it. |
| FileStat.AttachTypes | case_plaso/event_exporters/filestat.py:62 | Attaching creates no trace and no relationship, and does not retype the relationship. |
| FileStat.LinkSpec | case_plaso/event_exporters/filestat.py:51-62 | One new directional `Relationship` from the layer's trace to the parent's trace, of the kind the table gives. No trace and no other relationship are created. |
| FileStat.RelationshipTriples | case_plaso/event_exporters/filestat.py:53-59 | A relationship carries exactly its source, target, kind and direction. |
| FileStat.ResolveCached | case_plaso/event_exporters/filestat.py:28-30 | A cached path spec is answered from the cache, and nothing changes. |
| FileStat.ResolveCaches | case_plaso/event_exporters/filestat.py:28-64 | Resolution only adds to the path-spec cache. The path spec ends up cached even on failure, other entries are untouched, and a success returns the cached pair. |
| FileStat.ResolveSound | case_plaso/event_exporters/filestat.py:23-64 | Resolution keeps the document well formed and the caches inside it, and only adds triples. |
| FileStat.ResolveIdempotent | case_plaso/event_exporters/filestat.py:28-30 | Resolving a path spec again returns the same pair and changes nothing. |
| FileStat.ResolveUnfold | case_plaso/event_exporters/filestat.py:32-64 | An uncached path spec without a parent, with a failing parent, or with a resolved parent, in that order. |
| FileStat.LayersShallower | case_plaso/event_exporters/filestat.py:51-52 | A parent's chain has fewer layers than its child's. |
| FileStat.CountLayer | case_plaso/event_exporters/filestat.py:32-47 | A layer on its own adds one trace and no relationship. |
| FileStat.CountLink | case_plaso/event_exporters/filestat.py:51-62 | A layer, its parent chain of n layers and the link between them add n + 1 traces and n relationships. |
| FileStat.ChainCount | case_plaso/event_exporters/filestat.py:23-64 | A chain of N uncached layers that resolves yields exactly N new traces and N - 1 new relationships. |
| FileStat.LocationSpec | case_plaso/event_exporters/filestat.py:38-44 | A falsy location writes nothing. A string location writes `filePath`, and its basename as `fileName` plus `extension` only when the extension is non-empty. A truthy non-string fails after `filePath`. |
| FileStat.LocationString | case_plaso/event_exporters/filestat.py:40-44 | The three triples of a string location, with name and extension spelling its basename. |
| FileStat.AddLiteral | case_plaso/event_exporters/filestat.py:46-47 | Adding a plain value writes exactly one triple. |
| FileStat.NewLayerFileSystemType | case_plaso/event_exporters/filestat.py:46-47 | The `File` bundle gets `fileSystemType` exactly when the type indicator is in the table, and then it is that table's term. |
| FileStat.FileBundleUntyped | case_plaso/event_exporters/filestat.py:33 | Right after its creation, the `File` bundle carries nothing but its type. |
| FileStat.LocationPreds | case_plaso/event_exporters/filestat.py:38-44 | A location that succeeds writes only `filePath`, `fileName` and `extension`. |
| FileStat.StampedBundle | case_plaso/event_exporters/filestat.py:83-90 | A timestamp bundle is one new bundle on the trace with its type and its one property. |
| FileStat.FileTimestampSpec | case_plaso/event_exporters/filestat.py:75-90 | A mapped label adds one timestamp to the `File` bundle. `bkup_time` gives the trace an `HFSFileSystem` bundle and `dtime` an `ExtInode` bundle. Any other label adds nothing. |
| FileStat.ExportEventCached | case_plaso/event_exporters/filestat.py:66-90 | An event of a resolved path spec writes only onto its cached `File` bundle (apart from a timestamp bundle), creates no node, and keeps the caches. |
| AndroidCalls.Direction | case_plaso/event_exporters/android_calls.py:34-39 | `from` for incoming and missed calls, `to` for outgoing ones, `participant` otherwise. |
| AndroidCalls.Contact | case_plaso/event_exporters/android_calls.py:25-32 | The contact of a (name, number) pair, as its function says. |
| AndroidCalls.ExportEventData | case_plaso/event_exporters/android_calls.py:19-41 | `export_event_data`, as its function says. |
| AndroidCalls.ExportTimestamp | case_plaso/event_exporters/android_calls.py:43-47 | `export_timestamp`, as its function says. |
| AndroidCalls.ContactOnce | case_plaso/event_exporters/android_calls.py:25-32 | A (name, number) pair gets a contact trace only the first time, and is answered from the cache afterwards. |
| AndroidCalls.ExportEventDataSpec | case_plaso/event_exporters/android_calls.py:19-41 | One new `PhoneCall` bundle on one new trace, with exactly one direction edge: the one the call type picks, to the contact cached for the pair. |
| AndroidCalls.BundleNoDirection | case_plaso/event_exporters/android_calls.py:20-23 | The `PhoneCall` bundle starts with no direction edge. |
| AndroidCalls.NewBundleNotOwned | case_plaso/event_exporters/android_calls.py:26-32 | A contact created after the bundle never owns it. |
| AndroidCalls.ExportTimestampSpec | case_plaso/event_exporters/android_calls.py:11-13 | The two labels of the table add one timestamp each. Any other label adds nothing. |
| AndroidSms.Direction | case_plaso/event_exporters/android_sms.py:33-38 | `from` for received messages, `to` for sent ones, `participant` otherwise. |
| AndroidSms.ReadFlag | case_plaso/event_exporters/android_sms.py:30-31 | No flag for UNKNOWN. Otherwise, whether the flag is READ. |
| AndroidSms.Contact | case_plaso/event_exporters/android_sms.py:15-21 | The contact of an address, as its function says. |
| AndroidSms.Message | case_plaso/event_exporters/android_sms.py:23-38 | The message part of `export_event`, as its function says. |
| AndroidSms.ExportEvent | case_plaso/event_exporters/android_sms.py:14-38 | `export_event`, as its function says. |
| AndroidSms.ContactOnce | case_plaso/event_exporters/android_sms.py:15-21 | An address gets a contact trace only the first time, and is answered from the cache afterwards. |
| AndroidSms.MessageSpec | case_plaso/event_exporters/android_sms.py:23-38 | A new `Message` bundle that carries `isRead` exactly when the flag is known, and exactly one direction edge to the contact. |
| AndroidSms.MessageBundle | case_plaso/event_exporters/android_sms.py:24-28 | The new bundle is typed `Message` and described so far only by its type and its keywords. |
| AndroidSms.FlagAndEdge | case_plaso/event_exporters/android_sms.py:30-38 | The read flag and the direction edge on a bundle that had neither. |
| AndroidSms.ExportEventNewMessage | case_plaso/event_exporters/android_sms.py:14-38 | Every event, even a repeat, creates one more `Message` bundle: there is no deduplication. |
| Ntfs.ExportEventData | case_plaso/event_exporters/ntfs.py:18-28 | `export_event_data`, as its function says. |
| Ntfs.ExportTimestamp | case_plaso/event_exporters/ntfs.py:30-37 | `export_timestamp`, as its function says. |
| Ntfs.ExportEventDataSpec | case_plaso/event_exporters/ntfs.py:18-28 | One new trace with exactly one `MftRecord` bundle, each MFT property described by the event's attribute. |
| Ntfs.NoBundleYet | case_plaso/event_exporters/ntfs.py:19 | A new trace has no bundle. |
| Ntfs.MftFieldsSpec | case_plaso/event_exporters/ntfs.py:20-27 | Each MFT property is described by its attribute and nothing else. |
| Ntfs.MissingFieldOmitted | case_plaso/event_exporters/ntfs.py:20-27 | A missing MFT attribute leaves its property off the bundle. |
| Ntfs.ExportTimestampSpec | case_plaso/event_exporters/ntfs.py:12-16 | The four file-name labels go to the four `mftFileName*` properties. Any other label adds nothing. |
| Skype.CallType | case_plaso/event_exporters/skype.py:80 | OUTGOING when the user started the call, INCOMING otherwise. |
| Skype.Account | case_plaso/event_exporters/skype.py:17-32 | `export_account`, as its function says. It follows the intended behaviour of Findings row 4 (as written: Skype.DisplayNameRaisesAsWritten). |
| Skype.AccountData | case_plaso/event_exporters/skype.py:48-64 | The account `export_event_data`, as its function says. |
| Skype.Profile | case_plaso/event_exporters/skype.py:60-64 | The name, address and `SkypeAccount` bundles, as their function says. |
| Skype.AccountTimestamp | case_plaso/event_exporters/skype.py:39-46 | The account timestamp its table intends, as its function says. |
| Skype.CallData | case_plaso/event_exporters/skype.py:76-86 | The call `export_event_data`, as its function says. |
| Skype.CallTimestamp | case_plaso/event_exporters/skype.py:88-96 | The call `export_timestamp`, as its function says. |
| Skype.Thread | case_plaso/event_exporters/skype.py:103-110 | `export_message_thread`, as its function says. |
| Skype.Recipients | case_plaso/event_exporters/skype.py:128-131 | The recipient loop, as its function says. |
| Skype.Chat | case_plaso/event_exporters/skype.py:112-137 | The chat `export_event`, as its function says. |
| Skype.AccountEntrySpec | case_plaso/event_exporters/skype.py:18-26 | A cached username changes nothing. A new one creates one trace with one new `DigitalAccount` bundle and caches the pair. |
| Skype.AccountNew | case_plaso/event_exporters/skype.py:20-26 | A new username gives one new, cached account. |
| Skype.NewAccountDoc | case_plaso/event_exporters/skype.py:21-25 | A new account is a trace and two bundles, the second being the only new `DigitalAccount`. |
| Skype.AccountTraceDoc | case_plaso/event_exporters/skype.py:21-22 | The account trace and its `Account` bundle, neither a `DigitalAccount`. |
| Skype.AccountLoginDoc | case_plaso/event_exporters/skype.py:23-25 | The `DigitalAccount` bundle with the login is the only new `DigitalAccount`. |
| Skype.AccountOnce | case_plaso/event_exporters/skype.py:17-32 | Returns the account cached for the username, caching it on first use. A given display name is on its `DigitalAccount` bundle, and calling again changes nothing. This is the intended behaviour of Findings row 4. |
| Skype.DisplayNameGuardRedundant | case_plaso/event_exporters/skype.py:28-30 | The membership guard, read as the evident "not already in the graph" of Findings row 4, only spares a duplicate triple: the graph is the same as with an unconditional add. |
| Skype.DisplayNameRaisesAsWritten | case_plaso/event_exporters/skype.py:17-30 | As written, a truthy display name makes `export_account` raise TypeError after caching the account. The intended reading caches the same account and records the display name. |
| Skype.NamePartsSpec | case_plaso/event_exporters/skype.py:58-59 | "{first} {last} {display}" gives given name `first` and family name `last`. |
| Skype.NamePartsNoSpace | case_plaso/event_exporters/skype.py:58-59 | A username without a space gives two empty names. |
| Skype.AuthorRoundTrip | case_plaso/event_exporters/skype.py:122-123 | "{display name} <{username}>" gives back the username and the display name. |
| Skype.AccountDataSpec | case_plaso/event_exporters/skype.py:48-64 | Fails exactly when the username is not a string, after the trace and `Account` bundle. Otherwise it returns a fresh `SkypeAccount` bundle owned by the new trace, with the parsed names. |
| Skype.AccountTrace | case_plaso/event_exporters/skype.py:49-53 | The account event's trace and its `Account` bundle. |
| Skype.ProfileBundles | case_plaso/event_exporters/skype.py:60-64 | The `SimpleName` bundle holds the names, and the returned `SkypeAccount` bundle is owned by the trace alone. |
| Skype.AccountTimestampSpec | case_plaso/event_exporters/skype.py:39-46 | Each label of the table adds one PLASO timestamp. Any other label adds nothing. |
| Skype.CallTimestampSpec | case_plaso/event_exporters/skype.py:71-74 | WAITING, ACCEPTED and FINISHED give `createdTime`, `startTime` and `endTime`. Any other call type adds nothing. |
| Skype.AddEdge | case_plaso/event_exporters/skype.py:81-82 | Linking an existing bundle to an existing node adds only that edge. |
| Skype.CallBundle | case_plaso/event_exporters/skype.py:78-80 | The call trace and `PhoneCall` bundle with its call type. |
| Skype.CallDataSpec | case_plaso/event_exporters/skype.py:76-86 | A new `PhoneCall` bundle with its call type, `to` the callee's account and `from` the caller's, both cached. |
| Skype.CallParty | case_plaso/event_exporters/skype.py:81-82 | One party: the account of the username, linked from the bundle. |
| Skype.VideoBundle | case_plaso/event_exporters/skype.py:83-85 | The `SkypeCall` bundle only adds to the document. |
| Skype.ThreadOnce | case_plaso/event_exporters/skype.py:103-110 | A title gets its thread only the first time, with one new `MessageThread` bundle, and is answered from the cache afterwards. |
| Skype.ThreadNew | case_plaso/event_exporters/skype.py:106-109 | A new title gives one new, cached thread. |
| Skype.NewThreadDoc | case_plaso/event_exporters/skype.py:107-108 | A thread is a trace and its bundle, the only new `MessageThread`. |
| Skype.NonEmpty | case_plaso/event_exporters/skype.py:129 | The non-empty pieces, in order. |
| Skype.RecipientsSkipEmpty | case_plaso/event_exporters/skype.py:128-131 | The loop does the same as a loop over the non-empty pieces only. |
| Skype.RecipientsSpec | case_plaso/event_exporters/skype.py:128-131 | Every non-empty piece ends up with a cached account and a `to` edge to it. |
| Skype.ChatMessage | case_plaso/event_exporters/skype.py:113-117 | The chat trace and its `Message` bundle. |
| Skype.ChatSpec | case_plaso/event_exporters/skype.py:112-137 | Fails exactly when `from_account` or `to_account` is not a string. The author's account is linked by `from` with its display name. On success every non-empty recipient is linked by `to`, and the title's thread links the message. |
| Skype.ChatTail | case_plaso/event_exporters/skype.py:127-137 | The recipients and the thread of a chat message whose author is written. |
| Skype.RecipientsOthersKept | case_plaso/event_exporters/skype.py:128-131 | The recipient loop touches only the Skype caches. |
| Skype.ChatOthersKept | case_plaso/event_exporters/skype.py:112-137 | A chat message touches only the Skype accounts and threads. |
| Skype.ChatTailOthersKept | case_plaso/event_exporters/skype.py:127-137 | The recipients and the thread touch only the Skype caches. |
| Skype.CallOthersKept | case_plaso/event_exporters/skype.py:76-86 | A call touches only the Skype accounts. |
| Plaso.GetExporterF | case_plaso/plaso_exporter.py:39-44 | A data type already seen keeps its exporter. A new one gets a fresh exporter with empty caches. |
| Plaso.PlasoExporter.constructor | case_plaso/plaso_exporter.py:28-37 | A new exporter writes into the given document and has no event exporters. |
| Plaso.PlasoExporter.GetEventExporter | case_plaso/plaso_exporter.py:39-44 | `get_event_exporter`, as its function says. The existing exporter object is returned again. |
| Plaso.PlasoExporter.ExportPathSpec | case_plaso/plaso_exporter.py:46-54 | `export_path_spec` goes to the `fs:stat` exporter, as its function says. |
| Plaso.PlasoExporter.ExportEventSource | case_plaso/plaso_exporter.py:56-68 | `export_event_source`, as its function says. |
| Plaso.PlasoExporter.ExportEvent | case_plaso/plaso_exporter.py:70-74 | `export_event` goes to the exporter of the data type, as its function says. A Skype account event follows the intended behaviour of Findings row 2 (as written: Exporting.SkypeAccountFailsAsWritten). |
| Plaso.PlasoExporter.ExportSession | case_plaso/plaso_exporter.py:76-113 | `export_session`, as its function says. Its setting nodes follow the intended behaviour of Findings row 3 (as written: Plaso.SettingMarkedAsWritten). |
| Plaso.PlasoExporter.ExportTool | case_plaso/plaso_exporter.py:78-94 | The tool and its configuration loop, as their function says. Its setting nodes follow the intended behaviour of Findings row 3 (as written: Plaso.SettingMarkedAsWritten). |
| Plaso.PlasoExporter.ExportAction | case_plaso/plaso_exporter.py:98-113 | The performer and the action, as their function says. |
| Plaso.GetExporterSpec | case_plaso/plaso_exporter.py:39-44 | At most one exporter per data type: an existing one is kept, a new one starts empty, nothing else changes, and asking again changes nothing. |
| Plaso.PathSpecShared | case_plaso/plaso_exporter.py:46-54 | Every path spec is resolved by the one `fs:stat` exporter and cached there. No other exporter changes, and a repeat returns the same pair. |
| Plaso.EventSourceSpec | case_plaso/plaso_exporter.py:56-68 | A directory's or file's cached `File` bundle gets `isDirectory` true or false. A failure is passed on. Devices and other types change nothing. |
| Plaso.EventDelegated | case_plaso/plaso_exporter.py:70-74 | The event goes to the exporter of its data type, created if need be. No other exporter changes. |
| Plaso.RepeatedEventIgnored | case_plaso/plaso_exporter.py:39-44 | Because exporters are kept, a repeat of an event the template exported changes nothing. |
| Plaso.Revisit | case_plaso/plaso_exporter.py:41-44 | Once an exporter has run, it is found again with the state it left. |
| Plaso.SettingStep | case_plaso/plaso_exporter.py:92-94 | One pass of the loop writes exactly one fresh setting node and its edge. |
| Plaso.SettingMarkedAsWritten | case_plaso/plaso_exporter.py:92-93 | As written, the setting node carries a `bnode` property set to true. |
| Plaso.SettingUnmarked | case_plaso/plaso_exporter.py:92-93 | As intended, the setting node has no `bnode` property. |
| Plaso.SettingsSpec | case_plaso/plaso_exporter.py:85-94 | One fresh `ConfigurationSetting` per attribute the session has, recording the name and the value (None as the empty string). An absent attribute gives no setting. |
| Plaso.SettingsSkip | case_plaso/plaso_exporter.py:86 | An attribute the session lacks adds no setting. |
| Plaso.SettingsTake | case_plaso/plaso_exporter.py:86-94 | An attribute the session has adds one setting before the rest. |
| Plaso.ToolSpec | case_plaso/plaso_exporter.py:78-94 | A `Tool` with the product's name and version and the fixed type and creator, owning a `ToolConfiguration` with one setting per attribute present. |
| Plaso.ToolNodeSpec | case_plaso/plaso_exporter.py:78-84 | The `Tool` object and its empty `ToolConfiguration` bundle. |
| Plaso.PerformerSpec | case_plaso/plaso_exporter.py:98-102 | The performer is an `Identity` with a `SimpleName` bundle for John Doe. |
| Plaso.ForensicActionSpec | case_plaso/plaso_exporter.py:104-113 | The action spans the session's start and completion. Its `ActionReferences` point at the performer and the instrument, with no result and no location. |
| Plaso.ActionNodeSpec | case_plaso/plaso_exporter.py:104-107 | The `ForensicAction` node with its start and end times. |
| Plaso.ReferencesSpec | case_plaso/plaso_exporter.py:108-113 | The `ActionReferences` bundle holds only the performer and the instrument. |
| Plaso.ActionSpec | case_plaso/plaso_exporter.py:98-113 | Everything after the configuration loop, from the performer on. |
| Plaso.SessionSpec | case_plaso/plaso_exporter.py:76-113 | The tool with its settings, then the John Doe performer and the action, whose references point at that performer and at the tool. |
| Python.Lookup | case_plaso/lib.py:21-24 | A name is found exactly when the list binds it, and then its value is its last binding. |
| Python.DecimalString | case_plaso/plaso_exporter.py:91 | The decimal digits of a number, without sign or leading zeros. |
| Python.DecimalStringValue | case_plaso/plaso_exporter.py:91 | Reading back the digits of a number gives the number. |
| Python.ParseInt | case_plaso/file_relationships.py:149 | Python 2's `int(s, 10)` on a byte string succeeds exactly when the text, stripped of surrounding whitespace, is either ASCII decimal digits or a `+` or `-` sign followed by optional whitespace and ASCII decimal digits. |
| Python.TrimStart | case_plaso/file_relationships.py:149 | `lstrip()`: the longest suffix not starting with whitespace, everything dropped being whitespace. |
| Python.TrimEnd | case_plaso/file_relationships.py:149 | `rstrip()`: the longest prefix not ending with whitespace, everything dropped being whitespace. |
| Python.StripExamples | case_plaso/file_relationships.py:149 | `" 1"` and `"- 7\n"` strip to `"1"` and `"- 7"`. |
| Python.StripLeadingSpace | case_plaso/file_relationships.py:149 | Leading whitespace does not change what `int` reads. |
| Python.StripTrailingSpace | case_plaso/file_relationships.py:149 | Trailing whitespace does not change what `int` reads. |
| Python.StripNoSpace | case_plaso/file_relationships.py:149 | A text with no whitespace at either end is read as it stands. |
| Python.ParseIntDigits | case_plaso/file_relationships.py:149 | A text whose stripped form is digits, or a minus sign followed by optional whitespace and digits, parses to their value, negated for the minus sign. |
| Python.ParseIntSigned | case_plaso/file_relationships.py:149 | Digits with an optional minus sign and no whitespace parse to their signed value. |
| Python.ParseIntNotLiteral | case_plaso/file_relationships.py:149 | A text that is not a literal once stripped raises ValueError. |
| Python.ParseIntAccepts | case_plaso/file_relationships.py:149 | `int(" 1")` and `int("- 7\n")` give 1 and -7. |
| Python.ParseIntRefuses | case_plaso/file_relationships.py:149 | `int("x")` and `int("")` raise ValueError. |
| Python.ParseIntRefusesUnderscore | case_plaso/file_relationships.py:149 | `int("1_0")` and `int("1_")` raise ValueError, since Python 2 knows no digit grouping. |
| Python.ParseIntRoundTrip | case_plaso/file_relationships.py:149 | `int(str(i), 10) == i`. |
| Python.RFind | case_plaso/event_exporters/skype.py:58 | The last index of the character, or -1. |
| Python.Find | case_plaso/event_exporters/skype.py:59 | The first index of the character, or -1. |
| Python.FindSub | case_plaso/event_exporters/skype.py:128 | The first index of a separator string, or -1. |
| Python.RPartitionSpec | case_plaso/event_exporters/skype.py:58 | `rpartition` splits at the last separator: the pieces rebuild the string and the tail has no separator. |
| Python.PartitionSpec | case_plaso/event_exporters/skype.py:59 | `partition` splits at the first separator: the pieces rebuild the string and the head has no separator. |
| Python.RPartitionAt | case_plaso/event_exporters/skype.py:122 | With a separator-free tail, `rpartition` splits exactly before it. |
| Python.PartitionAt | case_plaso/event_exporters/skype.py:59 | With a separator-free head, `partition` splits exactly after it. |
| Python.Split | case_plaso/event_exporters/skype.py:128 | `split` gives at least one piece. |
| Python.SplitJoin | case_plaso/event_exporters/skype.py:128 | Joining the pieces of a split with the separator rebuilds the string. |
| Python.SplitPiecesFree | case_plaso/event_exporters/skype.py:128 | No piece of a split contains the separator. |
| Python.StripEnds | case_plaso/event_exporters/skype.py:123 | `s[1:-1]` is the string without its first and last characters, or empty when it has fewer than two. |
| Python.Basename | case_plaso/event_exporters/filestat.py:41 | A suffix of the path that starts at its beginning or right after a '/', and contains no '/'. |
| Python.SplitExtSpec | case_plaso/event_exporters/filestat.py:41 | The two parts of `splitext` rebuild the path. The extension is empty or a dot with no further dot or '/', preceded in its component by something other than dots. |

## Left out

- I/O and serialisation: `Document.serialize`, `_json_ld_context`, `validate`, `export_storage_file` (which only reads the storage file and calls the modelled methods), and the command-line scripts `case_plaso_export.py` and `plaso_case_output.py`.
- Namespace binding (`namespace_manager.bind`) has no effect on the triples and is left out.
- rdflib identity: blank nodes are numbered by a counter, so the model fixes which fresh identifier a node gets. rdflib's random identifiers only promise freshness.
- `lib.convert_timestamp` is not defined in `lib.py`. It is modelled as an uninterpreted wrapper of the raw timestamp (`PyDateTime`), and `datetime.now()` as the constant `PyNow`.
- `hash_dict` hashes a frozenset. The model uses the frozenset itself as the key, so hash collisions are not modelled.
- `case.Document.create_relationship` is not defined in `case.py`, so the call at `filestat.py:53` raises AttributeError in the source. The model gives it the behaviour of its siblings: a UcoObject of type `Relationship` with the given properties.
- `property_bundles.construct(path_spec.type_indicator, relationship)` at `filestat.py:62` passes the relationship where the graph is expected and no path spec, so the rule, called with one argument where it takes two, raises TypeError in the source. The model calls the rule with the document and the path spec, and links the resulting bundle to the relationship by `propertyBundle`.
- `file_relationships.py:36` reads the attribute `resovery_password`. The model reads `recovery_password`, the dfvfs name.
- `FileRelationships.Construct`: the LVM volume index comes from dfvfs's `lvm.LVMPathSpecGetVolumeIndex`, which is not part of this model. It is a parameter supplied by the caller.
- Skype: `SkypeSMSExporter` (`skype.py:149-162`) calls `export_contact`, which is not defined in the repository, and is left out. `SkypeFileTransferExporter` is registered and, as in the source, ignores its events.
- Skype: the base class never creates the `knowledge_base` that `SkypeExporter.__init__` fills (`skype.py:10-15`). The model gives each Skype exporter its own accounts and threads maps. `EventExporter.register` is not defined in `event_exporter.py`, so importing `skype.py` raises AttributeError in the source. The model reads `EventExporter.register('...')` as registering the class under that data type.
- Skype.Account: the default `display_name=None` is modelled as the empty string, which is falsy in the same way.
- Skype.Account: `(pb, 'displayName', name) in document` raises TypeError as written (Findings row 4). The model reads it as membership of the triple in the graph.
- Case.Document.NewNode: keyword arguments are an ordered sequence of pairs.
- EventExporters.EventExporter.constructor: the data type an exporter was made for is a ghost field, since the object does not record it.
- Plaso.PlasoExporter.ExportEventSource: the device branch and the branch for other entry types do nothing, as in the source.
- FileStat.ExportEvent: an event without a path spec fails, standing for the AttributeError of `None.comparable`.
- Python.ToStr: `str` of a datetime is the raw stamp, since calendar rendering is not modelled. A `PyList` always prints as a list, `[a, b]`, even where it stands for a tuple, `(a, b)`, or a set, `{a, b}`.
- Python.ParseInt: models Python 2's `int` on a byte string. On a unicode string Python 2 first maps Unicode whitespace and decimal digits to ASCII, which is not modelled.
- Lib.HashEventData: a list or set attribute value (a `PyList`) gets a key like any other value. Python's `hash_dict` raises TypeError (unhashable type) on a list or set value, and that error path is not modelled. Booleans are keyed as the integers 1 and 0, as Python's frozenset does.
- Records.Event.Attr, Records.PathSpec.Attr: a plain read of an attribute the event or path spec does not hold gives None, as plaso and dfvfs initialise their attributes to None in `__init__`. An attribute no `__init__` sets would raise AttributeError instead, and that case is not modelled. So `hasattr` on such an attribute is true even when it is None, which Findings rows 5 and 6 rely on.

## Findings

| source | as written | input that shows it | evidently intended | confidence | as-written member | corrected member |
|---|---|---|---|---|---|---|
| case_plaso/file_relationships.py:147-151 | `int(location[2:], 10)` is guarded by `except KeyError`, but `int` raises ValueError | a TSK partition path spec with no `part_index` and location `/px` | a suffix that is not a number leaves the index unset | high; not executed | FileRelationships.PartitionSuffixNotNumber | FileRelationships.PartitionIndexAgrees |
| case_plaso/event_exporters/skype.py:36-64 | `SkypeAccountExporter` defines `TIMESTAMP_MAP` but no `export_timestamp`, so the base class raises NotImplementedError (event_exporter.py:30-37) | any `skype:event:account` event with a string username | stamp the mapped timestamp onto the `SkypeAccount` bundle, as its table lays out | high; not executed | Exporting.SkypeAccountFailsAsWritten | Exporting.SkypeAccountCorrected |
| case_plaso/plaso_exporter.py:92-93 | `create_node('ConfigurationSetting', bnode=True, ...)` passes `bnode` as a keyword property, so every setting node gets a `bnode` triple | any session with a configuration attribute, e.g. `debug_mode` | a blank setting node with only `itemName` and `itemValue` | medium; not executed | Plaso.SettingMarkedAsWritten | Plaso.SettingUnmarked |
| case_plaso/event_exporters/skype.py:29 | `(pb, 'displayName', display_name) not in self.document` tests membership in a `case.Document`, which defines no `__contains__`, `__iter__` or `__getitem__`, so it raises TypeError | a chat event whose `from_account` is "Alice <alice1>", which gives the display name "Alice" | add the display name unless the triple is already in the graph | high; not executed | Skype.DisplayNameRaisesAsWritten | Skype.DisplayNameGuardRedundant |
| case_plaso/property_bundles.py:78-81 | `hasattr(path_spec, 'row_index')` is true for every dfvfs SQLite blob path spec, whose `__init__` sets `row_index` (to None when not given), so the `row_condition` branch is dead and `rowIndex` is written as a None literal | a SQLite blob path spec made with `row_condition` only | test `row_index is not None`, writing `rowCondition` when the index is missing | medium; not executed | PropertyBundles.SQLiteBlobConditionLostAsWritten | PropertyBundles.SQLiteBlobSpec |
| case_plaso/file_relationships.py:127-130 | the same `hasattr` test picks `rowIndex` with value None, and `add` of None writes nothing, so the blob's bundle gets neither a row index nor a condition | a SQLite blob path spec made with `row_condition` only | test `row_index is not None`, joining the condition into `rowCondition` | medium; not executed | FileRelationships.RowConditionLostAsWritten | FileRelationships.RowPropertySpec |
