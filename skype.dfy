/**
 * The Skype exporters. They share `export_account`, which gives each Skype
 * username one account trace (with an `Account` and a `DigitalAccount`
 * bundle) and records display names on the `DigitalAccount` bundle. The
 * account exporter writes the profile of an account event; the call exporter
 * links a `PhoneCall` bundle to the two accounts; the chat exporter (which
 * overrides `export_event`) writes a `Message` bundle linked to its author,
 * its recipients and its message thread, one thread per title.
 */
module Skype {
  import opened Wrappers
  import opened Python
  import opened Case
  import opened Records
  import opened EventExporters

  function P(local: string): Term { Iri(CASE, local) }

  const DigitalAccountType: Term := P("DigitalAccount")
  const MessageType: Term := P("Message")

  /** The account exporter's timestamp table; its labels go to PLASO properties. */
  const AccountTimestampMap: map<string, Name> := map[
    "Profile Changed" := Uri(PLASO, "profileChangedTime"),
    "Authenticate Request" := Uri(PLASO, "authenticateRequestTime"),
    "Last Online" := Uri(PLASO, "lastOnlineTime"),
    "Mood Event" := Uri(PLASO, "skypeMoodTime"),
    "Auth Request Sent" := Uri(PLASO, "authenticateRequestSentTime"),
    "Last Used" := Uri(PLASO, "lastUsedTime")]

  /** The call exporter's timestamp table, keyed by the event's `call_type`. */
  const CallTimestampMap: map<string, Name> := map[
    "WAITING" := Plain("createdTime"),
    "ACCEPTED" := Plain("startTime"),
    "FINISHED" := Plain("endTime")]

  const IssuerProps: seq<(string, Value)> := [("accountIssuer", Py(PyStr("Skype")))]

  // ----- export_account -----

  /** The cached (account trace, `DigitalAccount` bundle) of a username, or a new pair, cached at once. */
  function AccountEntryF(username: PyValue, s: ExportState): ((Node, Node), ExportState) {
    if username in s.caches.accounts then (s.caches.accounts[username], s)
    else
      var (account, d1) := DocNewNode(s.doc, TraceCls, None, []);
      var (_, d2) := DocCreateBundle(d1, account, Some(Plain("Account")), IssuerProps);
      var (pb, d3) := DocCreateBundle(d2, account, Some(Plain("DigitalAccount")), [("accountLogin", Py(username))]);
      ((account, pb), ExportState(s.caches.(accounts := s.caches.accounts[username := (account, pb)]), d3))
  }

  /** The triple that records a display name on a `DigitalAccount` bundle. */
  function DisplayNameTriple(pb: Node, displayName: string): Triple {
    Triple(Blank(pb.id), P("displayName"), Literal(PyStr(displayName)))
  }

  /**
   * `export_account(username, display_name)`. The display name is a string
   * here, with "" standing for the None the call exporter passes: both are
   * falsy, and a falsy display name is ignored. A truthy one is added unless
   * its triple is already in the document.
   */
  function AccountF(username: PyValue, displayName: string, s: ExportState): (Node, ExportState) {
    var (entry, s1) := AccountEntryF(username, s);
    if displayName != "" && DisplayNameTriple(entry.1, displayName) !in s1.doc.graph then
      (entry.0, ExportState(s1.caches, DocAdd(s1.doc, entry.1, Plain("displayName"), Py(PyStr(displayName)))))
    else (entry.0, s1)
  }

  // ----- the account exporter -----

  /**
   * The given and family names the account exporter reads from a username of
   * the form "{full name} <{display name}>": the text before the last space is
   * the full name, which is split at its first space.
   */
  function NameParts(username: string): (string, string) {
    var (fullName, _, _) := RPartition(username, ' ');
    var (first, _, last) := Partition(fullName, ' ');
    (first, last)
  }

  /**
   * `SkypeAccountExporter.export_event_data`: a trace with an `Account`
   * bundle, then (for a string username) `SimpleName` and `SimpleAddress`
   * bundles and the PLASO `SkypeAccount` bundle it returns. A username that is
   * not a string fails on `rpartition` after the `Account` bundle was written.
   */
  function AccountDataF(ev: Event, d: Doc): (Result<Node, PyError>, Doc) {
    var (trace, d1) := DocNewNode(d, TraceCls, None, []);
    var (_, d2) := DocCreateBundle(d1, trace, Some(Plain("Account")), IssuerProps);
    var username := ev.Attr("username");
    if !username.PyStr? then (Err(AttributeError("rpartition")), d2)
    else
      var (pb, d5) := ProfileF(trace, NameParts(username.s), ev.Attr("country"), d2);
      (Ok(pb), d5)
  }

  /** The `SimpleName`, `SimpleAddress` and PLASO `SkypeAccount` bundles of an account trace; the last is returned. */
  function ProfileF(trace: Node, names: (string, string), country: PyValue, d: Doc): (Node, Doc) {
    var (_, d1) := DocCreateBundle(d, trace, Some(Plain("SimpleName")),
                                   [("givenName", Py(PyStr(names.0))), ("familyName", Py(PyStr(names.1)))]);
    var (_, d2) := DocCreateBundle(d1, trace, Some(Plain("SimpleAddress")), [("country", Py(country))]);
    DocCreateBundle(d2, trace, Some(Uri(PLASO, "SkypeAccount")), [])
  }

  /**
   * The timestamp step of an account event as the class is written: it
   * defines no `export_timestamp`, so the base class's raises
   * NotImplementedError and the timestamp table is never read.
   */
  function AccountTimestampAsWrittenF(ev: Event, pb: Node, d: Doc): (Result<(), PyError>, Doc) {
    (Err(NotImplementedError), d)
  }

  /** The timestamp step the table evidently intends: the mapped label onto the `SkypeAccount` bundle. */
  function AccountTimestampF(ev: Event, pb: Node, d: Doc): Doc {
    StampF(AccountTimestampMap, PyStr(ev.timestampDesc), pb, ev.timestamp, d)
  }

  // ----- the call exporter -----

  /** The `callType` written for a call: OUTGOING when the user started it, INCOMING otherwise. */
  function CallType(userStartCall: PyValue): (callType: string)
    ensures callType == "OUTGOING" <==> Truthy(userStartCall)
    ensures callType == "INCOMING" <==> !Truthy(userStartCall)
  {
    if Truthy(userStartCall) then "OUTGOING" else "INCOMING"
  }

  /**
   * `SkypeCallExporter.export_event_data`: a trace with a `PhoneCall` bundle,
   * its call type, its `to` and `from` accounts (in that order), and a PLASO
   * `SkypeCall` bundle on the trace.
   */
  function CallDataF(ev: Event, s: ExportState): (Node, ExportState) {
    var (trace, d1) := DocNewNode(s.doc, TraceCls, None, []);
    var (pb, d2) := DocCreateBundle(d1, trace, Some(Plain("PhoneCall")), []);
    var d3 := DocAdd(d2, pb, Plain("callType"), Py(PyStr(CallType(ev.Attr("user_start_call")))));
    var (callee, s4) := AccountF(ev.Attr("dst_call"), "", ExportState(s.caches, d3));
    var d5 := DocAdd(s4.doc, pb, Plain("to"), Ref(callee));
    var (caller, s6) := AccountF(ev.Attr("src_call"), "", ExportState(s4.caches, d5));
    var d7 := DocAdd(s6.doc, pb, Plain("from"), Ref(caller));
    var (_, d8) := DocCreateBundle(d7, trace, Some(Uri(PLASO, "SkypeCall")), [("isVideo", Py(ev.Attr("video_conference")))]);
    (pb, ExportState(s6.caches, d8))
  }

  /** `SkypeCallExporter.export_timestamp`: the label is the event's `call_type`, not its timestamp description. */
  function CallTimestampF(ev: Event, pb: Node, d: Doc): Doc {
    StampF(CallTimestampMap, ev.Attr("call_type"), pb, ev.timestamp, d)
  }

  // ----- the chat exporter -----

  /** The (username, display name) of a `from_account` "{display name} <{username}>": split at the last space, brackets stripped. */
  function Author(fromAccount: string): (string, string) {
    var (displayName, _, bracketed) := RPartition(fromAccount, ' ');
    (StripEnds(bracketed), displayName)
  }

  /** The message thread of a title: the cached (trace, bundle) pair, or a new trace with a `MessageThread` bundle. */
  function ThreadF(title: PyValue, s: ExportState): ((Node, Node), ExportState) {
    if title in s.caches.threads then (s.caches.threads[title], s)
    else
      var (trace, d1) := DocNewNode(s.doc, TraceCls, None, []);
      var (pb, d2) := DocCreateBundle(d1, trace, Some(Plain("MessageThread")), [("displayName", Py(title))]);
      ((trace, pb), ExportState(s.caches.(threads := s.caches.threads[title := (trace, pb)]), d2))
  }

  /** The recipient loop: each non-empty piece is an account linked from the message by `to`. */
  function RecipientsF(names: seq<string>, pb: Node, s: ExportState): ExportState
    decreases |names|
  {
    if names == [] then s
    else if names[0] == "" then RecipientsF(names[1..], pb, s)
    else
      var (recipient, s1) := AccountF(PyStr(names[0]), "", s);
      RecipientsF(names[1..], pb, ExportState(s1.caches, DocAdd(s1.doc, pb, Plain("to"), Ref(recipient))))
  }

  function ChatProps(ev: Event): seq<(string, Value)> {
    [("unknownTime", Py(ConvertTimestamp(ev.timestamp))), ("messageText", Py(ev.Attr("text")))]
  }

  /**
   * `SkypeChatExporter.export_event`: a trace with a `Message` bundle, its
   * author (`from`), its recipients (`to`), and a `message` edge from its
   * thread's bundle to the trace. A `from_account` or `to_account` that is
   * not a string fails on the string method called on it.
   */
  function ChatF(ev: Event, s: ExportState): (Result<(), PyError>, ExportState) {
    var (trace, d1) := DocNewNode(s.doc, TraceCls, None, []);
    var (pb, d2) := DocCreateBundle(d1, trace, Some(Plain("Message")), ChatProps(ev));
    var fromAccount := ev.Attr("from_account");
    if !fromAccount.PyStr? then (Err(AttributeError("rpartition")), ExportState(s.caches, d2))
    else
      var (username, displayName) := Author(fromAccount.s);
      var (author, s3) := AccountF(PyStr(username), displayName, ExportState(s.caches, d2));
      var s4 := ExportState(s3.caches, DocAdd(s3.doc, pb, Plain("from"), Ref(author)));
      var toAccount := ev.Attr("to_account");
      if !toAccount.PyStr? then (Err(AttributeError("split")), s4)
      else
        var s5 := RecipientsF(Split(toAccount.s, ", "), pb, s4);
        var (thread, s6) := ThreadF(ev.Attr("title"), s5);
        (Ok(()), ExportState(s6.caches, DocAdd(s6.doc, thread.1, Plain("message"), Ref(trace))))
  }

  // ----- the operations, on the exporter object -----

  method Account(e: EventExporter, username: PyValue, displayName: string) returns (account: Node)
    modifies e, e.document
    ensures (account, e.State()) == AccountF(username, displayName, old(e.State()))
  {
    var pb: Node;
    if username in e.accounts {
      account, pb := e.accounts[username].0, e.accounts[username].1;
    } else {
      account := e.document.CreateTrace([]);
      var _ := e.document.CreatePropertyBundle(account, Some(Plain("Account")), IssuerProps);
      pb := e.document.CreatePropertyBundle(account, Some(Plain("DigitalAccount")), [("accountLogin", Py(username))]);
      e.accounts := e.accounts[username := (account, pb)];
    }
    if displayName != "" && DisplayNameTriple(pb, displayName) !in e.document.graph {
      e.document.Add(pb, Plain("displayName"), Py(PyStr(displayName)));
    }
  }

  method AccountData(doc: Document, ev: Event) returns (r: Result<Node, PyError>)
    modifies doc
    ensures (r, doc.State()) == AccountDataF(ev, old(doc.State()))
  {
    var trace := doc.CreateTrace([]);
    var _ := doc.CreatePropertyBundle(trace, Some(Plain("Account")), IssuerProps);
    var username := ev.Attr("username");
    if !username.PyStr? {
      return Err(AttributeError("rpartition"));
    }
    var pb := Profile(doc, trace, NameParts(username.s), ev.Attr("country"));
    return Ok(pb);
  }

  method Profile(doc: Document, trace: Node, names: (string, string), country: PyValue) returns (pb: Node)
    requires IsUcoObject(trace.cls)
    modifies doc
    ensures (pb, doc.State()) == ProfileF(trace, names, country, old(doc.State()))
  {
    var _ := doc.CreatePropertyBundle(trace, Some(Plain("SimpleName")),
                                      [("givenName", Py(PyStr(names.0))), ("familyName", Py(PyStr(names.1)))]);
    var _ := doc.CreatePropertyBundle(trace, Some(Plain("SimpleAddress")), [("country", Py(country))]);
    pb := doc.CreatePropertyBundle(trace, Some(Uri(PLASO, "SkypeAccount")), []);
  }

  method AccountTimestamp(doc: Document, ev: Event, pb: Node)
    modifies doc
    ensures doc.State() == AccountTimestampF(ev, pb, old(doc.State()))
  {
    Stamp(doc, AccountTimestampMap, PyStr(ev.timestampDesc), pb, ev.timestamp);
  }

  method CallData(e: EventExporter, ev: Event) returns (pb: Node)
    modifies e, e.document
    ensures (pb, e.State()) == CallDataF(ev, old(e.State()))
  {
    var trace := e.document.CreateTrace([]);
    pb := e.document.CreatePropertyBundle(trace, Some(Plain("PhoneCall")), []);
    e.document.Add(pb, Plain("callType"), Py(PyStr(CallType(ev.Attr("user_start_call")))));
    var callee := Account(e, ev.Attr("dst_call"), "");
    e.document.Add(pb, Plain("to"), Ref(callee));
    var caller := Account(e, ev.Attr("src_call"), "");
    e.document.Add(pb, Plain("from"), Ref(caller));
    var _ := e.document.CreatePropertyBundle(trace, Some(Uri(PLASO, "SkypeCall")), [("isVideo", Py(ev.Attr("video_conference")))]);
  }

  method CallTimestamp(doc: Document, ev: Event, pb: Node)
    modifies doc
    ensures doc.State() == CallTimestampF(ev, pb, old(doc.State()))
  {
    Stamp(doc, CallTimestampMap, ev.Attr("call_type"), pb, ev.timestamp);
  }

  /** `export_message_thread(title)`. */
  method Thread(e: EventExporter, title: PyValue) returns (thread: (Node, Node))
    modifies e, e.document
    ensures (thread, e.State()) == ThreadF(title, old(e.State()))
  {
    if title in e.threads {
      return e.threads[title];
    }
    var trace := e.document.CreateTrace([]);
    var pb := e.document.CreatePropertyBundle(trace, Some(Plain("MessageThread")), [("displayName", Py(title))]);
    thread := (trace, pb);
    e.threads := e.threads[title := thread];
  }

  /** The loop over the pieces of `to_account`. */
  method Recipients(e: EventExporter, names: seq<string>, pb: Node)
    modifies e, e.document
    ensures e.State() == RecipientsF(names, pb, old(e.State()))
  {
    var i := 0;
    while i < |names|
      invariant 0 <= i <= |names|
      invariant RecipientsF(names[i..], pb, e.State()) == RecipientsF(names, pb, old(e.State()))
    {
      assert names[i..][1..] == names[i + 1..];
      if names[i] != "" {
        var recipient := Account(e, PyStr(names[i]), "");
        e.document.Add(pb, Plain("to"), Ref(recipient));
      }
      i := i + 1;
    }
  }

  method Chat(e: EventExporter, ev: Event) returns (r: Result<(), PyError>)
    modifies e, e.document
    ensures (r, e.State()) == ChatF(ev, old(e.State()))
  {
    var trace := e.document.CreateTrace([]);
    var pb := e.document.CreatePropertyBundle(trace, Some(Plain("Message")), ChatProps(ev));
    var fromAccount := ev.Attr("from_account");
    if !fromAccount.PyStr? {
      return Err(AttributeError("rpartition"));
    }
    var (username, displayName) := Author(fromAccount.s);
    var author := Account(e, PyStr(username), displayName);
    e.document.Add(pb, Plain("from"), Ref(author));
    var toAccount := ev.Attr("to_account");
    if !toAccount.PyStr? {
      return Err(AttributeError("split"));
    }
    Recipients(e, Split(toAccount.s, ", "), pb);
    var thread := Thread(e, ev.Attr("title"));
    e.document.Add(thread.1, Plain("message"), Ref(trace));
    return Ok(());
  }

  // ----- properties -----

  /**
   * `s'` only adds to the document of `s`, keeps every account and thread `s`
   * had cached, and leaves the caches of the other exporters alone.
   */
  ghost predicate Grows(s: ExportState, s': ExportState) {
    && s.doc.graph <= s'.doc.graph && s.doc.next <= s'.doc.next
    && s'.caches.elements == s.caches.elements && s'.caches.pathSpecs == s.caches.pathSpecs
    && s'.caches.callContacts == s.caches.callContacts && s'.caches.smsContacts == s.caches.smsContacts
    && (forall k :: k in s.caches.accounts ==> k in s'.caches.accounts && s'.caches.accounts[k] == s.caches.accounts[k])
    && (forall k :: k in s.caches.threads ==> k in s'.caches.threads && s'.caches.threads[k] == s.caches.threads[k])
  }

  lemma GrowsTrans(s1: ExportState, s2: ExportState, s3: ExportState)
    requires Grows(s1, s2) && Grows(s2, s3)
    ensures Grows(s1, s3)
  {
  }

  /**
   * A username gets its account trace and bundles only the first time: a
   * cached username changes nothing, a new one creates one trace with one
   * new `DigitalAccount` bundle and caches the pair.
   */
  lemma AccountEntrySpec(username: PyValue, s: ExportState)
    requires Sound(s)
    ensures var (entry, s1) := AccountEntryF(username, s);
            && Sound(s1) && Grows(s, s1)
            && s1.caches == s.caches.(accounts := s.caches.accounts[username := entry])
            && (username in s.caches.accounts ==> s1 == s)
            && (username !in s.caches.accounts ==>
                  && entry == (Node(s.doc.next, TraceCls), Node(s.doc.next + 2, PropertyBundleCls))
                  && s1.doc.next == s.doc.next + 3
                  && Typed(s1.doc.graph, DigitalAccountType) == Typed(s.doc.graph, DigitalAccountType) + {Blank(s.doc.next + 2)})
  {
    if username !in s.caches.accounts {
      AccountNew(username, s);
    }
  }

  /** A username not seen before: one new account, cached, and the document only grows. */
  lemma AccountNew(username: PyValue, s: ExportState)
    requires Sound(s) && username !in s.caches.accounts
    ensures var (entry, s1) := AccountEntryF(username, s);
            && Sound(s1) && Grows(s, s1)
            && s1.caches == s.caches.(accounts := s.caches.accounts[username := entry])
            && entry == (Node(s.doc.next, TraceCls), Node(s.doc.next + 2, PropertyBundleCls))
            && s1.doc.next == s.doc.next + 3
            && Typed(s1.doc.graph, DigitalAccountType) == Typed(s.doc.graph, DigitalAccountType) + {Blank(s.doc.next + 2)}
  {
    hide DocNewNode, DocCreateBundle;
    var (entry, s1) := AccountEntryF(username, s);
    NewAccountDoc(username, s.doc);
    CacheAccount(s.caches, username, entry, s.doc.next, s1.doc.next);
    GrowsByAccount(s, s1, username, entry);
  }

  /** Caching an account made of nodes below the bound keeps the caches below it. */
  lemma CacheAccount(c: ExporterCaches, u: PyValue, entry: (Node, Node), lo: nat, hi: nat)
    requires CachesBelow(c, lo) && lo <= hi && entry.0.id < hi && entry.1.id < hi
    ensures CachesBelow(c.(accounts := c.accounts[u := entry]), hi)
  {
    CachesBelowMono(c, lo, hi);
  }

  lemma CacheThread(c: ExporterCaches, title: PyValue, entry: (Node, Node), lo: nat, hi: nat)
    requires CachesBelow(c, lo) && lo <= hi && entry.0.id < hi && entry.1.id < hi
    ensures CachesBelow(c.(threads := c.threads[title := entry]), hi)
  {
    CachesBelowMono(c, lo, hi);
  }

  /** A state whose caches differ only by a new account entry grows from the old one. */
  lemma GrowsByAccount(s: ExportState, s1: ExportState, u: PyValue, entry: (Node, Node))
    requires s.doc.graph <= s1.doc.graph && s.doc.next <= s1.doc.next
    requires u !in s.caches.accounts && s1.caches == s.caches.(accounts := s.caches.accounts[u := entry])
    ensures Grows(s, s1)
  {
  }

  /** A state whose caches differ only by a new thread entry grows from the old one. */
  lemma GrowsByThread(s: ExportState, s1: ExportState, title: PyValue, entry: (Node, Node))
    requires s.doc.graph <= s1.doc.graph && s.doc.next <= s1.doc.next
    requires title !in s.caches.threads && s1.caches == s.caches.(threads := s.caches.threads[title := entry])
    ensures Grows(s, s1)
  {
  }

  /** The triples of a new account: a trace and its two bundles, the second one the only new `DigitalAccount`. */
  lemma NewAccountDoc(username: PyValue, d: Doc)
    requires WellFormed(d)
    ensures var (account, d1) := DocNewNode(d, TraceCls, None, []);
            var (_, d2) := DocCreateBundle(d1, account, Some(Plain("Account")), IssuerProps);
            var (pb, d3) := DocCreateBundle(d2, account, Some(Plain("DigitalAccount")), [("accountLogin", Py(username))]);
            && account == Node(d.next, TraceCls) && pb == Node(d.next + 2, PropertyBundleCls)
            && WellFormed(d3) && d.graph <= d3.graph && d3.next == d.next + 3
            && Typed(d3.graph, DigitalAccountType) == Typed(d.graph, DigitalAccountType) + {Blank(d.next + 2)}
  {
    hide DocNewNode, DocCreateBundle;
    var (account, d1) := DocNewNode(d, TraceCls, None, []);
    var (_, d2) := DocCreateBundle(d1, account, Some(Plain("Account")), IssuerProps);
    AccountTraceDoc(d);
    AccountLoginDoc(username, account, d2);
  }

  /** The account's trace and its `Account` bundle, neither of them a `DigitalAccount`. */
  lemma AccountTraceDoc(d: Doc)
    requires WellFormed(d)
    ensures var (account, d1) := DocNewNode(d, TraceCls, None, []);
            var (_, d2) := DocCreateBundle(d1, account, Some(Plain("Account")), IssuerProps);
            && account == Node(d.next, TraceCls)
            && WellFormed(d2) && d.graph <= d2.graph && d2.next == d.next + 2
            && Typed(d2.graph, DigitalAccountType) == Typed(d.graph, DigitalAccountType)
  {
    var (account, d1) := DocNewNode(d, TraceCls, None, []);
    NewNodeSpec(d, TraceCls, None, []);
    TypedNewNode(d, TraceCls, None, [], DigitalAccountType);
    BundleHasOneOwner(d1, account, Some(Plain("Account")), IssuerProps);
    TypedCreateBundle(d1, account, Some(Plain("Account")), IssuerProps, DigitalAccountType);
  }

  /** The `DigitalAccount` bundle with the login: the only new `DigitalAccount`. */
  lemma AccountLoginDoc(username: PyValue, account: Node, d: Doc)
    requires WellFormed(d) && account.id < d.next
    ensures var (pb, d') := DocCreateBundle(d, account, Some(Plain("DigitalAccount")), [("accountLogin", Py(username))]);
            && pb == Node(d.next, PropertyBundleCls)
            && WellFormed(d') && d.graph <= d'.graph && d'.next == d.next + 1
            && Typed(d'.graph, DigitalAccountType) == Typed(d.graph, DigitalAccountType) + {Blank(d.next)}
  {
    var props := [("accountLogin", Py(username))];
    BundleHasOneOwner(d, account, Some(Plain("DigitalAccount")), props);
    TypedCreateBundle(d, account, Some(Plain("DigitalAccount")), props, DigitalAccountType);
  }


  /**
   * `export_account` returns the account cached for the username, caching it
   * on first use, and leaves the display name recorded on its
   * `DigitalAccount` bundle whenever one is given. Calling it again with the
   * same arguments changes nothing.
   */
  lemma AccountOnce(username: PyValue, displayName: string, s: ExportState)
    requires Sound(s)
    ensures var (account, s') := AccountF(username, displayName, s);
            && Sound(s') && Grows(s, s')
            && username in s'.caches.accounts && s'.caches.accounts[username].0 == account
            && s'.caches == s.caches.(accounts := s.caches.accounts[username := s'.caches.accounts[username]])
            && (username in s.caches.accounts ==> s'.caches == s.caches && s'.doc.next == s.doc.next)
            && (username !in s.caches.accounts ==> account == Node(s.doc.next, TraceCls))
            && (displayName != "" ==> DisplayNameTriple(s'.caches.accounts[username].1, displayName) in s'.doc.graph)
            && (forall ty :: Typed(s'.doc.graph, ty) == Typed(AccountEntryF(username, s).1.doc.graph, ty))
            && AccountF(username, displayName, s') == (account, s')
  {
    var (entry, s1) := AccountEntryF(username, s);
    AccountEntrySpec(username, s);
    var v := Py(PyStr(displayName));
    if displayName != "" && DisplayNameTriple(entry.1, displayName) !in s1.doc.graph {
      var d2 := DocAdd(s1.doc, entry.1, Plain("displayName"), v);
      assert d2.graph == s1.doc.graph + {DisplayNameTriple(entry.1, displayName)};
      AddKeepsWellFormed(s1.doc, entry.1, Plain("displayName"), v);
      forall ty ensures Typed(d2.graph, ty) == Typed(s1.doc.graph, ty) {
        TypedAdd(s1.doc, entry.1, Plain("displayName"), v, ty);
      }
    }
  }

  /**
   * The membership test before adding a display name only spares re-adding
   * a triple the document already has: the document ends up the same as if
   * the display name were added unconditionally whenever it is truthy.
   */
  lemma DisplayNameGuardRedundant(username: PyValue, displayName: string, s: ExportState)
    ensures var (entry, s1) := AccountEntryF(username, s);
            AccountF(username, displayName, s).1.doc.graph
            == s1.doc.graph + (if displayName != "" then {DisplayNameTriple(entry.1, displayName)} else {})
  {
    var (entry, s1) := AccountEntryF(username, s);
    if displayName != "" {
      assert DocAdd(s1.doc, entry.1, Plain("displayName"), Py(PyStr(displayName))).graph
             == s1.doc.graph + {DisplayNameTriple(entry.1, displayName)};
    } else {
      var none: set<Triple> := {};
      assert s1.doc.graph + none == s1.doc.graph;
    }
  }

  /**
   * `export_account` as written. `Document` defines no `__contains__`,
   * `__iter__` or `__getitem__`, so the test whether the display-name triple
   * is "in" the document raises TypeError as soon as a display name is
   * given, after the account has been created and cached.
   */
  function AccountAsWrittenF(username: PyValue, displayName: string, s: ExportState): (Result<Node, PyError>, ExportState) {
    var (entry, s1) := AccountEntryF(username, s);
    if displayName != "" then (Err(TypeError("in")), s1) else (Ok(entry.0), s1)
  }

  /**
   * As written, every truthy display name (the chat author's, for one) makes
   * `export_account` raise, with the account cached but no display name
   * recorded; the membership test evidently meant "unless the triple is
   * already in the graph", which the model's `AccountF` does, recording the
   * display name.
   */
  lemma DisplayNameRaisesAsWritten(username: PyValue, displayName: string, s: ExportState)
    requires Sound(s) && displayName != ""
    ensures var (r, s') := AccountAsWrittenF(username, displayName, s);
            && r == Err(TypeError("in"))
            && s' == AccountEntryF(username, s).1
            && username in s'.caches.accounts
            && s'.caches == AccountF(username, displayName, s).1.caches
            && DisplayNameTriple(s'.caches.accounts[username].1, displayName)
               in AccountF(username, displayName, s).1.doc.graph
  {
    AccountOnce(username, displayName, s);
  }

  /**
   * The account exporter reads the given name as the first word and the
   * family name as the rest of the full name, where the full name is
   * everything before the final space-free token: "{first} {last} <{display}>"
   * gives (first, last). A username without a space gives two empty names.
   */
  lemma NamePartsSpec(first: string, last: string, display: string)
    requires ' ' !in first && ' ' !in display
    ensures NameParts(first + " " + last + " " + display) == (first, last)
  {
    assert first + " " + last + " " + display == (first + [' '] + last) + [' '] + display;
    RPartitionAt(first + [' '] + last, ' ', display);
    PartitionAt(first, ' ', last);
  }

  lemma NamePartsNoSpace(username: string)
    requires ' ' !in username
    ensures NameParts(username) == ("", "")
  {
    RPartitionSpec(username, ' ');
  }

  /** `from_account` "{display name} <{username}>", with a space-free username, gives back both parts. */
  lemma AuthorRoundTrip(displayName: string, username: string)
    requires ' ' !in username
    ensures Author(displayName + " <" + username + ">") == (username, displayName)
  {
    var bracketed := "<" + username + ">";
    assert displayName + " <" + username + ">" == displayName + [' '] + bracketed;
    RPartitionAt(displayName, ' ', bracketed);
    assert bracketed[1..|bracketed| - 1] == username;
  }

  /**
   * The profile of an account event: it fails exactly when the username is
   * not a string, after writing the trace and its `Account` bundle; otherwise
   * it returns a fresh PLASO `SkypeAccount` bundle owned by the new trace
   * alone, and the trace's `SimpleName` bundle holds the parsed names.
   */
  lemma AccountDataSpec(ev: Event, d: Doc)
    requires WellFormed(d)
    ensures var (r, d') := AccountDataF(ev, d);
            var username := ev.Attr("username");
            && WellFormed(d') && d.graph <= d'.graph
            && (r.Ok? <==> username.PyStr?)
            && (r.Err? ==> r.error == AttributeError("rpartition") && d'.next == d.next + 2)
            && (r.Ok? ==>
                  && r.value == Node(d.next + 4, PropertyBundleCls)
                  && TypesOf(d'.graph, Blank(r.value.id)) == {Iri(PLASO, "SkypeAccount")}
                  && Owners(d'.graph, Blank(r.value.id)) == {Blank(d.next)}
                  && Triple(Blank(d.next + 2), P("givenName"), Literal(PyStr(NameParts(username.s).0))) in d'.graph
                  && Triple(Blank(d.next + 2), P("familyName"), Literal(PyStr(NameParts(username.s).1))) in d'.graph)
  {
    var (trace, d1) := DocNewNode(d, TraceCls, None, []);
    var (_, d2) := DocCreateBundle(d1, trace, Some(Plain("Account")), IssuerProps);
    AccountTrace(d);
    var username := ev.Attr("username");
    if username.PyStr? {
      ProfileBundles(trace, NameParts(username.s), ev.Attr("country"), d2);
      var (pb, d5) := ProfileF(trace, NameParts(username.s), ev.Attr("country"), d2);
      assert AccountDataF(ev, d) == (Ok(pb), d5);
    } else {
      assert AccountDataF(ev, d) == (Err(AttributeError("rpartition")), d2);
    }
  }

  /** The trace of an account event and its `Account` bundle. */
  lemma AccountTrace(d: Doc)
    requires WellFormed(d)
    ensures var (trace, d1) := DocNewNode(d, TraceCls, None, []);
            var (_, d2) := DocCreateBundle(d1, trace, Some(Plain("Account")), IssuerProps);
            && trace == Node(d.next, TraceCls) && WellFormed(d2) && d.graph <= d2.graph && d2.next == d.next + 2
  {
    var (trace, d1) := DocNewNode(d, TraceCls, None, []);
    NewNodeSpec(d, TraceCls, None, []);
    BundleHasOneOwner(d1, trace, Some(Plain("Account")), IssuerProps);
  }

  /** The three bundles written onto the account trace once the username is parsed. */
  lemma ProfileBundles(trace: Node, names: (string, string), country: PyValue, d2: Doc)
    requires WellFormed(d2) && trace.id < d2.next
    ensures var (pb, d5) := ProfileF(trace, names, country, d2);
            && WellFormed(d5) && d2.graph <= d5.graph
            && pb == Node(d2.next + 2, PropertyBundleCls)
            && TypesOf(d5.graph, Blank(pb.id)) == {Iri(PLASO, "SkypeAccount")}
            && Owners(d5.graph, Blank(pb.id)) == {Blank(trace.id)}
            && Triple(Blank(d2.next), P("givenName"), Literal(PyStr(names.0))) in d5.graph
            && Triple(Blank(d2.next), P("familyName"), Literal(PyStr(names.1))) in d5.graph
  {
    var nameProps := [("givenName", Py(PyStr(names.0))), ("familyName", Py(PyStr(names.1)))];
    var (_, d3) := DocCreateBundle(d2, trace, Some(Plain("SimpleName")), nameProps);
    BundleHasOneOwner(d2, trace, Some(Plain("SimpleName")), nameProps);
    PropInTriples(Blank(d2.next), nameProps, 0);
    PropInTriples(Blank(d2.next), nameProps, 1);
    var (_, d4) := DocCreateBundle(d3, trace, Some(Plain("SimpleAddress")), [("country", Py(country))]);
    BundleHasOneOwner(d3, trace, Some(Plain("SimpleAddress")), [("country", Py(country))]);
    BundleHasOneOwner(d4, trace, Some(Uri(PLASO, "SkypeAccount")), []);
  }

  /** The intended account timestamps: each label of the table adds one PLASO timestamp; any other adds nothing. */
  lemma AccountTimestampSpec(ev: Event, pb: Node, d: Doc)
    ensures var d' := AccountTimestampF(ev, pb, d);
            && d'.next == d.next
            && (ev.timestampDesc in AccountTimestampMap ==>
                  d'.graph == d.graph + {Triple(Blank(pb.id), Iri(PLASO, AccountTimestampMap[ev.timestampDesc].local), Literal(PyDateTime(ev.timestamp)))})
            && (ev.timestampDesc !in AccountTimestampMap ==> d' == d)
  {
    StampSpec(AccountTimestampMap, PyStr(ev.timestampDesc), pb, ev.timestamp, d);
  }

  /**
   * The call timestamps are labelled by `call_type`: WAITING, ACCEPTED and
   * FINISHED give `createdTime`, `startTime` and `endTime`; any other call
   * type, or none, adds nothing, whatever the timestamp description says.
   */
  lemma CallTimestampSpec(ev: Event, pb: Node, d: Doc)
    ensures var d' := CallTimestampF(ev, pb, d);
            var stamp := Literal(PyDateTime(ev.timestamp));
            && d'.next == d.next
            && (ev.Attr("call_type") == PyStr("WAITING") ==> d'.graph == d.graph + {Triple(Blank(pb.id), P("createdTime"), stamp)})
            && (ev.Attr("call_type") == PyStr("ACCEPTED") ==> d'.graph == d.graph + {Triple(Blank(pb.id), P("startTime"), stamp)})
            && (ev.Attr("call_type") == PyStr("FINISHED") ==> d'.graph == d.graph + {Triple(Blank(pb.id), P("endTime"), stamp)})
            && (ev.Attr("call_type") !in {PyStr("WAITING"), PyStr("ACCEPTED"), PyStr("FINISHED")} ==> d' == d)
  {
    StampSpec(CallTimestampMap, ev.Attr("call_type"), pb, ev.timestamp, d);
  }

  /** Linking an existing bundle to an existing node keeps the state sound, and only adds the edge. */
  lemma AddEdge(s: ExportState, pb: Node, name: string, n: Node)
    requires Sound(s) && pb.id < s.doc.next && n.id < s.doc.next
    ensures var s' := ExportState(s.caches, DocAdd(s.doc, pb, Plain(name), Ref(n)));
            && Sound(s') && Grows(s, s')
            && s'.doc.graph == s.doc.graph + {Triple(Blank(pb.id), P(name), Blank(n.id))}
  {
    AddKeepsWellFormed(s.doc, pb, Plain(name), Ref(n));
  }

  /** The trace and `PhoneCall` bundle of a call, with its call type. */
  lemma CallBundle(ev: Event, d: Doc)
    requires WellFormed(d)
    ensures var (trace, d1) := DocNewNode(d, TraceCls, None, []);
            var (pb, d2) := DocCreateBundle(d1, trace, Some(Plain("PhoneCall")), []);
            var d3 := DocAdd(d2, pb, Plain("callType"), Py(PyStr(CallType(ev.Attr("user_start_call")))));
            && trace == Node(d.next, TraceCls) && pb == Node(d.next + 1, PropertyBundleCls)
            && WellFormed(d3) && d.graph <= d3.graph && d3.next == d.next + 2
            && Triple(Blank(pb.id), P("callType"), Literal(PyStr(CallType(ev.Attr("user_start_call"))))) in d3.graph
  {
    var (trace, d1) := DocNewNode(d, TraceCls, None, []);
    NewNodeSpec(d, TraceCls, None, []);
    var (pb, d2) := DocCreateBundle(d1, trace, Some(Plain("PhoneCall")), []);
    BundleHasOneOwner(d1, trace, Some(Plain("PhoneCall")), []);
    AddKeepsWellFormed(d2, pb, Plain("callType"), Py(PyStr(CallType(ev.Attr("user_start_call")))));
  }

  /**
   * A call is a new `PhoneCall` bundle with its call type, a `to` edge to the
   * account of `dst_call` and a `from` edge to the account of `src_call`,
   * both accounts cached (the same one when the two are equal), and no
   * earlier account or thread changed.
   */
  lemma CallDataSpec(ev: Event, s: ExportState)
    requires Sound(s)
    ensures var (pb, s') := CallDataF(ev, s);
            var x := Blank(pb.id);
            var callee, caller := ev.Attr("dst_call"), ev.Attr("src_call");
            && Sound(s') && Grows(s, s')
            && pb == Node(s.doc.next + 1, PropertyBundleCls)
            && Triple(x, P("callType"), Literal(PyStr(CallType(ev.Attr("user_start_call"))))) in s'.doc.graph
            && callee in s'.caches.accounts && caller in s'.caches.accounts
            && Triple(x, P("to"), Blank(s'.caches.accounts[callee].0.id)) in s'.doc.graph
            && Triple(x, P("from"), Blank(s'.caches.accounts[caller].0.id)) in s'.doc.graph
  {
    hide AccountF, DocNewNode, DocCreateBundle, DocAdd;
    var (trace, d1) := DocNewNode(s.doc, TraceCls, None, []);
    var (pb, d2) := DocCreateBundle(d1, trace, Some(Plain("PhoneCall")), []);
    var d3 := DocAdd(d2, pb, Plain("callType"), Py(PyStr(CallType(ev.Attr("user_start_call")))));
    CallBundle(ev, s.doc);
    var s3 := ExportState(s.caches, d3);
    CachesBelowMono(s.caches, s.doc.next, d3.next);
    assert Grows(s, s3);
    var (callee, s4) := AccountF(ev.Attr("dst_call"), "", s3);
    var s5 := ExportState(s4.caches, DocAdd(s4.doc, pb, Plain("to"), Ref(callee)));
    CallParty(s3, pb, "to", ev.Attr("dst_call"));
    var (caller, s6) := AccountF(ev.Attr("src_call"), "", s5);
    var s7 := ExportState(s6.caches, DocAdd(s6.doc, pb, Plain("from"), Ref(caller)));
    CallParty(s5, pb, "from", ev.Attr("src_call"));
    GrowsTrans(s3, s5, s7);
    GrowsTrans(s, s3, s7);
    var video := [("isVideo", Py(ev.Attr("video_conference")))];
    var (_, d8) := DocCreateBundle(s7.doc, trace, Some(Uri(PLASO, "SkypeCall")), video);
    VideoBundle(s7, trace, video);
    GrowsTrans(s, s7, ExportState(s7.caches, d8));
    assert CallDataF(ev, s) == (pb, ExportState(s7.caches, d8));
  }

  /** One party of a call: the account of `username`, linked from the `PhoneCall` bundle by `name`. */
  lemma CallParty(s: ExportState, pb: Node, name: string, username: PyValue)
    requires Sound(s) && pb.id < s.doc.next
    ensures var (n, s1) := AccountF(username, "", s);
            var s' := ExportState(s1.caches, DocAdd(s1.doc, pb, Plain(name), Ref(n)));
            && Sound(s') && Grows(s, s') && pb.id < s'.doc.next
            && username in s'.caches.accounts && s'.caches.accounts[username].0 == n
            && Triple(Blank(pb.id), P(name), Blank(n.id)) in s'.doc.graph
  {
    var (n, s1) := AccountF(username, "", s);
    AccountOnce(username, "", s);
    AddEdge(s1, pb, name, n);
    GrowsTrans(s, s1, ExportState(s1.caches, DocAdd(s1.doc, pb, Plain(name), Ref(n))));
  }

  /** The `SkypeCall` bundle of the trace only adds to the document. */
  lemma VideoBundle(s: ExportState, trace: Node, video: seq<(string, Value)>)
    requires Sound(s) && trace.id < s.doc.next && PropsBelow(video, s.doc.next)
    ensures var (_, d') := DocCreateBundle(s.doc, trace, Some(Uri(PLASO, "SkypeCall")), video);
            Sound(ExportState(s.caches, d')) && Grows(s, ExportState(s.caches, d'))
  {
    var (_, d') := DocCreateBundle(s.doc, trace, Some(Uri(PLASO, "SkypeCall")), video);
    BundleHasOneOwner(s.doc, trace, Some(Uri(PLASO, "SkypeCall")), video);
    CreateBundleExtends(s.doc, trace, Some(Uri(PLASO, "SkypeCall")), video, 0);
    CachesBelowMono(s.caches, s.doc.next, d'.next);
  }


  /**
   * A title gets its message thread only the first time: a cached title
   * changes nothing, a new one creates one trace with one new
   * `MessageThread` bundle, and the title is answered from the cache from then on.
   */
  lemma ThreadOnce(title: PyValue, s: ExportState)
    requires Sound(s)
    ensures var (thread, s') := ThreadF(title, s);
            && Sound(s') && Grows(s, s')
            && s'.caches == s.caches.(threads := s.caches.threads[title := thread])
            && ThreadF(title, s') == (thread, s')
            && (title in s.caches.threads ==> s' == s)
            && (title !in s.caches.threads ==>
                  && thread == (Node(s.doc.next, TraceCls), Node(s.doc.next + 1, PropertyBundleCls))
                  && Typed(s'.doc.graph, P("MessageThread")) == Typed(s.doc.graph, P("MessageThread")) + {Blank(s.doc.next + 1)})
  {
    if title !in s.caches.threads {
      ThreadNew(title, s);
    }
  }

  /** A title not seen before: one new thread, cached, and the document only grows. */
  lemma ThreadNew(title: PyValue, s: ExportState)
    requires Sound(s) && title !in s.caches.threads
    ensures var (thread, s') := ThreadF(title, s);
            && Sound(s') && Grows(s, s')
            && s'.caches == s.caches.(threads := s.caches.threads[title := thread])
            && thread == (Node(s.doc.next, TraceCls), Node(s.doc.next + 1, PropertyBundleCls))
            && Typed(s'.doc.graph, P("MessageThread")) == Typed(s.doc.graph, P("MessageThread")) + {Blank(s.doc.next + 1)}
  {
    hide DocNewNode, DocCreateBundle;
    var (thread, s1) := ThreadF(title, s);
    NewThreadDoc(title, s.doc);
    CacheThread(s.caches, title, thread, s.doc.next, s1.doc.next);
    GrowsByThread(s, s1, title, thread);
  }

  /** The triples of a new thread: a trace and its bundle, the only new `MessageThread`. */
  lemma NewThreadDoc(title: PyValue, d: Doc)
    requires WellFormed(d)
    ensures var (trace, d1) := DocNewNode(d, TraceCls, None, []);
            var (pb, d2) := DocCreateBundle(d1, trace, Some(Plain("MessageThread")), [("displayName", Py(title))]);
            && trace == Node(d.next, TraceCls) && pb == Node(d.next + 1, PropertyBundleCls)
            && WellFormed(d2) && d.graph <= d2.graph && d2.next == d.next + 2
            && Typed(d2.graph, P("MessageThread")) == Typed(d.graph, P("MessageThread")) + {Blank(d.next + 1)}
  {
    var props := [("displayName", Py(title))];
    var (trace, d1) := DocNewNode(d, TraceCls, None, []);
    NewNodeSpec(d, TraceCls, None, []);
    TypedNewNode(d, TraceCls, None, [], P("MessageThread"));
    BundleHasOneOwner(d1, trace, Some(Plain("MessageThread")), props);
    TypedCreateBundle(d1, trace, Some(Plain("MessageThread")), props, P("MessageThread"));
  }

  /** The pieces that are not empty, in order. */
  function NonEmpty(names: seq<string>): (r: seq<string>)
    ensures forall i :: 0 <= i < |r| ==> r[i] != ""
    ensures forall p :: p in r <==> p in names && p != ""
  {
    if names == [] then []
    else (if names[0] == "" then [] else [names[0]]) + NonEmpty(names[1..])
  }

  /** The recipient loop skips the empty pieces a split leaves: it does the same as a loop over the non-empty ones. */
  lemma {:induction false} RecipientsSkipEmpty(names: seq<string>, pb: Node, s: ExportState)
    ensures RecipientsF(names, pb, s) == RecipientsF(NonEmpty(names), pb, s)
    decreases |names|
  {
    if names != [] {
      if names[0] == "" {
        RecipientsSkipEmpty(names[1..], pb, s);
        assert NonEmpty(names) == [] + NonEmpty(names[1..]) == NonEmpty(names[1..]);
      } else {
        var (recipient, s1) := AccountF(PyStr(names[0]), "", s);
        var s2 := ExportState(s1.caches, DocAdd(s1.doc, pb, Plain("to"), Ref(recipient)));
        RecipientsSkipEmpty(names[1..], pb, s2);
        var r := NonEmpty(names);
        assert r == [names[0]] + NonEmpty(names[1..]);
        assert r != [] && r[0] == names[0] && r[1..] == NonEmpty(names[1..]);
      }
    }
  }

  /**
   * Every non-empty piece ends up with a cached account and a `to` edge from
   * the message bundle to it; nothing cached before changes.
   */
  lemma {:induction false} RecipientsSpec(names: seq<string>, pb: Node, s: ExportState)
    requires Sound(s) && pb.id < s.doc.next
    ensures var s' := RecipientsF(names, pb, s);
            && Sound(s') && Grows(s, s')
            && forall i :: 0 <= i < |names| && names[i] != "" ==>
                 && PyStr(names[i]) in s'.caches.accounts
                 && Triple(Blank(pb.id), P("to"), Blank(s'.caches.accounts[PyStr(names[i])].0.id)) in s'.doc.graph
    decreases |names|
  {
    hide AccountF, DocAdd;
    if names != [] {
      var s2 := s;
      if names[0] != "" {
        var (recipient, s1) := AccountF(PyStr(names[0]), "", s);
        AccountOnce(PyStr(names[0]), "", s);
        s2 := ExportState(s1.caches, DocAdd(s1.doc, pb, Plain("to"), Ref(recipient)));
        AddEdge(s1, pb, "to", recipient);
        GrowsTrans(s, s1, s2);
      }
      assert RecipientsF(names, pb, s) == RecipientsF(names[1..], pb, s2);
      RecipientsSpec(names[1..], pb, s2);
      GrowsTrans(s, s2, RecipientsF(names[1..], pb, s2));
      forall i | 1 <= i < |names| ensures names[i] == names[1..][i - 1] {
      }
    }
  }

  /** The trace and `Message` bundle of a chat message. */
  lemma ChatMessage(ev: Event, d: Doc)
    requires WellFormed(d)
    ensures var (trace, d1) := DocNewNode(d, TraceCls, None, []);
            var (pb, d2) := DocCreateBundle(d1, trace, Some(Plain("Message")), ChatProps(ev));
            && trace == Node(d.next, TraceCls) && pb == Node(d.next + 1, PropertyBundleCls)
            && WellFormed(d2) && d.graph <= d2.graph && d2.next == d.next + 2
  {
    var (trace, d1) := DocNewNode(d, TraceCls, None, []);
    NewNodeSpec(d, TraceCls, None, []);
    BundleHasOneOwner(d1, trace, Some(Plain("Message")), ChatProps(ev));
  }

  /**
   * A chat message fails exactly when `from_account` or `to_account` is not a
   * string. Its author is the account of the username in `from_account`,
   * linked by `from` and given the display name found there; when it
   * succeeds, every non-empty piece of `to_account` is an account linked by
   * `to`, and the thread of the title links to the message's trace by
   * `message`. No earlier account or thread changes.
   */
  lemma ChatSpec(ev: Event, s: ExportState)
    requires Sound(s)
    ensures var (r, s') := ChatF(ev, s);
            var fromAccount, toAccount, title := ev.Attr("from_account"), ev.Attr("to_account"), ev.Attr("title");
            var x := Blank(s.doc.next + 1);
            && Sound(s') && Grows(s, s')
            && (r.Ok? <==> fromAccount.PyStr? && toAccount.PyStr?)
            && (!fromAccount.PyStr? ==> r == Err(AttributeError("rpartition")))
            && (fromAccount.PyStr? && !toAccount.PyStr? ==> r == Err(AttributeError("split")))
            && (fromAccount.PyStr? ==>
                  var author := Author(fromAccount.s);
                  && PyStr(author.0) in s'.caches.accounts
                  && Triple(x, P("from"), Blank(s'.caches.accounts[PyStr(author.0)].0.id)) in s'.doc.graph
                  && (author.1 != "" ==> DisplayNameTriple(s'.caches.accounts[PyStr(author.0)].1, author.1) in s'.doc.graph))
            && (r.Ok? ==>
                  var pieces := Split(toAccount.s, ", ");
                  && (forall i :: 0 <= i < |pieces| && pieces[i] != "" ==>
                        && PyStr(pieces[i]) in s'.caches.accounts
                        && Triple(x, P("to"), Blank(s'.caches.accounts[PyStr(pieces[i])].0.id)) in s'.doc.graph)
                  && title in s'.caches.threads
                  && Triple(Blank(s'.caches.threads[title].1.id), P("message"), Blank(s.doc.next)) in s'.doc.graph)
  {
    hide DocNewNode, DocCreateBundle, AccountF, DocAdd, RecipientsF, ThreadF, Split;
    var (trace, d1) := DocNewNode(s.doc, TraceCls, None, []);
    var (pb, d2) := DocCreateBundle(d1, trace, Some(Plain("Message")), ChatProps(ev));
    ChatMessage(ev, s.doc);
    CachesBelowMono(s.caches, s.doc.next, d2.next);
    var s2 := ExportState(s.caches, d2);
    assert Grows(s, s2);
    var fromAccount := ev.Attr("from_account");
    if fromAccount.PyStr? {
      var (username, displayName) := Author(fromAccount.s);
      var (author, s3) := AccountF(PyStr(username), displayName, s2);
      AccountOnce(PyStr(username), displayName, s2);
      var s4 := ExportState(s3.caches, DocAdd(s3.doc, pb, Plain("from"), Ref(author)));
      AddEdge(s3, pb, "from", author);
      GrowsTrans(s2, s3, s4);
      GrowsTrans(s, s2, s4);
      var toAccount := ev.Attr("to_account");
      if toAccount.PyStr? {
        var pieces := Split(toAccount.s, ", ");
        var (thread, s6) := ThreadF(ev.Attr("title"), RecipientsF(pieces, pb, s4));
        var s' := ExportState(s6.caches, DocAdd(s6.doc, thread.1, Plain("message"), Ref(trace)));
        ChatTail(ev, trace, pb, s4);
        GrowsTrans(s, s4, s');
        assert ChatF(ev, s) == (Ok(()), s');
      } else {
        assert ChatF(ev, s) == (Err(AttributeError("split")), s4);
      }
    }
  }

  /** The recipients and the thread of a chat message whose author is written. */
  lemma ChatTail(ev: Event, trace: Node, pb: Node, s4: ExportState)
    requires Sound(s4) && trace.id < s4.doc.next && pb.id < s4.doc.next
    requires ev.Attr("to_account").PyStr?
    ensures var pieces := Split(ev.Attr("to_account").s, ", ");
            var s5 := RecipientsF(pieces, pb, s4);
            var (thread, s6) := ThreadF(ev.Attr("title"), s5);
            var s' := ExportState(s6.caches, DocAdd(s6.doc, thread.1, Plain("message"), Ref(trace)));
            && Sound(s') && Grows(s4, s')
            && (forall i :: 0 <= i < |pieces| && pieces[i] != "" ==>
                  && PyStr(pieces[i]) in s'.caches.accounts
                  && Triple(Blank(pb.id), P("to"), Blank(s'.caches.accounts[PyStr(pieces[i])].0.id)) in s'.doc.graph)
            && ev.Attr("title") in s'.caches.threads
            && Triple(Blank(s'.caches.threads[ev.Attr("title")].1.id), P("message"), Blank(trace.id)) in s'.doc.graph
  {
    hide RecipientsF, ThreadF, DocAdd, Split;
    var pieces := Split(ev.Attr("to_account").s, ", ");
    var s5 := RecipientsF(pieces, pb, s4);
    RecipientsSpec(pieces, pb, s4);
    var (thread, s6) := ThreadF(ev.Attr("title"), s5);
    ThreadOnce(ev.Attr("title"), s5);
    assert thread == s6.caches.threads[ev.Attr("title")];
    AddEdge(s6, thread.1, "message", trace);
  }

  /** The caches of the other exporters, which the Skype exporters never touch. */
  predicate OthersKept(c: ExporterCaches, c': ExporterCaches) {
    && c'.elements == c.elements && c'.pathSpecs == c.pathSpecs
    && c'.callContacts == c.callContacts && c'.smsContacts == c.smsContacts
  }

  lemma {:induction false} RecipientsOthersKept(names: seq<string>, pb: Node, s: ExportState)
    ensures OthersKept(s.caches, RecipientsF(names, pb, s).caches)
    decreases |names|
  {
    if names != [] {
      if names[0] == "" {
        RecipientsOthersKept(names[1..], pb, s);
      } else {
        var (recipient, s1) := AccountF(PyStr(names[0]), "", s);
        RecipientsOthersKept(names[1..], pb, ExportState(s1.caches, DocAdd(s1.doc, pb, Plain("to"), Ref(recipient))));
      }
    }
  }

  /** A chat message touches only the Skype accounts and threads, whether it succeeds or not. */
  lemma ChatOthersKept(ev: Event, s: ExportState)
    ensures OthersKept(s.caches, ChatF(ev, s).1.caches)
  {
    hide DocNewNode, DocCreateBundle, DocAdd, RecipientsF, ThreadF;
    var (trace, d1) := DocNewNode(s.doc, TraceCls, None, []);
    var (pb, d2) := DocCreateBundle(d1, trace, Some(Plain("Message")), ChatProps(ev));
    var fromAccount := ev.Attr("from_account");
    if fromAccount.PyStr? {
      var (username, displayName) := Author(fromAccount.s);
      var (author, s3) := AccountF(PyStr(username), displayName, ExportState(s.caches, d2));
      var s4 := ExportState(s3.caches, DocAdd(s3.doc, pb, Plain("from"), Ref(author)));
      assert OthersKept(s.caches, s4.caches);
      var toAccount := ev.Attr("to_account");
      if toAccount.PyStr? {
        ChatTailOthersKept(Split(toAccount.s, ", "), ev.Attr("title"), pb, s4);
        assert ChatF(ev, s).1.caches == ThreadF(ev.Attr("title"), RecipientsF(Split(toAccount.s, ", "), pb, s4)).1.caches;
      }
    }
  }

  /** The recipients and the thread of a chat message touch only the Skype caches. */
  lemma ChatTailOthersKept(names: seq<string>, title: PyValue, pb: Node, s4: ExportState)
    ensures OthersKept(s4.caches, ThreadF(title, RecipientsF(names, pb, s4)).1.caches)
  {
    RecipientsOthersKept(names, pb, s4);
  }

  /** A call event touches only the Skype accounts cache. */
  lemma CallOthersKept(ev: Event, s: ExportState)
    ensures OthersKept(s.caches, CallDataF(ev, s).1.caches)
  {
    var (trace, d1) := DocNewNode(s.doc, TraceCls, None, []);
    var (pb, d2) := DocCreateBundle(d1, trace, Some(Plain("PhoneCall")), []);
    var d3 := DocAdd(d2, pb, Plain("callType"), Py(PyStr(CallType(ev.Attr("user_start_call")))));
    var (callee, s4) := AccountF(ev.Attr("dst_call"), "", ExportState(s.caches, d3));
    assert OthersKept(s.caches, s4.caches);
  }
}
