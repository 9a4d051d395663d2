/**
  The report-to-Markdown transformer of body.go. Collaborators whose code is
  not part of this model are parameters:
  - `hash`    the attribute fingerprint (Attribute.Hash), any deterministic function;
  - `indent`  JSON pretty-printing with a two-space indent (json.Indent),
              None when the value is not valid JSON;
  - `extract` the report's content extraction together with the host, user and
              binary inspection builders, as an `Extraction`;
  - `render`  serialising a document (Document.Render), None when it fails.
 */
module Body {
  import opened Wrappers
  import opened Markdown
  import opened Deepalert

  /** What content extraction and the three inspection builders yield: either
      a failure, or the node groups for hosts, users and binaries. */
  datatype Extraction =
    | ExtractFailed(reason: string)
    | Extracted(hosts: seq<Node>, users: seq<Node>, binaries: seq<Node>)

  /*************************************************************************
   * Attribute rendering
   *************************************************************************/

  /** The text shown in the code block of a "json" attribute: the indented
      document when the value parses, the raw value otherwise. */
  function JsonOrRaw(value: string, indent: string -> Option<string>): string
  {
    match indent(value)
    case Some(pretty) => pretty
    case None => value
  }

  /** The inline contents of one attribute: its key, then a part that depends
      on the type tag (empty, "json", or any other tag). */
  function AttrToContents(attr: Attribute, indent: string -> Option<string>): (r: seq<Node>)
    ensures |r| >= 3 && r[0] == Literal(attr.key)
    ensures |r| == 3 <==> attr.typ == ""
    ensures |r| == 6 <==> attr.typ == "json"
    ensures |r| == 5 <==> attr.typ != "" && attr.typ != "json"
  {
    [Literal(attr.key)] +
    if attr.typ == "" then
      [Literal(": "), Code(attr.value)]
    else if attr.typ == "json" then
      [Literal(" ("), Code(attr.typ), Literal("): \n"), CodeBlock(JsonOrRaw(attr.value, indent)), Literal("\n")]
    else
      [Literal(" ("), Code(attr.typ), Literal("): "), Code(attr.value)]
  }

  /** One list item per attribute, in order. */
  function RenderItems(attrs: seq<Attribute>, indent: string -> Option<string>): seq<ListItem>
  {
    if attrs == [] then []
    else RenderItems(attrs[..|attrs| - 1], indent) + [ListItem(AttrToContents(attrs[|attrs| - 1], indent))]
  }

  lemma RenderItemsAppend(attrs: seq<Attribute>, a: Attribute, indent: string -> Option<string>)
    ensures RenderItems(attrs + [a], indent) == RenderItems(attrs, indent) + [ListItem(AttrToContents(a, indent))]
  {
    assert (attrs + [a])[..|attrs|] == attrs;
  }

  /*************************************************************************
   * Deduplication by fingerprint
   *************************************************************************/

  /** The fingerprints of the attributes of `s`. */
  function Hashes(s: seq<Attribute>, hash: Attribute -> string): set<string>
  {
    set a | a in s :: hash(a)
  }

  lemma HashesAppend(s: seq<Attribute>, a: Attribute, hash: Attribute -> string)
    ensures Hashes(s + [a], hash) == Hashes(s, hash) + {hash(a)}
  {
    assert forall b :: b in s + [a] <==> b in s || b == a;
  }

  /** All attributes of all alerts, alert by alert and in each alert in order. */
  function Flatten(alerts: seq<Alert>): seq<Attribute>
  {
    if alerts == [] then []
    else Flatten(alerts[..|alerts| - 1]) + alerts[|alerts| - 1].attributes
  }

  lemma FlattenStep(alerts: seq<Alert>, i: nat)
    requires i < |alerts|
    ensures Flatten(alerts[..i + 1]) == Flatten(alerts[..i]) + alerts[i].attributes
  {
    assert alerts[..i + 1][..i] == alerts[..i];
  }

  /** The attributes of `s` whose fingerprint has not occurred earlier in `s`. */
  function Dedup(s: seq<Attribute>, hash: Attribute -> string): seq<Attribute>
  {
    if s == [] then []
    else
      var init := s[..|s| - 1];
      if hash(s[|s| - 1]) in Hashes(init, hash) then Dedup(init, hash)
      else Dedup(init, hash) + [s[|s| - 1]]
  }

  lemma DedupAppend(s: seq<Attribute>, a: Attribute, hash: Attribute -> string)
    ensures Dedup(s + [a], hash) ==
            if hash(a) in Hashes(s, hash) then Dedup(s, hash) else Dedup(s, hash) + [a]
  {
    assert (s + [a])[..|s|] == s;
  }

  lemma TakeStep<T>(s: seq<T>, j: nat)
    requires j < |s|
    ensures s[..j + 1] == s[..j] + [s[j]]
  {
  }

  lemma PrefixStep<T>(p: seq<T>, s: seq<T>, j: nat)
    requires j < |s|
    ensures p + s[..j + 1] == (p + s[..j]) + [s[j]]
  {
    assert s[..j + 1] == s[..j] + [s[j]];
  }

  /** One step of the summary loop: the effect of meeting attribute `a` after
      the attributes `done`, on the fingerprints seen and on the listed items. */
  lemma SummaryStep(done: seq<Attribute>, a: Attribute, hash: Attribute -> string,
                    indent: string -> Option<string>)
    ensures Hashes(done + [a], hash) == Hashes(done, hash) + {hash(a)}
    ensures RenderItems(Dedup(done + [a], hash), indent) ==
            if hash(a) in Hashes(done, hash) then RenderItems(Dedup(done, hash), indent)
            else RenderItems(Dedup(done, hash), indent) + [ListItem(AttrToContents(a, indent))]
  {
    HashesAppend(done, a, hash);
    DedupAppend(done, a, hash);
    RenderItemsAppend(Dedup(done, hash), a, indent);
  }

  /*************************************************************************
   * Summary (buildSummary)
   *************************************************************************/

  const SummaryHeading := Heading(1, Literal("Summary"))
  const AttributesHeading := Heading(2, Literal("Attributes"))

  /** The summary section: heading, result and first-alert facts, the
      attributes heading and the attribute list deduplicated across all alerts. */
  function Summary(report: Report, hash: Attribute -> string, indent: string -> Option<string>): seq<Node>
    requires |report.alerts| > 0
  {
    [ SummaryHeading,
      List([ ListItem([Literal("Severity: "), Bold(report.result.severity)]),
             ListItem([Literal("Reason: "), Literal(report.result.reason)]),
             ListItem([Literal("Detected by "), Code(report.alerts[0].detector)]),
             ListItem([Literal("Rule: "), Code(report.alerts[0].ruleName)]) ]),
      AttributesHeading,
      List(RenderItems(Dedup(Flatten(report.alerts), hash), indent)) ]
  }

  /** Builds the summary, remembering the fingerprints already listed. The
      first alert is read unguarded, so the report must have one. */
  method BuildSummary(report: Report, hash: Attribute -> string, indent: string -> Option<string>)
    returns (nodes: seq<Node>)
    requires |report.alerts| > 0
    ensures nodes == Summary(report, hash, indent)
  {
    var alerts := report.alerts;
    var items: seq<ListItem> := [];
    var seen: set<string> := {};
    ghost var done: seq<Attribute> := [];
    var i := 0;
    while i < |alerts|
      invariant 0 <= i <= |alerts|
      invariant done == Flatten(alerts[..i])
      invariant items == RenderItems(Dedup(done, hash), indent)
      invariant seen == Hashes(done, hash)
    {
      var attrs := alerts[i].attributes;
      ghost var before := done;
      var j := 0;
      while j < |attrs|
        invariant 0 <= j <= |attrs|
        invariant done == before + attrs[..j]
        invariant items == RenderItems(Dedup(done, hash), indent)
        invariant seen == Hashes(done, hash)
      {
        var attr := attrs[j];
        var h := hash(attr);
        SummaryStep(done, attr, hash, indent);
        if h !in seen {
          items := items + [ListItem(AttrToContents(attr, indent))];
          seen := seen + {h};
        }
        PrefixStep(before, attrs, j);
        done := done + [attr];
        j := j + 1;
      }
      assert attrs[..j] == attrs;
      FlattenStep(alerts, i);
      i := i + 1;
    }
    assert alerts[..i] == alerts;
    nodes := [
      SummaryHeading,
      List([ ListItem([Literal("Severity: "), Bold(report.result.severity)]),
             ListItem([Literal("Reason: "), Literal(report.result.reason)]),
             ListItem([Literal("Detected by "), Code(alerts[0].detector)]),
             ListItem([Literal("Rule: "), Code(alerts[0].ruleName)]) ]),
      AttributesHeading,
      List(items) ];
  }

  /*************************************************************************
   * joinAsCode
   *************************************************************************/

  /** Renders strings as inline code separated by ", ", with no trailing separator. */
  method JoinAsCode(ss: seq<string>) returns (nodes: seq<Node>)
    ensures |nodes| == if |ss| == 0 then 0 else 2 * |ss| - 1
    ensures forall k :: 0 <= k < |nodes| ==>
              nodes[k] == if k % 2 == 0 then Code(ss[k / 2]) else Literal(", ")
  {
    nodes := [];
    var i := 0;
    while i < |ss|
      invariant 0 <= i <= |ss|
      invariant |nodes| == if i == 0 then 0 else if i < |ss| then 2 * i else 2 * i - 1
      invariant forall k :: 0 <= k < |nodes| ==>
                  nodes[k] == if k % 2 == 0 then Code(ss[k / 2]) else Literal(", ")
    {
      nodes := nodes + [Code(ss[i])];
      if i + 1 < |ss| {
        nodes := nodes + [Literal(", ")];
      }
      i := i + 1;
    }
  }

  /*************************************************************************
   * Inspection reports (buildInspections)
   *************************************************************************/

  const InspectionHeading := Heading(1, Literal("Inspection Reports"))

  /** The inspection section: nothing at all when extraction failed, otherwise
      a heading followed by the host, user and binary groups in that order. */
  function Inspections(e: Extraction): (r: seq<Node>)
    ensures r == [] <==> e.ExtractFailed?
    ensures e.Extracted? ==> r[0] == InspectionHeading && r[1..] == e.hosts + e.users + e.binaries
  {
    match e
    case ExtractFailed(_) => []
    case Extracted(hosts, users, binaries) => [InspectionHeading] + hosts + users + binaries
  }

  /*************************************************************************
   * Alert details (buildAlerts)
   *************************************************************************/

  const DetailHeading := Heading(1, Literal("Detail of Alerts"))

  /** The description and detection time of an alert. */
  function AlertInfo(alert: Alert): Node
  {
    List([ ListItem([Literal("Description: "), Literal(alert.description)]),
           ListItem([Literal("Detected at: "), Code(alert.timestamp)]) ])
  }

  /** The four nodes for one alert; its attribute list is not deduplicated. */
  function AlertBlock(alert: Alert, indent: string -> Option<string>): seq<Node>
  {
    [ AlertInfo(alert),
      AttributesHeading,
      List(RenderItems(alert.attributes, indent)),
      HorizontalRules ]
  }

  /** The blocks of all alerts, in alert order. */
  function AlertBlocks(alerts: seq<Alert>, indent: string -> Option<string>): seq<Node>
  {
    if alerts == [] then []
    else AlertBlocks(alerts[..|alerts| - 1], indent) + AlertBlock(alerts[|alerts| - 1], indent)
  }

  lemma AlertBlocksStep(alerts: seq<Alert>, i: nat, indent: string -> Option<string>)
    requires i < |alerts|
    ensures AlertBlocks(alerts[..i + 1], indent) == AlertBlocks(alerts[..i], indent) + AlertBlock(alerts[i], indent)
  {
    assert alerts[..i + 1][..i] == alerts[..i];
  }

  /** The detail section: its heading, then every alert's block. */
  function Details(report: Report, indent: string -> Option<string>): seq<Node>
  {
    [DetailHeading] + AlertBlocks(report.alerts, indent)
  }

  /** The attribute list of one alert: an item for every attribute, in order,
      with nothing dropped. */
  method AttributeList(attrs: seq<Attribute>, indent: string -> Option<string>) returns (list: Node)
    ensures list == List(RenderItems(attrs, indent))
  {
    var items: seq<ListItem> := [];
    var j := 0;
    while j < |attrs|
      invariant 0 <= j <= |attrs|
      invariant items == RenderItems(attrs[..j], indent)
    {
      TakeStep(attrs, j);
      RenderItemsAppend(attrs[..j], attrs[j], indent);
      items := items + [ListItem(AttrToContents(attrs[j], indent))];
      j := j + 1;
    }
    assert attrs[..j] == attrs;
    list := List(items);
  }

  method BuildAlerts(report: Report, indent: string -> Option<string>) returns (nodes: seq<Node>)
    ensures nodes == Details(report, indent)
  {
    var alerts := report.alerts;
    nodes := [DetailHeading];
    var i := 0;
    while i < |alerts|
      invariant 0 <= i <= |alerts|
      invariant nodes == [DetailHeading] + AlertBlocks(alerts[..i], indent)
    {
      var alert := alerts[i];
      var attrList := AttributeList(alert.attributes, indent);
      nodes := nodes + [AlertInfo(alert), AttributesHeading, attrList, HorizontalRules];
      AlertBlocksStep(alerts, i, indent);
      i := i + 1;
    }
    assert alerts[..i] == alerts;
  }

  /*************************************************************************
   * System info (buildSystemReport) and assembly (reportToBody)
   *************************************************************************/

  /** The system-info section. Its heading never gets a level, so it keeps the
      zero level, which no Markdown heading marker has. */
  function SystemReport(report: Report): (r: seq<Node>)
    ensures |r| == 2 && r[0] == Heading(0, Literal("System Info")) && !ValidLevel(r[0].level)
    ensures r[1].List? && |r[1].items| == 2
    ensures r[1].items[0] == ListItem([Literal("ReportID: "), Code(report.id)])
    ensures r[1].items[1] == ListItem([Literal("Status: "), Code(report.status)])
  {
    [ Heading(0, Literal("System Info")),
      List([ ListItem([Literal("ReportID: "), Code(report.id)]),
             ListItem([Literal("Status: "), Code(report.status)]) ]) ]
  }

  /** The whole document: summary, inspections, alert details, system info. */
  function BodyNodes(report: Report, hash: Attribute -> string, indent: string -> Option<string>,
                extract: Report -> Extraction): seq<Node>
    requires |report.alerts| > 0
  {
    Summary(report, hash, indent) + Inspections(extract(report)) + Details(report, indent) + SystemReport(report)
  }

  /** Builds the document section by section and renders it. A failed render
      yields no buffer and no error either. */
  method ReportToBody(report: Report, hash: Attribute -> string, indent: string -> Option<string>,
                      extract: Report -> Extraction, render: seq<Node> -> Option<string>)
    returns (buf: Option<string>, err: Option<string>)
    requires |report.alerts| > 0
    ensures buf == render(BodyNodes(report, hash, indent, extract))
    ensures err == None
  {
    var doc := new Document();
    var summary := BuildSummary(report, hash, indent);
    doc.Extend(summary);
    doc.Extend(Inspections(extract(report)));
    var details := BuildAlerts(report, indent);
    doc.Extend(details);
    doc.Extend(SystemReport(report));
    match render(doc.nodes)
    case None =>
      buf, err := None, None;
    case Some(text) =>
      buf, err := Some(text), None;
  }
}
