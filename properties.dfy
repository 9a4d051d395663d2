/**
  What the transformer of body.go guarantees, proved about the functions that
  specify its builders: attribute rendering can be read back, the summary keeps
  exactly the first attribute of every fingerprint, alert details keep every
  attribute, and the document's sections come in a fixed order.
 */
module BodyProperties {
  import opened Wrappers
  import opened Markdown
  import opened Deepalert
  import opened Body

  /*************************************************************************
   * Attribute rendering
   *************************************************************************/

  /** What a reader of rendered attribute contents can see: the key, the type
      tag and the shown value (for "json", the text of the code block). */
  datatype AttrView = AttrView(key: string, typ: string, shown: string)

  /** Reads rendered attribute contents back; None for any node sequence that
      is not the rendering of an attribute. */
  function ParseContents(r: seq<Node>): (v: Option<AttrView>)
    ensures v.Some? ==> |r| >= 3 && r[0] == Literal(v.value.key)
  {
    if |r| == 3 && r[0].Literal? && r[1] == Literal(": ") && r[2].Code? then
      Some(AttrView(r[0].text, "", r[2].text))
    else if |r| == 5 && r[0].Literal? && r[1] == Literal(" (") && r[2].Code?
            && r[2].text != "" && r[2].text != "json" && r[3] == Literal("): ") && r[4].Code? then
      Some(AttrView(r[0].text, r[2].text, r[4].text))
    else if |r| == 6 && r[0].Literal? && r[1] == Literal(" (") && r[2] == Code("json")
            && r[3] == Literal("): \n") && r[4].CodeBlock? && r[5] == Literal("\n") then
      Some(AttrView(r[0].text, "json", r[4].text))
    else
      None
  }

  /** Rendered contents give back the key, the tag and the value; for a "json"
      attribute the value shown is the indented one, or the raw one when the
      value is not valid JSON. */
  lemma ParseRendered(attr: Attribute, indent: string -> Option<string>)
    ensures ParseContents(AttrToContents(attr, indent)) ==
            Some(AttrView(attr.key, attr.typ,
                          if attr.typ == "json" then JsonOrRaw(attr.value, indent) else attr.value))
  {
  }

  /** Conversely, every node sequence that reads as an attribute is the
      rendering of that attribute (for "json", of the value whose indentation
      fails and is therefore shown raw). */
  lemma RenderParsed(r: seq<Node>, indent: string -> Option<string>, context: seq<string>)
    requires ParseContents(r).Some?
    requires ParseContents(r).value.typ == "json" ==> indent(ParseContents(r).value.shown).None?
    ensures var v := ParseContents(r).value;
            r == AttrToContents(Attribute(v.key, v.typ, v.shown, context), indent)
  {
    var v := ParseContents(r).value;
    var rendered := AttrToContents(Attribute(v.key, v.typ, v.shown, context), indent);
    assert |rendered| == |r|;
    assert forall k :: 0 <= k < |r| ==> rendered[k] == r[k];
  }

  /** A "json" attribute always renders, whether or not its value is JSON:
      the code block holds the indented text, or else the value unchanged. */
  lemma JsonNeverFails(attr: Attribute, indent: string -> Option<string>)
    requires attr.typ == "json"
    ensures var r := AttrToContents(attr, indent);
            |r| == 6 && r[2] == Code("json") && r[3] == Literal("): \n") && r[5] == Literal("\n")
    ensures indent(attr.value).None? ==> AttrToContents(attr, indent)[4] == CodeBlock(attr.value)
    ensures indent(attr.value).Some? ==> AttrToContents(attr, indent)[4] == CodeBlock(indent(attr.value).value)
  {
  }

  /** One list item per attribute, each the rendering of that attribute. */
  lemma {:induction false} RenderItemsShape(attrs: seq<Attribute>, indent: string -> Option<string>)
    ensures |RenderItems(attrs, indent)| == |attrs|
    ensures forall k :: 0 <= k < |attrs| ==>
              RenderItems(attrs, indent)[k] == ListItem(AttrToContents(attrs[k], indent))
  {
    if attrs != [] {
      var init := attrs[..|attrs| - 1];
      RenderItemsShape(init, indent);
      assert forall k :: 0 <= k < |init| ==> init[k] == attrs[k];
    }
  }

  /*************************************************************************
   * Deduplication by fingerprint
   *************************************************************************/

  /** Position `i` of `s` holds the first attribute with its fingerprint. */
  predicate FirstOfItsHash(s: seq<Attribute>, i: int, hash: Attribute -> string)
  {
    0 <= i < |s| && forall j :: 0 <= j < i ==> hash(s[j]) != hash(s[i])
  }

  /** The positions in `s` of the attributes that Dedup keeps. */
  ghost function Origins(s: seq<Attribute>, hash: Attribute -> string): seq<int>
  {
    if s == [] then []
    else
      var init := s[..|s| - 1];
      if hash(s[|s| - 1]) in Hashes(init, hash) then Origins(init, hash)
      else Origins(init, hash) + [|s| - 1]
  }

  lemma HashesMember(s: seq<Attribute>, h: string, hash: Attribute -> string)
    requires h in Hashes(s, hash)
    ensures exists j :: 0 <= j < |s| && hash(s[j]) == h
  {
    var a :| a in s && hash(a) == h;
    var j :| 0 <= j < |s| && s[j] == a;
  }

  /** Dedup keeps exactly the first attribute of every fingerprint, in the
      order of `s`: its elements come from strictly increasing positions, each
      the first of its fingerprint, and every such position is kept. */
  lemma {:induction false} DedupOrigins(s: seq<Attribute>, hash: Attribute -> string)
    ensures |Origins(s, hash)| == |Dedup(s, hash)|
    ensures forall k :: 0 <= k < |Origins(s, hash)| ==>
              FirstOfItsHash(s, Origins(s, hash)[k], hash) && Dedup(s, hash)[k] == s[Origins(s, hash)[k]]
    ensures forall k, l :: 0 <= k < l < |Origins(s, hash)| ==> Origins(s, hash)[k] < Origins(s, hash)[l]
    ensures forall i :: FirstOfItsHash(s, i, hash) ==> i in Origins(s, hash)
  {
    if s != [] {
      var n := |s| - 1;
      var init := s[..n];
      DedupOrigins(init, hash);
      assert forall i :: 0 <= i < n ==> (FirstOfItsHash(s, i, hash) <==> FirstOfItsHash(init, i, hash));
      if hash(s[n]) in Hashes(init, hash) {
        HashesMember(init, hash(s[n]), hash);
        assert !FirstOfItsHash(s, n, hash);
      } else {
        assert FirstOfItsHash(s, n, hash) by {
          forall j | 0 <= j < n
            ensures hash(s[j]) != hash(s[n])
          {
            assert s[j] == init[j] && init[j] in init;
          }
        }
      }
    }
  }

  /** No two attributes that Dedup keeps share a fingerprint. */
  lemma DedupDistinct(s: seq<Attribute>, hash: Attribute -> string)
    ensures forall k, l :: 0 <= k < l < |Dedup(s, hash)| ==> hash(Dedup(s, hash)[k]) != hash(Dedup(s, hash)[l])
  {
    DedupOrigins(s, hash);
    var o := Origins(s, hash);
    forall k, l | 0 <= k < l < |Dedup(s, hash)|
      ensures hash(Dedup(s, hash)[k]) != hash(Dedup(s, hash)[l])
    {
      assert o[k] < o[l] && FirstOfItsHash(s, o[l], hash);
    }
  }

  /** Dedup loses no fingerprint, and keeps as many attributes as there are
      distinct fingerprints. */
  lemma {:induction false} DedupHashes(s: seq<Attribute>, hash: Attribute -> string)
    ensures Hashes(Dedup(s, hash), hash) == Hashes(s, hash)
    ensures |Dedup(s, hash)| == |Hashes(s, hash)|
  {
    if s != [] {
      var init := s[..|s| - 1];
      var last := s[|s| - 1];
      DedupHashes(init, hash);
      assert s == init + [last];
      HashesAppend(init, last, hash);
      if hash(last) !in Hashes(init, hash) {
        HashesAppend(Dedup(init, hash), last, hash);
      }
    }
  }

  /** Every fingerprint of `s` is carried by exactly one attribute Dedup keeps. */
  lemma DedupOnePerHash(s: seq<Attribute>, hash: Attribute -> string, h: string)
    requires h in Hashes(s, hash)
    ensures exists k :: 0 <= k < |Dedup(s, hash)| && hash(Dedup(s, hash)[k]) == h
    ensures forall k, l :: (0 <= k < |Dedup(s, hash)| && 0 <= l < |Dedup(s, hash)|
                            && hash(Dedup(s, hash)[k]) == h && hash(Dedup(s, hash)[l]) == h) ==> k == l
  {
    DedupHashes(s, hash);
    DedupDistinct(s, hash);
    HashesMember(Dedup(s, hash), h, hash);
  }

  /*************************************************************************
   * Summary
   *************************************************************************/

  /** Every attribute of the alert at `i` occurs among all attributes. */
  lemma {:induction false} FlattenContains(alerts: seq<Alert>, i: int, a: Attribute)
    requires 0 <= i < |alerts| && a in alerts[i].attributes
    ensures a in Flatten(alerts)
  {
    var n := |alerts| - 1;
    if i < n {
      FlattenContains(alerts[..n], i, a);
    }
  }

  /** The summary is a level-1 "Summary" heading, the four facts (severity,
      reason, detector and rule of the first alert), a level-2 "Attributes"
      heading, and one item per distinct fingerprint over all alerts: the
      rendering of the first attribute with that fingerprint, in first-seen order. */
  lemma SummaryShape(report: Report, hash: Attribute -> string, indent: string -> Option<string>)
    requires |report.alerts| > 0
    ensures var r := Summary(report, hash, indent);
            |r| == 4 && r[0] == Heading(1, Literal("Summary")) && r[2] == Heading(2, Literal("Attributes"))
            && r[1].List? && |r[1].items| == 4
            && r[1].items[0] == ListItem([Literal("Severity: "), Bold(report.result.severity)])
            && r[1].items[1] == ListItem([Literal("Reason: "), Literal(report.result.reason)])
            && r[1].items[2] == ListItem([Literal("Detected by "), Code(report.alerts[0].detector)])
            && r[1].items[3] == ListItem([Literal("Rule: "), Code(report.alerts[0].ruleName)])
    ensures var s := Flatten(report.alerts);
            var r := Summary(report, hash, indent);
            r[3].List? && |r[3].items| == |Hashes(s, hash)| && |Origins(s, hash)| == |r[3].items|
            && (forall k :: 0 <= k < |r[3].items| ==>
                  FirstOfItsHash(s, Origins(s, hash)[k], hash)
                  && r[3].items[k] == ListItem(AttrToContents(s[Origins(s, hash)[k]], indent)))
            && (forall k, l :: 0 <= k < l < |r[3].items| ==> Origins(s, hash)[k] < Origins(s, hash)[l])
            && (forall i :: FirstOfItsHash(s, i, hash) ==> i in Origins(s, hash))
  {
    var s := Flatten(report.alerts);
    DedupOrigins(s, hash);
    DedupHashes(s, hash);
    RenderItemsShape(Dedup(s, hash), indent);
  }

  /*************************************************************************
   * Alert details
   *************************************************************************/

  lemma {:induction false} AlertBlocksShape(alerts: seq<Alert>, indent: string -> Option<string>)
    ensures |AlertBlocks(alerts, indent)| == 4 * |alerts|
    ensures forall i :: 0 <= i < |alerts| ==>
              AlertBlocks(alerts, indent)[4 * i .. 4 * i + 4] == AlertBlock(alerts[i], indent)
  {
    if alerts != [] {
      var init := alerts[..|alerts| - 1];
      AlertBlocksShape(init, indent);
      var front := AlertBlocks(init, indent);
      var back := AlertBlock(alerts[|alerts| - 1], indent);
      forall i | 0 <= i < |alerts|
        ensures (front + back)[4 * i .. 4 * i + 4] == AlertBlock(alerts[i], indent)
      {
        if i < |init| {
          assert (front + back)[4 * i .. 4 * i + 4] == front[4 * i .. 4 * i + 4];
          assert init[i] == alerts[i];
        } else {
          assert (front + back)[4 * i .. 4 * i + 4] == back;
        }
      }
    }
  }

  /** The detail section is its level-1 heading and then, per alert and in
      alert order, the description/timestamp list, a level-2 "Attributes"
      heading, the alert's attribute list and a horizontal rule. The attribute
      list has one item per attribute of that alert, duplicates included. */
  lemma DetailsShape(report: Report, indent: string -> Option<string>)
    ensures var d := Details(report, indent);
            |d| == 1 + 4 * |report.alerts| && d[0] == Heading(1, Literal("Detail of Alerts"))
    ensures var d := Details(report, indent);
            forall i :: 0 <= i < |report.alerts| ==>
              d[1 + 4 * i .. 5 + 4 * i] == AlertBlock(report.alerts[i], indent)
              && d[1 + 4 * i] == List([ ListItem([Literal("Description: "), Literal(report.alerts[i].description)]),
                                        ListItem([Literal("Detected at: "), Code(report.alerts[i].timestamp)]) ])
              && d[2 + 4 * i] == Heading(2, Literal("Attributes"))
              && d[4 + 4 * i] == HorizontalRules
              && d[3 + 4 * i].List? && |d[3 + 4 * i].items| == |report.alerts[i].attributes|
              && (forall k :: 0 <= k < |report.alerts[i].attributes| ==>
                    d[3 + 4 * i].items[k] == ListItem(AttrToContents(report.alerts[i].attributes[k], indent)))
  {
    var alerts := report.alerts;
    AlertBlocksShape(alerts, indent);
    var d := Details(report, indent);
    forall i | 0 <= i < |alerts|
      ensures d[1 + 4 * i .. 5 + 4 * i] == AlertBlock(alerts[i], indent)
      ensures d[1 + 4 * i] == List([ ListItem([Literal("Description: "), Literal(alerts[i].description)]),
                                     ListItem([Literal("Detected at: "), Code(alerts[i].timestamp)]) ])
      ensures d[2 + 4 * i] == Heading(2, Literal("Attributes")) && d[4 + 4 * i] == HorizontalRules
      ensures d[3 + 4 * i] == List(RenderItems(alerts[i].attributes, indent))
      ensures |RenderItems(alerts[i].attributes, indent)| == |alerts[i].attributes|
      ensures forall k :: 0 <= k < |alerts[i].attributes| ==>
                RenderItems(alerts[i].attributes, indent)[k] == ListItem(AttrToContents(alerts[i].attributes[k], indent))
    {
      var block := d[1 + 4 * i .. 5 + 4 * i];
      assert block == AlertBlocks(alerts, indent)[4 * i .. 4 * i + 4];
      assert d[1 + 4 * i] == block[0] && d[2 + 4 * i] == block[1];
      assert d[3 + 4 * i] == block[2] && d[4 + 4 * i] == block[3];
      RenderItemsShape(alerts[i].attributes, indent);
    }
  }

  /*************************************************************************
   * Shared attributes: once in the summary, once per alert in the details
   *************************************************************************/

  /** When two alerts carry attributes with one fingerprint, the summary lists
      exactly one attribute with that fingerprint, while each of the two
      alerts' detail lists holds its own attribute. */
  lemma SharedAttribute(report: Report, hash: Attribute -> string, indent: string -> Option<string>,
                        i1: int, i2: int, x: Attribute, y: Attribute)
    requires 0 <= i1 < |report.alerts| && 0 <= i2 < |report.alerts|
    requires x in report.alerts[i1].attributes && y in report.alerts[i2].attributes
    requires hash(x) == hash(y)
    ensures var d := Dedup(Flatten(report.alerts), hash);
            (exists k :: 0 <= k < |d| && hash(d[k]) == hash(x))
            && (forall k, l :: 0 <= k < |d| && 0 <= l < |d| && hash(d[k]) == hash(x) && hash(d[l]) == hash(x) ==> k == l)
    ensures var d := Dedup(Flatten(report.alerts), hash);
            var r := Summary(report, hash, indent);
            |r| == 4 && r[3].List? && |r[3].items| == |d|
            && exists k :: 0 <= k < |d| && hash(d[k]) == hash(x)
                           && r[3].items[k] == ListItem(AttrToContents(d[k], indent))
                           && forall l :: 0 <= l < |d| && hash(d[l]) == hash(x) ==> l == k
    ensures |Details(report, indent)| == 1 + 4 * |report.alerts|
    ensures Details(report, indent)[3 + 4 * i1].List?
            && ListItem(AttrToContents(x, indent)) in Details(report, indent)[3 + 4 * i1].items
    ensures Details(report, indent)[3 + 4 * i2].List?
            && ListItem(AttrToContents(y, indent)) in Details(report, indent)[3 + 4 * i2].items
  {
    var s := Flatten(report.alerts);
    FlattenContains(report.alerts, i1, x);
    assert hash(x) in Hashes(s, hash);
    DedupOnePerHash(s, hash, hash(x));
    RenderItemsShape(Dedup(s, hash), indent);
    DetailsContains(report, indent, i1, x);
    DetailsContains(report, indent, i2, y);
  }

  /** Each attribute of an alert is listed in that alert's detail block. */
  lemma DetailsContains(report: Report, indent: string -> Option<string>, i: int, x: Attribute)
    requires 0 <= i < |report.alerts| && x in report.alerts[i].attributes
    ensures |Details(report, indent)| == 1 + 4 * |report.alerts|
    ensures Details(report, indent)[3 + 4 * i].List?
            && ListItem(AttrToContents(x, indent)) in Details(report, indent)[3 + 4 * i].items
  {
    DetailsShape(report, indent);
    var attrs := report.alerts[i].attributes;
    var k :| 0 <= k < |attrs| && attrs[k] == x;
    assert Details(report, indent)[3 + 4 * i].items[k] == ListItem(AttrToContents(x, indent));
  }

  /** Dedup of a run of one attribute is that attribute once. */
  lemma {:induction false} DedupRepeated(s: seq<Attribute>, x: Attribute, hash: Attribute -> string)
    requires |s| > 0 && forall k :: 0 <= k < |s| ==> s[k] == x
    ensures Dedup(s, hash) == [x]
  {
    var init := s[..|s| - 1];
    if |init| > 0 {
      DedupRepeated(init, x, hash);
      assert init[0] in init;
    }
  }

  lemma {:induction false} FlattenRepeated(alerts: seq<Alert>, x: Attribute)
    requires forall i :: 0 <= i < |alerts| ==> alerts[i].attributes == [x]
    ensures |Flatten(alerts)| == |alerts|
    ensures forall k :: 0 <= k < |alerts| ==> Flatten(alerts)[k] == x
  {
    if alerts != [] {
      FlattenRepeated(alerts[..|alerts| - 1], x);
    }
  }

  /** Alerts that each carry the same single attribute: the summary lists it
      once, and every alert's detail list holds it once. */
  lemma RepeatedAttributeListedOnce(report: Report, hash: Attribute -> string,
                                    indent: string -> Option<string>, x: Attribute)
    requires |report.alerts| > 0
    requires forall i :: 0 <= i < |report.alerts| ==> report.alerts[i].attributes == [x]
    ensures Summary(report, hash, indent)[3] == List([ListItem(AttrToContents(x, indent))])
    ensures |Details(report, indent)| == 1 + 4 * |report.alerts|
    ensures forall i :: 0 <= i < |report.alerts| ==>
              Details(report, indent)[3 + 4 * i] == List([ListItem(AttrToContents(x, indent))])
  {
    FlattenRepeated(report.alerts, x);
    DedupRepeated(Flatten(report.alerts), x, hash);
    RenderSingle(x, indent);
    RepeatedAttributeInDetails(report, indent, x);
  }

  lemma RenderSingle(x: Attribute, indent: string -> Option<string>)
    ensures RenderItems([x], indent) == [ListItem(AttrToContents(x, indent))]
  {
    assert [x][..0] == [];
  }

  lemma RepeatedAttributeInDetails(report: Report, indent: string -> Option<string>, x: Attribute)
    requires forall i :: 0 <= i < |report.alerts| ==> report.alerts[i].attributes == [x]
    ensures |Details(report, indent)| == 1 + 4 * |report.alerts|
    ensures forall i :: 0 <= i < |report.alerts| ==>
              Details(report, indent)[3 + 4 * i] == List([ListItem(AttrToContents(x, indent))])
  {
    DetailsShape(report, indent);
    RenderSingle(x, indent);
  }

  /*************************************************************************
   * Document layout
   *************************************************************************/

  /** The texts of the level-1 headings of a node sequence, in order. */
  function SectionTitles(nodes: seq<Node>): seq<string>
  {
    if nodes == [] then []
    else SectionTitles(nodes[..|nodes| - 1]) + TitleOf(nodes[|nodes| - 1])
  }

  function TitleOf(n: Node): seq<string>
  {
    if n.Heading? && n.level == 1 && n.content.Literal? then [n.content.text] else []
  }

  lemma {:induction false} SectionTitlesConcat(a: seq<Node>, b: seq<Node>)
    ensures SectionTitles(a + b) == SectionTitles(a) + SectionTitles(b)
  {
    if b == [] {
      assert a + b == a;
    } else {
      var init, last := b[..|b| - 1], b[|b| - 1];
      SectionTitlesConcat(a, init);
      assert (a + b)[..|a + b| - 1] == a + init;
      assert (a + b)[|a + b| - 1] == last;
      assert SectionTitles(a + b) == SectionTitles(a + init) + TitleOf(last);
      assert SectionTitles(b) == SectionTitles(init) + TitleOf(last);
    }
  }

  lemma {:induction false} Untitled(nodes: seq<Node>)
    requires forall k :: 0 <= k < |nodes| ==> TitleOf(nodes[k]) == []
    ensures SectionTitles(nodes) == []
  {
    if nodes != [] {
      Untitled(nodes[..|nodes| - 1]);
    }
  }

  lemma SectionTitlesOfFour(a: seq<Node>, b: seq<Node>, c: seq<Node>, d: seq<Node>)
    ensures SectionTitles(a + b + c + d) == SectionTitles(a) + SectionTitles(b) + SectionTitles(c) + SectionTitles(d)
  {
    SectionTitlesConcat(a + b + c, d);
    SectionTitlesConcat(a + b, c);
    SectionTitlesConcat(a, b);
  }

  lemma SingleTitle(n: Node)
    ensures SectionTitles([n]) == TitleOf(n)
  {
    assert [n][..0] == [];
  }

  lemma BlockUntitled(alert: Alert, indent: string -> Option<string>)
    ensures SectionTitles(AlertBlock(alert, indent)) == []
  {
    Untitled(AlertBlock(alert, indent));
  }

  lemma {:induction false} AlertBlocksUntitled(alerts: seq<Alert>, indent: string -> Option<string>)
    ensures SectionTitles(AlertBlocks(alerts, indent)) == []
  {
    if alerts != [] {
      var init, last := alerts[..|alerts| - 1], alerts[|alerts| - 1];
      assert AlertBlocks(alerts, indent) == AlertBlocks(init, indent) + AlertBlock(last, indent);
      AlertBlocksUntitled(init, indent);
      SectionTitlesConcat(AlertBlocks(init, indent), AlertBlock(last, indent));
      BlockUntitled(last, indent);
    }
  }

  lemma SummaryTitles(report: Report, hash: Attribute -> string, indent: string -> Option<string>)
    requires |report.alerts| > 0
    ensures SectionTitles(Summary(report, hash, indent)) == ["Summary"]
  {
    var s := Summary(report, hash, indent);
    assert s == [s[0]] + s[1..];
    SectionTitlesConcat([s[0]], s[1..]);
    SingleTitle(s[0]);
    Untitled(s[1..]);
  }

  lemma DetailsTitles(report: Report, indent: string -> Option<string>)
    ensures SectionTitles(Details(report, indent)) == ["Detail of Alerts"]
  {
    SectionTitlesConcat([DetailHeading], AlertBlocks(report.alerts, indent));
    SingleTitle(DetailHeading);
    AlertBlocksUntitled(report.alerts, indent);
  }

  lemma InspectionsTitles(e: Extraction)
    ensures SectionTitles(Inspections(e)) ==
            match e
            case ExtractFailed(_) => []
            case Extracted(hosts, users, binaries) => ["Inspection Reports"] + SectionTitles(hosts + users + binaries)
  {
    match e
    case ExtractFailed(_) =>
    case Extracted(hosts, users, binaries) =>
      assert Inspections(e) == [InspectionHeading] + (hosts + users + binaries);
      SectionTitlesConcat([InspectionHeading], hosts + users + binaries);
      SingleTitle(InspectionHeading);
  }

  /** The document is the summary, the inspection section, the alert details
      and the system info, in that order and nothing else. */
  lemma BodyLayout(report: Report, hash: Attribute -> string, indent: string -> Option<string>,
                   extract: Report -> Extraction)
    requires |report.alerts| > 0
    ensures var b := BodyNodes(report, hash, indent, extract);
            var m := 4 + |Inspections(extract(report))|;
            |b| == m + 1 + 4 * |report.alerts| + 2
            && b[..4] == Summary(report, hash, indent)
            && b[4..m] == Inspections(extract(report))
            && b[m..|b| - 2] == Details(report, indent)
            && b[|b| - 2..] == SystemReport(report)
  {
    DetailsShape(report, indent);
    var s, i, d, y := Summary(report, hash, indent), Inspections(extract(report)),
                      Details(report, indent), SystemReport(report);
    var b := s + i + d + y;
    assert b[..4] == s;
    assert b[4..4 + |i|] == i;
    assert b[4 + |i|..|b| - 2] == d;
    assert b[|b| - 2..] == y;
  }

  /** The level-1 section titles of the document, in order: "Summary", then
      "Inspection Reports" and whatever the inspection groups title when
      extraction succeeded, then "Detail of Alerts". The system-info heading
      has level 0 and so is not among them. */
  lemma BodySections(report: Report, hash: Attribute -> string, indent: string -> Option<string>,
                     extract: Report -> Extraction)
    requires |report.alerts| > 0
    ensures SectionTitles(BodyNodes(report, hash, indent, extract)) ==
            ["Summary"]
            + (match extract(report)
               case ExtractFailed(_) => []
               case Extracted(hosts, users, binaries) => ["Inspection Reports"] + SectionTitles(hosts + users + binaries))
            + ["Detail of Alerts"]
  {
    BodyTitlesByPart(report, hash, indent, extract);
    SummaryTitles(report, hash, indent);
    InspectionsTitles(extract(report));
    DetailsTitles(report, indent);
    SystemReportUntitled(report);
  }

  lemma BodyTitlesByPart(report: Report, hash: Attribute -> string, indent: string -> Option<string>,
                         extract: Report -> Extraction)
    requires |report.alerts| > 0
    ensures SectionTitles(BodyNodes(report, hash, indent, extract)) ==
            SectionTitles(Summary(report, hash, indent)) + SectionTitles(Inspections(extract(report)))
            + SectionTitles(Details(report, indent)) + SectionTitles(SystemReport(report))
  {
    SectionTitlesOfFour(Summary(report, hash, indent), Inspections(extract(report)),
                        Details(report, indent), SystemReport(report));
  }

  lemma SystemReportUntitled(report: Report)
    ensures SectionTitles(SystemReport(report)) == []
  {
    Untitled(SystemReport(report));
  }

  /** When extraction fails, the document is the summary, the alert details
      and the system info; only the inspection section is missing. */
  lemma ExtractionFailureOmitsInspections(report: Report, hash: Attribute -> string,
                                          indent: string -> Option<string>, extract: Report -> Extraction)
    requires |report.alerts| > 0 && extract(report).ExtractFailed?
    ensures BodyNodes(report, hash, indent, extract) == Summary(report, hash, indent) + Details(report, indent) + SystemReport(report)
    ensures SectionTitles(BodyNodes(report, hash, indent, extract)) == ["Summary", "Detail of Alerts"]
  {
    BodySections(report, hash, indent, extract);
  }
}
