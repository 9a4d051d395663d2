# deepalert-github: report to Markdown issue body

This project models the transformer in `body.go` of deepalert-github. The
transformer turns a deepalert `Report` into the ordered Markdown nodes of a
GitHub issue body. The document has four parts, in this order:

1. A **Summary**: a level-1 heading and a list with the severity, the reason,
   and the detector and rule of the *first* alert. Then a level-2
   "Attributes" heading and the attributes of all alerts. This list is
   deduplicated by attribute fingerprint (`Attribute.Hash()`), keeping the
   first attribute seen.
2. The **Inspection Reports**: a heading, then the host, user and binary groups.
   When content extraction fails, this section is left out entirely.
3. The **Detail of Alerts**: a heading, then four nodes per alert: an info
   list, an "Attributes" heading, the alert's own attribute list (not
   deduplicated) and a horizontal rule.
4. The **System Info**: a heading and a list with the report ID and status.

Files:
- `wrappers.dfy`: the `Option` datatype.
- `markdown.dfy`: the node vocabulary (`Node`, `ListItem`) and the `Document`
  class, which only grows through `Extend`.
- `deepalert.dfy`: the parts of `Attribute`, `Alert` and `Report` that the
  transformer reads.
- `body.dfy`: the transformer.
  - `AttrToContents` and `SystemReport` are functions, as in the source.
  - `BuildSummary`, `JoinAsCode` and `BuildAlerts` (with `AttributeList`) are
    methods with loops. Each is proved against a specification function
    (`Summary`, `Details`) or states its result outright.
  - `ReportToBody` is a method without a loop. It grows a `Document` through
    four `Extend` calls, one per section, and is proved to render exactly
    `BodyNodes`.
- `properties.dfy`: the lemmas about those specification functions, and a
  reader (`ParseContents`) that turns rendered attribute contents back into
  key, tag and shown value, used to state the rendering round trip.

The collaborators whose code is not part of this model are parameters:
- `hash`: the attribute fingerprint. It can be any deterministic function, and
  every dedup property is stated relative to it.
- `indent`: JSON indentation. It returns `None` when the value is not valid JSON.
- `extract`: `Report.ExtractContents` together with `buildHostInspections`,
  `buildUserInspections` and `buildBinaryInspections`. It yields an
  `Extraction`: either a failure, or three node groups.
- `render`: `Document.Render`. It returns `None` when rendering fails.

The model keeps these behaviours of the code, which a reader might not expect:
- The System Info heading never gets a level, so its level is 0. This is
  outside the 1..6 range that headings are meant to have. One consequence:
  `BodySections` lists no "System Info" among the level-1 section titles.
- When rendering fails, `reportToBody` returns no buffer and no error. The
  error is swallowed rather than passed on.
- Per-alert attribute lists are not deduplicated. Only the Summary list is.
- The "json" tag is rendered like other tags: `" ("`, `Code("json")`,
  `"): \n"`. The code block and a trailing newline literal follow.
- An empty alert list is not reported as an error. `buildSummary` reads
  `Alerts[0]` unguarded, so the model requires at least one alert.

## Model

| member | source | states |
|---|---|---|
| `Body.AttrToContents` | body.go:14-54 | Every rendering starts with the key as a literal. It has 3 nodes exactly when the tag is empty, 6 exactly when the tag is "json", and 5 for any other tag. |
| `BodyProperties.ParseRendered` | body.go:14-54 | Reading a rendered attribute back gives its key, its tag and its value. For "json", the value read back is the indented text, or the raw value when indentation fails. |
| `BodyProperties.RenderParsed` | body.go:14-54 | The converse: any node sequence that reads as an attribute is exactly the rendering of that attribute. |
| `BodyProperties.JsonNeverFails` | body.go:26-42 | A "json" attribute always yields 6 nodes: the tag as code, `"): \n"`, a code block and `"\n"`. The code block holds the indented JSON, or the raw value unchanged when the value is not JSON. No error is possible. |
| `Body.BuildSummary` | body.go:56-104 | The nested loop with its seen-fingerprint set builds exactly `Summary`. The attribute list is the rendering of `Dedup` over all alerts' attributes, in alert-then-attribute order. |
| `BodyProperties.DedupOrigins` | body.go:57-69 | The dedup keeps exactly the first attribute of each fingerprint. The kept attributes come from strictly increasing positions, each is the first with its fingerprint, and every such first position is kept. |
| `BodyProperties.DedupDistinct` | body.go:59-68 | No two kept attributes share a fingerprint. |
| `BodyProperties.DedupHashes` | body.go:57-69 | No fingerprint is lost, and the number of kept attributes equals the number of distinct fingerprints. |
| `BodyProperties.DedupOnePerHash` | body.go:59-68 | Each fingerprint that occurs is carried by exactly one kept attribute. |
| `BodyProperties.SummaryShape` | body.go:71-101 | The summary has 4 nodes: the level-1 "Summary" heading; the severity, reason, detector and rule list, with detector and rule taken from the first alert; the level-2 "Attributes" heading; and one item per distinct fingerprint, rendering the first attribute with it, in first-seen order. |
| `Body.JoinAsCode` | body.go:106-115 | For n strings the result has 0 nodes when n is 0, and 2n-1 nodes otherwise. Even positions hold the strings as code, in order. Odd positions hold `", "`, with none trailing. |
| `Body.Inspections` | body.go:117-140 | The section is empty exactly when extraction fails. Otherwise it is the "Inspection Reports" heading, then the host, user and binary groups in that order. |
| `Body.AttributeList` | body.go:167-174 | An alert's attribute list has one item per attribute, in order, with duplicates kept. |
| `BodyProperties.RenderItemsShape` | body.go:168-172 | The attribute list has exactly as many items as there are attributes. Item k is the rendering of attribute k. |
| `Body.BuildAlerts` | body.go:142-179 | The loop builds exactly `Details`: the heading, then each alert's block in alert order. |
| `BodyProperties.AlertBlocksShape` | body.go:150-176 | The alert blocks have 4 nodes per alert. Nodes 4i to 4i+3 are the block of alert i. |
| `BodyProperties.DetailsShape` | body.go:142-178 | The detail section has 1+4n nodes: the "Detail of Alerts" heading, then for each alert its info list, the level-2 "Attributes" heading, a list with one item per attribute (duplicates kept), and a horizontal rule. |
| `BodyProperties.DetailsContains` | body.go:167-172 | Every attribute of an alert is listed in that alert's detail block. |
| `BodyProperties.SharedAttribute` | body.go:59-68 | Two alerts may carry attributes with the same fingerprint. Then the summary list has exactly one item index whose kept attribute has that fingerprint, and that item is the rendering of the attribute. Each alert's detail list still holds its own attribute. |
| `BodyProperties.RepeatedAttributeListedOnce` | body_test.go:17-157 | Alerts that all carry one identical attribute: the summary list is that single item, and every alert's detail list is that single item. |
| `Body.SystemReport` | body.go:181-205 | Two nodes. The first is the "System Info" heading, whose level is 0, which is not a valid Markdown level. The second is a list of exactly two items: the report ID and then the status, each shown as code. |
| `Body.ReportToBody` | body.go:207-220 | The buffer is the rendering of summary ++ inspections ++ details ++ system info. It is absent when rendering fails, and the error is always absent. |
| `BodyProperties.BodyLayout` | body.go:208-212 | The document is the four sections back to back, at fixed positions: summary at 0..4, then inspections, then details, with system info as the last two nodes. |
| `BodyProperties.BodySections` | body.go:208-212 | The level-1 titles, in order, are "Summary", then "Inspection Reports" and the inspection groups' own titles when extraction succeeded, then "Detail of Alerts". |
| `BodyProperties.ExtractionFailureOmitsInspections` | body.go:117-123 | When extraction fails, the document is summary ++ details ++ system info, and its section titles are just "Summary" and "Detail of Alerts". |
| `Markdown.Document.Extend` | body.go:208-212 | Appending a section keeps everything already in the document, in place and in order. |
| `Markdown.Document.constructor` | body.go:208 | A new document is empty. |

## Left out

- The Markdown renderer (`Document.Render`): its source is not part of this model. It is the `render` parameter, and no text-level property (spacing around code, bullet markers, heading markers) is proved.
- `json.Indent`: it is the `indent` parameter. The model does not check that indentation preserves the JSON content.
- `Attribute.Hash()`: it is the `hash` parameter. The model does not depend on collision resistance.
- `Report.ExtractContents` and the host, user and binary inspection builders: they are collaborators whose code is not part of this model. Their combined output is the `Extraction` parameter, so the report's sections are not fields of `Report`.
- `time.Format` with `timeFormat`: alert timestamps are modelled as already-formatted strings.
- The `Logger` calls (body.go:120, 132, 137, 202): they only log, so they are omitted.
- Alert fields the transformer never reads, such as `AlertKey`, and attribute context beyond its part in the fingerprint.
- Go's distinction between a nil slice and an empty slice is not modelled. Both are the empty sequence.
- The three appends per alert in `buildAlerts` are modelled as one append of the same four nodes, which gives the same sequence.
- The panic on an empty alert list: it is a precondition of `BuildSummary`, `Summary`, `BodyNodes` and `ReportToBody`.
