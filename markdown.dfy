/**
  The Markdown document model the report transformer builds: a closed set of
  node kinds and a document that only ever grows by appending node sequences.
 */
module Markdown {

  /** One Markdown node. Inline text nodes carry their text; a heading carries
      its level and one inline node; a list carries its items in rendering order. */
  datatype Node =
    | Literal(text: string)
    | Code(text: string)
    | Bold(text: string)
    | CodeBlock(text: string)
    | Heading(level: int, content: Node)
    | List(items: seq<ListItem>)
    | HorizontalRules

  /** A bullet of a list: an inline sequence of nodes. */
  datatype ListItem = ListItem(content: seq<Node>)

  /** The heading levels Markdown has markers for. */
  predicate ValidLevel(level: int)
  {
    1 <= level <= 6
  }

  /** The document under construction: an ordered sequence of top-level nodes. */
  class Document {
    var nodes: seq<Node>

    constructor ()
      ensures nodes == []
    {
      nodes := [];
    }

    /** Appends a section; what was there before keeps its place and order. */
    method Extend(more: seq<Node>)
      modifies this
      ensures nodes == old(nodes) + more
      ensures nodes[..|old(nodes)|] == old(nodes)
    {
      nodes := nodes + more;
    }
  }
}
