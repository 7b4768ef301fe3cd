/**
 * The HTML tree the image rewriter works on (golang.org/x/net/html's Node, with the sibling and
 * child links flattened into a sequence of children). Parsing and rendering are library code and
 * enter the model as functions passed in.
 */
module Html {
  import opened Wrappers

  datatype NodeType = ErrorNode | TextNode | DocumentNode | ElementNode | CommentNode | DoctypeNode | RawNode

  datatype Attribute = Attribute(namespace: string, key: string, val: string)

  datatype Node = Node(kind: NodeType, data: string, attrs: seq<Attribute>, children: seq<Node>)

  /** html.ParseFragment under a <body> context: the top-level nodes, or None on a parse error. */
  type Parser = string -> Option<seq<Node>>

  /** html.Render of one node and its descendants, or None on a render error. */
  type Renderer = Node -> Option<string>
}
