/**
 * The image rewriter and relay (modules/image_proxy.go): proxy links, the img-src rewrite over an
 * HTML tree, the fail-open HTML pass and the per-platform header rules of the relay.
 */
module ImageProxy {
  import opened Wrappers
  import opened Config
  import opened Url
  import opened Html

  datatype ImageProxy = ImageProxy(path: string, rules: map<string, ConfigImageProxyRule>)

  /** NewImageProxy: the relay is served at the configured path and applies the configured per-platform rules. */
  function NewImageProxy(cfg: ConfigImageProxy): (ip: ImageProxy)
    ensures ip.path == cfg.path && ip.rules == cfg.rules
  {
    ImageProxy(cfg.path, cfg.rules)
  }

  // ---------------------------------------------------------------------------
  // Proxy links

  /** The query url.Values.Encode writes for {s: src, p: platform}: keys sorted, so p comes first. */
  function ProxyQuery(src: string, platform: string): string
  {
    "p=" + QueryEscape(platform) + "&s=" + QueryEscape(src)
  }

  /** ProcessLink: no scheme, the request's host, the configured path, and the query above. */
  function ProcessLink(p: ImageProxy, src: string, host: string, platform: string): (link: string)
    ensures host != "" ==> |link| >= |host| + 2 && link[..|host| + 2] == "//" + host
    ensures |link| > |ProxyQuery(src, platform)|
    ensures link[|link| - |ProxyQuery(src, platform)| - 1..] == "?" + ProxyQuery(src, platform)
    ensures host != "" && (p.path == "" || p.path[0] == '/') ==> link == "//" + host + p.path + "?" + ProxyQuery(src, platform)
  {
    UrlStringWithHost(host, p.path, ProxyQuery(src, platform));
    UrlString(host, p.path, ProxyQuery(src, platform))
  }

  /** One "k=escaped" part of the proxy query: no '&' or ';' in it, and it parses to the pair (k, s). */
  lemma ProxyQueryPart(k: char, s: string)
    requires k == 'p' || k == 's'
    ensures '&' !in [k, '='] + QueryEscape(s) && ';' !in [k, '='] + QueryEscape(s)
    ensures Utf8Str([k]) == [k as int as byte]
    ensures ParseQuery([k, '='] + QueryEscape(s)) == [(Utf8Str([k]), Utf8Str(s))]
  {
    var e := QueryEscape(s);
    QueryEscapeRoundTrip(s);
    var part := [k, '='] + e;
    forall i | 0 <= i < |part|
      ensures part[i] != '&' && part[i] != ';'
    {
      if i >= 2 { assert part[i] == e[i - 2]; }
    }
    CutAt([k], e, '=');
    assert [k] + ['='] + e == part;
    assert Cut(part, '&') == (part, "");
    assert QueryUnescape([k]) == Some(Utf8Str([k]));
  }

  /** ParseQuery reads one well-formed part off the front. */
  lemma ParseQueryFront(part: string, rest: string)
    requires part != "" && '&' !in part && ';' !in part
    ensures ParseQuery(part + ['&'] + rest) == ParseQuery(part) + ParseQuery(rest)
  {
    CutAt(part, rest, '&');
    assert Cut(part, '&') == (part, "");
  }

  /**
   * The link is the host-and-path part, '?', and a query that decodes to exactly two pairs,
   * p = platform then s = src, so the relay reads back the original URL and platform.
   */
  lemma ProcessLinkQuery(p: ImageProxy, src: string, host: string, platform: string)
    ensures ProcessLink(p, src, host, platform) == UrlString(host, p.path, "") + "?" + ProxyQuery(src, platform)
    ensures ParseQuery(ProxyQuery(src, platform)) == [(Utf8Str("p"), Utf8Str(platform)), (Utf8Str("s"), Utf8Str(src))]
    ensures QueryGet(ParseQuery(ProxyQuery(src, platform)), Utf8Str("s")) == Utf8Str(src)
    ensures QueryGet(ParseQuery(ProxyQuery(src, platform)), Utf8Str("p")) == Utf8Str(platform)
  {
    assert ProxyQuery(src, platform) != "";
    ProxyQueryDecodes(src, platform);
    var pairs := ParseQuery(ProxyQuery(src, platform));
    assert pairs[0].0 != Utf8Str("s");
    assert QueryGet(pairs, Utf8Str("s")) == QueryGet(pairs[1..], Utf8Str("s"));
  }

  lemma ProxyQueryDecodes(src: string, platform: string)
    ensures Utf8Str("p") == [112] && Utf8Str("s") == [115]
    ensures ParseQuery(ProxyQuery(src, platform)) == [(Utf8Str("p"), Utf8Str(platform)), (Utf8Str("s"), Utf8Str(src))]
  {
    var first, second := ['p', '='] + QueryEscape(platform), ['s', '='] + QueryEscape(src);
    ProxyQueryPart('p', platform);
    ProxyQueryPart('s', src);
    assert ProxyQuery(src, platform) == first + ['&'] + second;
    ParseQueryFront(first, second);
    assert ParseQuery(first) + ParseQuery(second) == [(Utf8Str("p"), Utf8Str(platform)), (Utf8Str("s"), Utf8Str(src))];
  }

  /**
   * With a host, the link is scheme-relative and the relay's path sits between the host and the query;
   * url.URL.String puts a '/' in front of a configured path that lacks one.
   */
  lemma ProcessLinkPath(p: ImageProxy, src: string, host: string, platform: string)
    requires host != "" && p.path != "" && p.path[0] != '/'
    ensures ProcessLink(p, src, host, platform) == "//" + host + "/" + p.path + "?" + ProxyQuery(src, platform)
  {
  }

  // ---------------------------------------------------------------------------
  // The img src rewrite

  predicate IsImg(n: Node)
  {
    n.kind == ElementNode && n.data == "img"
  }

  /** An attribute after the rewrite: a src of an img element becomes its proxy link; anything else stays. */
  function RewrittenAttr(p: ImageProxy, a: Attribute, img: bool, host: string, platform: string): Attribute
  {
    if img && a.key == "src" then a.(val := ProcessLink(p, a.val, host, platform)) else a
  }

  function RewrittenAttrs(p: ImageProxy, attrs: seq<Attribute>, img: bool, host: string, platform: string): (r: seq<Attribute>)
    ensures |r| == |attrs|
  {
    seq(|attrs|, i requires 0 <= i < |attrs| => RewrittenAttr(p, attrs[i], img, host, platform))
  }

  /** The tree traverseHTMLTree leaves behind. */
  function Rewritten(p: ImageProxy, n: Node, host: string, platform: string): Node
    decreases n, 1
  {
    n.(attrs := RewrittenAttrs(p, n.attrs, IsImg(n), host, platform),
       children := RewrittenNodes(p, n.children, host, platform))
  }

  function RewrittenNodes(p: ImageProxy, nodes: seq<Node>, host: string, platform: string): (r: seq<Node>)
    ensures |r| == |nodes|
    decreases nodes, 0
  {
    seq(|nodes|, k requires 0 <= k < |nodes| => Rewritten(p, nodes[k], host, platform))
  }

  /** The attribute loop of traverseHTMLTree for an img element: every src value becomes its proxy link. */
  method RewriteImgAttrs(p: ImageProxy, attrs: seq<Attribute>, host: string, platform: string) returns (r: seq<Attribute>)
    ensures r == RewrittenAttrs(p, attrs, true, host, platform)
  {
    r := attrs;
    var i := 0;
    while i < |r|
      invariant 0 <= i <= |r| == |attrs|
      invariant forall k :: 0 <= k < i ==> r[k] == RewrittenAttr(p, attrs[k], true, host, platform)
      invariant forall k :: i <= k < |r| ==> r[k] == attrs[k]
    {
      var a := r[i];
      assert a == attrs[i];
      if a.key == "src" {
        r := r[i := a.(val := ProcessLink(p, a.val, host, platform))];
      }
      i := i + 1;
    }
    assert forall k :: 0 <= k < |r| ==> r[k] == RewrittenAttrs(p, attrs, true, host, platform)[k];
  }

  /**
   * traverseHTMLTree. The source updates n.Attr[i].Val in place and recurses through the child links;
   * here the node is a value and the updated node is returned.
   */
  method TraverseHTMLTree(p: ImageProxy, n: Node, host: string, platform: string) returns (m: Node)
    ensures m == Rewritten(p, n, host, platform)
    decreases n
  {
    var attrs := n.attrs;
    if n.kind == ElementNode && n.data == "img" {
      attrs := RewriteImgAttrs(p, attrs, host, platform);
    }
    var children := n.children;
    var j := 0;
    while j < |children|
      invariant 0 <= j <= |children| == |n.children|
      invariant forall k :: 0 <= k < j ==> children[k] == Rewritten(p, n.children[k], host, platform)
      invariant forall k :: j <= k < |children| ==> children[k] == n.children[k]
    {
      var c := TraverseHTMLTree(p, n.children[j], host, platform);
      children := children[j := c];
      j := j + 1;
    }
    assert children == RewrittenNodes(p, n.children, host, platform);
    m := n.(attrs := attrs, children := children);
  }

  // ---------------------------------------------------------------------------
  // What the rewrite preserves

  /** The tree with every attribute value blanked: its shape, tags, text and attribute keys. */
  function Shape(n: Node): Node
    decreases n
  {
    n.(attrs := seq(|n.attrs|, i requires 0 <= i < |n.attrs| => n.attrs[i].(val := "")),
       children := seq(|n.children|, i requires 0 <= i < |n.children| => Shape(n.children[i])))
  }

  /** No node or attribute is added or removed, and only attribute values change. */
  lemma {:induction false} RewritePreservesShape(p: ImageProxy, n: Node, host: string, platform: string)
    ensures Shape(Rewritten(p, n, host, platform)) == Shape(n)
    decreases n
  {
    var r := Rewritten(p, n, host, platform);
    assert r.children == RewrittenNodes(p, n.children, host, platform);
    forall i | 0 <= i < |n.children|
      ensures Shape(r.children[i]) == Shape(n.children[i])
    {
      assert r.children[i] == Rewritten(p, n.children[i], host, platform);
      RewritePreservesShape(p, n.children[i], host, platform);
    }
    assert Shape(r).attrs == Shape(n).attrs;
    assert Shape(r).children == Shape(n).children;
  }

  /** One node as a depth-first visit sees it: its type, tag or text, and attributes. */
  datatype Label = Label(kind: NodeType, data: string, attrs: seq<Attribute>)

  /** The nodes of a tree in depth-first order (node, then its children's subtrees left to right). */
  function Preorder(n: Node): seq<Label>
    decreases n, 1
  {
    [Label(n.kind, n.data, n.attrs)] + PreorderAll(n.children)
  }

  function PreorderAll(ns: seq<Node>): seq<Label>
    decreases ns, 0
  {
    if |ns| == 0 then [] else Preorder(ns[0]) + PreorderAll(ns[1..])
  }

  /** The rewrite of one visited node, judged from that node alone. */
  function RewrittenLabel(p: ImageProxy, l: Label, host: string, platform: string): Label
  {
    l.(attrs := RewrittenAttrs(p, l.attrs, l.kind == ElementNode && l.data == "img", host, platform))
  }

  function RewrittenLabels(p: ImageProxy, ls: seq<Label>, host: string, platform: string): (r: seq<Label>)
    ensures |r| == |ls|
  {
    seq(|ls|, i requires 0 <= i < |ls| => RewrittenLabel(p, ls[i], host, platform))
  }

  lemma RewrittenLabelsAppend(p: ImageProxy, a: seq<Label>, b: seq<Label>, host: string, platform: string)
    ensures RewrittenLabels(p, a + b, host, platform) == RewrittenLabels(p, a, host, platform) + RewrittenLabels(p, b, host, platform)
  {
  }

  /**
   * Every node of the tree, in depth-first order, is visited exactly once and rewritten by the
   * local rule: img src values become proxy links, everything else is left as it was.
   */
  lemma {:induction false} RewriteVisitsEveryNode(p: ImageProxy, n: Node, host: string, platform: string)
    ensures Preorder(Rewritten(p, n, host, platform)) == RewrittenLabels(p, Preorder(n), host, platform)
    decreases n, 1
  {
    var r := Rewritten(p, n, host, platform);
    RewriteVisitsEveryChild(p, n.children, host, platform);
    var top := Label(n.kind, n.data, n.attrs);
    RewrittenLabelsAppend(p, [top], PreorderAll(n.children), host, platform);
    assert RewrittenLabels(p, [top], host, platform) == [Label(r.kind, r.data, r.attrs)];
    assert Preorder(r) == [Label(r.kind, r.data, r.attrs)] + PreorderAll(r.children);
    assert PreorderAll(r.children) == RewrittenLabels(p, PreorderAll(n.children), host, platform);
    assert Preorder(n) == [top] + PreorderAll(n.children);
  }

  lemma {:induction false} RewriteVisitsEveryChild(p: ImageProxy, ns: seq<Node>, host: string, platform: string)
    ensures PreorderAll(RewrittenNodes(p, ns, host, platform)) == RewrittenLabels(p, PreorderAll(ns), host, platform)
    decreases ns, 0
  {
    var rs := RewrittenNodes(p, ns, host, platform);
    if |ns| > 0 {
      RewriteVisitsEveryNode(p, ns[0], host, platform);
      RewriteVisitsEveryChild(p, ns[1..], host, platform);
      assert rs[1..] == RewrittenNodes(p, ns[1..], host, platform);
      RewrittenLabelsAppend(p, Preorder(ns[0]), PreorderAll(ns[1..]), host, platform);
    }
  }

  // ---------------------------------------------------------------------------
  // ProcessHTML

  /** The rendered nodes in order, or None as soon as one of them fails to render. */
  function RenderAll(nodes: seq<Node>, render: Renderer): Option<string>
  {
    if |nodes| == 0 then Some("")
    else
      var front := RenderAll(nodes[..|nodes| - 1], render);
      var last := render(nodes[|nodes| - 1]);
      if front.None? || last.None? then None else Some(front.value + last.value)
  }

  /** Rendering all nodes succeeds exactly when every single node renders. */
  lemma {:induction false} RenderAllSucceeds(nodes: seq<Node>, render: Renderer)
    ensures RenderAll(nodes, render).Some? <==> forall k :: 0 <= k < |nodes| ==> render(nodes[k]).Some?
  {
    if |nodes| > 0 {
      var front := nodes[..|nodes| - 1];
      RenderAllSucceeds(front, render);
      assert forall k :: 0 <= k < |front| ==> front[k] == nodes[k];
    }
  }

  /** What ProcessHTML returns: the input itself on a parse or render error, otherwise the rendered rewrite. */
  function ProxiedHTML(p: ImageProxy, content: string, host: string, platform: string, parse: Parser, render: Renderer): string
  {
    match parse(content)
    case None => content
    case Some(nodes) =>
      match RenderAll(RewrittenNodes(p, nodes, host, platform), render)
      case None => content
      case Some(out) => out
  }

  /**
   * Fail-open: a parse error, or a render error on any top-level node, yields the original text;
   * otherwise the result is the rendered rewritten nodes, concatenated in order.
   */
  lemma ProxiedHTMLCases(p: ImageProxy, content: string, host: string, platform: string, parse: Parser, render: Renderer)
    ensures parse(content).None? ==> ProxiedHTML(p, content, host, platform, parse, render) == content
    ensures parse(content).Some? ==>
      var rs := RewrittenNodes(p, parse(content).value, host, platform);
      && ((exists k :: 0 <= k < |rs| && render(rs[k]).None?) ==> ProxiedHTML(p, content, host, platform, parse, render) == content)
      && ((forall k :: 0 <= k < |rs| ==> render(rs[k]).Some?) ==>
            RenderAll(rs, render).Some? && ProxiedHTML(p, content, host, platform, parse, render) == RenderAll(rs, render).value)
  {
    if parse(content).Some? {
      RenderAllSucceeds(RewrittenNodes(p, parse(content).value, host, platform), render);
    }
  }

  /** RenderAll of a prefix, extended by one more rendered node. */
  lemma RenderAllSnoc(nodes: seq<Node>, k: nat, render: Renderer)
    requires k < |nodes|
    ensures RenderAll(nodes[..k + 1], render) ==
      (if RenderAll(nodes[..k], render).None? || render(nodes[k]).None? then None
       else Some(RenderAll(nodes[..k], render).value + render(nodes[k]).value))
  {
    assert nodes[..k + 1][..k] == nodes[..k];
  }

  /** ProcessHTML: parse, then for each top-level node rewrite it and append its rendering to a buffer. */
  method ProcessHTML(p: ImageProxy, content: string, host: string, platform: string, parse: Parser, render: Renderer)
    returns (out: string)
    ensures out == ProxiedHTML(p, content, host, platform, parse, render)
  {
    var parsed := parse(content);
    if parsed.None? {
      return content;
    }
    var nodes := parsed.value;
    ghost var rs := RewrittenNodes(p, nodes, host, platform);
    var b := "";
    var k := 0;
    while k < |nodes|
      invariant 0 <= k <= |nodes|
      invariant RenderAll(rs[..k], render) == Some(b)
    {
      var node := TraverseHTMLTree(p, nodes[k], host, platform);
      var rendered := render(node);
      RenderAllSnoc(rs, k, render);
      if rendered.None? {
        RenderAllSucceeds(rs, render);
        return content;
      }
      b := b + rendered.value;
      k := k + 1;
    }
    assert rs[..k] == rs;
    out := b;
  }

  // ---------------------------------------------------------------------------
  // The relay

  datatype Header = Header(name: string, value: string)

  /** The headers Proxy adds for a platform: Origin, then Referer, each only when the rule sets it. */
  function RuleHeaders(rules: map<string, ConfigImageProxyRule>, platform: string): (hs: seq<Header>)
    ensures forall v :: Header("Origin", v) in hs <==> platform in rules && rules[platform].origin == Some(v)
    ensures forall v :: Header("Referer", v) in hs <==> platform in rules && rules[platform].referer == Some(v)
    ensures forall h :: h in hs ==> h.name == "Origin" || h.name == "Referer"
    ensures platform !in rules ==> hs == []
    ensures |hs| == (if platform in rules && rules[platform].origin.Some? then 1 else 0)
                  + (if platform in rules && rules[platform].referer.Some? then 1 else 0)
  {
    if platform in rules then
      (if rules[platform].origin.Some? then [Header("Origin", rules[platform].origin.value)] else [])
      + (if rules[platform].referer.Some? then [Header("Referer", rules[platform].referer.value)] else [])
    else []
  }

  datatype Request = Request(verb: string, url: string, headers: seq<Header>)

  datatype UpstreamResponse = UpstreamResponse(status: int, contentType: string, body: seq<byte>)

  datatype Reply = NoContent(status: int) | Stream(status: int, contentType: string, body: seq<byte>)

  /**
   * Proxy, given the decoded query parameters s and p. Building the request (validUrl) and sending it
   * (send) are library calls passed in; a failure of either is a 500, otherwise the upstream status,
   * content type and body are streamed back.
   */
  function Proxy(ip: ImageProxy, imageSrc: string, platform: string, validUrl: string -> bool, send: Request -> Option<UpstreamResponse>): (reply: Reply)
    ensures !validUrl(imageSrc) ==> reply == NoContent(500)
    ensures validUrl(imageSrc) && send(Request("GET", imageSrc, RuleHeaders(ip.rules, platform))).None? ==> reply == NoContent(500)
    ensures reply.Stream? ==>
      exists res :: send(Request("GET", imageSrc, RuleHeaders(ip.rules, platform))) == Some(res)
        && reply == Stream(res.status, res.contentType, res.body)
    ensures validUrl(imageSrc) && send(Request("GET", imageSrc, RuleHeaders(ip.rules, platform))).Some? ==>
      var res := send(Request("GET", imageSrc, RuleHeaders(ip.rules, platform))).value;
      reply == Stream(res.status, res.contentType, res.body)
  {
    if !validUrl(imageSrc) then NoContent(500)
    else
      var res := send(Request("GET", imageSrc, RuleHeaders(ip.rules, platform)));
      if res.None? then NoContent(500) else Stream(res.value.status, res.value.contentType, res.value.body)
  }
}
