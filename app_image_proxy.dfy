/** imageProxyItem (app/image_proxy.go): proxying the images of one feed item. */
module AppImageProxy {
  import opened Wrappers
  import opened Feeds
  import opened Url
  import opened Html
  import opened ImageProxy

  /** The item imageProxyItem leaves behind. */
  function ImageProxied(ip: ImageProxy, item: Item, host: string, platform: string, parse: Parser, render: Renderer): Item
  {
    var item := if item.content != "" then item.(content := ProxiedHTML(ip, item.content, host, platform, parse, render)) else item;
    var item := if item.description != "" then item.(description := ProxiedHTML(ip, item.description, host, platform, parse, render)) else item;
    if item.enclosure.Some? then item.(enclosure := Some(Enclosure(ProcessLink(ip, item.enclosure.value.url, host, platform)))) else item
  }

  /**
   * imageProxyItem: content, then description, through ProcessHTML when non-empty, and the enclosure
   * URL through ProcessLink when there is an enclosure. The source assigns the fields of the same item.
   */
  method ImageProxyItem(ip: ImageProxy, item: Item, host: string, platform: string, parse: Parser, render: Renderer)
    returns (out: Item)
    ensures out == ImageProxied(ip, item, host, platform, parse, render)
  {
    out := item;
    if out.content != "" {
      var content := ProcessHTML(ip, out.content, host, platform, parse, render);
      out := out.(content := content);
    }
    if out.description != "" {
      var description := ProcessHTML(ip, out.description, host, platform, parse, render);
      out := out.(description := description);
    }
    if out.enclosure.Some? {
      out := out.(enclosure := Some(Enclosure(ProcessLink(ip, out.enclosure.value.url, host, platform))));
    }
  }

  /**
   * Field by field: an empty content or description stays empty and a non-empty one is the HTML pass of
   * the original; an enclosure, even with an empty URL, becomes a proxy link whose s parameter decodes
   * to the old URL; no enclosure stays none; every other field is untouched.
   */
  lemma ImageProxiedFields(ip: ImageProxy, item: Item, host: string, platform: string, parse: Parser, render: Renderer)
    ensures var out := ImageProxied(ip, item, host, platform, parse, render);
      && (item.content == "" ==> out.content == "")
      && (item.content != "" ==> out.content == ProxiedHTML(ip, item.content, host, platform, parse, render))
      && (item.description == "" ==> out.description == "")
      && (item.description != "" ==> out.description == ProxiedHTML(ip, item.description, host, platform, parse, render))
      && (out.enclosure.Some? <==> item.enclosure.Some?)
      && (item.enclosure.Some? ==>
            && out.enclosure.value.url == UrlString(host, ip.path, "") + "?" + ProxyQuery(item.enclosure.value.url, platform)
            && QueryGet(ParseQuery(ProxyQuery(item.enclosure.value.url, platform)), Utf8Str("s")) == Utf8Str(item.enclosure.value.url))
      && out.(content := item.content, description := item.description, enclosure := item.enclosure) == item
  {
    if item.enclosure.Some? {
      ProcessLinkQuery(ip, item.enclosure.value.url, host, platform);
    }
  }
}
