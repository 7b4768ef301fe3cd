/**
 * The request handler (app/process.go): fetch through the load balancer, decide on translation from
 * the Host header, enrich every item in place, and serialise in the requested format.
 */
module AppProcess {
  import opened Wrappers
  import opened Config
  import opened Feeds
  import opened Html
  import opened Cache
  import opened LoadBalancer
  import ImageProxy
  import opened AppTranslate
  import opened AppImageProxy

  // ---------------------------------------------------------------------------
  // The target language

  predicate OccursAt(s: string, sub: string, i: nat)
  {
    i + |sub| <= |s| && s[i..i + |sub|] == sub
  }

  /** strings.Index from a position on: the first occurrence of sub at or after from, if any. */
  function IndexFrom(s: string, sub: string, from: nat): (r: Option<nat>)
    ensures r.Some? ==> from <= r.value && OccursAt(s, sub, r.value)
    ensures r.Some? ==> forall j: nat :: from <= j < r.value ==> !OccursAt(s, sub, j)
    ensures r.None? ==> forall j: nat :: from <= j ==> !OccursAt(s, sub, j)
    decreases |s| - from
  {
    if from + |sub| > |s| then None
    else if s[from..from + |sub|] == sub then Some(from)
    else IndexFrom(s, sub, from + 1)
  }

  /**
   * The target language: present exactly when translation is configured with a non-empty host base
   * that occurs in the host; it is then the host's text before the first occurrence, kept verbatim.
   */
  function TargetLang(t: Option<ConfigTranslate>, host: string): (lang: Option<string>)
    ensures lang.Some? <==> t.Some? && t.value.hostBase != "" && exists i: nat :: OccursAt(host, t.value.hostBase, i)
    ensures lang.Some? ==>
      && OccursAt(host, t.value.hostBase, |lang.value|)
      && lang.value == host[..|lang.value|]
      && forall j: nat :: j < |lang.value| ==> !OccursAt(host, t.value.hostBase, j)
  {
    if t.None? || t.value.hostBase == "" then None
    else
      match IndexFrom(host, t.value.hostBase, 0)
      case None => None
      case Some(i) => Some(host[..i])
  }

  /** The separator stays with the language: "en.feed.example.com" over "feed.example.com" gives "en.". */
  lemma TargetLangKeepsSeparator(t: ConfigTranslate)
    requires t.hostBase == "feed.example.com"
    ensures TargetLang(Some(t), "en.feed.example.com") == Some("en.")
  {
    var host := "en.feed.example.com";
    var base := t.hostBase;
    assert host == "en." + base;
    assert host[3..3 + |base|] == base;
    assert OccursAt(host, base, 3);
    forall j: nat | j < 3
      ensures !OccursAt(host, base, j)
    {
      assert host[j] != 'f';
      assert host[j..j + |base|][0] == host[j];
    }
  }

  /** A host that is exactly the base gives the empty language, which still turns translation on. */
  lemma TargetLangMayBeEmpty(t: ConfigTranslate, host: string)
    requires t.hostBase != "" && host == t.hostBase
    ensures TargetLang(Some(t), host) == Some("")
  {
    assert OccursAt(host, t.hostBase, 0);
  }

  // ---------------------------------------------------------------------------
  // Output formats

  datatype Format = Rss | Atom | Json

  /** The format query parameter: "atom" and "json" pick those, anything else (also "rss" and "") is RSS 2.0. */
  function FormatOf(param: string): (f: Format)
    ensures f == Atom <==> param == "atom"
    ensures f == Json <==> param == "json"
    ensures f == Rss <==> param != "atom" && param != "json"
  {
    match param
    case "rss" => Rss
    case "atom" => Atom
    case "json" => Json
    case _ => Rss
  }

  function ContentType(f: Format): (c: string)
    ensures c == "application/rss+xml" <==> f == Rss
    ensures c == "application/atom+xml" <==> f == Atom
    ensures c == "application/json" <==> f == Json
  {
    match f
    case Rss => "application/rss+xml"
    case Atom => "application/atom+xml"
    case Json => "application/json"
  }

  /** Each content type answers exactly its parameters: atom and json for themselves, RSS for everything else. */
  lemma ContentTypeOfParam(param: string)
    ensures ContentType(FormatOf(param)) == "application/atom+xml" <==> param == "atom"
    ensures ContentType(FormatOf(param)) == "application/json" <==> param == "json"
    ensures ContentType(FormatOf(param)) == "application/rss+xml" <==> param != "atom" && param != "json"
  {
  }

  // ---------------------------------------------------------------------------
  // Enrichment

  /** feed.ToRss, ToAtom or ToJSON: the document, or None on an error. */
  type Serializer = (Format, Feed) -> Option<string>

  /**
   * The handler's collaborators. The translator is present exactly when translation is configured and
   * the image proxy exactly when it is configured, as the application sets them up.
   */
  datatype App = App(
    cfg: Config,
    lb: LoadBalancer,
    fetch: Oracle,
    translate: Translator,
    parse: Parser,
    render: Renderer,
    serialize: Serializer)

  /** The request as the handler reads it: URL path, Host header, the platform path parameter and the format query parameter. */
  datatype Request = Request(path: string, host: string, platform: string, format: string)

  /** What the handler answers; Hung is a handler that never returns. */
  datatype Response = NoContent(status: int) | Blob(status: int, contentType: string, body: string) | Hung

  /** The enrichment gate: translator and language, or an image proxy. */
  predicate Enriches(cfg: Config, lang: Option<string>): (b: bool)
    ensures cfg.imageProxy.Some? ==> b
    ensures cfg.translate.Some? && lang.Some? ==> b
    ensures cfg.imageProxy.None? && (cfg.translate.None? || lang.None?) ==> !b
  {
    (cfg.translate.Some? && lang.Some?) || cfg.imageProxy.Some?
  }

  /** Image proxying alone opens the gate, with no language at all. */
  lemma ImageProxyAloneEnriches(cfg: Config)
    requires cfg.imageProxy.Some?
    ensures Enriches(cfg, None)
  {
  }

  /** One item through the loop body: translated when there is a translator and a language, then image-proxied when configured. */
  function Enriched(store: Store, available: bool, app: App, item: Item, lang: Option<string>, host: string, platform: string): (Item, Store)
  {
    var (item1, store1) :=
      if app.cfg.translate.Some? && lang.Some? then TranslatedItem(store, available, app.cfg.system, app.translate, item, lang.value, platform)
      else (item, store);
    var item2 :=
      if app.cfg.imageProxy.Some? then ImageProxied(ImageProxy.NewImageProxy(app.cfg.imageProxy.value), item1, host, platform, app.parse, app.render)
      else item1;
    (item2, store1)
  }

  /** The items after the loop, front to back, threading the store. */
  function EnrichedItems(store: Store, available: bool, app: App, items: seq<Item>, lang: Option<string>, host: string, platform: string)
    : (seq<Item>, Store)
  {
    if |items| == 0 then ([], store)
    else
      var (front, store1) := EnrichedItems(store, available, app, items[..|items| - 1], lang, host, platform);
      var (last, store2) := Enriched(store1, available, app, items[|items| - 1], lang, host, platform);
      (front + [last], store2)
  }

  /** The fields enrichment never touches: everything but title, description, content and enclosure. */
  predicate SameIdentity(a: Item, b: Item)
  {
    a.(title := b.title, description := b.description, content := b.content, enclosure := b.enclosure) == b
  }

  lemma EnrichedKeepsIdentity(store: Store, available: bool, app: App, item: Item, lang: Option<string>, host: string, platform: string)
    ensures SameIdentity(Enriched(store, available, app, item, lang, host, platform).0, item)
  {
    if app.cfg.translate.Some? && lang.Some? {
      PartsIndependent(store, available, app.cfg.system, app.translate, item, lang.value, platform);
    }
    var (item1, _) :=
      if app.cfg.translate.Some? && lang.Some? then TranslatedItem(store, available, app.cfg.system, app.translate, item, lang.value, platform)
      else (item, store);
    if app.cfg.imageProxy.Some? {
      ImageProxiedFields(ImageProxy.NewImageProxy(app.cfg.imageProxy.value), item1, host, platform, app.parse, app.render);
    }
  }

  /** The loop keeps the number and the order of items: item i of the result is item i of the input, enriched. */
  lemma {:induction false} EnrichedItemsKeepOrder(store: Store, available: bool, app: App, items: seq<Item>, lang: Option<string>, host: string, platform: string)
    ensures var (out, _) := EnrichedItems(store, available, app, items, lang, host, platform);
      |out| == |items| && forall i :: 0 <= i < |items| ==> SameIdentity(out[i], items[i])
  {
    if |items| > 0 {
      var front := items[..|items| - 1];
      EnrichedItemsKeepOrder(store, available, app, front, lang, host, platform);
      var (out1, store1) := EnrichedItems(store, available, app, front, lang, host, platform);
      EnrichedKeepsIdentity(store1, available, app, items[|items| - 1], lang, host, platform);
      var (out, _) := EnrichedItems(store, available, app, items, lang, host, platform);
      assert forall i :: 0 <= i < |front| ==> out[i] == out1[i] && items[i] == front[i];
    }
  }

  /**
   * Without a language the store is never touched, and with an image proxy configured every item is
   * exactly its image-proxied self.
   */
  lemma {:induction false} ImageProxyOnly(store: Store, available: bool, app: App, items: seq<Item>, host: string, platform: string)
    requires app.cfg.imageProxy.Some?
    ensures var (out, after) := EnrichedItems(store, available, app, items, None, host, platform);
      && after == store
      && |out| == |items|
      && forall i :: 0 <= i < |items| ==>
           out[i] == ImageProxied(ImageProxy.NewImageProxy(app.cfg.imageProxy.value), items[i], host, platform, app.parse, app.render)
  {
    if |items| > 0 {
      var front := items[..|items| - 1];
      ImageProxyOnly(store, available, app, front, host, platform);
      var ip := ImageProxy.NewImageProxy(app.cfg.imageProxy.value);
      var (out1, store1) := EnrichedItems(store, available, app, front, None, host, platform);
      var last := ImageProxied(ip, items[|items| - 1], host, platform, app.parse, app.render);
      EnrichedWithoutLang(store1, available, app, items[|items| - 1], host, platform);
      assert EnrichedItems(store, available, app, items, None, host, platform) == (out1 + [last], store1);
      forall i | 0 <= i < |items|
        ensures (out1 + [last])[i] == ImageProxied(ip, items[i], host, platform, app.parse, app.render)
      {
        if i < |front| {
          assert items[i] == front[i];
        }
      }
    }
  }

  lemma EnrichedWithoutLang(store: Store, available: bool, app: App, item: Item, host: string, platform: string)
    requires app.cfg.imageProxy.Some?
    ensures Enriched(store, available, app, item, None, host, platform) ==
      (ImageProxied(ImageProxy.NewImageProxy(app.cfg.imageProxy.value), item, host, platform, app.parse, app.render), store)
  {
  }

  lemma EnrichedItemsSnoc(store: Store, available: bool, app: App, items: seq<Item>, i: nat, lang: Option<string>, host: string, platform: string)
    requires i < |items|
    ensures EnrichedItems(store, available, app, items[..i + 1], lang, host, platform) ==
      var (front, store1) := EnrichedItems(store, available, app, items[..i], lang, host, platform);
      var (last, store2) := Enriched(store1, available, app, items[i], lang, host, platform);
      (front + [last], store2)
  {
    assert items[..i + 1][..i] == items[..i];
  }

  /** One pass of the loop body: translateItem when translation is configured and a language was found, then imageProxyItem when configured. */
  method EnrichItem(app: App, cache: Client, item: Item, targetLang: Option<string>, host: string, platform: string)
    returns (processedItem: Item)
    modifies cache
    ensures (processedItem, cache.entries) == Enriched(old(cache.entries), cache.available, app, item, targetLang, host, platform)
  {
    processedItem := item;
    if app.cfg.translate.Some? && targetLang.Some? {
      processedItem := TranslateItem(cache, app.cfg.system, app.translate, processedItem, targetLang.value, platform);
    }
    if app.cfg.imageProxy.Some? {
      processedItem := ImageProxyItem(ImageProxy.NewImageProxy(app.cfg.imageProxy.value), processedItem, host, platform, app.parse, app.render);
    }
  }

  /**
   * The loop of process: each item in turn goes through translateItem and imageProxyItem as configured
   * and is stored back at its own index.
   */
  method EnrichItems(app: App, cache: Client, items: seq<Item>, targetLang: Option<string>, host: string, platform: string)
    returns (out: seq<Item>)
    modifies cache
    ensures (out, cache.entries) == EnrichedItems(old(cache.entries), cache.available, app, items, targetLang, host, platform)
  {
    out := items;
    var i := 0;
    while i < |out|
      invariant 0 <= i <= |out| == |items|
      invariant (out[..i], cache.entries) == EnrichedItems(old(cache.entries), cache.available, app, items[..i], targetLang, host, platform)
      invariant forall k :: i <= k < |out| ==> out[k] == items[k]
    {
      EnrichedItemsSnoc(old(cache.entries), cache.available, app, items, i, targetLang, host, platform);
      var processedItem := out[i];
      processedItem := EnrichItem(app, cache, processedItem, targetLang, host, platform);
      out := out[i := processedItem];
      assert out[..i + 1] == out[..i] + [processedItem];
      i := i + 1;
    }
    assert out == out[..i];
    assert items[..i] == items;
  }

  // ---------------------------------------------------------------------------
  // The handler

  /** The answer for a fetched feed: the enriched feed serialised in the requested format, or 500 when that fails. */
  function Served(store: Store, available: bool, app: App, req: Request, feed: Feed): (Response, Store)
  {
    var lang := TargetLang(app.cfg.translate, req.host);
    var (items, after) :=
      if Enriches(app.cfg, lang) then EnrichedItems(store, available, app, feed.items, lang, req.host, req.platform)
      else (feed.items, store);
    var format := FormatOf(req.format);
    match app.serialize(format, feed.(items := items))
    case None => (NoContent(500), after)
    case Some(body) => (Blob(200, ContentType(format), body), after)
  }

  /**
   * process. A fetch error is a 500 before any enrichment and a blocked fetch never answers; otherwise
   * the answer and the cache are those of Served on the fetched feed.
   */
  method Process(app: App, cache: Client, req: Request)
    returns (resp: Response, ghost fetched: Attempt<Feed>,
             ghost preferred: Option<Attempt<JSONFeed>>, ghost fallback: Option<Attempt<JSONFeed>>)
    modifies cache
    ensures FetchOutcome(app.lb, req.path, req.platform, app.fetch, fetched, preferred, fallback)
    ensures fetched.Err? ==> resp == NoContent(500) && cache.entries == old(cache.entries)
    ensures fetched.Stuck? ==> resp == Hung && cache.entries == old(cache.entries)
    ensures fetched.Ok? ==> (resp, cache.entries) == Served(old(cache.entries), cache.available, app, req, fetched.value)
  {
    var res;
    res, preferred, fallback := Fetch(app.lb, req.path, req.platform, app.fetch);
    fetched := res;
    if res.Stuck? {
      return Hung, fetched, preferred, fallback;
    }
    if res.Err? {
      return NoContent(500), fetched, preferred, fallback;
    }
    var feed := res.value;

    var targetLang := TargetLang(app.cfg.translate, req.host);

    if (app.cfg.translate.Some? && targetLang.Some?) || app.cfg.imageProxy.Some? {
      var items := EnrichItems(app, cache, feed.items, targetLang, req.host, req.platform);
      feed := feed.(items := items);
    }

    var format := FormatOf(req.format);
    var result := app.serialize(format, feed);
    if result.None? {
      return NoContent(500), fetched, preferred, fallback;
    }
    resp := Blob(200, ContentType(format), result.value);
  }
}
