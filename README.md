# rsshub-smart-layer: a verified model of the feed pipeline

RSSHub Smart Layer sits in front of several RSSHub instances. For a request `/<platform>/<path>` it:

1. fetches the feed as JSON Feed from an instance that serves that platform, or from the fallback group;
2. converts the document to the canonical feed model;
3. translates items when the Host header carries a language prefix in front of the configured host base;
4. rewrites image URLs to go through its own image relay;
5. answers in RSS, Atom or JSON.

This project models that pipeline in Dafny and proves what each step promises.

| file | models |
|---|---|
| `wrappers.dfy`, `config.dfy`, `feeds.dfy` | option/result types, the configuration records, the JSON Feed and canonical feed shapes |
| `json_conversion.dfy` | `convertJSON2Feed` and `convertJSON2Item` |
| `load_balancer.dfy` | `NewLoadBalancer` (the instance list, platform groups and fallback group), `fetchFromGroup` (random first pick, then a race), `Fetch` (preferred group, then fallback) |
| `url.dfy` | the parts of Go's `net/url` the image links depend on: `QueryEscape`, query parsing, `URL.String` without a scheme |
| `html.dfy`, `image_proxy.dfy` | the HTML node tree, `ProcessLink`, `traverseHTMLTree`, `ProcessHTML`, the header rules and outcome of `Proxy` |
| `libretranslate.dfy` | the LibreTranslate request body and how its answer is read |
| `cache.dfy` | the Redis GET/SET that translation relies on, as a class over a map |
| `translate.dfy` | the cache key, `translatePart` (cache-aside) and `translateItem` |
| `app_image_proxy.dfy` | `imageProxyItem` |
| `process.dfy` | the request handler `process`: target language, enrichment gate, item loop, output format |

Network calls, the HTML parser and renderer, the feed serialisers and the translation provider are
functions passed in as parameters. Their results are arbitrary, so every property holds for every
behaviour of that code. The random pick and the completion order of the racing fetches are
nondeterministic choices (`:|`). A group fetch whose racers all fail never returns; it is modelled as
the outcome `Stuck`. This is because `feedWg.Done()` is only called on a success
(modules/load_balancer.go:167, 182, 191), so the error at modules/load_balancer.go:196 cannot be reached.

Some consequences of the code that the proofs make explicit:

- `targetLang` is the host text before the first occurrence of the host base, separator included: `en.feed.example.com` over `feed.example.com` gives `"en."`. A host equal to the base gives `""`, which still turns translation on.
- The enrichment gate is `(translator && language) || imageProxy`, so image proxying alone runs the item loop.
- The cache key has no separator between the prefix and `translate`. It is unambiguous only while platform, id and part contain no `':'`: platform `a:b` with id `c` and platform `a` with id `b:c` share a key.
- The key does not include the source text. Once a part is cached, a later item with the same id gets the cached text back even if its own text changed (`AppTranslate.PartWriteThenHit` takes two different source texts).
- LibreTranslate's HTTP status is never checked. An error answer with status 400 and no `translatedText` is a successful empty translation. It therefore blanks the field and is cached, and the empty entry counts as a miss on the next read.

## Model

| member | source | states |
|---|---|---|
| JsonConversion.AuthorFrom | modules/load_balancer.go:253-262 | the author is the first entry of the authors list, else the singular author, else absent; only the name is kept |
| JsonConversion.LinkFrom | modules/load_balancer.go:246-251 | a link exists exactly when the URL is non-empty, and carries that URL |
| JsonConversion.TimeFrom | modules/load_balancer.go:299-304 | a timestamp is copied exactly when present and non-zero; otherwise the zero time stays |
| JsonConversion.ConvertJSON2Item | modules/load_balancer.go:272-313 | id and title are copied, description is the summary, content is the HTML content; link, source and enclosure exist exactly for non-empty URL, external URL and image; author and dates follow the rules above |
| JsonConversion.ConvertItemRoundTrip | modules/load_balancer.go:272-313 | converting the JSON image of a well-formed item gives back that item, so the item conversion loses no field it reads |
| JsonConversion.ConvertedItemWellFormed | modules/load_balancer.go:280-310 | a converted item never holds a link, source or enclosure with an empty URL |
| JsonConversion.ConversionUnique | modules/load_balancer.go:234-270 | a document has exactly one feed satisfying the conversion contract |
| JsonConversion.ConvertJSON2Feed | modules/load_balancer.go:234-270 | nil gives nil; otherwise title and description are copied, the link exists exactly for a non-empty home page URL, the author follows the author rule, and item k is the conversion of input item k, same count and order |
| LoadBalancer.GroupAbsent | modules/load_balancer.go:38-47 | a platform no instance lists has an empty group specification |
| LoadBalancer.GroupNonEmpty | modules/load_balancer.go:38-47 | every listed platform's group is non-empty, since a key is only created just before an append |
| LoadBalancer.GroupCount | modules/load_balancer.go:38-47 | an id occurs in a platform's group exactly as often as that instance lists the platform |
| LoadBalancer.GroupSorted | modules/load_balancer.go:33-47 | group members are ids of the list, in non-decreasing order |
| LoadBalancer.FallbackIdsExact | modules/load_balancer.go:50-53 | the fallback ids are exactly the instances with the fallback flag, strictly increasing |
| LoadBalancer.AddPlatforms | modules/load_balancer.go:37-48 | after instance id's platforms are added, every platform's group equals its specification over the first id+1 instances |
| LoadBalancer.NewLoadBalancer | modules/load_balancer.go:27-64 | the instance list has one URL per configured instance in order; fallbacks are the fallback ids; the map's keys are exactly the listed platforms, each bound to its group |
| LoadBalancer.FetchFromGroup | modules/load_balancer.go:122-202 | an empty group fails with "empty group" and contacts nobody; a successful first pick is returned alone; a single failing member fails with "all attempts failed"; otherwise every other member is contacted exactly once, the result cell is written at most once and only with a fetched document, and it is written exactly when the race returns a document, and when all fail the call never returns |
| LoadBalancer.GroupOutcomeMeaning | modules/load_balancer.go:122-202 | whatever member is picked first and whatever order the others answer in, a group success is the document of some member, and a group error is "empty group" or "all attempts failed" and comes only when every member failed |
| LoadBalancer.Fetch | modules/load_balancer.go:204-230 | the platform's group is tried exactly when the platform has a key; a success there is converted and returned without touching the fallbacks; otherwise the fallback group decides, its error wrapped as "failed to request feed: …"; a returned feed is the conversion of a document fetched from an instance serving the platform or from a fallback, and an error is one of the two wrapped group errors |
| LoadBalancer.FetchSuccessSource | modules/load_balancer.go:204-230 | a fetched feed converts a document that an instance of the platform's group or of the fallback group returned for the request |
| LoadBalancer.FetchErrorCause | modules/load_balancer.go:218-230 | fetch fails only with "failed to request feed: empty group" or "failed to request feed: all attempts failed", and only after every fallback instance failed |
| Url.QueryEscapeRoundTrip | modules/image_proxy.go:33-40 | the query escaping of a value decodes back to the value's UTF-8 bytes and never produces a character that splits a query ('&', '=', ';', '#', '?') |
| Url.QueryEscape | modules/image_proxy.go:33-40 | no character of an escaped value splits a query: none is '&', '=', ';', '#' or '?' |
| Url.ParseQuery | modules/image_proxy.go:33-40 | never more pairs than characters; a query with ';' and no '&' parses to nothing; a single part without '&', ';' or '=' whose escapes decode parses to that key with an empty value |
| Url.UrlString | modules/image_proxy.go:37-41 | with a host the URL starts with "//" and the host; with a query it ends with '?' and the query; with neither host nor query it is the path itself when its first segment has no ':' |
| Url.UrlStringWithHost | modules/image_proxy.go:37-41 | with a host the URL is exactly "//", the host, the path (given a '/' in front when it lacks one), then '?' and the query when there is one: the path follows the host directly |
| Url.QueryGet | modules/image_proxy.go:95-96 | the value of the first pair with the key, or empty when no pair has it (url.Values.Get as `c.QueryParam` uses it) |
| Url.QueryUnescapeDefined | modules/image_proxy.go:95-96 | query unescaping fails exactly when some '%' is not followed by two hex digits |
| Url.ParseQueryDropsBadPart | modules/image_proxy.go:95-96 | a query part whose key or value fails to unescape is dropped, and the pairs are those of the rest of the query |
| ImageProxy.ProcessLinkQuery | modules/image_proxy.go:31-42 | the link is the host-and-path part, '?', then a query that parses to exactly p = platform and then s = src, so the relay gets back both values |
| ImageProxy.ProcessLink | modules/image_proxy.go:31-42 | the link starts with "//" and the request host, when there is one, and ends with '?' and the encoded query of s and p; with a host and a '/'-rooted configured path it is exactly "//" + host + path + "?" + query, so the link names the path the relay is served at |
| ImageProxy.ProxyQueryDecodes | modules/image_proxy.go:33-36 | the query `url.Values{s, p}.Encode()` writes (keys sorted, p first) parses to exactly the pairs p = platform and s = src |
| ImageProxy.NewImageProxy | modules/image_proxy.go:23-29 | the relay keeps the configured path and per-platform rules |
| ImageProxy.ProcessLinkPath | modules/image_proxy.go:37-41 | with a host and a configured path lacking a leading '/', the link is "//" + host + "/" + path + "?" + query: the path still sits between host and query |
| ImageProxy.RewriteImgAttrs | modules/image_proxy.go:79-86 | every src attribute of an img element gets its proxy link; other attributes are left as they were |
| ImageProxy.TraverseHTMLTree | modules/image_proxy.go:75-92 | the rewritten tree is the rewrite specification of the input tree |
| ImageProxy.RewritePreservesShape | modules/image_proxy.go:75-92 | the rewrite adds and removes no node and no attribute, and changes nothing but attribute values |
| ImageProxy.RewriteVisitsEveryNode | modules/image_proxy.go:75-92 | the depth-first node sequence of the result is the input's, each node rewritten by the local img-src rule |
| ImageProxy.RewriteVisitsEveryChild | modules/image_proxy.go:88-91 | the same for a sequence of sibling subtrees |
| ImageProxy.RenderAllSucceeds | modules/image_proxy.go:58-69 | rendering the node list succeeds exactly when every node renders |
| ImageProxy.ProxiedHTMLCases | modules/image_proxy.go:44-73 | a parse error, or a render error on any top-level node, gives back the original text and not a partial buffer; otherwise the result is the rendered rewritten nodes, concatenated in order |
| ImageProxy.ProcessHTML | modules/image_proxy.go:44-73 | the parse-rewrite-render loop returns exactly that result |
| ImageProxy.RuleHeaders | modules/image_proxy.go:104-112 | Origin is added exactly when the platform has a rule with an origin, Referer likewise; nothing else is added, and nothing at all without a rule; the header count is exactly the number of set rule fields, so at most one Origin and one Referer |
| ImageProxy.Proxy | modules/image_proxy.go:94-124 | an invalid source URL or a failed request gives 500; a valid URL whose GET with the platform's headers is answered streams exactly that response's status, content type and body |
| LibreTranslate.RequestBodyMembers | modules/translate/providers/libretranslate/translate.go:12-40 | the body sends q = text, source = "auto", target = language; the format member exists exactly for HTML and is "html"; api_key is the configured key or empty |
| LibreTranslate.Translate | modules/translate/providers/libretranslate/translate.go:26-75 | a translation is returned exactly when the endpoint URL is valid, the POST of that body gets an answer and the answer decodes; the translation is the answer's translatedText, or "" when the answer has none |
| LibreTranslate.NewRequestBody | modules/translate/providers/libretranslate/translate.go:28-40 | the body carries the source text, source language "auto" and the target language; format is set, to "html", exactly for HTML; the API key is the configured one or empty |
| LibreTranslate.StatusIgnored | modules/translate/providers/libretranslate/translate.go:58-74 | the outcome does not depend on the HTTP status |
| LibreTranslate.ErrorAnswerIsEmptyTranslation | modules/translate/providers/libretranslate/translate.go:65-74 | a 400 answer without translatedText is a successful translation to "" |
| Cache.Lookup | app/translate.go:87-94 | GET yields a value exactly when the store is reachable and holds the key |
| Cache.Stored | app/translate.go:106 | after SET on a reachable store the key reads back the value; every other key reads as before |
| Cache.Client.Get | app/translate.go:87 | the client's GET answers as Lookup on its entries |
| Cache.Client.Set | app/translate.go:106 | the client's entries become Stored of the old entries |
| AppTranslate.CacheKeyPartsDistinct | app/translate.go:83 | title, description and content of one item never share a key |
| AppTranslate.CacheKeyInjective | app/translate.go:83 | under one prefix the key determines platform, id, part and language when the first three contain no ':' |
| AppTranslate.CacheKeyAmbiguous | app/translate.go:83 | without that condition two different (platform, id) pairs can share a key |
| AppTranslate.TranslatePart | app/translate.go:81-110 | result and new cache contents are those of the cache-aside specification: a non-empty readable entry is returned as is; a read error or empty entry goes to the provider; a provider error gives nothing and writes nothing; a translation is written under the key with the configured expiry and returned |
| AppTranslate.PartHitSkipsProvider | app/translate.go:87-94 | on a hit the outcome is the cached value, the store is unchanged and the provider does not matter |
| AppTranslate.PartWriteThenHit | app/translate.go:87-109 | after a non-empty translation is written, a second request for the same key returns it and writes nothing, whatever the source text and the provider now are |
| AppTranslate.MissAsksProvider | app/translate.go:86-107 | a missing key, an unreachable store or an empty cached value all ask the provider: an error gives no text and leaves the store unchanged; a translation is returned and written back under the key with the configured expiry |
| AppTranslate.CacheKey | app/translate.go:83 | the key is the configured prefix, then "translate:", then platform, id, part and language joined by ':' (length and both ends stated) |
| AppTranslate.PartIsLocal | app/translate.go:81-110 | translatePart reads the store only at its key and changes no other key |
| AppTranslate.TranslateItem | app/translate.go:12-79 | item and cache afterwards are those of the three-field specification: only non-empty fields are sent, title as text and description and content as HTML, and a field is replaced exactly when its part yields a translation |
| AppTranslate.PartsIndependent | app/translate.go:12-79 | each field ends as if translated alone from the original store with its original text; id and every other field are untouched |
| AppTranslate.FieldsCommute | app/translate.go:12-79 | two field translations under different keys give the same results and the same final store in either order, each translatePart taken as one step, so the sequential order stands for any order in which the three finish |
| AppImageProxy.ImageProxyItem | app/image_proxy.go:8-28 | the item afterwards is the image-proxy specification of the input |
| AppImageProxy.ImageProxiedFields | app/image_proxy.go:8-28 | content and description go through ProcessHTML exactly when non-empty; an enclosure, even with an empty URL, becomes a proxy link whose s parameter decodes to the old URL; every other field is untouched |
| AppProcess.IndexFrom | app/process.go:39-41 | the first position at or after a start where the substring occurs, or none when it occurs nowhere after it |
| AppProcess.TargetLang | app/process.go:36-45 | a language exists exactly when translation is configured with a non-empty host base occurring in the host; it is the host prefix before the first occurrence |
| AppProcess.TargetLangKeepsSeparator | app/process.go:41-42 | "en.feed.example.com" over base "feed.example.com" gives "en." |
| AppProcess.TargetLangMayBeEmpty | app/process.go:41-42 | a host equal to the base gives the empty language |
| AppProcess.ContentTypeOfParam | app/process.go:77-91 | atom and json map to their content types, every other format value to application/rss+xml, in both directions |
| AppProcess.FormatOf | app/process.go:68-91 | the format is Atom exactly for "atom", JSON exactly for "json", RSS 2.0 for every other value (including "rss" and the empty parameter) |
| AppProcess.ContentType | app/process.go:77-91 | each format has its own content type, and each content type is given by exactly its format |
| AppProcess.ImageProxyAloneEnriches | app/process.go:50 | with an image proxy the item loop runs even without a language |
| AppProcess.Enriches | app/process.go:50 | the item loop runs when an image proxy is configured, or when translation is configured and a language was found, and in no other case |
| AppProcess.EnrichedKeepsIdentity | app/process.go:51-65 | enrichment changes at most title, description, content and enclosure |
| AppProcess.EnrichedItemsKeepOrder | app/process.go:51-65 | the loop keeps the number and order of items, item i of the result coming from item i of the input |
| AppProcess.ImageProxyOnly | app/process.go:50-65 | without a language the cache is untouched and every item is its image-proxied self |
| AppProcess.EnrichItem | app/process.go:52-63 | one item is translated exactly when translation is configured and a target language was found, then image-proxied exactly when a proxy is configured; the result and the cache are those of the per-item specification |
| AppProcess.EnrichItems | app/process.go:50-66 | the in-place loop leaves exactly the specified items and cache |
| AppProcess.Process | app/process.go:15-99 | the fetch follows Fetch's contract; a fetch error is a 500 with the cache untouched; a blocked fetch never answers; otherwise the answer is the enriched feed serialised in the requested format with its content type and status 200, or a 500 when serialisation fails |

## Left out

- HTTP traffic is not modelled. The instance fetch (`fetchInstance`, modules/load_balancer.go:66-120) is an oracle per request path and instance id. The LibreTranslate POST and the relay's upstream GET are functions passed in, and the relay's body is passed on as bytes rather than streamed.
- Concurrency is not modelled as such. Goroutines, the mutex, `context.WithCancel`, the WaitGroups and the channels are replaced by sequential code with an arbitrary completion order. The unlocked pre-check of `feedRes` (modules/load_balancer.go:176) is folded into the locked check; both let only the first success through. Cancelling the other racers is not modelled.
- `rand.Intn` is an arbitrary index of the group.
- Redis TTLs are stored but never expire, since the core never reads them. Whether the store answers is fixed per client. A failed SET is ignored, as in the source.
- The HTML parser and renderer (golang.org/x/net/html) are functions passed in. The tree is a value whose children stand for the first-child/next-sibling links, and the rewrite returns a new tree instead of assigning attributes in place.
- Feed items are values. `translateItem` and `imageProxyItem` return the updated item, which the loop stores at its index, as the source stores the same reference. Aliasing between items cannot be expressed; it does not arise, because each item is freshly allocated by the conversion.
- `url.URL.String` escapes the host and path; the model writes them verbatim. Query escaping is modelled exactly.
- The serialisers `ToRss`, `ToAtom` and `ToJSON` (gorilla/feeds) are one function passed in.
- LibreTranslate.Translate: failure messages keep their fixed prefix only, without the wrapped library error text, which comes from code outside the model. The `json.Marshal` error branch is left out, because a body of plain strings always marshals. The Content-Type request header is not modelled.
- AppTranslate.TranslatePart: the provider is any function of (text, language, isHTML). Building it from configuration (modules/translate/providers/new.go, libretranslate/new.go) is not part of this model.
- The application wiring (app/app.go), startup and YAML loading (main.go), logging, and the `Path` accessor of the image proxy are not part of this model.
- A nil entry in a JSON Feed's item list would make the conversion panic; the model's item lists have no nil entries. The same holds for a nil first entry in an item's or a feed's author list (`Authors[0].Name`, modules/load_balancer.go:256, 292): the model's author lists have no nil entries.
- How `fetchInstance` builds the upstream URL (modules/load_balancer.go:72-86) is inside the instance oracle, which receives the request path. The source parses that path again, keeps any query it holds and adds `format=json`. `process` passes the decoded `req.URL.Path` (app/process.go:27), so a caller's own query string is not forwarded, but a decoded `%3F` or `%23` in the path becomes a query or a dropped fragment upstream; the model does not capture this.
- The instance oracle is a function of (request path, instance id): an id listed twice in a group, or in both the platform group and the fallback group, gets the same answer on every contact within one request, whereas the source sends a fresh HTTP request each time (modules/load_balancer.go:210, 222); a failure followed by a success from the same instance is therefore not expressible.
- The copies of `translateItem`, `translatePart` and `imageProxyItem` in app/process.go:101-221 are identical to those in app/translate.go and app/image_proxy.go. They are modelled once, citing the latter files.
