/**
 * The LibreTranslate provider (modules/translate/providers/libretranslate/translate.go): the request
 * body it builds and how it reads the answer. Building the HTTP request and sending it are library
 * calls and enter as functions passed in.
 */
module LibreTranslate {
  import opened Wrappers

  /** The configured endpoint and the optional API key (a nil key is None). */
  datatype Provider = Provider(url: string, key: Option<string>)

  /** libreTranslateRequestBody; a nil format is None. */
  datatype RequestBody = RequestBody(q: string, source: string, target: string, format: Option<string>, apiKey: string)

  /** The decoded answer; translatedText is None when the member is absent from the JSON. */
  datatype ResponseBody = ResponseBody(translatedText: Option<string>)

  /** A response that arrived: its status and its body, None when the body is not decodable JSON. */
  datatype HttpResponse = HttpResponse(status: int, body: Option<ResponseBody>)

  /** http.DefaultClient.Do of a POST to a URL with a JSON body; None is a transport error. */
  type Transport = (string, RequestBody) -> Option<HttpResponse>

  const HtmlFormat := "html"

  /** The body: the text, source "auto", the target language, format "html" for HTML input, and the key if any. */
  function NewRequestBody(t: Provider, src: string, lang: string, isHTML: bool): (b: RequestBody)
    ensures b.q == src && b.source == "auto" && b.target == lang
    ensures b.format.Some? <==> isHTML
    ensures isHTML ==> b.format == Some("html")
    ensures b.apiKey == if t.key.Some? then t.key.value else ""
  {
    var body := RequestBody(src, "auto", lang, None, "");
    var body := if isHTML then body.(format := Some(HtmlFormat)) else body;
    if t.key.Some? then body.(apiKey := t.key.value) else body
  }

  /** The members json.Marshal writes for a body, in declaration order; format is omitted while nil. */
  function JsonMembers(b: RequestBody): seq<(string, string)>
  {
    [("q", b.q), ("source", b.source), ("target", b.target)]
    + (if b.format.Some? then [("format", b.format.value)] else [])
    + [("api_key", b.apiKey)]
  }

  /**
   * On the wire: q is the text, source is "auto", target is the language, a format member exists
   * exactly for HTML input and is "html", and api_key is the configured key or empty.
   */
  lemma RequestBodyMembers(t: Provider, src: string, lang: string, isHTML: bool)
    ensures var ms := JsonMembers(NewRequestBody(t, src, lang, isHTML));
      && ("q", src) in ms && ("source", "auto") in ms && ("target", lang) in ms
      && (forall v :: ("format", v) in ms <==> isHTML && v == "html")
      && (forall v :: ("api_key", v) in ms <==> v == (if t.key.Some? then t.key.value else ""))
      && |ms| == (if isHTML then 5 else 4)
  {
  }

  /**
   * Translate. An invalid endpoint URL, a transport error or an undecodable body is an error; any
   * decodable body is a success with its translatedText, "" when absent. The status is not looked at.
   */
  function Translate(t: Provider, src: string, lang: string, isHTML: bool, validUrl: string -> bool, post: Transport): (r: Result<string>)
    ensures r.Success? <==>
      validUrl(t.url) && post(t.url, NewRequestBody(t, src, lang, isHTML)).Some?
      && post(t.url, NewRequestBody(t, src, lang, isHTML)).value.body.Some?
    ensures r.Success? ==>
      var answer := post(t.url, NewRequestBody(t, src, lang, isHTML)).value.body.value;
      r.value == (if answer.translatedText.Some? then answer.translatedText.value else "")
  {
    if !validUrl(t.url) then Failure("failed to create request")
    else
      match post(t.url, NewRequestBody(t, src, lang, isHTML))
      case None => Failure("failed to execute request")
      case Some(res) =>
        match res.body
        case None => Failure("failed to decode response")
        case Some(body) => Success(if body.translatedText.Some? then body.translatedText.value else "")
  }

  /** The same transport, with every response's status replaced. */
  function WithStatus(post: Transport, status: int): Transport
  {
    (u, b) => if post(u, b).Some? then Some(post(u, b).value.(status := status)) else None
  }

  /** The outcome does not depend on the HTTP status. */
  lemma StatusIgnored(t: Provider, src: string, lang: string, isHTML: bool, validUrl: string -> bool, post: Transport, status: int)
    ensures Translate(t, src, lang, isHTML, validUrl, WithStatus(post, status)) == Translate(t, src, lang, isHTML, validUrl, post)
  {
  }

  /** An error answer such as {"error": "..."} with status 400 is a successful, empty translation. */
  lemma ErrorAnswerIsEmptyTranslation(t: Provider, src: string, lang: string, isHTML: bool, validUrl: string -> bool, post: Transport)
    requires validUrl(t.url)
    requires post(t.url, NewRequestBody(t, src, lang, isHTML)) == Some(HttpResponse(400, Some(ResponseBody(None))))
    ensures Translate(t, src, lang, isHTML, validUrl, post) == Success("")
  {
  }
}
