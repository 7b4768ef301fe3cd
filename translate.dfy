/**
 * Cache-aside translation of feed items (app/translate.go): the cache key, translatePart against the
 * Redis store and the provider, and the three-field update of translateItem.
 */
module AppTranslate {
  import opened Wrappers
  import opened Config
  import opened Feeds
  import opened Cache
  import opened Url

  /** translate.Provider.Translate(text, target language, isHTML): the translation or an error. */
  type Translator = (string, string, bool) -> Result<string>

  // ---------------------------------------------------------------------------
  // The cache key

  /** The key translatePart reads and writes; the prefix runs straight into "translate". */
  function CacheKey(prefix: string, platform: string, id: string, part: string, lang: string): (k: string)
    ensures |k| == |prefix| + |platform| + |id| + |part| + |lang| + 13
    ensures k[..|prefix|] == prefix && k[|prefix|..|prefix| + 10] == "translate:"
    ensures k[|k| - |lang| - 1..] == ":" + lang
  {
    prefix + "translate" + ":" + platform + ":" + id + ":" + part + ":" + lang
  }

  predicate IsPart(part: string)
  {
    part == "title" || part == "description" || part == "content"
  }

  /** The three parts of one item never share a key. */
  lemma CacheKeyPartsDistinct(prefix: string, platform: string, id: string, lang: string, part1: string, part2: string)
    requires IsPart(part1) && IsPart(part2) && part1 != part2
    ensures CacheKey(prefix, platform, id, part1, lang) != CacheKey(prefix, platform, id, part2, lang)
  {
    var front := prefix + "translate" + ":" + platform + ":" + id + ":";
    assert CacheKey(prefix, platform, id, part1, lang) == front + (part1 + ":" + lang);
    assert CacheKey(prefix, platform, id, part2, lang) == front + (part2 + ":" + lang);
    assert (front + (part1 + ":" + lang))[|front|] == part1[0];
    assert (front + (part2 + ":" + lang))[|front|] == part2[0];
  }

  /** Under one prefix, keys determine platform, id, part and language as long as the first three hold no ':'. */
  lemma CacheKeyInjective(prefix: string, platform1: string, id1: string, part1: string, lang1: string,
                          platform2: string, id2: string, part2: string, lang2: string)
    requires ':' !in platform1 && ':' !in id1 && ':' !in part1
    requires ':' !in platform2 && ':' !in id2 && ':' !in part2
    requires CacheKey(prefix, platform1, id1, part1, lang1) == CacheKey(prefix, platform2, id2, part2, lang2)
    ensures platform1 == platform2 && id1 == id2 && part1 == part2 && lang1 == lang2
  {
    KeyTail(prefix, platform1, id1, part1, lang1);
    KeyTail(prefix, platform2, id2, part2, lang2);
    KeyTailInjective(platform1, id1, part1, lang1, platform2, id2, part2, lang2);
  }

  lemma KeyTail(prefix: string, platform: string, id: string, part: string, lang: string)
    ensures CacheKey(prefix, platform, id, part, lang)[|prefix| + 10..] == platform + [':'] + (id + [':'] + (part + [':'] + lang))
  {
    var front := prefix + "translate" + ":";
    var tail := platform + [':'] + (id + [':'] + (part + [':'] + lang));
    assert CacheKey(prefix, platform, id, part, lang) == front + tail;
    assert tail == (front + tail)[|front|..];
  }

  lemma KeyTailInjective(platform1: string, id1: string, part1: string, lang1: string,
                         platform2: string, id2: string, part2: string, lang2: string)
    requires ':' !in platform1 && ':' !in id1 && ':' !in part1
    requires ':' !in platform2 && ':' !in id2 && ':' !in part2
    requires platform1 + [':'] + (id1 + [':'] + (part1 + [':'] + lang1)) == platform2 + [':'] + (id2 + [':'] + (part2 + [':'] + lang2))
    ensures platform1 == platform2 && id1 == id2 && part1 == part2 && lang1 == lang2
  {
    CutAt(platform1, id1 + [':'] + (part1 + [':'] + lang1), ':');
    CutAt(platform2, id2 + [':'] + (part2 + [':'] + lang2), ':');
    CutAt(id1, part1 + [':'] + lang1, ':');
    CutAt(id2, part2 + [':'] + lang2, ':');
    CutAt(part1, lang1, ':');
    CutAt(part2, lang2, ':');
  }

  /** Without that condition two different items can share a key: platform "a:b", id "c" against platform "a", id "b:c". */
  lemma CacheKeyAmbiguous()
    ensures CacheKey("", "a:b", "c", "title", "en") == CacheKey("", "a", "b:c", "title", "en")
  {
  }

  // ---------------------------------------------------------------------------
  // translatePart

  /** translatePart on a store: its result and the store afterwards. */
  function TranslatedPart(store: Store, available: bool, sys: ConfigSystem, translate: Translator,
                          src: string, lang: string, isHTML: bool, platform: string, id: string, part: string): (Option<string>, Store)
  {
    var key := CacheKey(sys.redisPrefix, platform, id, part, lang);
    var cached := Lookup(store, available, key);
    if cached.Some? && cached.value != "" then (cached, store)
    else
      match translate(src, lang, isHTML)
      case Failure(_) => (None, store)
      case Success(text) => (Some(text), Stored(store, available, key, text, sys.cacheExpire))
  }

  /**
   * translatePart. A readable, non-empty cache entry is returned without asking the provider; on a
   * read error or an empty entry the provider is asked; a provider error gives None and writes nothing;
   * a translation is written back under the same key with the configured expiry and returned.
   */
  method TranslatePart(cache: Client, sys: ConfigSystem, translate: Translator,
                       src: string, lang: string, isHTML: bool, platform: string, id: string, part: string)
    returns (r: Option<string>)
    modifies cache
    ensures (r, cache.entries) == TranslatedPart(old(cache.entries), cache.available, sys, translate, src, lang, isHTML, platform, id, part)
  {
    var cacheKey := CacheKey(sys.redisPrefix, platform, id, part, lang);
    var cachedResult := cache.Get(cacheKey);
    if cachedResult.Some? && cachedResult.value != "" {
      return cachedResult;
    }
    var translatedPart := translate(src, lang, isHTML);
    if translatedPart.Failure? {
      return None;
    }
    cache.Set(cacheKey, translatedPart.value, sys.cacheExpire);
    r := Some(translatedPart.value);
  }

  /** A hit does not depend on the provider and leaves the store alone. */
  lemma PartHitSkipsProvider(store: Store, available: bool, sys: ConfigSystem, translate1: Translator, translate2: Translator,
                             src: string, lang: string, isHTML: bool, platform: string, id: string, part: string)
    requires var cached := Lookup(store, available, CacheKey(sys.redisPrefix, platform, id, part, lang));
      cached.Some? && cached.value != ""
    ensures TranslatedPart(store, available, sys, translate1, src, lang, isHTML, platform, id, part)
         == TranslatedPart(store, available, sys, translate2, src, lang, isHTML, platform, id, part)
    ensures TranslatedPart(store, available, sys, translate1, src, lang, isHTML, platform, id, part)
         == (Lookup(store, available, CacheKey(sys.redisPrefix, platform, id, part, lang)), store)
  {
  }

  /**
   * Write-back: once a part has been translated to a non-empty text on a reachable store, asking
   * again for the same key gives the same text whatever the provider would now say, and writes nothing.
   */
  lemma PartWriteThenHit(store: Store, available: bool, sys: ConfigSystem, translate1: Translator, translate2: Translator,
                         src1: string, src2: string, lang: string, isHTML: bool, platform: string, id: string, part: string)
    requires available
    requires translate1(src1, lang, isHTML).Success? && translate1(src1, lang, isHTML).value != ""
    ensures var (r1, s1) := TranslatedPart(store, available, sys, translate1, src1, lang, isHTML, platform, id, part);
      TranslatedPart(s1, available, sys, translate2, src2, lang, isHTML, platform, id, part) == (r1, s1)
  {
    var key := CacheKey(sys.redisPrefix, platform, id, part, lang);
    var (r1, s1) := TranslatedPart(store, available, sys, translate1, src1, lang, isHTML, platform, id, part);
    assert Lookup(s1, available, key) == r1;
  }

  /**
   * A miss asks the provider: a missing key or an unreachable store (a read error) and an empty text in
   * the store alike. A provider error gives None and leaves the store; a translation is returned and
   * written back under the key with the configured expiry.
   */
  lemma MissAsksProvider(store: Store, available: bool, sys: ConfigSystem, translate: Translator,
                         src: string, lang: string, isHTML: bool, platform: string, id: string, part: string)
    requires var c := Lookup(store, available, CacheKey(sys.redisPrefix, platform, id, part, lang));
      c.None? || c.value == ""
    ensures translate(src, lang, isHTML).Failure? ==>
      TranslatedPart(store, available, sys, translate, src, lang, isHTML, platform, id, part) == (None, store)
    ensures translate(src, lang, isHTML).Success? ==>
      var text := translate(src, lang, isHTML).value;
      TranslatedPart(store, available, sys, translate, src, lang, isHTML, platform, id, part)
        == (Some(text), Stored(store, available, CacheKey(sys.redisPrefix, platform, id, part, lang), text, sys.cacheExpire))
  {
  }

  /** translatePart changes at most its own key, and reads the store only at that key. */
  lemma {:induction false} PartIsLocal(store1: Store, store2: Store, available: bool, sys: ConfigSystem, translate: Translator,
                                       src: string, lang: string, isHTML: bool, platform: string, id: string, part: string)
    requires var key := CacheKey(sys.redisPrefix, platform, id, part, lang);
      Lookup(store1, available, key) == Lookup(store2, available, key)
    ensures var key := CacheKey(sys.redisPrefix, platform, id, part, lang);
      var (r1, after1) := TranslatedPart(store1, available, sys, translate, src, lang, isHTML, platform, id, part);
      var (r2, after2) := TranslatedPart(store2, available, sys, translate, src, lang, isHTML, platform, id, part);
      && r1 == r2
      && Lookup(after1, available, key) == Lookup(after2, available, key)
      && (forall k :: k != key ==> Lookup(after1, available, k) == Lookup(store1, available, k))
  {
  }

  // ---------------------------------------------------------------------------
  // translateItem

  /** A part's outcome applied to its field: replaced by a translation, kept on None. */
  function Apply(r: Option<string>, original: string): string
  {
    if r.Some? then r.value else original
  }

  /** One field's translation: an empty field is not sent; otherwise translatePart with its part name. */
  function TranslatedField(store: Store, available: bool, sys: ConfigSystem, translate: Translator,
                           text: string, lang: string, isHTML: bool, platform: string, id: string, part: string): (Option<string>, Store)
  {
    if text == "" then (None, store)
    else TranslatedPart(store, available, sys, translate, text, lang, isHTML, platform, id, part)
  }

  /** translateItem on a store: title (plain text), then description and content (HTML), all from the original item. */
  function TranslatedItem(store: Store, available: bool, sys: ConfigSystem, translate: Translator,
                          item: Item, lang: string, platform: string): (Item, Store)
  {
    var (title, s1) := TranslatedField(store, available, sys, translate, item.title, lang, false, platform, item.id, "title");
    var (description, s2) := TranslatedField(s1, available, sys, translate, item.description, lang, true, platform, item.id, "description");
    var (content, s3) := TranslatedField(s2, available, sys, translate, item.content, lang, true, platform, item.id, "content");
    (item.(title := Apply(title, item.title), description := Apply(description, item.description), content := Apply(content, item.content)), s3)
  }

  /**
   * translateItem. The source starts the three translations concurrently and assigns the fields after
   * all have finished; they run here one after another, which PartsIndependent shows gives each field
   * the outcome it would have had alone.
   */
  method TranslateItem(cache: Client, sys: ConfigSystem, translate: Translator, item: Item, lang: string, platform: string)
    returns (out: Item)
    modifies cache
    ensures (out, cache.entries) == TranslatedItem(old(cache.entries), cache.available, sys, translate, item, lang, platform)
  {
    var translatedTitle, translatedDescription, translatedContent := None, None, None;
    if item.title != "" {
      translatedTitle := TranslatePart(cache, sys, translate, item.title, lang, false, platform, item.id, "title");
    }
    if item.description != "" {
      translatedDescription := TranslatePart(cache, sys, translate, item.description, lang, true, platform, item.id, "description");
    }
    if item.content != "" {
      translatedContent := TranslatePart(cache, sys, translate, item.content, lang, true, platform, item.id, "content");
    }
    out := item;
    if translatedTitle.Some? {
      out := out.(title := translatedTitle.value);
    }
    if translatedDescription.Some? {
      out := out.(description := translatedDescription.value);
    }
    if translatedContent.Some? {
      out := out.(content := translatedContent.value);
    }
  }

  /** What a field becomes when translated alone against the store as it was before the item. */
  function FieldAlone(store: Store, available: bool, sys: ConfigSystem, translate: Translator,
                      text: string, lang: string, isHTML: bool, platform: string, id: string, part: string): string
  {
    Apply(TranslatedField(store, available, sys, translate, text, lang, isHTML, platform, id, part).0, text)
  }

  /** A translated field leaves every other key's entry as it was. */
  lemma FieldIsLocal(store: Store, available: bool, sys: ConfigSystem, translate: Translator,
                     text: string, lang: string, isHTML: bool, platform: string, id: string, part: string, key: string)
    requires key != CacheKey(sys.redisPrefix, platform, id, part, lang)
    ensures Lookup(TranslatedField(store, available, sys, translate, text, lang, isHTML, platform, id, part).1, available, key)
         == Lookup(store, available, key)
  {
    if text != "" {
      PartIsLocal(store, store, available, sys, translate, text, lang, isHTML, platform, id, part);
    }
  }

  /**
   * Two field translations under different keys commute: in either order each gets the same result and
   * the store ends the same, so running the parts one after another stands for any order of them.
   */
  lemma FieldsCommute(store: Store, available: bool, sys: ConfigSystem, translate: Translator, lang: string, platform: string, id: string,
                      text1: string, isHTML1: bool, part1: string, text2: string, isHTML2: bool, part2: string)
    requires CacheKey(sys.redisPrefix, platform, id, part1, lang) != CacheKey(sys.redisPrefix, platform, id, part2, lang)
    ensures var (r1, s1) := TranslatedField(store, available, sys, translate, text1, lang, isHTML1, platform, id, part1);
      var (r2, s12) := TranslatedField(s1, available, sys, translate, text2, lang, isHTML2, platform, id, part2);
      var (q2, t2) := TranslatedField(store, available, sys, translate, text2, lang, isHTML2, platform, id, part2);
      var (q1, s21) := TranslatedField(t2, available, sys, translate, text1, lang, isHTML1, platform, id, part1);
      r1 == q1 && r2 == q2 && s12 == s21
  {
    var k1 := CacheKey(sys.redisPrefix, platform, id, part1, lang);
    var k2 := CacheKey(sys.redisPrefix, platform, id, part2, lang);
    FieldIsLocal(store, available, sys, translate, text1, lang, isHTML1, platform, id, part1, k2);
    FieldIsLocal(store, available, sys, translate, text2, lang, isHTML2, platform, id, part2, k1);
  }

  /**
   * The three field updates do not interfere: each field ends as it would if translated alone from the
   * original store, Id and every field other than title, description and content are untouched, and
   * an empty field stays empty.
   */
  lemma PartsIndependent(store: Store, available: bool, sys: ConfigSystem, translate: Translator,
                         item: Item, lang: string, platform: string)
    ensures var (out, _) := TranslatedItem(store, available, sys, translate, item, lang, platform);
      && out.title == FieldAlone(store, available, sys, translate, item.title, lang, false, platform, item.id, "title")
      && out.description == FieldAlone(store, available, sys, translate, item.description, lang, true, platform, item.id, "description")
      && out.content == FieldAlone(store, available, sys, translate, item.content, lang, true, platform, item.id, "content")
      && out.(title := item.title, description := item.description, content := item.content) == item
  {
    var prefix, id := sys.redisPrefix, item.id;
    var kTitle := CacheKey(prefix, platform, id, "title", lang);
    var kDescription := CacheKey(prefix, platform, id, "description", lang);
    var kContent := CacheKey(prefix, platform, id, "content", lang);
    CacheKeyPartsDistinct(prefix, platform, id, lang, "title", "description");
    CacheKeyPartsDistinct(prefix, platform, id, lang, "title", "content");
    CacheKeyPartsDistinct(prefix, platform, id, lang, "description", "content");
    var (title, s1) := TranslatedField(store, available, sys, translate, item.title, lang, false, platform, id, "title");
    var (description, s2) := TranslatedField(s1, available, sys, translate, item.description, lang, true, platform, id, "description");
    FieldIsLocal(store, available, sys, translate, item.title, lang, false, platform, id, "title", kDescription);
    FieldIsLocal(store, available, sys, translate, item.title, lang, false, platform, id, "title", kContent);
    FieldIsLocal(s1, available, sys, translate, item.description, lang, true, platform, id, "description", kContent);
    if item.description != "" {
      PartIsLocal(s1, store, available, sys, translate, item.description, lang, true, platform, id, "description");
    }
    if item.content != "" {
      PartIsLocal(s2, store, available, sys, translate, item.content, lang, true, platform, id, "content");
    }
  }
}
