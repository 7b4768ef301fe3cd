/**
 * The load balancer (modules/load_balancer.go): tables built once from the instance list,
 * the per-group fetch with its random first pick and racing fan-out, and the
 * preferred-then-fallback failover. The HTTP fetch of one instance is an oracle.
 */
module LoadBalancer {
  import opened Wrappers
  import opened Config
  import opened Feeds
  import opened JsonConversion

  /** Read-only after construction: instance URLs by id, platform groups and the fallback group. */
  datatype LoadBalancer = LoadBalancer(
    timeout: Duration,
    instanceList: seq<string>,
    platformMap: map<string, seq<nat>>,
    fallbacks: seq<nat>)

  // ---------------------------------------------------------------------------
  // Specification of the tables, over the first n instances of the list

  /** Ids of the fallback-eligible instances among the first n, in increasing order. */
  function FallbackIds(list: seq<ConfigRSSHub>, n: nat): seq<nat>
    requires n <= |list|
  {
    if n == 0 then [] else FallbackIds(list, n - 1) + (if list[n - 1].fallback then [n - 1] else [])
  }

  /** How many times p occurs in ps. */
  function Occurrences(ps: seq<string>, p: string): nat
  {
    if |ps| == 0 then 0 else Occurrences(ps[..|ps| - 1], p) + (if ps[|ps| - 1] == p then 1 else 0)
  }

  function Repeat(id: nat, count: nat): seq<nat>
  {
    if count == 0 then [] else Repeat(id, count - 1) + [id]
  }

  /** The group of platform p over the first n instances: each id once per listing of p. */
  function GroupOf(list: seq<ConfigRSSHub>, p: string, n: nat): seq<nat>
    requires n <= |list|
  {
    if n == 0 then [] else GroupOf(list, p, n - 1) + Repeat(n - 1, Occurrences(list[n - 1].platforms, p))
  }

  function SetOf(ps: seq<string>): set<string>
  {
    set i | 0 <= i < |ps| :: ps[i]
  }

  /** Every platform listed by one of the first n instances. */
  function PlatformsOf(list: seq<ConfigRSSHub>, n: nat): set<string>
    requires n <= |list|
  {
    if n == 0 then {} else PlatformsOf(list, n - 1) + SetOf(list[n - 1].platforms)
  }

  // ---------------------------------------------------------------------------
  // Lemmas about the table specification

  lemma OccurrencesSnoc(ps: seq<string>, j: nat, p: string)
    requires j < |ps|
    ensures Occurrences(ps[..j + 1], p) == Occurrences(ps[..j], p) + (if ps[j] == p then 1 else 0)
    ensures SetOf(ps[..j + 1]) == SetOf(ps[..j]) + {ps[j]}
  {
    assert ps[..j + 1][..j] == ps[..j];
    var a, b := SetOf(ps[..j + 1]), SetOf(ps[..j]) + {ps[j]};
    forall q ensures q in a <==> q in b {
      if q in a {
        var i :| 0 <= i < j + 1 && ps[..j + 1][i] == q;
        if i < j {
          assert ps[..j][i] == q;
        }
      }
      if q in SetOf(ps[..j]) {
        var i :| 0 <= i < j && ps[..j][i] == q;
        assert ps[..j + 1][i] == q;
      }
      if q == ps[j] {
        assert ps[..j + 1][j] == q;
      }
    }
  }

  lemma {:induction false} OccurrencesAbsent(ps: seq<string>, p: string)
    requires p !in ps
    ensures Occurrences(ps, p) == 0
  {
    if |ps| > 0 {
      OccurrencesAbsent(ps[..|ps| - 1], p);
    }
  }

  lemma {:induction false} OccurrencesPresent(ps: seq<string>, p: string)
    requires p in ps
    ensures Occurrences(ps, p) > 0
  {
    if ps[|ps| - 1] != p {
      OccurrencesPresent(ps[..|ps| - 1], p);
    }
  }

  lemma {:induction false} RepeatFacts(id: nat, count: nat)
    ensures |Repeat(id, count)| == count
    ensures forall x :: x in Repeat(id, count) ==> x == id
    ensures multiset(Repeat(id, count))[id] == count
  {
    if count > 0 {
      RepeatFacts(id, count - 1);
    }
  }

  /** One more instance extends every group and the platform set. */
  lemma GroupStep(list: seq<ConfigRSSHub>, p: string, n: nat)
    requires n < |list|
    ensures GroupOf(list, p, n + 1) == GroupOf(list, p, n) + Repeat(n, Occurrences(list[n].platforms, p))
    ensures PlatformsOf(list, n + 1) == PlatformsOf(list, n) + SetOf(list[n].platforms)
  {
  }

  /** A platform nobody lists has an empty group. */
  lemma {:induction false} GroupAbsent(list: seq<ConfigRSSHub>, p: string, n: nat)
    requires n <= |list| && p !in PlatformsOf(list, n)
    ensures GroupOf(list, p, n) == []
  {
    if n > 0 {
      GroupAbsent(list, p, n - 1);
      OccurrencesAbsent(list[n - 1].platforms, p);
    }
  }

  /** Every platform that has a key in the map has a non-empty group. */
  lemma {:induction false} GroupNonEmpty(list: seq<ConfigRSSHub>, p: string, n: nat)
    requires n <= |list| && p in PlatformsOf(list, n)
    ensures |GroupOf(list, p, n)| > 0
  {
    if p in list[n - 1].platforms {
      OccurrencesPresent(list[n - 1].platforms, p);
      RepeatFacts(n - 1, Occurrences(list[n - 1].platforms, p));
    } else {
      GroupNonEmpty(list, p, n - 1);
    }
  }

  /** The group holds each id once per listing of p by that instance, and nothing else. */
  lemma {:induction false} GroupCount(list: seq<ConfigRSSHub>, p: string, n: nat, id: nat)
    requires n <= |list|
    ensures multiset(GroupOf(list, p, n))[id] == if id < n then Occurrences(list[id].platforms, p) else 0
  {
    if n > 0 {
      GroupCount(list, p, n - 1, id);
      var c := Occurrences(list[n - 1].platforms, p);
      var g: seq<nat>, r: seq<nat> := GroupOf(list, p, n - 1), Repeat(n - 1, c);
      RepeatFacts(n - 1, c);
      assert GroupOf(list, p, n) == g + r;
      assert multiset(g + r) == multiset(g) + multiset(r);
      if id != n - 1 {
        assert id !in r;
        assert multiset(r)[id] == 0;
      }
    }
  }

  /** The group lists ids in increasing order (with repeats), all below n. */
  lemma {:induction false} GroupSorted(list: seq<ConfigRSSHub>, p: string, n: nat)
    requires n <= |list|
    ensures forall x :: x in GroupOf(list, p, n) ==> x < n
    ensures forall a, b :: 0 <= a < b < |GroupOf(list, p, n)| ==> GroupOf(list, p, n)[a] <= GroupOf(list, p, n)[b]
  {
    if n > 0 {
      GroupSorted(list, p, n - 1);
      RepeatFacts(n - 1, Occurrences(list[n - 1].platforms, p));
      var g := GroupOf(list, p, n - 1);
      var r := Repeat(n - 1, Occurrences(list[n - 1].platforms, p));
      assert GroupOf(list, p, n) == g + r;
      forall a, b | 0 <= a < b < |g + r|
        ensures (g + r)[a] <= (g + r)[b]
      {
        if b >= |g| {
          assert (g + r)[b] == r[b - |g|];
          assert r[b - |g|] in r;
          if a < |g| {
            assert g[a] in g;
          } else {
            assert r[a - |g|] in r;
          }
        }
      }
    }
  }

  /** The fallback group is exactly the fallback-eligible ids, in strictly increasing order. */
  lemma {:induction false} FallbackIdsExact(list: seq<ConfigRSSHub>, n: nat)
    requires n <= |list|
    ensures forall id: nat :: id in FallbackIds(list, n) <==> id < n && list[id].fallback
    ensures forall a, b :: 0 <= a < b < |FallbackIds(list, n)| ==> FallbackIds(list, n)[a] < FallbackIds(list, n)[b]
  {
    if n > 0 {
      FallbackIdsExact(list, n - 1);
      var f := FallbackIds(list, n - 1);
      var e: seq<nat> := if list[n - 1].fallback then [n - 1] else [];
      assert FallbackIds(list, n) == f + e;
      forall a, b | 0 <= a < b < |f + e|
        ensures (f + e)[a] < (f + e)[b]
      {
        if b >= |f| {
          assert f[a] in f;
        }
      }
    }
  }

  // ---------------------------------------------------------------------------
  // Construction

  /** The platform map after the first n instances have been entered. */
  ghost predicate PlatformMapAfter(platformMap: map<string, seq<nat>>, list: seq<ConfigRSSHub>, n: nat)
    requires n <= |list|
  {
    && platformMap.Keys == PlatformsOf(list, n)
    && forall p :: p in platformMap ==> platformMap[p] == GroupOf(list, p, n)
  }

  /** The platform map part-way through instance id, after its first j listed platforms. */
  ghost predicate PlatformMapDuring(m: map<string, seq<nat>>, list: seq<ConfigRSSHub>, id: nat, j: nat)
    requires id < |list| && j <= |list[id].platforms|
  {
    && m.Keys == PlatformsOf(list, id) + SetOf(list[id].platforms[..j])
    && forall p :: p in m ==> m[p] == GroupOf(list, p, id) + Repeat(id, Occurrences(list[id].platforms[..j], p))
  }

  lemma PlatformMapStart(m: map<string, seq<nat>>, list: seq<ConfigRSSHub>, id: nat)
    requires id < |list| && PlatformMapAfter(m, list, id)
    ensures PlatformMapDuring(m, list, id, 0)
  {
    assert list[id].platforms[..0] == [];
    assert SetOf([]) == {};
  }

  /** Entering one listed platform: create its key if missing, then append the id. */
  lemma PlatformMapStep(m1: map<string, seq<nat>>, m2: map<string, seq<nat>>, list: seq<ConfigRSSHub>, id: nat, j: nat)
    requires id < |list| && j < |list[id].platforms| && PlatformMapDuring(m1, list, id, j)
    requires m2 == m1[list[id].platforms[j] := (if list[id].platforms[j] in m1 then m1[list[id].platforms[j]] else []) + [id]]
    ensures PlatformMapDuring(m2, list, id, j + 1)
  {
    var ps, platform := list[id].platforms, list[id].platforms[j];
    OccurrencesSnoc(ps, j, platform);
    assert m2.Keys == m1.Keys + {platform};
    forall p | p in m2
      ensures m2[p] == GroupOf(list, p, id) + Repeat(id, Occurrences(ps[..j + 1], p))
    {
      PlatformMapStepAt(m1, m2, list, id, j, p);
    }
  }

  /** The step for one key: the entered platform gains id at the end, every other key is unchanged. */
  lemma PlatformMapStepAt(m1: map<string, seq<nat>>, m2: map<string, seq<nat>>, list: seq<ConfigRSSHub>, id: nat, j: nat, p: string)
    requires id < |list| && j < |list[id].platforms| && PlatformMapDuring(m1, list, id, j)
    requires m2 == m1[list[id].platforms[j] := (if list[id].platforms[j] in m1 then m1[list[id].platforms[j]] else []) + [id]]
    requires p in m2
    ensures m2[p] == GroupOf(list, p, id) + Repeat(id, Occurrences(list[id].platforms[..j + 1], p))
  {
    OccurrencesSnoc(list[id].platforms, j, p);
    if p == list[id].platforms[j] {
      PlatformMapAppended(m1, list, id, j);
    } else {
      assert m2[p] == m1[p];
    }
  }

  /** The group of the platform being entered, before the append: what the map holds, or empty for a new key. */
  lemma PlatformMapAppended(m1: map<string, seq<nat>>, list: seq<ConfigRSSHub>, id: nat, j: nat)
    requires id < |list| && j < |list[id].platforms| && PlatformMapDuring(m1, list, id, j)
    ensures var ps, platform := list[id].platforms, list[id].platforms[j];
      (if platform in m1 then m1[platform] else []) == GroupOf(list, platform, id) + Repeat(id, Occurrences(ps[..j], platform))
  {
    var ps, platform := list[id].platforms, list[id].platforms[j];
    if platform !in m1 {
      assert platform !in PlatformsOf(list, id);
      GroupAbsent(list, platform, id);
      OccurrencesAbsent(ps[..j], platform);
    }
  }

  lemma PlatformMapDone(m: map<string, seq<nat>>, list: seq<ConfigRSSHub>, id: nat)
    requires id < |list| && PlatformMapDuring(m, list, id, |list[id].platforms|)
    ensures PlatformMapAfter(m, list, id + 1)
  {
    assert list[id].platforms[..|list[id].platforms|] == list[id].platforms;
    forall p | p in m
      ensures m[p] == GroupOf(list, p, id + 1)
    {
      GroupStep(list, p, id);
    }
    GroupStep(list, "", id);
  }

  /** The inner loop of NewLoadBalancer: appends instance id once to the group of each platform it lists. */
  method AddPlatforms(platformMap: map<string, seq<nat>>, list: seq<ConfigRSSHub>, id: nat)
    returns (m: map<string, seq<nat>>)
    requires id < |list| && PlatformMapAfter(platformMap, list, id)
    ensures PlatformMapAfter(m, list, id + 1)
  {
    m := platformMap;
    PlatformMapStart(m, list, id);
    var ps := list[id].platforms;
    if |ps| > 0 {
      var j := 0;
      while j < |ps|
        invariant 0 <= j <= |ps|
        invariant PlatformMapDuring(m, list, id, j)
      {
        ghost var m0 := m;
        var platform := ps[j];
        if platform !in m {
          m := m[platform := []];
        }
        m := m[platform := m[platform] + [id]];
        PlatformMapStep(m0, m, list, id, j);
        j := j + 1;
      }
    }
    PlatformMapDone(m, list, id);
  }

  /** Builds the URL list, the platform map and the fallback list in one pass over the configuration. */
  method NewLoadBalancer(list: seq<ConfigRSSHub>, timeout: Duration) returns (lb: LoadBalancer)
    ensures lb.timeout == timeout
    ensures |lb.instanceList| == |list|
    ensures forall id :: 0 <= id < |list| ==> lb.instanceList[id] == list[id].url
    ensures lb.fallbacks == FallbackIds(list, |list|)
    ensures lb.platformMap.Keys == PlatformsOf(list, |list|)
    ensures forall p :: p in lb.platformMap ==> lb.platformMap[p] == GroupOf(list, p, |list|)
  {
    var instances := new string[|list|];
    var platformMap: map<string, seq<nat>> := map[];
    var fallbacks: seq<nat> := [];
    var id := 0;
    while id < |list|
      invariant 0 <= id <= |list|
      invariant forall k :: 0 <= k < id ==> instances[k] == list[k].url
      invariant fallbacks == FallbackIds(list, id)
      invariant PlatformMapAfter(platformMap, list, id)
    {
      instances[id] := list[id].url;
      platformMap := AddPlatforms(platformMap, list, id);
      if list[id].fallback {
        fallbacks := fallbacks + [id];
      }
      id := id + 1;
    }
    lb := LoadBalancer(timeout, instances[..], platformMap, fallbacks);
  }

  // ---------------------------------------------------------------------------
  // Fetching

  /** The result of a fetch: a value, an error, or no return at all (the caller blocks forever). */
  datatype Attempt<T> = Ok(value: T) | Err(msg: string) | Stuck

  /** fetchInstance for a request path and an instance id: a JSON Feed document, or None for any failure. */
  type Oracle = (string, nat) -> Option<JSONFeed>

  predicate Distinct(s: seq<nat>)
  {
    forall a, b :: 0 <= a < b < |s| ==> s[a] != s[b]
  }

  /**
   * The outcomes a group fetch can have, whatever the random pick and the racers' completion order:
   * an empty group fails; a single member decides alone; with two or more members the result is the
   * feed of some member that succeeds, and when every member fails the call never returns.
   */
  ghost predicate GroupOutcome(reqUrl: string, group: seq<nat>, fetch: Oracle, out: Attempt<JSONFeed>)
  {
    if |group| == 0 then out == Err("empty group")
    else if |group| == 1 then
      out == (if fetch(reqUrl, group[0]).Some? then Ok(fetch(reqUrl, group[0]).value) else Err("all attempts failed"))
    else
      && !out.Err?
      && (out.Ok? ==> exists k :: 0 <= k < |group| && fetch(reqUrl, group[k]) == Some(out.value))
      && (out.Stuck? <==> forall k :: 0 <= k < |group| ==> fetch(reqUrl, group[k]).None?)
  }

  /**
   * fetchFromGroup. pick is the random first member (as an index into group); contacted lists the
   * indices in the order their fetches completed; writes counts assignments to the shared result cell.
   */
  method FetchFromGroup(reqUrl: string, group: seq<nat>, fetch: Oracle)
    returns (r: Attempt<JSONFeed>, ghost pick: nat, ghost contacted: seq<nat>, ghost writes: nat)
    ensures |group| == 0 ==> r == Err("empty group") && contacted == []
    ensures |group| > 0 ==> pick < |group| && |contacted| > 0 && contacted[0] == pick
    ensures |group| > 0 && fetch(reqUrl, group[pick]).Some? ==>
      r == Ok(fetch(reqUrl, group[pick]).value) && contacted == [pick]
    ensures |group| == 1 && fetch(reqUrl, group[0]).None? ==> r == Err("all attempts failed") && contacted == [0]
    ensures |group| >= 2 && fetch(reqUrl, group[pick]).None? ==>
      && Distinct(contacted)
      && (forall k: nat :: k in contacted <==> k < |group|)
      && writes <= 1
      && (r.Ok? <==> writes == 1)
      && !r.Err?
      && (r.Ok? ==> exists k :: 0 <= k < |group| && k != pick && fetch(reqUrl, group[k]) == Some(r.value))
      && (r.Stuck? <==> forall k :: 0 <= k < |group| ==> fetch(reqUrl, group[k]).None?)
    ensures GroupOutcome(reqUrl, group, fetch, r)
  {
    pick, contacted, writes := 0, [], 0;
    if |group| == 0 {
      r := Err("empty group");
      return;
    }

    // rand.Intn: any index in range
    var randInstanceNo :| 0 <= randInstanceNo < |group|;
    pick := randInstanceNo;
    contacted := [randInstanceNo];
    var first := fetch(reqUrl, group[randInstanceNo]);
    if first.Some? {
      r := Ok(first.value);
      return;
    }
    if |group| == 1 {
      r := Err("all attempts failed");
      return;
    }

    // The race: every other member is started; they complete in any order, and the first
    // success to take the lock fills the result cell.
    var feedRes: Option<JSONFeed> := None;
    var pending: set<nat> := {};
    for instanceNo := 0 to |group|
      invariant forall k: nat :: k in pending <==> k < instanceNo && k != randInstanceNo
    {
      if instanceNo != randInstanceNo {
        pending := pending + {instanceNo};
      }
    }
    while pending != {}
      invariant |contacted| >= 1 && contacted[0] == randInstanceNo
      invariant Distinct(contacted)
      invariant forall j :: 0 <= j < |contacted| ==> contacted[j] < |group| && contacted[j] !in pending
      invariant forall k :: k in pending ==> k < |group|
      invariant forall k: nat :: k < |group| ==> k in contacted || k in pending
      invariant feedRes.None? <==> writes == 0
      invariant writes <= 1
      invariant feedRes.Some? ==>
        exists j :: 1 <= j < |contacted| && fetch(reqUrl, group[contacted[j]]) == feedRes
      invariant feedRes.None? ==> forall j :: 0 <= j < |contacted| ==> fetch(reqUrl, group[contacted[j]]).None?
      decreases pending
    {
      var instanceNo :| instanceNo in pending;
      pending := pending - {instanceNo};
      contacted := contacted + [instanceNo];
      var res := fetch(reqUrl, group[instanceNo]);
      if res.Some? && feedRes.None? {
        feedRes := res;
        writes := writes + 1;
      }
    }

    if feedRes.None? {
      // Done() was never called: Wait() blocks for ever and the error below it is never returned.
      r := Stuck;
      forall k | 0 <= k < |group|
        ensures fetch(reqUrl, group[k]).None?
      {
        assert k in contacted || k in pending;
        ghost var j :| 0 <= j < |contacted| && contacted[j] == k;
      }
    } else {
      r := Ok(feedRes.value);
      ghost var j :| 1 <= j < |contacted| && fetch(reqUrl, group[contacted[j]]) == feedRes;
      assert contacted[j] != pick;
    }
  }

  /** The prefix fetch puts in front of the fallback group's error. */
  const RequestFailed := "failed to request feed: "

  /**
   * What Fetch may return. preferred and fallback record what each group fetch produced, None when the
   * group was not tried: the platform's group is tried exactly when the platform has a key; the fallback
   * group exactly when there was no preferred group or it failed. A success is the conversion of the
   * document that group produced, a fallback error is wrapped, and a blocked group fetch blocks Fetch.
   */
  ghost predicate FetchOutcome(lb: LoadBalancer, reqUrl: string, platform: string, fetch: Oracle,
                               r: Attempt<Feed>, preferred: Option<Attempt<JSONFeed>>, fallback: Option<Attempt<JSONFeed>>)
  {
    && (preferred.Some? <==> platform in lb.platformMap)
    && (preferred.Some? ==> GroupOutcome(reqUrl, lb.platformMap[platform], fetch, preferred.value))
    && (fallback.Some? <==> preferred.None? || preferred.value.Err?)
    && (fallback.Some? ==> GroupOutcome(reqUrl, lb.fallbacks, fetch, fallback.value))
    && (preferred.Some? && preferred.value.Ok? ==> r.Ok? && IsConversionOf(preferred.value.value, r.value))
    && (preferred == Some(Stuck) ==> r == Stuck)
    && (fallback.Some? && fallback.value.Ok? ==> r.Ok? && IsConversionOf(fallback.value.value, r.value))
    && (fallback.Some? && fallback.value.Err? ==> r == Err(RequestFailed + fallback.value.msg))
    && (fallback == Some(Stuck) ==> r == Stuck)
  }

  /** Whatever the pick and the order: a success is some member's document, and an error means every member failed. */
  lemma GroupOutcomeMeaning(reqUrl: string, group: seq<nat>, fetch: Oracle, out: Attempt<JSONFeed>)
    requires GroupOutcome(reqUrl, group, fetch, out)
    ensures out.Ok? ==> exists id :: id in group && fetch(reqUrl, id) == Some(out.value)
    ensures out.Err? ==> out == Err("empty group") || out == Err("all attempts failed")
    ensures out.Err? ==> forall id :: id in group ==> fetch(reqUrl, id).None?
  {
    if out.Ok? && |group| >= 2 {
      var k :| 0 <= k < |group| && fetch(reqUrl, group[k]) == Some(out.value);
      assert group[k] in group;
    } else if out.Ok? {
      assert group[0] in group;
    }
  }

  /** Whether instance id belongs to the platform's group or to the fallback group. */
  predicate Serves(lb: LoadBalancer, platform: string, id: nat)
  {
    (platform in lb.platformMap && id in lb.platformMap[platform]) || id in lb.fallbacks
  }

  /** A fetched feed is the conversion of a document that one of the platform's or the fallback instances returned. */
  lemma FetchSuccessSource(lb: LoadBalancer, reqUrl: string, platform: string, fetch: Oracle,
                           r: Attempt<Feed>, preferred: Option<Attempt<JSONFeed>>, fallback: Option<Attempt<JSONFeed>>)
    requires FetchOutcome(lb, reqUrl, platform, fetch, r, preferred, fallback)
    ensures r.Ok? ==> exists id :: Serves(lb, platform, id) && fetch(reqUrl, id).Some? && IsConversionOf(fetch(reqUrl, id).value, r.value)
  {
    if preferred.Some? && preferred.value.Ok? {
      GroupOutcomeMeaning(reqUrl, lb.platformMap[platform], fetch, preferred.value);
      var id :| id in lb.platformMap[platform] && fetch(reqUrl, id) == Some(preferred.value.value);
      assert Serves(lb, platform, id);
    } else if fallback.Some? && fallback.value.Ok? {
      GroupOutcomeMeaning(reqUrl, lb.fallbacks, fetch, fallback.value);
      var id :| id in lb.fallbacks && fetch(reqUrl, id) == Some(fallback.value.value);
      assert Serves(lb, platform, id);
    }
  }

  /** A fetch error is one of the two group errors, wrapped, and comes only after every fallback instance failed. */
  lemma FetchErrorCause(lb: LoadBalancer, reqUrl: string, platform: string, fetch: Oracle,
                        r: Attempt<Feed>, preferred: Option<Attempt<JSONFeed>>, fallback: Option<Attempt<JSONFeed>>)
    requires FetchOutcome(lb, reqUrl, platform, fetch, r, preferred, fallback)
    ensures r.Err? ==> r == Err(RequestFailed + "empty group") || r == Err(RequestFailed + "all attempts failed")
    ensures r.Err? ==> forall id :: id in lb.fallbacks ==> fetch(reqUrl, id).None?
  {
    if r.Err? {
      if preferred.Some? {
        assert !preferred.value.Ok? && preferred.value != Stuck;
      }
      assert fallback.Some? && fallback.value.Err?;
      GroupOutcomeMeaning(reqUrl, lb.fallbacks, fetch, fallback.value);
    }
  }

  /** Fetch: the platform's group first when the platform has a key, then the fallback group. */
  method Fetch(lb: LoadBalancer, reqUrl: string, platform: string, fetch: Oracle)
    returns (r: Attempt<Feed>, ghost preferred: Option<Attempt<JSONFeed>>, ghost fallback: Option<Attempt<JSONFeed>>)
    ensures FetchOutcome(lb, reqUrl, platform, fetch, r, preferred, fallback)
    ensures r.Ok? ==> exists id :: Serves(lb, platform, id) && fetch(reqUrl, id).Some? && IsConversionOf(fetch(reqUrl, id).value, r.value)
    ensures r.Err? ==> r == Err(RequestFailed + "empty group") || r == Err(RequestFailed + "all attempts failed")
  {
    r := Stuck;
    preferred, fallback := None, None;
    ghost var pick, contacted, writes;
    var done := false;
    if platform in lb.platformMap {
      var group := lb.platformMap[platform];
      var res;
      res, pick, contacted, writes := FetchFromGroup(reqUrl, group, fetch);
      preferred := Some(res);
      if res.Ok? {
        var feed := ConvertJSON2Feed(Some(res.value));
        r := Ok(feed.value);
      }
      done := !res.Err?;
    }

    if !done {
      var res;
      res, pick, contacted, writes := FetchFromGroup(reqUrl, lb.fallbacks, fetch);
      fallback := Some(res);
      match res {
        case Err(e) =>
          r := Err(RequestFailed + e);
        case Stuck =>
          r := Stuck;
        case Ok(j) =>
          var feed := ConvertJSON2Feed(Some(j));
          r := Ok(feed.value);
      }
    }
    FetchSuccessSource(lb, reqUrl, platform, fetch, r, preferred, fallback);
    FetchErrorCause(lb, reqUrl, platform, fetch, r, preferred, fallback);
  }
}
