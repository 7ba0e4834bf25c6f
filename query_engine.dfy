/**
 * Query orchestration against the search cluster: the short-circuit rules,
 * the request body (look-ahead size, sort, random scoring, profiling,
 * highlighting), dispatch on the query mode, the relocation of looked-up
 * result items into hit order, and the escaping of the debug output.
 */
module QueryEngine {

  import opened Common
  import opened QueryDsl
  import Php
  import ScoreSet

  /** Query::MODE_INSTANCES, MODE_COUNT, MODE_DEBUG, MODE_NONE. */
  datatype Mode = Instances | Count | Debug | NoMode

  // ---------------------------------------------------------------------
  // Short-circuit

  /**
   * The early answers of getQueryResult: `Some(c)` is an empty result with
   * continuation flag `c`, `None` means the query is executed.
   */
  function ShortCircuit(isThing: bool, mode: Mode, errorCount: nat, limit: int): (r: Option<bool>)
    ensures r == Some(false) <==> isThing && mode != Debug && errorCount > 0
    ensures r == Some(true) <==> !(isThing && mode != Debug && errorCount > 0) && (mode == NoMode || limit < 1)
    ensures r.None? ==> mode != NoMode && limit >= 1
  {
    if isThing && mode != Debug && errorCount > 0 then Some(false)
    else if mode == NoMode || limit < 1 then Some(true)
    else None
  }

  // ---------------------------------------------------------------------
  // The request body

  const HighlightFields: seq<string> := ["attachment.content", "text_raw", "P*.txtField"]

  datatype Highlight = Highlight(numberOfFragments: int, fragmentSize: int, fields: seq<string>, fragmentType: Php.Value)

  /**
   * `in_array($type, ['plain', 'unified', 'fvh'])` with PHP 7 loose
   * comparison: `true` equals any of those strings, and so does `0`.
   */
  predicate AcceptedType(t: Php.Value) {
    match t
    case Str(s) => s == "plain" || s == "unified" || s == "fvh"
    case Bool(b) => b
    case Int(i) => i == 0
    case Null => false
  }

  /** `addHighlight`; `t` is the configured fragment type, `Bool(false)` when unset. */
  function HighlightFor(t: Php.Value): (r: Option<Highlight>)
    ensures r.Some? <==> t != Php.Bool(false) && AcceptedType(t)
    ensures r.Some? ==> r.value == Highlight(3, 150, HighlightFields, t)
  {
    if t == Php.Bool(false) || !AcceptedType(t) then None
    else Some(Highlight(3, 150, HighlightFields, t))
  }

  datatype Body = Body(
    source: bool, from: int, size: int, query: Query,
    sort: Option<seq<string>>, profile: bool, highlight: Option<Highlight>)

  /** The search body: no `_source`, look-ahead size, optional sort, profile and highlight. */
  function BuildBody(q: Query, sort: seq<string>, isRandom: bool, offset: int, limit: int,
                     profiling: Php.Value, specialSearch: Php.Value, mode: Mode, highlightType: Php.Value): Body
  {
    Body(false, offset, limit + 1, if isRandom then FunctionScoreRandom(q) else q,
         if !isRandom && sort != [] then Some(sort) else None,
         Php.ToBool(profiling),
         if specialSearch != Php.Bool(false) && mode != Count then HighlightFor(highlightType) else None)
  }

  /** What every body carries, and when sort, random scoring and highlighting appear. */
  lemma BodyShape(q: Query, sort: seq<string>, isRandom: bool, offset: int, limit: int,
                  profiling: Php.Value, specialSearch: Php.Value, mode: Mode, highlightType: Php.Value)
    ensures var b := BuildBody(q, sort, isRandom, offset, limit, profiling, specialSearch, mode, highlightType);
      && !b.source && b.from == offset && b.size == limit + 1
      && (isRandom ==> b.query == FunctionScoreRandom(q))
      && (!isRandom ==> b.query == q)
      && (b.sort.Some? <==> !isRandom && sort != [])
      && (b.highlight.Some? <==>
            specialSearch != Php.Bool(false) && mode != Count && highlightType != Php.Bool(false) && AcceptedType(highlightType))
      && (b.highlight.Some? ==> b.highlight.value.numberOfFragments == 3 && b.highlight.value.fragmentSize == 150)
  {
  }

  datatype Params = Params(index: string, body: Body)

  // ---------------------------------------------------------------------
  // Count results

  /** `isset($result['count']) ? $result['count'] : 0` */
  function CountValue(resp: map<string, Php.Value>): (r: Php.Value)
    ensures "count" in resp && resp["count"] != Php.Null ==> r == resp["count"]
    ensures !("count" in resp && resp["count"] != Php.Null) ==> r == Php.Int(0)
  {
    if "count" in resp && resp["count"] != Php.Null then resp["count"] else Php.Int(0)
  }

  // ---------------------------------------------------------------------
  // Debug output escaping

  /** The debug info: `str_replace` applies the five replacements one after the other. */
  function Escape(s: string): string {
    var s1 := Php.ReplaceAll(s, "[", "&#91;");
    var s2 := Php.ReplaceAll(s1, "<", "&lt;");
    var s3 := Php.ReplaceAll(s2, ">", "&gt;");
    var s4 := Php.ReplaceAll(s3, "\\\"", "&quot;");
    Php.ReplaceAll(s4, "\\n", "")
  }

  /** No '[', '<' or '>' survives the escaping. */
  lemma EscapeRemovesMarkup(s: string)
    ensures '[' !in Escape(s) && '<' !in Escape(s) && '>' !in Escape(s)
  {
    var s1 := Php.ReplaceAll(s, "[", "&#91;");
    var s2 := Php.ReplaceAll(s1, "<", "&lt;");
    var s3 := Php.ReplaceAll(s2, ">", "&gt;");
    var s4 := Php.ReplaceAll(s3, "\\\"", "&quot;");
    Php.ReplaceAllRemoves(s, '[', "&#91;");
    Php.ReplaceAllKeepsAbsent(s1, "<", "&lt;", '[');
    Php.ReplaceAllKeepsAbsent(s2, ">", "&gt;", '[');
    Php.ReplaceAllKeepsAbsent(s3, "\\\"", "&quot;", '[');
    Php.ReplaceAllKeepsAbsent(s4, "\\n", "", '[');
    Php.ReplaceAllRemoves(s1, '<', "&lt;");
    Php.ReplaceAllKeepsAbsent(s2, ">", "&gt;", '<');
    Php.ReplaceAllKeepsAbsent(s3, "\\\"", "&quot;", '<');
    Php.ReplaceAllKeepsAbsent(s4, "\\n", "", '<');
    Php.ReplaceAllRemoves(s2, '>', "&gt;");
    Php.ReplaceAllKeepsAbsent(s3, "\\\"", "&quot;", '>');
    Php.ReplaceAllKeepsAbsent(s4, "\\n", "", '>');
  }

  // ---------------------------------------------------------------------
  // Relocation of instance results

  /** A result item as the bulk id lookup returns it. */
  datatype Item = Item(id: int, hash: string)

  /** `array_flip($results)[$id]`: the last position of `id` in the hit list. */
  function LastPos(hits: seq<int>, id: int): (p: int)
    requires id in hits
    ensures 0 <= p < |hits| && hits[p] == id
    ensures forall k :: p < k < |hits| ==> hits[k] != id
    decreases |hits|
  {
    if hits[|hits| - 1] == id then |hits| - 1 else LastPos(hits[..|hits| - 1], id)
  }

  predicate FromHits(hits: seq<int>, res: seq<Item>) {
    forall k :: 0 <= k < |res| ==> res[k].id in hits
  }

  predicate DistinctIds(res: seq<Item>) {
    forall i, j :: 0 <= i < j < |res| ==> res[i].id != res[j].id
  }

  /** `$resultList[$listPos[$id]] = $dataItem` for each looked-up item in turn. */
  function Placed(hits: seq<int>, res: seq<Item>): map<int, Item>
    requires FromHits(hits, res)
    decreases |res|
  {
    if res == [] then map[]
    else Placed(hits, res[..|res| - 1])[LastPos(hits, res[|res| - 1].id) := res[|res| - 1]]
  }

  /** Every occupied position is the position of some looked-up item. */
  lemma {:induction false} PlacedKeysFromItems(hits: seq<int>, res: seq<Item>)
    requires FromHits(hits, res)
    ensures forall p :: p in Placed(hits, res) ==> exists k :: 0 <= k < |res| && LastPos(hits, res[k].id) == p
    decreases |res|
  {
    if res != [] {
      var init := res[..|res| - 1];
      PlacedKeysFromItems(hits, init);
      var q := LastPos(hits, res[|res| - 1].id);
      forall p | p in Placed(hits, res) ensures exists k :: 0 <= k < |res| && LastPos(hits, res[k].id) == p {
        if p != q {
          assert p in Placed(hits, init);
          var k :| 0 <= k < |init| && LastPos(hits, init[k].id) == p;
          assert res[k] == init[k];
        }
      }
    }
  }

  /** With distinct ids, each item sits at its own id's position. */
  lemma {:induction false} PlacedItems(hits: seq<int>, res: seq<Item>)
    requires FromHits(hits, res) && DistinctIds(res)
    ensures forall k :: 0 <= k < |res| ==>
      LastPos(hits, res[k].id) in Placed(hits, res) && Placed(hits, res)[LastPos(hits, res[k].id)] == res[k]
    decreases |res|
  {
    if res != [] {
      var init := res[..|res| - 1];
      PlacedItems(hits, init);
      var last := res[|res| - 1];
      var q := LastPos(hits, last.id);
      forall k | 0 <= k < |res| - 1 ensures LastPos(hits, res[k].id) != q {
        assert res[k].id != last.id;
        assert hits[LastPos(hits, res[k].id)] == res[k].id;
      }
    }
  }

  /** With distinct ids, each item sits at its own id's position, and only there. */
  lemma PlacedSpec(hits: seq<int>, res: seq<Item>)
    requires FromHits(hits, res) && DistinctIds(res)
    ensures forall k :: 0 <= k < |res| ==>
      LastPos(hits, res[k].id) in Placed(hits, res) && Placed(hits, res)[LastPos(hits, res[k].id)] == res[k]
    ensures forall p :: p in Placed(hits, res) ==> exists k :: 0 <= k < |res| && LastPos(hits, res[k].id) == p
  {
    PlacedItems(hits, res);
    PlacedKeysFromItems(hits, res);
  }

  /** The placement does not depend on the order in which the lookup returns the items. */
  lemma PlacementIgnoresLookupOrder(hits: seq<int>, r1: seq<Item>, r2: seq<Item>)
    requires FromHits(hits, r1) && DistinctIds(r1) && FromHits(hits, r2) && DistinctIds(r2)
    requires forall x :: x in r1 <==> x in r2
    ensures Placed(hits, r1) == Placed(hits, r2)
  {
    PlacedSpec(hits, r1);
    PlacedSpec(hits, r2);
    var m1 := Placed(hits, r1);
    var m2 := Placed(hits, r2);
    forall p | p in m1 ensures p in m2 && m2[p] == m1[p] {
      var k :| 0 <= k < |r1| && LastPos(hits, r1[k].id) == p;
      assert r1[k] in r2;
      var j :| 0 <= j < |r2| && r2[j] == r1[k];
    }
    forall p | p in m2 ensures p in m1 {
      var j :| 0 <= j < |r2| && LastPos(hits, r2[j].id) == p;
      assert r2[j] in r1;
      var k :| 0 <= k < |r1| && r1[k] == r2[j];
    }
    assert m1.Keys == m2.Keys;
  }

  /** The keys of `m` below `n`, ascending (the key order `ksort` produces). */
  function Positions(m: map<int, Item>, n: nat): (ps: seq<int>)
    ensures forall i :: 0 <= i < |ps| ==> ps[i] in m && 0 <= ps[i] < n
    ensures forall i, j :: 0 <= i < j < |ps| ==> ps[i] < ps[j]
    ensures forall p :: 0 <= p < n && p in m ==> p in ps
  {
    if n == 0 then [] else Positions(m, n - 1) + (if n - 1 in m then [n - 1] else [])
  }

  /** `ksort($resultList)` read back as a list, for a list whose keys lie in [0, n). */
  function KSorted(m: map<int, Item>, n: nat): (r: seq<Item>)
    ensures |r| == |Positions(m, n)|
    ensures forall i :: 0 <= i < |r| ==> r[i] == m[Positions(m, n)[i]]
  {
    var ps := Positions(m, n);
    seq(|ps|, i requires 0 <= i < |ps| => m[ps[i]])
  }

  /** The ordered results: each one's id sits at its position of the hit list, and positions ascend. */
  lemma ResultsFollowHitOrder(hits: seq<int>, res: seq<Item>)
    requires FromHits(hits, res) && DistinctIds(res)
    ensures var out := KSorted(Placed(hits, res), |hits|); var ps := Positions(Placed(hits, res), |hits|);
      && (forall i :: 0 <= i < |out| ==> out[i].id == hits[ps[i]] && out[i] in res)
      && (forall i, j :: 0 <= i < j < |out| ==> ps[i] < ps[j])
      && |out| == |res|
      && (forall k :: 0 <= k < |res| ==> res[k] in out)
      && multiset(out) == multiset(res)
  {
    ResultsAreItems(hits, res);
    ResultsCount(hits, res);
  }

  lemma ResultsAreItems(hits: seq<int>, res: seq<Item>)
    requires FromHits(hits, res) && DistinctIds(res)
    ensures var out := KSorted(Placed(hits, res), |hits|); var ps := Positions(Placed(hits, res), |hits|);
      forall i :: 0 <= i < |out| ==> out[i].id == hits[ps[i]] && out[i] in res
  {
    PlacedSpec(hits, res);
    var m := Placed(hits, res);
    var out := KSorted(m, |hits|);
    var ps := Positions(m, |hits|);
    forall i | 0 <= i < |out| ensures out[i].id == hits[ps[i]] && out[i] in res {
      var k :| 0 <= k < |res| && LastPos(hits, res[k].id) == ps[i];
    }
  }

  /** No looked-up item is lost or duplicated: the results are a permutation of the items. */
  lemma ResultsCount(hits: seq<int>, res: seq<Item>)
    requires FromHits(hits, res) && DistinctIds(res)
    ensures |KSorted(Placed(hits, res), |hits|)| == |res|
    ensures forall k :: 0 <= k < |res| ==> res[k] in KSorted(Placed(hits, res), |hits|)
    ensures multiset(KSorted(Placed(hits, res), |hits|)) == multiset(res)
  {
    ResultsKeepEveryItem(hits, res);
    ResultsPermuteItems(hits, res);
    var m := Placed(hits, res);
    var ps := Positions(m, |hits|);
    PlacedKeys(hits, res);
    assert (set i | 0 <= i < |ps| :: ps[i]) == m.Keys by {
      PlacedKeysInRange(hits, res);
    }
    DistinctCard(ps);
  }

  /** Every looked-up item appears among the results. */
  lemma ResultsKeepEveryItem(hits: seq<int>, res: seq<Item>)
    requires FromHits(hits, res) && DistinctIds(res)
    ensures forall k :: 0 <= k < |res| ==> res[k] in KSorted(Placed(hits, res), |hits|)
  {
    PlacedSpec(hits, res);
    var m := Placed(hits, res);
    var out := KSorted(m, |hits|);
    var ps := Positions(m, |hits|);
    forall k | 0 <= k < |res| ensures res[k] in out {
      var p := LastPos(hits, res[k].id);
      var i :| 0 <= i < |ps| && ps[i] == p;
      assert out[i] == res[k];
    }
  }

  /** The results hold no item twice, and each is a looked-up item. */
  lemma ResultsDistinct(hits: seq<int>, res: seq<Item>, out: seq<Item>)
    requires FromHits(hits, res) && DistinctIds(res)
    requires out == KSorted(Placed(hits, res), |hits|)
    ensures forall i :: 0 <= i < |out| ==> out[i] in res
    ensures forall i, j :: 0 <= i < j < |out| ==> out[i] != out[j]
  {
    PlacedSpec(hits, res);
    var m := Placed(hits, res);
    var ps := Positions(m, |hits|);
    forall i | 0 <= i < |out| ensures out[i] in res && LastPos(hits, out[i].id) == ps[i] {
      var k :| 0 <= k < |res| && LastPos(hits, res[k].id) == ps[i];
      assert out[i] == res[k];
    }
  }

  /** The results are a permutation of the looked-up items. */
  lemma ResultsPermuteItems(hits: seq<int>, res: seq<Item>)
    requires FromHits(hits, res) && DistinctIds(res)
    ensures multiset(KSorted(Placed(hits, res), |hits|)) == multiset(res)
  {
    var out := KSorted(Placed(hits, res), |hits|);
    ResultsDistinct(hits, res, out);
    ResultsKeepEveryItem(hits, res);
    assert forall i, j :: 0 <= i < j < |res| ==> res[i] != res[j] by {
      forall i, j | 0 <= i < j < |res| ensures res[i] != res[j] {
        assert res[i].id != res[j].id;
      }
    }
    forall x ensures x in out <==> x in res {
      if x in out {
        var i :| 0 <= i < |out| && out[i] == x;
      }
      if x in res {
        var k :| 0 <= k < |res| && res[k] == x;
      }
    }
    SameElementsMultiset(out, res);
  }

  /** Two lists without repeats and with the same elements are permutations of each other. */
  lemma SameElementsMultiset<T>(a: seq<T>, b: seq<T>)
    requires forall i, j :: 0 <= i < j < |a| ==> a[i] != a[j]
    requires forall i, j :: 0 <= i < j < |b| ==> b[i] != b[j]
    requires forall x :: x in a <==> x in b
    ensures multiset(a) == multiset(b)
  {
    forall x ensures multiset(a)[x] == multiset(b)[x] {
      NoDupMultiset(a, x);
      NoDupMultiset(b, x);
    }
  }

  /** In a list without repeats every element occurs once. */
  lemma {:induction false} NoDupMultiset<T>(s: seq<T>, x: T)
    requires forall i, j :: 0 <= i < j < |s| ==> s[i] != s[j]
    ensures multiset(s)[x] == if x in s then 1 else 0
    decreases |s|
  {
    if s != [] {
      var init := s[..|s| - 1];
      NoDupMultiset(init, x);
      assert s == init + [s[|s| - 1]];
      assert s[|s| - 1] !in init by {
        forall j | 0 <= j < |init| ensures init[j] != s[|s| - 1] {
          assert init[j] == s[j];
        }
      }
    }
  }

  lemma PlacedKeysInRange(hits: seq<int>, res: seq<Item>)
    requires FromHits(hits, res)
    ensures var m := Placed(hits, res); var ps := Positions(m, |hits|);
      (set i | 0 <= i < |ps| :: ps[i]) == m.Keys
  {
    PlacedKeysFromItems(hits, res);
    var m := Placed(hits, res);
    var ps := Positions(m, |hits|);
    forall p | p in m ensures p in (set i | 0 <= i < |ps| :: ps[i]) {
      var k :| 0 <= k < |res| && LastPos(hits, res[k].id) == p;
      assert 0 <= p < |hits|;
      var i :| 0 <= i < |ps| && ps[i] == p;
    }
  }

  /** With distinct ids, there are as many positions as items. */
  lemma {:induction false} PlacedKeys(hits: seq<int>, res: seq<Item>)
    requires FromHits(hits, res) && DistinctIds(res)
    ensures |Placed(hits, res).Keys| == |res|
    decreases |res|
  {
    if res != [] {
      var init := res[..|res| - 1];
      PlacedKeys(hits, init);
      PlacedKeysFromItems(hits, init);
      var last := res[|res| - 1];
      var q := LastPos(hits, last.id);
      forall k | 0 <= k < |init| ensures LastPos(hits, init[k].id) != q {
        assert res[k] == init[k];
        assert hits[LastPos(hits, init[k].id)] == init[k].id;
      }
      assert q !in Placed(hits, init);
      assert Placed(hits, res).Keys == Placed(hits, init).Keys + {q};
    }
  }

  /** An ascending list has as many elements as its set. */
  lemma {:induction false} DistinctCard(ps: seq<int>)
    requires forall i, j :: 0 <= i < j < |ps| ==> ps[i] < ps[j]
    ensures |(set i | 0 <= i < |ps| :: ps[i])| == |ps|
    decreases |ps|
  {
    if ps != [] {
      var init := ps[..|ps| - 1];
      DistinctCard(init);
      var s0 := set i | 0 <= i < |init| :: init[i];
      var s1 := set i | 0 <= i < |ps| :: ps[i];
      assert s1 == s0 + {ps[|ps| - 1]} by {
        forall x | x in s1 ensures x in s0 + {ps[|ps| - 1]} {
          var i :| 0 <= i < |ps| && ps[i] == x;
          if i < |init| { assert init[i] == x; }
        }
      }
      assert ps[|ps| - 1] !in s0;
    }
  }

  /** The (hash, score) pairs added while relocating: only for ids present in the score map. */
  function ScorePairs(res: seq<Item>, scores: map<int, ScoreSet.Score>): seq<(string, ScoreSet.Score)>
    decreases |res|
  {
    if res == [] then []
    else
      var it := res[|res| - 1];
      ScorePairs(res[..|res| - 1], scores) + (if it.id in scores then [(it.hash, scores[it.id])] else [])
  }

  /** The excerpts attached while relocating: only for ids present in the excerpt map. */
  function ExcerptPairs(res: seq<Item>, excerpts: map<int, string>): seq<(Item, string)>
    decreases |res|
  {
    if res == [] then []
    else
      var it := res[|res| - 1];
      ExcerptPairs(res[..|res| - 1], excerpts) + (if it.id in excerpts then [(it, excerpts[it.id])] else [])
  }

  /** Every attached score belongs to a looked-up item whose id has a score. */
  lemma {:induction false} ScoresOnlyForScoredIds(res: seq<Item>, scores: map<int, ScoreSet.Score>)
    ensures |ScorePairs(res, scores)| <= |res|
    ensures forall x :: x in ScorePairs(res, scores) ==>
      exists k :: 0 <= k < |res| && res[k].id in scores && x == (res[k].hash, scores[res[k].id])
    decreases |res|
  {
    if res != [] {
      var init := res[..|res| - 1];
      ScoresOnlyForScoredIds(init, scores);
      forall x | x in ScorePairs(res, scores) ensures exists k :: 0 <= k < |res| && res[k].id in scores && x == (res[k].hash, scores[res[k].id]) {
        if x in ScorePairs(init, scores) {
          var k :| 0 <= k < |init| && init[k].id in scores && x == (init[k].hash, scores[init[k].id]);
          assert res[k] == init[k];
        } else {
          assert x == (res[|res| - 1].hash, scores[res[|res| - 1].id]);
        }
      }
    }
  }

  // ---------------------------------------------------------------------
  // The engine

  /** What getQueryResult returns. */
  datatype Outcome =
    | EmptyResult(cont: bool)
    | DebugOutput(info: string)          // the escaped info, before the HTML wrapper
    | CountResult(count: Php.Value, cont: bool)   // newQueryResult( ..., [], false ) with its count value
    | InstanceResult(items: seq<Item>, cont: bool, scores: seq<(string, ScoreSet.Score)>, excerpts: seq<(Item, string)>)

  /** Entries of `queryInfo['elastic']`. */
  datatype InfoEntry = BuilderInfo(payload: string) | RequestInfo(params: Params) | ValidateInfo(payload: string)

  /**
   * The `queryInfo` document the debug output encodes: the recorded
   * `elastic` entries and the `smw` part (query string, sort keys, size and
   * depth metrics, description log), which is not modelled and given as is.
   */
  datatype QueryInfoDoc = QueryInfoDoc(elastic: seq<InfoEntry>, smw: string)

  /** `queryInfo['info']` */
  datatype InfoVal = NoInfo | CountInfo(resp: map<string, Php.Value>) | SearchInfo(payload: string)

  /**
   * The answers of the collaborators for one query: the query builder, the
   * sort builder, the engine options, the connection, `elastic_result`,
   * the bulk id lookup, and `json_encode` (`jsonEncode`).
   */
  datatype Env = Env(
    builderQuery: Query, builderErrors: seq<string>, builderInfo: seq<string>,
    sort: seq<string>, isRandom: bool,
    profiling: Php.Value, highlightType: Php.Value,
    dataIndex: string,
    validateResponse: string, smwInfo: string, jsonEncode: QueryInfoDoc -> string,
    countResponse: map<string, Php.Value>,
    searchErrors: seq<string>, hits: seq<int>, scores: map<int, ScoreSet.Score>, excerpts: map<int, string>,
    searchInfo: string, cont: bool,
    lookup: seq<Item>)

  /** The `Query` object as far as the engine reads and changes it. */
  class SmwQuery {
    var errors: seq<string>
    const isThing: bool
    const mode: Mode
    const limit: int
    const offset: int
    const specialSearch: Php.Value   // getOption('is.special_search')

    constructor (isThing: bool, mode: Mode, limit: int, offset: int, specialSearch: Php.Value, errors: seq<string>)
      ensures this.isThing == isThing && this.mode == mode && this.limit == limit && this.offset == offset
      ensures this.specialSearch == specialSearch && this.errors == errors
    {
      this.isThing := isThing;
      this.mode := mode;
      this.limit := limit;
      this.offset := offset;
      this.specialSearch := specialSearch;
      this.errors := errors;
    }

    method AddErrors(es: seq<string>)
      modifies this`errors
      ensures errors == old(errors) + es
    {
      errors := errors + es;
    }
  }

  function BuilderEntries(info: seq<string>): (r: seq<InfoEntry>)
    ensures |r| == |info| && forall k :: 0 <= k < |info| ==> r[k] == BuilderInfo(info[k])
  {
    if info == [] then [] else [BuilderInfo(info[0])] + BuilderEntries(info[1..])
  }

  /** The params of the one search request for a query that is executed. */
  function RequestParams(q: SmwQuery, env: Env): Params
    reads q
  {
    Params(env.dataIndex, BuildBody(env.builderQuery, env.sort, env.isRandom, q.offset, q.limit,
                                    env.profiling, q.specialSearch, q.mode, env.highlightType))
  }

  predicate LookupFromHits(env: Env) {
    FromHits(env.hits, env.lookup)
  }

  class QueryEngine {
    var errors: seq<string>
    var elasticInfo: seq<InfoEntry>
    var info: InfoVal

    constructor ()
      ensures errors == [] && elasticInfo == [] && info == NoInfo
    {
      errors := [];
      elasticInfo := [];
      info := NoInfo;
    }

    /** `getQueryResult` */
    method GetQueryResult(query: SmwQuery, env: Env) returns (r: Outcome)
      requires LookupFromHits(env)
      modifies this, query
      ensures var sc := ShortCircuit(query.isThing, query.mode, |old(query.errors)|, query.limit);
        sc.Some? ==>
          (r == EmptyResult(sc.value) && query.errors == old(query.errors)
           && errors == old(errors) && elasticInfo == old(elasticInfo) && info == old(info))
      ensures ShortCircuit(query.isThing, query.mode, |old(query.errors)|, query.limit).None? ==>
        && errors == env.builderErrors
        && query.errors == old(query.errors) + env.builderErrors + (if query.mode == Instances then env.searchErrors else [])
        && elasticInfo == BuilderEntries(env.builderInfo) + [RequestInfo(RequestParams(query, env))]
             + (if query.mode == Debug then [ValidateInfo(env.validateResponse)] else [])
        && (query.mode == Debug ==> r == DebugOutput(Escape(env.jsonEncode(QueryInfoDoc(elasticInfo, env.smwInfo)))) && info == NoInfo)
        && (query.mode == Count ==> r == CountResult(CountValue(env.countResponse), false) && info == CountInfo(env.countResponse))
        && (query.mode == Instances ==>
              r == InstanceResult(KSorted(Placed(env.hits, env.lookup), |env.hits|), env.cont,
                                  ScorePairs(env.lookup, env.scores), ExcerptPairs(env.lookup, env.excerpts))
              && info == SearchInfo(env.searchInfo))
    {
      var sc := ShortCircuit(query.isThing, query.mode, |query.errors|, query.limit);
      if sc.Some? {
        return EmptyResult(sc.value);
      }
      errors := [];
      elasticInfo := [];
      info := NoInfo;

      var q := env.builderQuery;
      errors := env.builderErrors;
      elasticInfo := BuilderEntries(env.builderInfo);
      if env.isRandom {
        q := FunctionScoreRandom(q);
      }
      var sortField := if !env.isRandom && env.sort != [] then Some(env.sort) else None;
      var highlight := None;
      if query.specialSearch != Php.Bool(false) && query.mode != Count {
        highlight := AddHighlight(env.highlightType);
      }
      var body := Body(false, query.offset, query.limit + 1, q, sortField, Php.ToBool(env.profiling), highlight);
      query.AddErrors(errors);
      var params := Params(env.dataIndex, body);
      elasticInfo := elasticInfo + [RequestInfo(params)];

      match query.mode
      case Debug =>
        elasticInfo := elasticInfo + [ValidateInfo(env.validateResponse)];
        r := DebugOutput(Escape(env.jsonEncode(QueryInfoDoc(elasticInfo, env.smwInfo))));
      case Count =>
        info := CountInfo(env.countResponse);
        r := CountResult(CountValue(env.countResponse), false);
      case Instances =>
        r := NewInstanceQueryResult(query, env);
      case NoMode =>
        assert false;
    }

    /** `addHighlight`: the highlight block for an accepted fragment type. */
    method AddHighlight(t: Php.Value) returns (h: Option<Highlight>)
      ensures h == HighlightFor(t)
    {
      if t == Php.Bool(false) {
        return None;
      }
      if !(t == Php.Str("plain") || t == Php.Str("unified") || t == Php.Str("fvh") || t == Php.Bool(true) || t == Php.Int(0)) {
        return None;
      }
      h := Some(Highlight(3, 150, HighlightFields, t));
    }

    /** `newInstanceQueryResult` */
    method NewInstanceQueryResult(query: SmwQuery, env: Env) returns (r: Outcome)
      requires LookupFromHits(env)
      modifies this`info, query`errors
      ensures query.errors == old(query.errors) + env.searchErrors
      ensures info == SearchInfo(env.searchInfo)
      ensures r == InstanceResult(KSorted(Placed(env.hits, env.lookup), |env.hits|), env.cont,
                                  ScorePairs(env.lookup, env.scores), ExcerptPairs(env.lookup, env.excerpts))
    {
      query.AddErrors(env.searchErrors);
      var resultList, scoreSet, excerpts := Relocate(env.hits, env.lookup, env.scores, env.excerpts);
      info := SearchInfo(env.searchInfo);
      r := InstanceResult(KSorted(resultList, |env.hits|), env.cont, scoreSet.scores, excerpts);
    }

    /** The relocation loop: position each item by its hit position, attach scores and excerpts. */
    method Relocate(hits: seq<int>, res: seq<Item>, scores: map<int, ScoreSet.Score>, excerptList: map<int, string>)
      returns (resultList: map<int, Item>, scoreSet: ScoreSet.ScoreSet, excerpts: seq<(Item, string)>)
      requires FromHits(hits, res)
      ensures fresh(scoreSet)
      ensures resultList == Placed(hits, res)
      ensures scoreSet.scores == ScorePairs(res, scores)
      ensures excerpts == ExcerptPairs(res, excerptList)
    {
      resultList := map[];
      scoreSet := new ScoreSet.ScoreSet();
      excerpts := [];
      var i := 0;
      while i < |res|
        invariant 0 <= i <= |res|
        invariant resultList == Placed(hits, res[..i])
        invariant scoreSet.scores == ScorePairs(res[..i], scores)
        invariant excerpts == ExcerptPairs(res[..i], excerptList)
        modifies scoreSet
      {
        var item := res[i];
        assert res[..i + 1][..i] == res[..i];
        resultList := resultList[LastPos(hits, item.id) := item];
        if item.id in scores {
          scoreSet.AddScore(ScoreSet.HashKey(item.hash), scores[item.id]);
        }
        if item.id in excerptList {
          excerpts := excerpts + [(item, excerptList[item.id])];
        }
        i := i + 1;
      }
      assert res[..|res|] == res;
    }
  }
}
