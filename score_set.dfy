/**
 * Relevance scores of query results: an append-only list of (hash, score)
 * pairs searched front to back, plus the recorded maximum and minimum score.
 */
module ScoreSet {

  import opened Common

  /** A score is an opaque payload (a float or a string in the source). */
  type Score = string

  /** The subject hash a page normalises to (`DIWikiPage::getHash`). */
  datatype Page = Page(hash: string)

  /** `addScore`/`getScore` accept either a page or its hash. */
  datatype Key = PageKey(page: Page) | HashKey(hash: string)

  function KeyHash(k: Key): (h: string)
    ensures k.PageKey? ==> h == k.page.hash
    ensures k.HashKey? ==> h == k.hash
  {
    match k
    case PageKey(p) => p.hash
    case HashKey(h) => h
  }

  /** The score of the first pair whose hash is `h`, or None (`false` in the source). */
  function FirstMatch(pairs: seq<(string, Score)>, h: string): Option<Score>
  {
    if pairs == [] then None
    else if pairs[0].0 == h then Some(pairs[0].1)
    else FirstMatch(pairs[1..], h)
  }

  /** FirstMatch finds a pair exactly when one has the hash, and then the first one. */
  lemma {:induction false} FirstMatchSpec(pairs: seq<(string, Score)>, h: string)
    ensures FirstMatch(pairs, h).None? <==> forall j :: 0 <= j < |pairs| ==> pairs[j].0 != h
    ensures FirstMatch(pairs, h).Some? ==>
      exists i :: 0 <= i < |pairs| && pairs[i].0 == h && pairs[i].1 == FirstMatch(pairs, h).value &&
        forall j :: 0 <= j < i ==> pairs[j].0 != h
  {
    if pairs != [] && pairs[0].0 != h {
      FirstMatchSpec(pairs[1..], h);
      if FirstMatch(pairs, h).Some? {
        var i :| 0 <= i < |pairs[1..]| && pairs[1..][i].0 == h && pairs[1..][i].1 == FirstMatch(pairs, h).value &&
          forall j :: 0 <= j < i ==> pairs[1..][j].0 != h;
        assert pairs[i + 1].0 == h;
      }
      forall j | 0 <= j < |pairs| && FirstMatch(pairs, h).None? ensures pairs[j].0 != h {
        if j > 0 { assert pairs[j] == pairs[1..][j - 1]; }
      }
    }
  }

  /** Appending never shadows an earlier pair: a hash already present keeps its score. */
  lemma {:induction false} AppendKeepsFirst(pairs: seq<(string, Score)>, h: string, s: Score, q: string)
    requires FirstMatch(pairs, q).Some?
    ensures FirstMatch(pairs + [(h, s)], q) == FirstMatch(pairs, q)
  {
    if pairs[0].0 != q {
      assert (pairs + [(h, s)])[1..] == pairs[1..] + [(h, s)];
      AppendKeepsFirst(pairs[1..], h, s, q);
    }
  }

  /** A hash not yet present is found with the score just appended. */
  lemma {:induction false} AppendFindsNew(pairs: seq<(string, Score)>, h: string, s: Score)
    requires FirstMatch(pairs, h).None?
    ensures FirstMatch(pairs + [(h, s)], h) == Some(s)
  {
    if pairs != [] {
      assert (pairs + [(h, s)])[1..] == pairs[1..] + [(h, s)];
      AppendFindsNew(pairs[1..], h, s);
    }
  }

  class ScoreSet {
    var scores: seq<(string, Score)>
    var maxScore: Option<Score>
    var minScore: Option<Score>

    constructor ()
      ensures scores == [] && maxScore == None && minScore == None
    {
      scores := [];
      maxScore := None;
      minScore := None;
    }

    /** `max_score`: records the argument, the pairs are untouched. */
    method SetMaxScore(s: Score)
      modifies this`maxScore
      ensures maxScore == Some(s)
    {
      maxScore := Some(s);
    }

    /** `min_score`: records the argument, the pairs are untouched. */
    method SetMinScore(s: Score)
      modifies this`minScore
      ensures minScore == Some(s)
    {
      minScore := Some(s);
    }

    /** Appends one pair under the key's hash; an earlier pair for the same hash stays first. */
    method AddScore(key: Key, score: Score)
      modifies this`scores
      ensures scores == old(scores) + [(KeyHash(key), score)]
      ensures |scores| == |old(scores)| + 1
      ensures FirstMatch(old(scores), KeyHash(key)).Some? ==>
        FirstMatch(scores, KeyHash(key)) == FirstMatch(old(scores), KeyHash(key))
      ensures FirstMatch(old(scores), KeyHash(key)).None? ==>
        FirstMatch(scores, KeyHash(key)) == Some(score)
    {
      var hash := match key case PageKey(p) => p.hash case HashKey(h) => h;
      if FirstMatch(scores, hash).Some? {
        AppendKeepsFirst(scores, hash, score, hash);
      } else {
        AppendFindsNew(scores, hash, score);
      }
      scores := scores + [(hash, score)];
    }

    /** Linear search for the first pair whose hash equals the key's hash. */
    method GetScore(key: Key) returns (r: Option<Score>)
      ensures r == FirstMatch(scores, KeyHash(key))
    {
      var hash := match key case PageKey(p) => p.hash case HashKey(h) => h;
      var i := 0;
      while i < |scores|
        invariant 0 <= i <= |scores|
        invariant FirstMatch(scores, hash) == FirstMatch(scores[i..], hash)
      {
        if scores[i].0 == hash {
          return Some(scores[i].1);
        }
        assert scores[i..][1..] == scores[i + 1..];
        i := i + 1;
      }
      return None;
    }

    /** All pairs in insertion order. */
    method GetScores() returns (r: seq<(string, Score)>)
      ensures r == scores
    {
      r := scores;
    }
  }
}
