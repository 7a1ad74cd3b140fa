/**
 * The tool server: the `/search` endpoint's rerank-and-select step and the
 * `/calculate` endpoint. The vector index (`similarity_search`) and the
 * cross-encoder (`predict`) are oracle parameters.
 */
module Server {

  /** How many candidates the vector index is asked for (k=25). */
  const CandidateCount: nat := 25
  /** How many of the best-scored candidates are considered. */
  const TopN: nat := 5
  /** The soft relevance floor: a candidate is kept only when its score exceeds it. */
  const Threshold: real := -10.0

  type Metadata = map<string, string>

  /** A retrieved passage: its text and its metadata. */
  datatype Doc = Doc(pageContent: string, metadata: Metadata)

  /** A reranker score paired with its passage. */
  datatype Scored = Scored(score: real, doc: Doc)

  /** `zip(scores, docs)`: pairs position by position and stops at the shorter list. */
  function Zip(scores: seq<real>, docs: seq<Doc>): (z: seq<Scored>)
    ensures |z| == if |scores| < |docs| then |scores| else |docs|
    ensures forall i :: 0 <= i < |z| ==> z[i] == Scored(scores[i], docs[i])
    decreases |docs|
  {
    if scores == [] || docs == [] then []
    else [Scored(scores[0], docs[0])] + Zip(scores[1..], docs[1..])
  }

  /** `[[query, doc.page_content] for doc in docs]`. */
  function Pairs(query: string, docs: seq<Doc>): (p: seq<(string, string)>)
    ensures |p| == |docs|
    ensures forall i :: 0 <= i < |docs| ==> p[i] == (query, docs[i].pageContent)
    decreases |docs|
  {
    if docs == [] then [] else [(query, docs[0].pageContent)] + Pairs(query, docs[1..])
  }

  ghost predicate SortedDesc(s: seq<Scored>) {
    forall i, j :: 0 <= i < j < |s| ==> s[i].score >= s[j].score
  }

  /** Puts `x` in front of the first entry that does not score more than it. */
  function Insert(x: Scored, s: seq<Scored>): (r: seq<Scored>)
    ensures |r| == |s| + 1
    decreases |s|
  {
    if s == [] || x.score >= s[0].score then [x] + s
    else [s[0]] + Insert(x, s[1..])
  }

  /** Inserting into a list sorted by descending score keeps it sorted, and adds exactly `x`. */
  lemma {:induction false} InsertSorted(x: Scored, s: seq<Scored>)
    requires SortedDesc(s)
    ensures SortedDesc(Insert(x, s))
    ensures multiset(Insert(x, s)) == multiset(s) + multiset{x}
    ensures Insert(x, s)[0] == x || (s != [] && Insert(x, s)[0] == s[0])
    decreases |s|
  {
    if s == [] || x.score >= s[0].score {
      ConsSorted(x, s);
    } else {
      var tail := s[1..];
      assert s == [s[0]] + tail;
      InsertSorted(x, tail);
      var rest := Insert(x, tail);
      assert rest[0].score <= s[0].score;
      ConsSorted(s[0], rest);
    }
  }

  /** An entry scoring at least the head of a sorted list can go in front of it. */
  lemma ConsSorted(y: Scored, t: seq<Scored>)
    requires SortedDesc(t) && (t == [] || y.score >= t[0].score)
    ensures SortedDesc([y] + t)
  {
    var r := [y] + t;
    forall i, j | 0 <= i < j < |r| ensures r[i].score >= r[j].score {
      if i == 0 {
        assert r[j] == t[j - 1];
        assert t[0].score >= t[j - 1].score;
      } else {
        assert r[i] == t[i - 1] && r[j] == t[j - 1];
      }
    }
  }

  /**
   * `sorted(pairs, key=lambda x: x[0], reverse=True)`: descending by score,
   * the sorted list a permutation of the input.
   */
  function SortByScore(s: seq<Scored>): (r: seq<Scored>)
    ensures SortedDesc(r)
    ensures multiset(r) == multiset(s)
    decreases |s|
  {
    if s == [] then []
    else
      assert s == [s[0]] + s[1..];
      var sorted := SortByScore(s[1..]);
      InsertSorted(s[0], sorted);
      Insert(s[0], sorted)
  }

  /** The entries that score exactly `v`, in the order they appear. */
  function WithScore(s: seq<Scored>, v: real): seq<Scored>
    decreases |s|
  {
    if s == [] then [] else (if s[0].score == v then [s[0]] else []) + WithScore(s[1..], v)
  }

  /** `x` goes in front of every entry with its own score, so among those it comes first. */
  lemma {:induction false} InsertWithScore(x: Scored, s: seq<Scored>, v: real)
    ensures WithScore(Insert(x, s), v) == (if x.score == v then [x] else []) + WithScore(s, v)
    decreases |s|
  {
    if s == [] || x.score >= s[0].score {
      assert Insert(x, s) == [x] + s;
      WithScoreCons(x, s, v);
    } else {
      var tail := s[1..];
      var rest := Insert(x, tail);
      assert Insert(x, s) == [s[0]] + rest;
      InsertWithScore(x, tail, v);
      WithScoreCons(s[0], rest, v);
      WithScoreCons(s[0], tail, v);
      assert [s[0]] + tail == s;
      SwapEmpty(if s[0].score == v then [s[0]] else [], if x.score == v then [x] else [], WithScore(tail, v));
    }
  }

  /** Two lists of which one is empty can be put in front in either order. */
  lemma SwapEmpty<T>(a: seq<T>, b: seq<T>, c: seq<T>)
    requires a == [] || b == []
    ensures a + (b + c) == b + (a + c)
  {
  }

  /** `WithScore` of a list with a given first entry. */
  lemma WithScoreCons(y: Scored, t: seq<Scored>, v: real)
    ensures WithScore([y] + t, v) == (if y.score == v then [y] else []) + WithScore(t, v)
  {
    assert ([y] + t)[1..] == t;
  }

  /**
   * Python's sort is stable, also with `reverse=True`: entries with equal
   * scores keep the order the vector index returned them in.
   */
  lemma {:induction false} SortIsStable(s: seq<Scored>, v: real)
    ensures WithScore(SortByScore(s), v) == WithScore(s, v)
    decreases |s|
  {
    if s != [] {
      SortIsStable(s[1..], v);
      InsertWithScore(s[0], SortByScore(s[1..]), v);
    }
  }

  /** `s[:n]`. */
  function Take<T>(s: seq<T>, n: nat): (r: seq<T>)
    ensures r <= s && |r| == if |s| < n then |s| else n
  {
    if |s| <= n then s else s[..n]
  }

  /** The entries whose score exceeds the threshold, in order. */
  function AboveThreshold(s: seq<Scored>): (r: seq<Scored>)
    ensures |r| <= |s|
    ensures forall i :: 0 <= i < |r| ==> r[i].score > Threshold
    decreases |s|
  {
    if s == [] then []
    else
      var last := s[|s| - 1];
      AboveThreshold(s[..|s| - 1]) + (if last.score > Threshold then [last] else [])
  }

  /** What `/search` keeps of the ranked list: the first five, then those above the floor. */
  function Selected(ranked: seq<Scored>): (sel: seq<Scored>)
    ensures |sel| <= TopN
    ensures forall i :: 0 <= i < |sel| ==> sel[i].score > Threshold
  {
    AboveThreshold(Take(ranked, TopN))
  }

  /** A list whose every entry is above the floor is kept whole. */
  lemma {:induction false} AllAboveKept(s: seq<Scored>)
    requires forall i :: 0 <= i < |s| ==> s[i].score > Threshold
    ensures AboveThreshold(s) == s
    decreases |s|
  {
    if s != [] {
      AllAboveKept(s[..|s| - 1]);
    }
  }

  /**
   * On a list sorted by descending score the entries above the floor form
   * a prefix, and everything after that prefix is at or below the floor.
   */
  lemma {:induction false} AboveThresholdSplit(s: seq<Scored>)
    requires SortedDesc(s)
    ensures AboveThreshold(s) == s[..|AboveThreshold(s)|]
    ensures forall i :: |AboveThreshold(s)| <= i < |s| ==> s[i].score <= Threshold
    decreases |s|
  {
    if s != [] {
      var init := s[..|s| - 1];
      var last := s[|s| - 1];
      AboveThresholdSplit(init);
      assert AboveThreshold(s) == AboveThreshold(init) + (if last.score > Threshold then [last] else []);
      if last.score > Threshold {
        forall i | 0 <= i < |init| ensures init[i].score > Threshold {
          assert init[i].score >= last.score;
        }
        AllAboveKept(init);
        assert init + [last] == s;
      } else {
        var m := |AboveThreshold(init)|;
        assert init[..m] == s[..m];
      }
    }
  }

  lemma PrefixSorted(s: seq<Scored>, k: nat)
    requires SortedDesc(s) && k <= |s|
    ensures SortedDesc(s[..k])
  {
  }

  /**
   * Because the ranked list is sorted, taking the first five and then
   * dropping those at or below the floor is the same as dropping first and
   * then taking five.
   */
  lemma TruncateThenFilter(ranked: seq<Scored>)
    requires SortedDesc(ranked)
    ensures AboveThreshold(Take(ranked, TopN)) == Take(AboveThreshold(ranked), TopN)
  {
    var top := Take(ranked, TopN);
    PrefixSorted(ranked, |top|);
    assert top == ranked[..|top|];
    AboveThresholdSplit(ranked);
    AboveThresholdSplit(top);
    var m := |AboveThreshold(ranked)|;
    var mk := |AboveThreshold(top)|;
    var want := if |top| < m then |top| else m;
    assert forall i :: 0 <= i < m ==> ranked[i].score > Threshold by {
      forall i | 0 <= i < m ensures ranked[i].score > Threshold {
        assert AboveThreshold(ranked)[i] == ranked[i];
      }
    }
    assert forall i :: 0 <= i < mk ==> top[i].score > Threshold by {
      forall i | 0 <= i < mk ensures top[i].score > Threshold {
        assert AboveThreshold(top)[i] == top[i];
      }
    }
    assert forall i :: 0 <= i < |top| ==> top[i] == ranked[i];
    assert mk < |top| ==> top[mk].score <= Threshold;
    assert mk < m ==> ranked[mk].score > Threshold;
    assert m < |ranked| ==> ranked[m].score <= Threshold;
    assert mk == want;
    assert ranked[..m][..want] == top[..want];
  }

  /** What `/search` returns is a prefix of the ranked list. */
  lemma SelectedIsPrefix(ranked: seq<Scored>)
    requires SortedDesc(ranked)
    ensures Selected(ranked) <= ranked
  {
    var top := Take(ranked, TopN);
    PrefixSorted(ranked, |top|);
    assert top == ranked[..|top|];
    AboveThresholdSplit(top);
  }

  /** The equal-scored entries of a prefix are a prefix of the list's equal-scored entries. */
  lemma {:induction false} WithScorePrefix(p: seq<Scored>, s: seq<Scored>, v: real)
    requires p <= s
    ensures WithScore(p, v) <= WithScore(s, v)
    decreases |p|
  {
    if p != [] {
      assert p[1..] <= s[1..];
      WithScorePrefix(p[1..], s[1..], v);
    }
  }

  /**
   * The `/search` selection for `query`: ask the index for 25 candidates,
   * score each (query, passage) pair, rank and select. No candidates means
   * nothing is scored and nothing returned.
   */
  function Ranked(query: string, similaritySearch: (string, nat) -> seq<Doc>,
                  predict: seq<(string, string)> -> seq<real>): (ranked: seq<Scored>)
    ensures SortedDesc(ranked)
  {
    var docs := similaritySearch(query, CandidateCount);
    if docs == [] then [] else SortByScore(Zip(predict(Pairs(query, docs)), docs))
  }

  /**
   * The selection is in descending score order, and passages that score the
   * same come in the order the index returned them.
   */
  lemma SelectionOrder(query: string, similaritySearch: (string, nat) -> seq<Doc>,
                       predict: seq<(string, string)> -> seq<real>, v: real)
    ensures SortedDesc(Selected(Ranked(query, similaritySearch, predict)))
    ensures var docs := similaritySearch(query, CandidateCount);
            WithScore(Selected(Ranked(query, similaritySearch, predict)), v)
              <= WithScore(Zip(predict(Pairs(query, docs)), docs), v)
  {
    var docs := similaritySearch(query, CandidateCount);
    var ranked := Ranked(query, similaritySearch, predict);
    SelectedIsPrefix(ranked);
    var sel := Selected(ranked);
    PrefixSorted(ranked, |sel|);
    assert sel == ranked[..|sel|];
    WithScorePrefix(sel, ranked, v);
    if docs != [] {
      SortIsStable(Zip(predict(Pairs(query, docs)), docs), v);
    }
  }

  /**
   * The selection loop: walk the first five ranked entries and append the
   * text and the metadata of each one above the floor to two parallel lists.
   */
  method SelectValid(scoredDocs: seq<Scored>) returns (validResults: seq<string>, validMetas: seq<Metadata>)
    ensures var sel := Selected(scoredDocs);
            |validResults| == |validMetas| == |sel|
            && forall i :: 0 <= i < |sel| ==> validResults[i] == sel[i].doc.pageContent && validMetas[i] == sel[i].doc.metadata
  {
    validResults, validMetas := [], [];
    var top := Take(scoredDocs, TopN);
    for n := 0 to |top|
      invariant var sel := AboveThreshold(top[..n]);
                |validResults| == |validMetas| == |sel|
                && forall i :: 0 <= i < |sel| ==> validResults[i] == sel[i].doc.pageContent && validMetas[i] == sel[i].doc.metadata
    {
      assert top[..n + 1][..n] == top[..n];
      if top[n].score > Threshold {
        validResults := validResults + [top[n].doc.pageContent];
        validMetas := validMetas + [top[n].doc.metadata];
      }
    }
    assert top[..|top|] == top;
  }

  /**
   * `search_tool`: the passages and their metadata, as two parallel lists,
   * for the selection of the ranked candidates.
   */
  method SearchTool(query: string, similaritySearch: (string, nat) -> seq<Doc>,
                    predict: seq<(string, string)> -> seq<real>)
    returns (results: seq<string>, metadatas: seq<Metadata>)
    ensures similaritySearch(query, CandidateCount) == [] ==> results == [] && metadatas == []
    ensures var sel := Selected(Ranked(query, similaritySearch, predict));
            |results| == |metadatas| == |sel|
            && forall i :: 0 <= i < |sel| ==> results[i] == sel[i].doc.pageContent && metadatas[i] == sel[i].doc.metadata
  {
    var docs := similaritySearch(query, CandidateCount);
    if docs == [] {
      return [], [];
    }
    var pairs := Pairs(query, docs);
    var scores := predict(pairs);
    var scoredDocs := SortByScore(Zip(scores, docs));
    results, metadatas := SelectValid(scoredDocs);
  }

  /** The reply of `/calculate`: the total and the message carrying it. */
  datatype CalcReply = CalcReply(total: real, msg: string)

  /**
   * `calculate_tool`: the total is the product of the two operands (not
   * their sum); `format` stands for Python's rendering of a float.
   */
  function CalculateTool(dose: real, area: real, format: real -> string): (r: CalcReply)
    ensures r.msg == "CALCULATED: " + format(r.total)
    ensures dose == 0.0 || area == 0.0 ==> r.total == 0.0
    ensures area == 1.0 ==> r.total == dose
  {
    var total := dose * area;
    CalcReply(total, "CALCULATED: " + format(total))
  }

  /** The operands' order does not matter, and the total is not their sum. */
  lemma CalculateIsProduct(format: real -> string)
    ensures forall dose: real, area: real {:trigger CalculateTool(dose, area, format)} ::
              CalculateTool(dose, area, format) == CalculateTool(area, dose, format)
    ensures CalculateTool(2.0, 3.0, format).total == 6.0 != 2.0 + 3.0
  {
  }
}
