/** `useBinLocationSearch`: the "add bin" form's search over `bin_location`
    metaobjects. Each hit is scored against the query, hits that do not match
    at all are dropped, the rest are ranked by score and then by title, and
    the best three are offered. */
module BinLocationSearch {
  import opened Common
  import opened WarehouseTypes
  import opened Helpers
  import opened Text

  /** A scored search hit. */
  datatype Hit = Hit(id: string, handle: string, title: string, score: nat)

  const MaxResults := 3

  /** `(getFieldValue(node.fields, "bin_location") || node.handle || "").trim()` */
  function HitTitle(node: MetaobjectNode): string {
    Trim(OrElse(GetFieldValue(node.fields, "bin_location"), node.handle))
  }

  /** The score of a title and handle against the trimmed query. Scores 3
      and 2 compare the lower-cased title with the query as typed; score 1
      compares lower case with lower case. */
  function Score(title: string, handle: string, searchQuery: string): (s: nat)
    ensures s <= 3
    ensures s == 3 <==> StartsWith(ToLower(title), searchQuery)
    ensures s >= 2 <==> Contains(ToLower(title), searchQuery)
    ensures s >= 1 <==>
              Contains(ToLower(title), searchQuery)
              || Contains(ToLower(title), ToLower(searchQuery)) || Contains(ToLower(handle), ToLower(searchQuery))
  {
    var titleLower := ToLower(title);
    var handleLower := ToLower(handle);
    var queryLower := ToLower(searchQuery);
    if StartsWith(titleLower, searchQuery) then
      StartsWithContains(titleLower, searchQuery);
      3
    else if Contains(titleLower, searchQuery) then 2
    else if Contains(titleLower, queryLower) || Contains(handleLower, queryLower) then 1
    else 0
  }

  /** A query with a capital letter never scores above 1: the title it is
      compared with as typed has been lower-cased. */
  lemma CapitalQueryScoresAtMostOne(title: string, handle: string, searchQuery: string)
    requires HasUpper(searchQuery)
    ensures Score(title, handle, searchQuery) <= 1
  {
    NoUpperContainsNoUpper(ToLower(title), searchQuery);
  }

  /** For a lower-case query, a hit survives exactly when its lower-cased
      title or handle contains the query. */
  lemma LowerQueryMatchesIff(title: string, handle: string, searchQuery: string)
    requires !HasUpper(searchQuery)
    ensures Score(title, handle, searchQuery) > 0 <==>
              Contains(ToLower(title), searchQuery) || Contains(ToLower(handle), searchQuery)
  {
    ToLowerNoUpper(searchQuery);
  }

  /** A metaobject node scored against the query. */
  function ScoreNode(node: MetaobjectNode, searchQuery: string): Hit {
    var title := HitTitle(node);
    Hit(node.id, node.handle, title, Score(title, node.handle, searchQuery))
  }

  function ScoreNodes(nodes: seq<MetaobjectNode>, searchQuery: string): (hits: seq<Hit>)
    ensures |hits| == |nodes| && forall i :: 0 <= i < |nodes| ==> hits[i] == ScoreNode(nodes[i], searchQuery)
  {
    seq(|nodes|, i requires 0 <= i < |nodes| => ScoreNode(nodes[i], searchQuery))
  }

  /** `.filter(node => node.score > 0)` */
  function Matching(hits: seq<Hit>): (r: seq<Hit>)
    ensures forall h :: h in r <==> h in hits && h.score > 0
    ensures |r| <= |hits|
  {
    if hits == [] then []
    else (if hits[0].score > 0 then [hits[0]] else []) + Matching(hits[1..])
  }

  /** The comparator of the sort: `b.score - a.score || a.title.localeCompare(b.title)`
      says `a` may come before `b`. */
  predicate RanksBefore(a: Hit, b: Hit) {
    a.score > b.score || (a.score == b.score && StrLe(a.title, b.title))
  }

  lemma RanksBeforeTotal(a: Hit, b: Hit)
    ensures RanksBefore(a, b) || RanksBefore(b, a)
  {
    StrLeTotal(a.title, b.title);
  }

  lemma RanksBeforeTransitive(a: Hit, b: Hit, c: Hit)
    requires RanksBefore(a, b) && RanksBefore(b, c)
    ensures RanksBefore(a, c)
  {
    if a.score == b.score == c.score {
      StrLeTransitive(a.title, b.title, c.title);
    }
  }

  predicate Ranked(hits: seq<Hit>) {
    forall i, j :: 0 <= i < j < |hits| ==> RanksBefore(hits[i], hits[j])
  }

  /** The head of a ranked list ranks before everything in it. */
  lemma {:induction false} HeadRanksFirst(hits: seq<Hit>, y: Hit)
    requires Ranked(hits) && hits != [] && y in multiset(hits)
    ensures RanksBefore(hits[0], y)
  {
    var j :| 0 <= j < |hits| && hits[j] == y;
    if j == 0 {
      RanksBeforeTotal(y, y);
    }
  }

  /** A hit that ranks before everything in a ranked list can lead it. */
  lemma {:induction false} PrependRanked(x: Hit, hits: seq<Hit>)
    requires Ranked(hits)
    requires forall y :: y in multiset(hits) ==> RanksBefore(x, y)
    ensures Ranked([x] + hits)
  {
    var r := [x] + hits;
    forall i, j | 0 <= i < j < |r| ensures RanksBefore(r[i], r[j]) {
      assert r[j] == hits[j - 1] && hits[j - 1] in multiset(hits);
      if i > 0 {
        assert r[i] == hits[i - 1];
      }
    }
  }

  /** Insert a hit into a ranked list. */
  function Insert(h: Hit, hits: seq<Hit>): (r: seq<Hit>)
    requires Ranked(hits)
    ensures Ranked(r)
    ensures multiset(r) == multiset(hits) + multiset{h}
  {
    if hits == [] then [h]
    else if RanksBefore(h, hits[0]) then
      InsertAtFront(h, hits);
      [h] + hits
    else
      var rest := Insert(h, hits[1..]);
      InsertAfterHead(h, hits, rest);
      [hits[0]] + rest
  }

  lemma {:induction false} InsertAtFront(h: Hit, hits: seq<Hit>)
    requires Ranked(hits) && hits != [] && RanksBefore(h, hits[0])
    ensures Ranked([h] + hits)
  {
    forall y | y in multiset(hits) ensures RanksBefore(h, y) {
      HeadRanksFirst(hits, y);
      RanksBeforeTransitive(h, hits[0], y);
    }
    PrependRanked(h, hits);
  }

  lemma {:induction false} InsertAfterHead(h: Hit, hits: seq<Hit>, rest: seq<Hit>)
    requires Ranked(hits) && hits != [] && !RanksBefore(h, hits[0])
    requires Ranked(rest) && multiset(rest) == multiset(hits[1..]) + multiset{h}
    ensures Ranked([hits[0]] + rest)
    ensures multiset([hits[0]] + rest) == multiset(hits) + multiset{h}
  {
    assert hits == [hits[0]] + hits[1..];
    RanksBeforeTotal(h, hits[0]);
    forall y | y in multiset(rest) ensures RanksBefore(hits[0], y) {
      if y != h {
        assert y in multiset(hits);
        HeadRanksFirst(hits, y);
      }
    }
    PrependRanked(hits[0], rest);
  }

  /** `.sort(...)`, as an insertion sort: ranked, and a permutation of its
      input. */
  function Rank(hits: seq<Hit>): (r: seq<Hit>)
    ensures Ranked(r)
    ensures multiset(r) == multiset(hits)
  {
    if hits == [] then []
    else
      assert hits == [hits[0]] + hits[1..];
      Insert(hits[0], Rank(hits[1..]))
  }

  /** Whether two hits tie under the comparator: same score, same title. */
  predicate Tie(a: Hit, b: Hit) {
    a.score == b.score && a.title == b.title
  }

  /** The hits of a list that tie with `k`, in list order. */
  function Ties(hits: seq<Hit>, k: Hit): seq<Hit> {
    if hits == [] then []
    else (if Tie(hits[0], k) then [hits[0]] else []) + Ties(hits[1..], k)
  }

  /** Inserting a hit puts it ahead of every hit it ties with. */
  lemma {:induction false} InsertTies(h: Hit, hits: seq<Hit>, k: Hit)
    requires Ranked(hits)
    ensures Ties(Insert(h, hits), k) == (if Tie(h, k) then [h] else []) + Ties(hits, k)
  {
    if hits == [] {
      assert Insert(h, hits) == [h];
      assert ([h])[1..] == [];
    } else if RanksBefore(h, hits[0]) {
      var r := [h] + hits;
      assert r[0] == h && r[1..] == hits;
    } else {
      var r := Insert(h, hits);
      var rest := hits[1..];
      assert Ranked(rest) by {
        forall i, j | 0 <= i < j < |rest| ensures RanksBefore(rest[i], rest[j]) {
          assert rest[i] == hits[i + 1] && rest[j] == hits[j + 1];
        }
      }
      InsertTies(h, rest, k);
      assert r[0] == hits[0] && r[1..] == Insert(h, rest);
      if Tie(h, k) && Tie(hits[0], k) {
        RanksBeforeTotal(h, h);
        assert false;
      }
    }
  }

  /** `sort` is stable: hits that tie keep the order of the nodes. */
  lemma {:induction false} RankStable(hits: seq<Hit>, k: Hit)
    ensures Ties(Rank(hits), k) == Ties(hits, k)
  {
    if hits != [] {
      RankStable(hits[1..], k);
      InsertTies(hits[0], Rank(hits[1..]), k);
    }
  }

  /** `{ id, handle, title }` of a hit. */
  function Project(h: Hit): BinLocation {
    BinLocation(h.id, Some(h.handle), Some(h.title))
  }

  /** The ranked matching hits, before truncation. */
  function RankedMatches(nodes: seq<MetaobjectNode>, searchQuery: string): seq<Hit> {
    Rank(Matching(ScoreNodes(nodes, searchQuery)))
  }

  /** `.slice(0, 3)` */
  function Top(ranked: seq<Hit>): (top: seq<Hit>)
    ensures |top| == if |ranked| < MaxResults then |ranked| else MaxResults
    ensures top == ranked[..|top|]
  {
    if |ranked| < MaxResults then ranked else ranked[..MaxResults]
  }

  /** The results the search offers for a reply's nodes. */
  function SearchResults(nodes: seq<MetaobjectNode>, searchQuery: string): (r: seq<BinLocation>)
    ensures var top := Top(RankedMatches(nodes, searchQuery));
      |r| == |top| && forall i :: 0 <= i < |top| ==> r[i] == Project(top[i])
  {
    var top := Top(RankedMatches(nodes, searchQuery));
    seq(|top|, i requires 0 <= i < |top| => Project(top[i]))
  }

  /** Ranking keeps exactly the matching hits. */
  lemma RankedHitMatches(hits: seq<Hit>, h: Hit)
    ensures h in Rank(Matching(hits)) <==> h in hits && h.score > 0
  {
    assert h in Rank(Matching(hits)) <==> h in multiset(Matching(hits));
  }

  /** Every scored hit comes from one of the nodes. */
  lemma HitFromNode(nodes: seq<MetaobjectNode>, searchQuery: string, h: Hit) returns (k: nat)
    requires h in ScoreNodes(nodes, searchQuery)
    ensures k < |nodes| && h == ScoreNode(nodes[k], searchQuery)
  {
    var hits := ScoreNodes(nodes, searchQuery);
    var i :| 0 <= i < |hits| && hits[i] == h;
    k := i;
  }

  /** In a ranked list, whatever the truncation drops ranks after all it
      keeps. */
  lemma TopRanksFirst(ranked: seq<Hit>, h: Hit)
    requires Ranked(ranked) && h in ranked && h !in Top(ranked)
    ensures forall i :: 0 <= i < |Top(ranked)| ==> RanksBefore(Top(ranked)[i], h)
  {
    var top := Top(ranked);
    var j :| 0 <= j < |ranked| && ranked[j] == h;
  }

  /** The search offers the best matches: every result comes from a node
      with a positive score, results are in rank order, and every matching
      hit left out ranks after every hit offered. */
  lemma SearchOffersBestMatches(nodes: seq<MetaobjectNode>, searchQuery: string)
    ensures var top := Top(RankedMatches(nodes, searchQuery));
      && Ranked(top)
      && (forall i :: 0 <= i < |top| ==>
            && top[i].score > 0
            && exists k :: 0 <= k < |nodes| && top[i] == ScoreNode(nodes[k], searchQuery))
      && (forall h :: h in ScoreNodes(nodes, searchQuery) && h.score > 0 && h !in top ==>
            forall i :: 0 <= i < |top| ==> RanksBefore(top[i], h))
  {
    var ranked := RankedMatches(nodes, searchQuery);
    var top := Top(ranked);
    TopRanked(ranked);
    forall i | 0 <= i < |top|
      ensures top[i].score > 0 && exists k :: 0 <= k < |nodes| && top[i] == ScoreNode(nodes[k], searchQuery)
    {
      var k := OfferedFromNode(nodes, searchQuery, i);
    }
    forall h | h in ScoreNodes(nodes, searchQuery) && h.score > 0 && h !in top
      ensures forall i :: 0 <= i < |top| ==> RanksBefore(top[i], h)
    {
      LeftOutRanksAfter(nodes, searchQuery, h);
    }
  }

  /** A prefix of a ranked list is ranked. */
  lemma TopRanked(ranked: seq<Hit>)
    requires Ranked(ranked)
    ensures Ranked(Top(ranked))
  {
    var top := Top(ranked);
    forall i, j | 0 <= i < j < |top| ensures RanksBefore(top[i], top[j]) {
      assert top[i] == ranked[i] && top[j] == ranked[j];
    }
  }

  /** One offered hit has a positive score and comes from a node. */
  lemma OfferedFromNode(nodes: seq<MetaobjectNode>, searchQuery: string, i: nat) returns (k: nat)
    requires i < |Top(RankedMatches(nodes, searchQuery))|
    ensures var h := Top(RankedMatches(nodes, searchQuery))[i];
      h.score > 0 && k < |nodes| && h == ScoreNode(nodes[k], searchQuery)
  {
    var ranked := RankedMatches(nodes, searchQuery);
    var h := Top(ranked)[i];
    assert h == ranked[i] && h in ranked;
    RankedHitMatches(ScoreNodes(nodes, searchQuery), h);
    k := HitFromNode(nodes, searchQuery, h);
  }

  /** One matching hit left out ranks after every offered hit. */
  lemma LeftOutRanksAfter(nodes: seq<MetaobjectNode>, searchQuery: string, h: Hit)
    requires h in ScoreNodes(nodes, searchQuery) && h.score > 0 && h !in Top(RankedMatches(nodes, searchQuery))
    ensures var top := Top(RankedMatches(nodes, searchQuery));
      forall i :: 0 <= i < |top| ==> RanksBefore(top[i], h)
  {
    RankedHitMatches(ScoreNodes(nodes, searchQuery), h);
    TopRanksFirst(RankedMatches(nodes, searchQuery), h);
  }

  /** A query with a capital letter offers only hits of score 1. */
  lemma CapitalQueryOffersScoreOne(nodes: seq<MetaobjectNode>, searchQuery: string)
    requires HasUpper(searchQuery)
    ensures forall h :: h in RankedMatches(nodes, searchQuery) ==> h.score == 1
  {
    var hits := ScoreNodes(nodes, searchQuery);
    forall h | h in RankedMatches(nodes, searchQuery) ensures h.score == 1 {
      RankedHitMatches(hits, h);
      var k := HitFromNode(nodes, searchQuery, h);
      CapitalQueryScoresAtMostOne(HitTitle(nodes[k]), nodes[k].handle, searchQuery);
    }
  }

  /** `findBinLocationByHandle(handle)`, given the nodes the handle query
      returns: the first node whose handle is exactly the one asked for. An
      empty handle finds nothing, and no query is sent for it. */
  function FindBinLocationByHandle(handle: string, nodes: seq<MetaobjectNode>): (r: Option<BinLocation>)
    ensures r.None? <==> handle == "" || forall i :: 0 <= i < |nodes| ==> nodes[i].handle != handle
    ensures r.Some? ==>
              exists i :: (0 <= i < |nodes| && nodes[i].handle == handle &&
                           (forall j :: 0 <= j < i ==> nodes[j].handle != handle) &&
                           r.value == BinLocation(nodes[i].id, Some(handle), GetFieldValue(nodes[i].fields, "bin_location")))
  {
    if handle == "" || nodes == [] then None
    else if nodes[0].handle == handle then
      Some(BinLocation(nodes[0].id, Some(handle), GetFieldValue(nodes[0].fields, "bin_location")))
    else
      var r := FindBinLocationByHandle(handle, nodes[1..]);
      if r.Some? then
        var i :| 0 <= i < |nodes[1..]| && nodes[1..][i].handle == handle &&
                 (forall j :: 0 <= j < i ==> nodes[1..][j].handle != handle) &&
                 r.value == BinLocation(nodes[1..][i].id, Some(handle), GetFieldValue(nodes[1..][i].fields, "bin_location"));
        assert nodes[i + 1] == nodes[1..][i];
        r
      else r
  }

  /** What the debounced search query does: throw, or return nodes. */
  datatype SearchReply = SearchThrew | SearchNodes(nodes: seq<MetaobjectNode>)

  /** The hook's state. */
  class Search {
    var selectedBin: Option<BinLocation>
    var draftQuery: string
    var draftQty: string
    var searching: bool
    var searchResults: seq<BinLocation>

    constructor ()
      ensures selectedBin == None && draftQuery == "" && draftQty == "" && !searching && searchResults == []
    {
      selectedBin, draftQuery, draftQty, searching, searchResults := None, "", "", false, [];
    }

    /** `onSelectResult(result)` */
    method OnSelectResult(result: BinLocation)
      modifies this
      ensures selectedBin == Some(result) && searchResults == []
      ensures draftQuery == OrElse(result.title, OrElse(result.handle, ""))
      ensures draftQty == old(draftQty) && searching == old(searching)
    {
      selectedBin := Some(result);
      draftQuery := OrElse(result.title, OrElse(result.handle, ""));
      searchResults := [];
    }

    /** `resetDraft()` */
    method ResetDraft()
      modifies this
      ensures selectedBin == None && draftQuery == "" && draftQty == "" && !searching && searchResults == []
    {
      draftQuery := "";
      draftQty := "";
      selectedBin := None;
      searchResults := [];
      searching := false;
    }

    /** `handleQueryChange(value)`: typing drops the selection. */
    method HandleQueryChange(value: string)
      modifies this
      ensures draftQuery == value && selectedBin == None
      ensures draftQty == old(draftQty) && searching == old(searching) && searchResults == old(searchResults)
    {
      draftQuery := value;
      selectedBin := None;
    }

    /** The search effect, its timer taken as already fired. */
    method SearchEffect(isAdding: bool, reply: SearchReply)
      modifies this
      ensures selectedBin == old(selectedBin) && draftQuery == old(draftQuery) && draftQty == old(draftQty)
      ensures !isAdding ==> searching == old(searching) && searchResults == old(searchResults)
      ensures isAdding ==> !searching
      ensures isAdding && (Trim(draftQuery) == "" || selectedBin.Some?) ==> searchResults == []
      ensures isAdding && Trim(draftQuery) != "" && selectedBin.None? ==>
                searchResults == if reply.SearchNodes? then SearchResults(reply.nodes, Trim(draftQuery))
                                 else old(searchResults)
    {
      if !isAdding {
        return;
      }
      var searchQuery := Trim(draftQuery);
      if searchQuery == "" || selectedBin.Some? {
        searchResults := [];
        searching := false;
        return;
      }
      searching := true;
      if reply.SearchNodes? {
        searchResults := SearchResults(reply.nodes, searchQuery);
      }
      searching := false;
    }
  }
}
