/** The three paginated fetchers of the client: the record list, the dataset
    result and the SuiteQL query.  Each loops requesting one page at a time,
    appends the page's `items` to one list, and stops on the first non-200
    status or when its own end-of-data test says so.

    The network is a finite script: the i-th request made is answered by
    `script[i]`.  Each fetcher returns the accumulated items, the offsets it
    requested, in order, and how the loop ended.  When the script runs out
    while the loop still wants another page, the result is `ScriptEnded`
    with the offset that next request would carry: the source would go on
    asking, and a script of any length cannot make it stop (see
    `RecordListStalls`). */
module Paging {
  import opened Values

  /** The answer to one page request: status, the body's `items` (absent
      when the key is missing) and the body's `hasMore` (likewise). */
  datatype Page = Page(status: int, items: Option<seq<Json>>, hasMore: Option<Json>)

  /** How a pagination loop ended. */
  datatype Stop =
    | Failed(status: int)       // a non-200 status: the loop breaks, nothing is raised
    | Finished                  // a 200 page after which the end-of-data test stopped the loop
    | ScriptEnded(nextOffset: int)  // the loop wanted a page the script does not hold

  /** The continuation test a fetcher applies to a 200 page. */
  datatype Rule =
    | WhileHasMore              // record list and dataset: `hasMore` is truthy
    | WhileFullPage(limit: int) // SuiteQL: the page held at least `limit` items

  /** The page size `run_suiteql_query` asks for, and its offset step. */
  const SuiteQLLimit: int := 1000

  /** The page size `fetch_all_dataset_records` uses when none is given. */
  const DatasetDefaultLimit: int := 1000

  /** `data.get("items", [])`: a missing `items` counts as an empty page. */
  function ItemsOf(p: Page): (xs: seq<Json>)
    ensures p.items.None? ==> xs == []
    ensures p.items.Some? ==> xs == p.items.value
  {
    match p.items
    case None => []
    case Some(xs) => xs
  }

  /** `data.get("hasMore", False)` (and `data.get("hasMore")`) tested for truth. */
  predicate HasMore(p: Page): (more: bool)
    ensures p.hasMore.None? ==> !more
    ensures p.hasMore == Some(JNull) || p.hasMore == Some(JBool(false)) ==> !more
    ensures p.hasMore == Some(JBool(true)) ==> more
  {
    p.hasMore.Some? && Truthy(p.hasMore.value)
  }

  /** The whole `hasMore` test: the loop goes on exactly when `hasMore` is
      present and is not one of Python's false values, so `0`, `""`, `[]`
      and `{}` stop it and a string such as `"false"` continues it. */
  lemma HasMoreIsTruthiness(p: Page)
    ensures HasMore(p) <==> p.hasMore.Some? && p.hasMore.value !in Falsy
    ensures p.hasMore == Some(JStr("false")) ==> HasMore(p)
  {
  }

  /** What one answer adds to the result: its items on 200, nothing otherwise. */
  function Received(p: Page): seq<Json>
  {
    if p.status == 200 then ItemsOf(p) else []
  }

  /** The items of `pages` concatenated in the order the pages came. */
  function Gathered(pages: seq<Page>): seq<Json>
  {
    if pages == [] then []
    else Gathered(pages[..|pages| - 1]) + Received(pages[|pages| - 1])
  }

  /** The number of items the pages carry, counted with `len(items)`. */
  function PageSizeSum(pages: seq<Page>): int
  {
    if pages == [] then 0
    else PageSizeSum(pages[..|pages| - 1]) + |ItemsOf(pages[|pages| - 1])|
  }

  /** Whether a fetcher following `rule` requests another page after `p`. */
  predicate Continues(rule: Rule, p: Page): (c: bool)
    ensures c ==> p.status == 200
    ensures rule.WhileHasMore? ==> (c <==> p.status == 200 && HasMore(p))
    ensures rule.WhileFullPage? ==> (c <==> p.status == 200 && |ItemsOf(p)| >= rule.limit)
  {
    p.status == 200 &&
    match rule
    case WhileHasMore => HasMore(p)
    case WhileFullPage(limit) => !(|ItemsOf(p)| < limit)
  }

  /** How many answers of `script` a fetcher following `rule` reads: up to and
      including the first one after which it does not continue, or all. */
  function Consumed(script: seq<Page>, rule: Rule): (n: nat)
    ensures n <= |script|
    ensures forall k :: 0 <= k < n - 1 ==> Continues(rule, script[k])
    ensures n < |script| ==> 0 < n && !Continues(rule, script[n - 1])
    decreases |script|
  {
    if script == [] then 0
    else if !Continues(rule, script[0]) then 1
    else 1 + Consumed(script[1..], rule)
  }

  /** How a loop that read the first `n` answers ended; `next` is the offset
      it would request next. */
  function Ending(script: seq<Page>, rule: Rule, n: nat, next: int): Stop
    requires n <= |script|
  {
    if n > 0 && !Continues(rule, script[n - 1]) then
      if script[n - 1].status != 200 then Failed(script[n - 1].status) else Finished
    else ScriptEnded(next)
  }

  /** `Consumed` is the only count with its three properties. */
  lemma ConsumedExactly(script: seq<Page>, rule: Rule, m: nat)
    requires m <= |script|
    requires forall k :: 0 <= k < m - 1 ==> Continues(rule, script[k])
    requires m < |script| ==> 0 < m && !Continues(rule, script[m - 1])
    ensures Consumed(script, rule) == m
  {
  }

  /** `fetch_all_netsuite_records`: offset 0 first, then each offset advanced
      by the number of items just received, while `hasMore` is truthy. */
  method FetchAllRecords(script: seq<Page>) returns (items: seq<Json>, offsets: seq<int>, stop: Stop)
    ensures |offsets| == Consumed(script, WhileHasMore)
    ensures items == Gathered(script[..|offsets|])
    ensures forall k :: 0 <= k < |offsets| ==> offsets[k] == PageSizeSum(script[..k])
    ensures forall k :: 0 <= k < |offsets| - 1 ==> script[k].status == 200 && HasMore(script[k])
    ensures stop == Ending(script, WhileHasMore, |offsets|, PageSizeSum(script[..|offsets|]))
    ensures script != [] && script[0].status != 200 ==>
      items == [] && offsets == [0] && stop == Failed(script[0].status)
  {
    items, offsets := [], [];
    var offset := 0;
    var k := 0;
    while k < |script|
      invariant 0 <= k <= |script| && |offsets| == k
      invariant forall j :: 0 <= j < k ==> Continues(WhileHasMore, script[j])
      invariant forall j :: 0 <= j < k ==> offsets[j] == PageSizeSum(script[..j])
      invariant offset == PageSizeSum(script[..k])
      invariant items == Gathered(script[..k])
    {
      assert script[..k + 1][..k] == script[..k];
      assert Gathered(script[..k + 1]) == items + Received(script[k]);
      assert PageSizeSum(script[..k + 1]) == offset + |ItemsOf(script[k])|;
      offsets := offsets + [offset];
      var response := script[k];
      if response.status != 200 {
        stop := Failed(response.status);
        ConsumedExactly(script, WhileHasMore, k + 1);
        return;
      }
      var page := ItemsOf(response);
      items := items + page;
      if !HasMore(response) {
        stop := Finished;
        ConsumedExactly(script, WhileHasMore, k + 1);
        return;
      }
      offset := offset + |page|;
      k := k + 1;
    }
    stop := ScriptEnded(offset);
    ConsumedExactly(script, WhileHasMore, k);
  }

  /** `fetch_all_dataset_records`: request k asks for `limit` rows at offset
      k * limit, whatever the earlier pages held, while `hasMore` is truthy. */
  method FetchAllDatasetRecords(script: seq<Page>, limit: int := DatasetDefaultLimit)
    returns (items: seq<Json>, offsets: seq<int>, stop: Stop)
    ensures |offsets| == Consumed(script, WhileHasMore)
    ensures items == Gathered(script[..|offsets|])
    ensures forall k :: 0 <= k < |offsets| ==> offsets[k] == k * limit
    ensures forall k :: 0 <= k < |offsets| - 1 ==> script[k].status == 200 && HasMore(script[k])
    ensures stop == Ending(script, WhileHasMore, |offsets|, |offsets| * limit)
    ensures script != [] && script[0].status != 200 ==>
      items == [] && offsets == [0] && stop == Failed(script[0].status)
  {
    var offset := 0;
    items, offsets := [], [];
    var k := 0;
    while k < |script|
      invariant 0 <= k <= |script| && |offsets| == k
      invariant forall j :: 0 <= j < k ==> Continues(WhileHasMore, script[j])
      invariant forall j :: 0 <= j < k ==> offsets[j] == j * limit
      invariant offset == k * limit
      invariant items == Gathered(script[..k])
    {
      assert script[..k + 1][..k] == script[..k];
      offsets := offsets + [offset];
      var response := script[k];
      if response.status != 200 {
        stop := Failed(response.status);
        ConsumedExactly(script, WhileHasMore, k + 1);
        return;
      }
      items := items + ItemsOf(response);
      if !HasMore(response) {
        stop := Finished;
        ConsumedExactly(script, WhileHasMore, k + 1);
        return;
      }
      offset := offset + limit;
      k := k + 1;
    }
    stop := ScriptEnded(offset);
    ConsumedExactly(script, WhileHasMore, k);
  }

  /** `run_suiteql_query`: pages of `SuiteQLLimit` rows at offsets 0, 1000,
      2000, ...; a page with fewer than 1000 items is the last one. */
  method RunSuiteQLQuery(script: seq<Page>) returns (items: seq<Json>, offsets: seq<int>, stop: Stop)
    ensures |offsets| == Consumed(script, WhileFullPage(SuiteQLLimit))
    ensures items == Gathered(script[..|offsets|])
    ensures forall k :: 0 <= k < |offsets| ==> offsets[k] == k * SuiteQLLimit
    ensures forall k :: 0 <= k < |offsets| - 1 ==>
      script[k].status == 200 && |ItemsOf(script[k])| >= SuiteQLLimit
    ensures stop == Ending(script, WhileFullPage(SuiteQLLimit), |offsets|, |offsets| * SuiteQLLimit)
    ensures script != [] && script[0].status != 200 ==>
      items == [] && offsets == [0] && stop == Failed(script[0].status)
  {
    items, offsets := [], [];
    var offset := 0;
    var limit := SuiteQLLimit;
    var k := 0;
    while k < |script|
      invariant 0 <= k <= |script| && |offsets| == k
      invariant forall j :: 0 <= j < k ==> Continues(WhileFullPage(SuiteQLLimit), script[j])
      invariant forall j :: 0 <= j < k ==> offsets[j] == j * SuiteQLLimit
      invariant offset == k * SuiteQLLimit
      invariant items == Gathered(script[..k])
    {
      assert script[..k + 1][..k] == script[..k];
      offsets := offsets + [offset];
      var response := script[k];
      if response.status == 200 {
        var page := ItemsOf(response);
        items := items + page;
        if |page| < limit {
          stop := Finished;
          ConsumedExactly(script, WhileFullPage(SuiteQLLimit), k + 1);
          return;
        }
        offset := offset + limit;
      } else {
        stop := Failed(response.status);
        ConsumedExactly(script, WhileFullPage(SuiteQLLimit), k + 1);
        return;
      }
      k := k + 1;
    }
    stop := ScriptEnded(offset);
    ConsumedExactly(script, WhileFullPage(SuiteQLLimit), k);
  }

  /** The result keeps page order: gathering two runs of pages one after the
      other is gathering each and concatenating. */
  lemma {:induction false} GatheredAppend(a: seq<Page>, b: seq<Page>)
    ensures Gathered(a + b) == Gathered(a) + Gathered(b)
    decreases |b|
  {
    if b != [] {
      var b' := b[..|b| - 1];
      assert (a + b)[..|a + b| - 1] == a + b';
      GatheredAppend(a, b');
    } else {
      assert a + b == a;
    }
  }

  /** When every page is a 200, the result holds exactly as many items as
      the pages carry: the record-list offset of request k is the number of
      items accumulated before it. */
  lemma {:induction false} GatheredLength(pages: seq<Page>)
    requires forall k :: 0 <= k < |pages| ==> pages[k].status == 200
    ensures |Gathered(pages)| == PageSizeSum(pages)
    decreases |pages|
  {
    if pages != [] {
      GatheredLength(pages[..|pages| - 1]);
    }
  }

  /** No request is made after the answer that stopped the loop: answers
      appended to the script change neither the count read nor the result. */
  lemma LaterPagesIgnored(script: seq<Page>, more: seq<Page>, rule: Rule)
    requires 0 < Consumed(script, rule) && !Continues(rule, script[Consumed(script, rule) - 1])
    ensures Consumed(script + more, rule) == Consumed(script, rule)
    ensures (script + more)[..Consumed(script, rule)] == script[..Consumed(script, rule)]
  {
    var n := Consumed(script, rule);
    assert forall k :: 0 <= k < n ==> (script + more)[k] == script[k];
    ConsumedExactly(script + more, rule, n);
  }

  /** A script of `n` answers, each a 200 with no items and `hasMore` true. */
  function StalledScript(n: nat): (script: seq<Page>)
    ensures |script| == n
  {
    seq(n, _ => Page(200, Some([]), Some(JBool(true))))
  }

  /** The record-list hazard: against answers with `hasMore` true and no
      items, every answer is read, every request is at offset 0, nothing is
      gathered and the loop still asks again at offset 0, however long the
      script is. */
  lemma {:induction false} RecordListStalls(n: nat)
    ensures Consumed(StalledScript(n), WhileHasMore) == n
    ensures forall k :: 0 <= k <= n ==> PageSizeSum(StalledScript(n)[..k]) == 0
    ensures Gathered(StalledScript(n)) == []
    ensures Ending(StalledScript(n), WhileHasMore, n, PageSizeSum(StalledScript(n))) == ScriptEnded(0)
    decreases n
  {
    var script := StalledScript(n);
    ConsumedExactly(script, WhileHasMore, n);
    if n > 0 {
      RecordListStalls(n - 1);
      assert script[..n - 1] == StalledScript(n - 1);
      forall k | 0 <= k <= n
        ensures PageSizeSum(script[..k]) == 0
      {
        if k < n {
          assert script[..k] == StalledScript(n - 1)[..k];
        } else {
          assert script[..k] == script;
        }
      }
    }
  }

  /** Dataset offsets advance by `limit` per page; they match the number of
      items received only when every page is full. */
  lemma {:induction false} FullPagesAlignOffsets(pages: seq<Page>, limit: int)
    requires forall k :: 0 <= k < |pages| ==> |ItemsOf(pages[k])| == limit
    ensures PageSizeSum(pages) == |pages| * limit
    decreases |pages|
  {
    if pages != [] {
      var init := pages[..|pages| - 1];
      assert |pages| * limit == |init| * limit + limit;
      FullPagesAlignOffsets(init, limit);
    }
  }

  /** One short page among pages of at most `limit` items puts the dataset
      offset ahead of the items actually received. */
  lemma {:induction false} ShortPageRunsAhead(pages: seq<Page>, limit: int, j: nat)
    requires forall k :: 0 <= k < |pages| ==> |ItemsOf(pages[k])| <= limit
    requires j < |pages| && |ItemsOf(pages[j])| < limit
    ensures PageSizeSum(pages) < |pages| * limit
    decreases |pages|
  {
    var init := pages[..|pages| - 1];
    var last := |ItemsOf(pages[|pages| - 1])|;
    assert PageSizeSum(pages) == PageSizeSum(init) + last;
    assert |pages| * limit == |init| * limit + limit;
    if j == |pages| - 1 {
      AtMostLimit(init, limit);
    } else {
      ShortPageRunsAhead(init, limit, j);
    }
  }

  /** Pages of at most `limit` items carry at most `limit` items each. */
  lemma {:induction false} AtMostLimit(pages: seq<Page>, limit: int)
    requires forall k :: 0 <= k < |pages| ==> |ItemsOf(pages[k])| <= limit
    ensures PageSizeSum(pages) <= |pages| * limit
    decreases |pages|
  {
    if pages != [] {
      var init := pages[..|pages| - 1];
      assert |pages| * limit == |init| * limit + limit;
      AtMostLimit(init, limit);
    }
  }

  /** A 200 page of `size` items with the given `hasMore`. */
  function PageOf(size: nat, more: bool): (p: Page)
    ensures p.status == 200 && |ItemsOf(p)| == size && (HasMore(p) <==> more)
  {
    Page(200, Some(seq(size, i => JNum(i))), Some(JBool(more)))
  }

  /** Three pages of 1000, 1000 and 250 items, `hasMore` true, true, false:
      all three fetchers make three requests at offsets 0, 1000 and 2000,
      gather 2250 items and finish. */
  lemma ThreePageScenario()
    ensures var script := [PageOf(1000, true), PageOf(1000, true), PageOf(250, false)];
      && Consumed(script, WhileHasMore) == 3
      && Consumed(script, WhileFullPage(SuiteQLLimit)) == 3
      && [PageSizeSum(script[..0]), PageSizeSum(script[..1]), PageSizeSum(script[..2])] == [0, 1000, 2000]
      && |Gathered(script)| == 2250
      && Ending(script, WhileHasMore, 3, 2250) == Finished
      && Ending(script, WhileFullPage(SuiteQLLimit), 3, 3000) == Finished
  {
    var script := [PageOf(1000, true), PageOf(1000, true), PageOf(250, false)];
    ConsumedExactly(script, WhileHasMore, 3);
    ConsumedExactly(script, WhileFullPage(SuiteQLLimit), 3);
    assert script[..1] == [script[0]] && script[..2] == [script[0], script[1]];
    assert script[..3] == script;
    GatheredLength(script);
  }
}
