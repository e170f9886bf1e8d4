/** Listing channelz entities page by page while entities come and go.

    `list_channels`, `list_servers` and `list_server_sockets` run the same loop, over different
    requests; the last one also asks for each socket by its id, which fails for one that is gone
    by then.  Here the loop yields the ids. */
module ChannelzPaging {
  import opened Helpers

  datatype Page = Page(ids: seq<nat>, end: bool)

  /** What the paging rule promises of a page: live entities from `start` on, each once, and
      no live one left out up to the largest on the page, or at all if it is the last page. */
  ghost predicate PageOk(start: nat, live: set<nat>, p: Page) {
    && Distinct(p.ids)
    && (forall id :: id in p.ids ==> id in live && start <= id)
    && (forall id, m :: id in live && start <= id <= m && m in p.ids ==> id in p.ids)
    && (p.end ==> forall id :: id in live && start <= id ==> id in p.ids)
    && (p.ids == [] ==> p.end)
  }

  /** Alive at the time of each of the first n requests. */
  ghost predicate LivedThrough(live: nat -> set<nat>, n: nat, id: nat) {
    forall k :: 0 <= k < n ==> id in live(k)
  }

  lemma LargestOnPage(from: nat, live: set<nat>, page: Page, start: int)
    requires PageOk(from, live, page) && !page.end && from <= start
    requires forall j :: 0 <= j < |page.ids| ==> page.ids[j] <= start
    requires start == from || exists j :: 0 <= j < |page.ids| && page.ids[j] == start
    ensures start in page.ids && start in live
  {
    assert page.ids[0] in page.ids;
  }

  lemma PageCovers(live: nat -> set<nat>, before: seq<nat>, page: Page, from: nat, start: int, asked: nat)
    requires PageOk(from, live(asked), page) && (!page.end ==> start in page.ids)
    requires forall id: nat :: LivedThrough(live, asked, id) && id < from ==> id in before
    ensures forall id: nat :: LivedThrough(live, asked + 1, id) && (id <= start || page.end) ==> id in before + page.ids
  {
    forall id: nat | LivedThrough(live, asked + 1, id) && (id <= start || page.end) ensures id in before + page.ids {
      assert id in live(asked) && LivedThrough(live, asked, id);
    }
  }

  /** `serve(k, start)` answers request number k; `live(k)` are the ids alive at that time.
      `query(k, id)` tells whether asking for the entity behind page k succeeds; it is always
      true for channels and servers, which are on the page themselves. */
  method ListIds(serve: (nat, nat) -> Page, query: (nat, nat) -> bool, ghost live: nat -> set<nat>, ghost bound: nat)
    returns (ok: bool, ids: seq<nat>, ghost requests: nat)
    requires forall k, start :: PageOk(start, live(k), serve(k, start))
    requires forall k, id :: id in live(k) ==> id < bound
    ensures 0 < requests <= bound + 1
    // No id twice, and only what was alive when asked for.
    ensures Distinct(ids)
    ensures forall id :: id in ids ==> exists k :: 0 <= k < requests && id in live(k) && query(k, id)
    // Whatever lived through the whole listing is there.
    ensures ok ==> forall id: nat :: LivedThrough(live, requests, id) ==> id in ids
    // It fails only over an entity that was on a page and is gone.
    ensures !ok ==> exists id :: id in live(requests - 1) && !query(requests - 1, id) && id !in ids
  {
    var start: int := -1;
    var end := false;
    var asked := 0;
    ids := [];
    while start < 0 || !end
      invariant -1 <= start && asked <= start + 1 && (start < 0 <==> asked == 0)
      invariant asked > 0 && !end ==> start < bound
      invariant asked <= bound + 1
      invariant Distinct(ids) && forall id :: id in ids ==> id <= start
      invariant forall id :: id in ids ==> exists k :: 0 <= k < asked && id in live(k) && query(k, id)
      invariant forall id: nat :: LivedThrough(live, asked, id) && (id <= start || (asked > 0 && end)) ==> id in ids
      decreases bound - start, !end
    {
      start := start + 1;
      ghost var from, before := start, ids;
      var page := serve(asked, start);
      end := page.end;
      assert PageOk(from, live(asked), page);
      for i := 0 to |page.ids|
        invariant start >= from && ids == before + page.ids[..i]
        invariant forall j :: 0 <= j < i ==> page.ids[j] <= start && query(asked, page.ids[j])
        invariant start == from || exists j :: 0 <= j < i && page.ids[j] == start
      {
        start := Max(start, page.ids[i]);
        if !query(asked, page.ids[i]) {
          FailsOver(before, page.ids, i, from);
          FromPage(query, live, before, page.ids[..i], asked);
          assert page.ids[i] in page.ids;
          return false, ids, asked + 1;
        }
        ids := ids + [page.ids[i]];
      }
      assert page.ids[..|page.ids|] == page.ids;
      PageAdds(before, page.ids, from);
      FromPage(query, live, before, page.ids, asked);
      if !end { LargestOnPage(from, live(asked), page, start); }
      PageCovers(live, before, page, from, start, asked);
      asked := asked + 1;
    }
    return true, ids, asked;
  }

  lemma FromPage(query: (nat, nat) -> bool, live: nat -> set<nat>, before: seq<nat>, page: seq<nat>, asked: nat)
    requires forall id :: id in before ==> exists k :: 0 <= k < asked && id in live(k) && query(k, id)
    requires forall i :: 0 <= i < |page| ==> page[i] in live(asked) && query(asked, page[i])
    ensures forall id :: id in before + page ==> exists k :: 0 <= k < asked + 1 && id in live(k) && query(k, id)
  {
    forall id | id in before + page ensures exists k :: 0 <= k < asked + 1 && id in live(k) && query(k, id) {
      if id !in before { assert id in live(asked) && query(asked, id); }
    }
  }

  lemma FailsOver(before: seq<nat>, page: seq<nat>, i: nat, from: nat)
    requires Distinct(before) && Distinct(page) && i < |page|
    requires forall id :: id in before ==> id < from
    requires forall id :: id in page ==> from <= id
    ensures Distinct(before + page[..i]) && page[i] !in before + page[..i]
  {
    assert page[i] in page && forall id :: id in page[..i] ==> id in page;
    PageAdds(before, page[..i], from);
  }

  lemma PageAdds(before: seq<nat>, page: seq<nat>, from: nat)
    requires Distinct(before) && Distinct(page)
    requires forall id :: id in before ==> id < from
    requires forall id :: id in page ==> from <= id
    ensures Distinct(before + page)
  {
    var all := before + page;
    forall i, j | 0 <= i < j < |all| ensures all[i] != all[j] {
      if i < |before| <= j {
        assert before[i] in before && page[j - |before|] in page;
      }
    }
  }
}
