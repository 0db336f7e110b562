/**
 * `get_query_history`: collects the execution ids of a workgroup from the
 * paginated history listing. The listing service is abstracted as the
 * finite sequence of responses it gives, consumed one per request, in order.
 */
module QueryHistory {
  import opened Wrappers

  /** The status code of a successful listing response. */
  const StatusOk: int := 200

  /** One response of the listing call: status code, a page of ids, and the cursor for the next page, if any. */
  datatype Page = Page(status: int, ids: seq<string>, nextToken: Option<string>)

  /** The fetch stops at this response: it failed, or it has no next page. */
  predicate Stops(p: Page) {
    p.status != StatusOk || p.nextToken.None?
  }

  /** The responses contain a response at which the fetch stops. */
  predicate Terminates(pages: seq<Page>) {
    exists k :: 0 <= k < |pages| && Stops(pages[k])
  }

  /** The index of the last response the fetch consumes: the first one at which it stops. */
  function LastConsumed(pages: seq<Page>): (k: nat)
    requires Terminates(pages)
    ensures k < |pages| && Stops(pages[k])
    ensures forall j :: 0 <= j < k ==> !Stops(pages[j])
  {
    if Stops(pages[0]) then 0
    else
      assert Terminates(pages[1..]) by {
        var k :| 0 <= k < |pages| && Stops(pages[k]);
        assert k != 0 && Stops(pages[1..][k - 1]);
      }
      1 + LastConsumed(pages[1..])
  }

  /** The ids of the given responses, in order. */
  function Flatten(pages: seq<Page>): seq<string> {
    if pages == [] then [] else pages[0].ids + Flatten(pages[1..])
  }

  /** Flattening one more response appends its ids. */
  lemma {:induction false} FlattenSnoc(pages: seq<Page>, p: Page)
    ensures Flatten(pages + [p]) == Flatten(pages) + p.ids
  {
    if pages == [] {
      assert [] + [p] == [p];
    } else {
      assert (pages + [p])[1..] == pages[1..] + [p];
      FlattenSnoc(pages[1..], p);
    }
  }

  /** Every response the fetch consumes succeeded. */
  predicate AllConsumedOk(pages: seq<Page>)
    requires Terminates(pages)
  {
    forall j :: 0 <= j <= LastConsumed(pages) ==> pages[j].status == StatusOk
  }

  /** The ids the fetch returns when it succeeds: those of every consumed response, in order. */
  function FetchedIds(pages: seq<Page>): seq<string>
    requires Terminates(pages)
  {
    Flatten(pages[..LastConsumed(pages) + 1])
  }

  /**
   * The pagination loop. The ghost `tokens` records the cursor sent with each request:
   * none with the first, and afterwards the `nextToken` of the response just
   * received; a further request is made exactly while the last response
   * succeeded and carries a `nextToken`. Any failed response, the first or a
   * later one, makes the result `None`, discarding the ids gathered so far.
   */
  method GetQueryHistory(pages: seq<Page>) returns (result: Option<seq<string>>, ghost tokens: seq<Option<string>>)
    requires Terminates(pages)
    ensures |tokens| == LastConsumed(pages) + 1
    ensures tokens[0] == None
    ensures forall j :: 0 <= j < LastConsumed(pages) ==> tokens[j + 1] == pages[j].nextToken
    ensures AllConsumedOk(pages) ==> result == Some(FetchedIds(pages))
    ensures !AllConsumedOk(pages) ==> result == None
  {
    ghost var last := LastConsumed(pages);
    var i := 0;
    var resp := pages[0];
    tokens := [None];
    if resp.status != StatusOk {
      return None, tokens;
    }
    var acc := resp.ids;
    assert pages[..1] == [] + [pages[0]];
    FlattenSnoc([], pages[0]);
    while resp.nextToken.Some?
      invariant 0 <= i <= last
      invariant resp == pages[i] && resp.status == StatusOk
      invariant acc == Flatten(pages[..i + 1])
      invariant |tokens| == i + 1 && tokens[0] == None
      invariant forall j :: 0 <= j < i ==> tokens[j + 1] == pages[j].nextToken
      decreases last - i
    {
      var nextToken := resp.nextToken.value;
      i := i + 1;
      resp := pages[i];
      tokens := tokens + [Some(nextToken)];
      if resp.status != StatusOk {
        return None, tokens;
      }
      assert pages[..i + 1] == pages[..i] + [pages[i]];
      FlattenSnoc(pages[..i], pages[i]);
      acc := acc + resp.ids;
    }
    result := Some(acc);
  }

  /** A listing of three successful responses with 50, 50 and 7 ids, the first two pointing to a next page. */
  function ThreePageListing(): seq<Page> {
    [ Page(StatusOk, seq(50, k => "a"), Some("t1")),
      Page(StatusOk, seq(50, k => "b"), Some("t2")),
      Page(StatusOk, seq(7, k => "c"), None) ]
  }

  /** Three successful responses of 50, 50 and 7 ids yield all 107 ids, page by page. */
  lemma ThreePagesFetch()
    ensures Terminates(ThreePageListing()) && AllConsumedOk(ThreePageListing())
    ensures FetchedIds(ThreePageListing()) == ThreePageListing()[0].ids + ThreePageListing()[1].ids + ThreePageListing()[2].ids
    ensures |FetchedIds(ThreePageListing())| == 107
  {
    var ps := ThreePageListing();
    assert Stops(ps[2]);
    assert LastConsumed(ps) == 2;
    assert ps[..3] == ps;
    assert Flatten(ps[2..]) == ps[2].ids + Flatten([]);
  }
}
