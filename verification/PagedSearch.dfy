/** The search goroutine: pages of ascending results, turned into one stream of transactions. */
module PagedSearch {
  import opened Decimal
  import opened Records

  const PER_PAGE: nat := 100

  /** How the two channels are closed. Cancellation writes no error, so a reader cannot tell it from completion. */
  datatype Closing = Complete | Failed | Cancelled

  function Min(a: nat, b: nat): nat {
    if a < b then a else b
  }

  /** The node's answer for page p (from 1): asking past the last page is an error. */
  function PageOf(list: seq<Transaction>, p: nat): Option<seq<Transaction>>
    requires 0 < p
  {
    if p == 1 || (p - 1) * PER_PAGE < |list|
    then Some(list[Min((p - 1) * PER_PAGE, |list|)..Min(p * PER_PAGE, |list|)])
    else None
  }

  /** The result list only grows at its end from one page request to the next, up to `final`. */
  ghost predicate GrowsTowards(lists: nat -> seq<Transaction>, final: seq<Transaction>) {
    forall p, p' :: p <= p' ==> lists(p) <= lists(p') <= final
  }

  /** lists(p) is the full result list when page p is asked for. `searchFails` and `proofFails` say which page requests
      and which result positions run into an error, `cancels` at which positions a cancellation is noticed. */
  method SearchTransactions(
    lists: nat -> seq<Transaction>, ghost final: seq<Transaction>,
    searchFails: nat -> bool, proofFails: nat -> bool, cancels: nat -> bool)
    returns (out: seq<Transaction>, closing: Closing, pages: nat)
    requires GrowsTowards(lists, final)
    // the stream is the results in order, each once, up to where it was cut
    ensures out <= final && 0 < pages
    // no page past the end is ever asked for
    ensures forall p :: 1 < p <= pages ==> (p - 1) * PER_PAGE < |lists(p)|
    // a completed search has delivered all there was when its last page was asked for, so all there was at its start
    ensures closing.Complete? ==> out == lists(pages) && lists(1) <= out
    ensures closing.Failed? ==> searchFails(pages) || proofFails(|out|)
    ensures closing.Cancelled? ==> cancels(|out|)
  {
    out, pages := [], 1;
    while true
      invariant 0 < pages && |out| == (pages - 1) * PER_PAGE && out <= lists(pages)
      invariant forall p :: 1 < p <= pages ==> (p - 1) * PER_PAGE < |lists(p)|
      decreases |final| - |out|
    {
      assert lists(1) <= lists(pages) <= final;
      if searchFails(pages) { return out, Failed, pages; }
      var page := PageOf(lists(pages), pages);
      if page.None? { return out, Failed, pages; }
      if |page.value| == 0 { return out, Complete, pages; }
      for i := 0 to |page.value|
        invariant out == lists(pages)[..(pages - 1) * PER_PAGE + i]
      {
        if proofFails(|out|) { return out, Failed, pages; }
        if cancels(|out|) { return out, Cancelled, pages; }
        out := out + [page.value[i]];
      }
      if |lists(pages)| <= pages * PER_PAGE { return out, Complete, pages; }
      assert lists(pages) <= lists(pages + 1) <= final;
      pages := pages + 1;
    }
  }

  /** An undisturbed search of a list that stays as it is delivers exactly that list. */
  method SearchFixedList(list: seq<Transaction>) returns (out: seq<Transaction>)
    ensures out == list
  {
    var closing, pages;
    out, closing, pages := SearchTransactions(_ => list, list, _ => false, _ => false, _ => false);
  }
}
