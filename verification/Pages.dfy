/** Answers that come page by page. */
module Pages {

  datatype Page<T> = Unreachable | Page(items: seq<T>, more: bool)

  predicate AllReachable<T>(pages: seq<Page<T>>) {
    forall i :: 0 <= i < |pages| ==> pages[i].Page?
  }

  /** A page announces a next one exactly when there is one. */
  predicate Chained<T>(pages: seq<Page<T>>) {
    forall i :: 0 <= i < |pages| && pages[i].Page? ==> (pages[i].more <==> i < |pages| - 1)
  }

  /** The items of the pages, up to the first page that cannot be fetched. */
  function Concatenated<T>(pages: seq<Page<T>>): seq<T> {
    if pages == [] || pages[0].Unreachable? then [] else pages[0].items + Concatenated(pages[1..])
  }

  /** One more page after pages that could all be fetched. */
  lemma {:induction false} ConcatenatedStep<T>(pages: seq<Page<T>>, i: nat)
    requires i < |pages| && forall k :: 0 <= k <= i ==> pages[k].Page?
    ensures Concatenated(pages[..i + 1]) == Concatenated(pages[..i]) + pages[i].items
    decreases i
  {
    if i == 0 {
      assert pages[..1] == [pages[0]] && pages[..0] == [] && pages[..1][1..] == [];
    } else {
      assert pages[..i + 1][1..] == pages[1..][..i] && pages[..i][1..] == pages[1..][..i - 1];
      ConcatenatedStep(pages[1..], i - 1);
    }
  }

  lemma {:induction false} ConcatenatedGrows<T>(pages: seq<Page<T>>, n: nat)
    requires n <= |pages|
    ensures Concatenated(pages[..n]) <= Concatenated(pages)
    decreases n
  {
    if 0 < n && pages[0].Page? {
      assert pages[..n][1..] == pages[1..][..n - 1];
      ConcatenatedGrows(pages[1..], n - 1);
    }
  }

  /** A scan is through exactly when no further page is announced. */
  lemma LastPage<T>(pages: seq<Page<T>>, i: nat)
    requires 0 < i <= |pages| && Chained(pages) && forall k :: 0 <= k < i ==> pages[k].Page?
    ensures i == |pages| <==> !pages[i - 1].more
    ensures i == |pages| ==> pages[..i] == pages && AllReachable(pages)
  {
    assert pages[i - 1].Page?;
  }
}
