/**
 * The fan-in half of the search: per-page results collected in request order
 * (what `Promise.all` returns) and concatenated by a loop that pushes each
 * non-empty page. Generic in the item type; nothing here knows about pages'
 * contents.
 */
module PageMerge {

  /** Concatenation of a sequence of sequences, the last one last. */
  function Flatten<T>(ls: seq<seq<T>>): seq<T> {
    if ls == [] then [] else Flatten(ls[..|ls| - 1]) + ls[|ls| - 1]
  }

  /** The lists to merge: the first page's results, then page `req[j]`'s results for each j in order. */
  function PageLists<T>(first: seq<T>, req: seq<int>, pageResults: int -> seq<T>): (ls: seq<seq<T>>)
    ensures |ls| == |req| + 1 && ls[0] == first
    ensures forall j :: 0 <= j < |req| ==> ls[j + 1] == pageResults(req[j])
  {
    [first] + seq(|req|, j requires 0 <= j < |req| => pageResults(req[j]))
  }

  /** Lists gathered one per requested page, in request order, are the page lists. */
  lemma PageListsOfResults<T>(first: seq<T>, req: seq<int>, pageResults: int -> seq<T>, pages: seq<seq<T>>)
    requires |pages| == |req| && forall j :: 0 <= j < |req| ==> pages[j] == pageResults(req[j])
    ensures PageLists(first, req, pageResults) == [first] + pages
  {
  }

  /** The results of the pages `req`, one page after another. */
  function ConcatPages<T>(req: seq<int>, pageResults: int -> seq<T>): seq<T> {
    if req == [] then [] else ConcatPages(req[..|req| - 1], pageResults) + pageResults(req[|req| - 1])
  }

  predicate Increasing(s: seq<int>) {
    forall i, j :: 0 <= i < j < |s| ==> s[i] < s[j]
  }

  /** The pages of `req` whose results are non-empty, in request order. */
  function ProductivePages<T>(req: seq<int>, pageResults: int -> seq<T>): (r: seq<int>)
    ensures forall k :: k in r ==> k in req && |pageResults(k)| > 0
    ensures Increasing(req) ==> Increasing(r)
  {
    if req == [] then []
    else
      var n := |req|;
      var rest := ProductivePages(req[..n - 1], pageResults);
      var last := req[n - 1];
      assert forall k :: k in rest ==> k in req;
      if |pageResults(last)| > 0 then
        assert Increasing(req) ==> Increasing(rest + [last]) by {
          if Increasing(req) {
            assert Increasing(req[..n - 1]);
            forall k | k in rest ensures k < last {
              var i :| 0 <= i < n - 1 && req[..n - 1][i] == k;
            }
            var r := rest + [last];
            forall i, j | 0 <= i < j < |r| ensures r[i] < r[j] {
              if j < |rest| {
                assert r[i] == rest[i] && r[j] == rest[j];
              } else {
                assert r[i] == rest[i] && rest[i] in rest;
              }
            }
          }
        }
        rest + [last]
      else rest
  }

  /** Position of list j's first element in the concatenation. */
  function Offset<T>(ls: seq<seq<T>>, j: nat): nat
    requires j <= |ls|
  {
    |Flatten(ls[..j])|
  }

  lemma {:induction false} FlattenPrefix<T>(ls: seq<seq<T>>, j: nat)
    requires j <= |ls|
    ensures Flatten(ls[..j]) <= Flatten(ls)
  {
    if j < |ls| {
      FlattenPrefix(ls[..|ls| - 1], j);
      assert ls[..|ls| - 1][..j] == ls[..j];
      assert ls[..|ls|] == ls;
    } else {
      assert ls[..j] == ls;
    }
  }

  lemma FlattenStep<T>(ls: seq<seq<T>>, j: nat)
    requires j < |ls|
    ensures Flatten(ls[..j + 1]) == Flatten(ls[..j]) + ls[j]
  {
    assert ls[..j + 1][..j] == ls[..j];
  }

  /** List j occupies the part of the concatenation from Offset(ls, j) up to Offset(ls, j + 1). */
  lemma FlattenSlice<T>(ls: seq<seq<T>>, j: nat)
    requires j < |ls|
    ensures Offset(ls, j) <= Offset(ls, j + 1) <= |Flatten(ls)|
    ensures Flatten(ls)[Offset(ls, j)..Offset(ls, j + 1)] == ls[j]
  {
    FlattenStep(ls, j);
    FlattenPrefix(ls, j + 1);
    var f := Flatten(ls);
    assert f[..Offset(ls, j + 1)] == Flatten(ls[..j + 1]);
    assert f[Offset(ls, j)..Offset(ls, j + 1)] == Flatten(ls[..j + 1])[Offset(ls, j)..];
  }

  /** The part of the concatenation that list k occupies. */
  function Slot<T>(ls: seq<seq<T>>, k: nat): (s: seq<T>)
    requires k < |ls|
    ensures s == ls[k]
  {
    FlattenSlice(ls, k);
    Flatten(ls)[Offset(ls, k)..Offset(ls, k + 1)]
  }

  lemma {:induction false} FlattenMember<T>(ls: seq<seq<T>>, x: T)
    requires x in Flatten(ls)
    ensures exists j :: 0 <= j < |ls| && x in ls[j]
  {
    var n := |ls|;
    if x !in ls[n - 1] {
      FlattenMember(ls[..n - 1], x);
      var j :| 0 <= j < n - 1 && x in ls[..n - 1][j];
      assert ls[..n - 1][j] == ls[j];
    }
  }

  /** Dropping the last request drops the last list. */
  lemma PageListsDropLast<T>(first: seq<T>, req: seq<int>, pageResults: int -> seq<T>)
    requires req != []
    ensures PageLists(first, req, pageResults)[..|req|] == PageLists(first, req[..|req| - 1], pageResults)
  {
    var n := |req|;
    var ls := PageLists(first, req, pageResults);
    var shorter := PageLists(first, req[..n - 1], pageResults);
    assert |ls[..n]| == |shorter| == n;
    forall k | 0 <= k < n ensures ls[..n][k] == shorter[k] {
      if k > 0 {
        assert req[..n - 1][k - 1] == req[k - 1];
      }
    }
  }

  /** Merging the page lists gives the first page's results followed by the requested pages' in request order. */
  lemma {:induction false} FlattenPageLists<T>(first: seq<T>, req: seq<int>, pageResults: int -> seq<T>)
    ensures Flatten(PageLists(first, req, pageResults)) == first + ConcatPages(req, pageResults)
  {
    var ls := PageLists(first, req, pageResults);
    if req == [] {
      assert ls == [first];
      assert ls[..0] == [];
    } else {
      var n := |req|;
      var shorter := PageLists(first, req[..n - 1], pageResults);
      FlattenPageLists(first, req[..n - 1], pageResults);
      PageListsDropLast(first, req, pageResults);
      calc {
        Flatten(ls);
        Flatten(ls[..n]) + ls[n];
        Flatten(shorter) + pageResults(req[n - 1]);
        first + ConcatPages(req[..n - 1], pageResults) + pageResults(req[n - 1]);
        first + (ConcatPages(req[..n - 1], pageResults) + pageResults(req[n - 1]));
        first + ConcatPages(req, pageResults);
      }
    }
  }

  /** Pages without results add nothing: concatenating only the productive pages gives the same sequence. */
  lemma {:induction false} ConcatSkipsUnproductivePages<T>(req: seq<int>, pageResults: int -> seq<T>)
    ensures ConcatPages(req, pageResults) == ConcatPages(ProductivePages(req, pageResults), pageResults)
  {
    if req != [] {
      var n := |req|;
      var last := req[n - 1];
      var rest := ProductivePages(req[..n - 1], pageResults);
      ConcatSkipsUnproductivePages(req[..n - 1], pageResults);
      if |pageResults(last)| > 0 {
        assert (rest + [last])[..|rest|] == rest;
      }
    }
  }

  /** Pages 2 .. p + 1, the page numbers the request loop walks through. */
  function PagesAfterFirst(p: int): (r: seq<int>)
    ensures p <= 0 ==> r == []
    ensures p > 0 ==> |r| == p && forall j :: 0 <= j < p ==> r[j] == j + 2
  {
    if p > 0 then seq(p, i => i + 2) else []
  }

  /**
   * The loop `for (let page = 2; page <= pagesToFetch + 1; page++)` that pushes
   * one request per page: the results come back in request order.
   */
  method RequestPages<T>(pagesToFetch: int, request: int -> T) returns (results: seq<T>, requested: seq<int>)
    ensures requested == PagesAfterFirst(pagesToFetch)
    ensures |results| == |requested|
    ensures forall j :: 0 <= j < |results| ==> results[j] == request(requested[j])
  {
    results, requested := [], [];
    var page := 2;
    while page <= pagesToFetch + 1
      invariant 2 <= page && (pagesToFetch > 0 ==> page <= pagesToFetch + 2) && (pagesToFetch <= 0 ==> page == 2)
      invariant |requested| == |results| == page - 2
      invariant forall j :: 0 <= j < |requested| ==> requested[j] == j + 2
      invariant forall j :: 0 <= j < |results| ==> results[j] == request(j + 2)
    {
      results := results + [request(page)];
      requested := requested + [page];
      page := page + 1;
    }
  }

  /** `additionalResults.forEach(r => { if (r.length > 0) results.push(...r) })`, starting from page 1's results. */
  method MergePages<T>(first: seq<T>, pages: seq<seq<T>>) returns (results: seq<T>)
    ensures results == Flatten([first] + pages)
  {
    ghost var lists := [first] + pages;
    results := first;
    assert lists[..1][..0] == [];
    var j := 0;
    while j < |pages|
      invariant 0 <= j <= |pages|
      invariant results == Flatten(lists[..j + 1])
    {
      assert lists[..j + 2][..j + 1] == lists[..j + 1];
      if |pages[j]| > 0 {
        results := results + pages[j];
      }
      j := j + 1;
    }
    assert lists[..j + 1] == lists;
  }
}
