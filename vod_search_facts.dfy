/** Properties of `searchByAPIAndKeyWord`, stated over the specification in VodSearch. */
module VodSearchFacts {
  import opened Wrappers
  import opened JsValues
  import opened VodNormalize
  import opened PageMerge
  import opened VodSearch

  function Min(a: int, b: int): int {
    if a <= b then a else b
  }

  /**
   * Pagination bound: with a numeric page count n, the pages requested after
   * page 1 are exactly 2, 3, ..., min(n, maxPages): never one above maxPages
   * or above n, and none at all when min(n, maxPages) < 2.
   */
  lemma RequestedPagesAreTwoThroughLimit(data: JsValue, maxPages: int, n: int)
    requires PageCount(data) == Some(n)
    ensures var r := RequestedPages(data, maxPages);
      |r| == (if Min(n, maxPages) >= 2 then Min(n, maxPages) - 1 else 0) &&
      (forall i :: 0 <= i < |r| ==> r[i] == i + 2) &&
      (forall i :: 0 <= i < |r| ==> r[i] <= maxPages && r[i] <= n)
  {
  }

  /** An absent, null, zero or one page count requests no page beyond the first. */
  lemma NoPagesBeyondFirstWithoutPageCount(fields: map<string, JsValue>, maxPages: int)
    requires var pc := Get(fields, "pagecount"); pc == Undefined || pc == Null || pc == Num(0) || pc == Num(1)
    ensures RequestedPages(Obj(fields), maxPages) == []
  {
  }

  /** A page count that is an object converts to NaN (or throws, see `PageCountThrows`), and NaN requests no further page. */
  lemma NoPagesForObjectPageCount(fields: map<string, JsValue>, maxPages: int)
    requires "pagecount" in fields && fields["pagecount"].Obj?
    ensures RequestedPages(Obj(fields), maxPages) == []
  {
  }

  /** The reported page count 10 with five pages at most: pages 2 to 5 are requested, page 6 never. */
  lemma TenPagesFiveAllowed()
    ensures RequestedPages(Obj(map["pagecount" := Num(10)]), 5) == [2, 3, 4, 5]
  {
    RequestedPagesAreTwoThroughLimit(Obj(map["pagecount" := Num(10)]), 5, 10);
  }

  /**
   * Source resolution: an unknown builtin id, or a `custom_` id whose index
   * the registry does not resolve, gives `[]` and requests no further page.
   */
  lemma UnknownSourceGivesNothing(cat: Catalog, apiId: string, maxPages: int, page1: PageOutcome, fetchPage: int -> PageOutcome)
    requires if IsCustomId(apiId) then apiId[|CustomPrefix|..] !in cat.custom else apiId !in cat.builtin
    ensures SearchResult(cat, apiId, maxPages, page1, fetchPage) == []
    ensures SearchRequests(cat, apiId, maxPages, page1) == []
  {
  }

  /** A failed or non-OK page 1, or one without a non-empty `list` array, gives `[]` and requests no further page. */
  lemma UnusableFirstPageGivesNothing(cat: Catalog, apiId: string, maxPages: int, page1: PageOutcome, fetchPage: int -> PageOutcome)
    requires !page1.Body? || ListOf(page1.data).None? || ListOf(page1.data) == Some([])
    ensures SearchResult(cat, apiId, maxPages, page1, fetchPage) == []
    ensures SearchRequests(cat, apiId, maxPages, page1) == []
  {
  }

  /**
   * A page-1 item whose normalization throws (a field `normalizeVodItem` reads
   * holds an object with its own `toString` key) aborts the whole search: the
   * outer `catch` gives `[]` and no further page is requested.
   */
  lemma UnprintableFirstPageItemGivesNothing(cat: Catalog, apiId: string, maxPages: int, page1: PageOutcome, fetchPage: int -> PageOutcome, i: nat)
    requires ResolveSource(cat, apiId).Some? && FirstPageItems(page1).Some?
    requires i < |FirstPageItems(page1).value|
    requires TagItem(FirstPageItems(page1).value[i], apiId, ResolveSource(cat, apiId).value).None?
    ensures SearchResult(cat, apiId, maxPages, page1, fetchPage) == []
    ensures SearchRequests(cat, apiId, maxPages, page1) == []
  {
    assert TagAll(FirstPageItems(page1).value, apiId, ResolveSource(cat, apiId).value).None?;
  }

  /** A page count that throws on conversion (`pageCount - 1`) aborts the search: `[]`, and no further page is requested. */
  lemma UnprintablePageCountGivesNothing(cat: Catalog, apiId: string, maxPages: int, page1: PageOutcome, fetchPage: int -> PageOutcome)
    requires page1.Body? && PageCountThrows(page1.data)
    ensures SearchResult(cat, apiId, maxPages, page1, fetchPage) == []
    ensures SearchRequests(cat, apiId, maxPages, page1) == []
  {
  }

  const UnprintableName := Obj(map["toString" := Num(1)])
  const UnprintablePage := Body(Obj(map["list" := Arr([Obj(map["name" := UnprintableName])])]))

  /** `{list: [{name: {toString: 1}}]}` from a builtin source: normalizing the item throws, so the search gives `[]`. */
  lemma UnprintableNameExample(fetchPage: int -> PageOutcome)
    ensures SearchResult(ExampleCatalog, "p1", 5, UnprintablePage, fetchPage) == []
  {
    var item := Obj(map["name" := UnprintableName]);
    assert ResolveSource(ExampleCatalog, "p1") == Some(ExampleInfo);
    assert FirstPageItems(UnprintablePage) == Some([item]);
    var raw := Enrich(item, "p1", ExampleInfo);
    assert Get(raw, "name") == UnprintableName;
    UnprintableNameThrows(raw, UnprintableName.fields);
    UnprintableFirstPageItemGivesNothing(ExampleCatalog, "p1", 5, UnprintablePage, fetchPage, 0);
  }

  /** The per-page lists a search that gets past page 1 merges: page 1 at index 0, then each requested page. */
  function SearchPages(cat: Catalog, apiId: string, maxPages: int, page1: PageOutcome, fetchPage: int -> PageOutcome)
    : (ls: seq<seq<map<string, JsValue>>>)
    requires Proceeds(cat, apiId, page1)
    ensures SearchResult(cat, apiId, maxPages, page1, fetchPage) == Flatten(ls)
  {
    var info := ResolveSource(cat, apiId).value;
    PageLists(TagAll(FirstPageItems(page1).value, apiId, info).value, RequestedPages(page1.data, maxPages), TaggedPage(apiId, info, fetchPage))
  }

  /**
   * Tagging: every item of the result carries `source_code` = the requested id
   * and `source_name` = the resolved source's name, and has all eight
   * canonical fields.
   */
  lemma SearchItemsAreTagged(cat: Catalog, apiId: string, maxPages: int, page1: PageOutcome, fetchPage: int -> PageOutcome)
    ensures forall x :: x in SearchResult(cat, apiId, maxPages, page1, fetchPage) ==>
      "source_code" in x && x["source_code"] == Str(apiId) &&
      "source_name" in x && x["source_name"] == Str(ResolveSource(cat, apiId).value.name) &&
      NormKeys <= x.Keys
  {
    var r := SearchResult(cat, apiId, maxPages, page1, fetchPage);
    if Proceeds(cat, apiId, page1) {
      var info := ResolveSource(cat, apiId).value;
      var items := FirstPageItems(page1).value;
      var req := RequestedPages(page1.data, maxPages);
      var ls := SearchPages(cat, apiId, maxPages, page1, fetchPage);
      forall x | x in r ensures Tagged(x, apiId, info) {
        FlattenMember(ls, x);
        var j :| 0 <= j < |ls| && x in ls[j];
        if j == 0 {
          TagAllIsTagged(items, apiId, info);
        } else {
          assert ls[j] == TagAll(PageItems(fetchPage(req[j - 1])), apiId, info).GetOr([]);
          TagAllIsTagged(PageItems(fetchPage(req[j - 1])), apiId, info);
        }
      }
    }
  }

  /** Output order, first part: the result opens with page 1's items, tagged, in page 1's order. */
  lemma SearchResultStartsWithFirstPage(cat: Catalog, apiId: string, maxPages: int, page1: PageOutcome, fetchPage: int -> PageOutcome)
    requires Proceeds(cat, apiId, page1)
    ensures TagAll(FirstPageItems(page1).value, apiId, ResolveSource(cat, apiId).value).value
      <= SearchResult(cat, apiId, maxPages, page1, fetchPage)
  {
    var info := ResolveSource(cat, apiId).value;
    var first := TagAll(FirstPageItems(page1).value, apiId, info).value;
    var f := TaggedPage(apiId, info, fetchPage);
    var req := RequestedPages(page1.data, maxPages);
    assert SearchResult(cat, apiId, maxPages, page1, fetchPage) == Flatten(PageLists(first, req, f));
    FlattenPageLists(first, req, f);
  }

  /**
   * The spread keeps the item: the i-th result item carries every own
   * property of page 1's i-th item other than the three tags and the eight
   * canonical keys, unchanged, and `api_url` is the custom source's `url`
   * (`undefined` for a builtin source).
   */
  lemma SearchResultKeepsFirstPageFields(cat: Catalog, apiId: string, maxPages: int, page1: PageOutcome, fetchPage: int -> PageOutcome)
    requires Proceeds(cat, apiId, page1)
    ensures var r := SearchResult(cat, apiId, maxPages, page1, fetchPage);
      var items := FirstPageItems(page1).value;
      |items| <= |r| &&
      forall i :: 0 <= i < |items| ==> KeepsOwnFields(r[i], items[i], apiId, ResolveSource(cat, apiId).value)
  {
    var info := ResolveSource(cat, apiId).value;
    var items := FirstPageItems(page1).value;
    var first := TagAll(items, apiId, info).value;
    var r := SearchResult(cat, apiId, maxPages, page1, fetchPage);
    SearchResultStartsWithFirstPage(cat, apiId, maxPages, page1, fetchPage);
    TagAllKeepsOwnFields(items, apiId, info);
    KeepsOwnFieldsInPrefix(first, r, items, apiId, info);
  }

  lemma KeepsOwnFieldsInPrefix(first: seq<map<string, JsValue>>, r: seq<map<string, JsValue>>, items: seq<JsValue>, apiId: string, info: ApiInfo)
    requires first <= r && |first| == |items|
    requires forall i :: 0 <= i < |items| ==> KeepsOwnFields(first[i], items[i], apiId, info)
    ensures |items| <= |r| && forall i :: 0 <= i < |items| ==> KeepsOwnFields(r[i], items[i], apiId, info)
  {
    forall i | 0 <= i < |items| ensures KeepsOwnFields(r[i], items[i], apiId, info) {
      assert r[i] == first[i];
    }
  }

  /**
   * Output order, second part: the j-th requested page's tagged items, in the
   * page's own order, fill slot j + 1 of the result, the slots following one
   * another in request order, whatever order the requests settled in. A page
   * whose request failed (no OK body, no `list` array) or whose tagging threw
   * has an empty slot.
   */
  lemma SearchResultPageSlots(cat: Catalog, apiId: string, maxPages: int, page1: PageOutcome, fetchPage: int -> PageOutcome)
    requires Proceeds(cat, apiId, page1)
    ensures var req := RequestedPages(page1.data, maxPages);
      var ls := SearchPages(cat, apiId, maxPages, page1, fetchPage);
      |ls| == |req| + 1 &&
      forall j :: 0 <= j < |req| ==>
        Slot(ls, j + 1) == TagAll(PageItems(fetchPage(req[j])), apiId, ResolveSource(cat, apiId).value).GetOr([])
  {
  }

  /**
   * Failure isolation: a page whose request failed, answered non-OK, had
   * no (or an empty) `list` array, or threw while tagging contributes
   * nothing. The result is page 1's items followed by exactly the productive
   * pages' items, those pages in ascending order.
   */
  lemma FailedPagesContributeNothing(cat: Catalog, apiId: string, maxPages: int, page1: PageOutcome, fetchPage: int -> PageOutcome)
    requires Proceeds(cat, apiId, page1)
    ensures var info := ResolveSource(cat, apiId).value;
      var f := TaggedPage(apiId, info, fetchPage);
      var productive := ProductivePages(RequestedPages(page1.data, maxPages), f);
      SearchResult(cat, apiId, maxPages, page1, fetchPage)
        == TagAll(FirstPageItems(page1).value, apiId, info).value + ConcatPages(productive, f) &&
      (forall k :: k in productive ==>
        fetchPage(k).Body? && ListOf(fetchPage(k).data).Some? && TagAll(PageItems(fetchPage(k)), apiId, info).Some?) &&
      Increasing(productive)
  {
    var info := ResolveSource(cat, apiId).value;
    var f := TaggedPage(apiId, info, fetchPage);
    var req := RequestedPages(page1.data, maxPages);
    FlattenPageLists(TagAll(FirstPageItems(page1).value, apiId, info).value, req, f);
    ConcatSkipsUnproductivePages(req, f);
    assert Increasing(req);
    forall k | k in ProductivePages(req, f)
      ensures fetchPage(k).Body? && ListOf(fetchPage(k).data).Some? && TagAll(PageItems(fetchPage(k)), apiId, info).Some?
    {
      assert |f(k)| > 0;
    }
  }

  /** When page 1 asks for no further page, the result is page 1's items, tagged. */
  lemma {:induction false} NoMorePagesGivesFirstPageOnly(cat: Catalog, apiId: string, maxPages: int, page1: PageOutcome, fetchPage: int -> PageOutcome)
    requires Proceeds(cat, apiId, page1)
    requires RequestedPages(page1.data, maxPages) == []
    ensures SearchResult(cat, apiId, maxPages, page1, fetchPage) ==
      TagAll(FirstPageItems(page1).value, apiId, ResolveSource(cat, apiId).value).value
  {
    var ls := SearchPages(cat, apiId, maxPages, page1, fetchPage);
    assert |ls| == 1;
    assert Flatten(ls) == Flatten(ls[..0]) + ls[0];
  }

  /** With no `name`, a present `vod_name` becomes `norm_title`. */
  lemma TitleFromVodName(raw: map<string, JsValue>, s: string)
    requires Get(raw, "name") == Undefined && Get(raw, "vod_name") == Str(s) && Present(Str(s)) && s != []
    ensures NormFieldOf(raw, "norm_title") == Some(Str(s))
    ensures NormalizeVodItem(raw).Some? ==> NormalizeVodItem(raw).value["norm_title"] == Str(s)
  {
    PickVodName(raw, s);
    assert NormFieldOf(raw, "norm_title") == NormField(raw, NameAliases, TitlePlaceholder);
  }

  lemma PickVodName(raw: map<string, JsValue>, s: string)
    requires Get(raw, "name") == Undefined && Get(raw, "vod_name") == Str(s) && Present(Str(s))
    ensures Pick(AliasValues(raw, NameAliases)) == Some(Str(s))
  {
    NameAliasValues(raw, s);
    var vs := AliasValues(raw, NameAliases);
    assert vs[0] == Undefined && vs[1] == Str(s);
    assert Skipped(Undefined);
    assert forall j :: 0 <= j < 1 ==> Skipped(vs[j]);
    assert Present(vs[1]);
    PickReturnsFirstPresent(vs, 1);
    assert Pick(vs) == Some(vs[1]);
  }

  lemma NameAliasValues(raw: map<string, JsValue>, s: string)
    requires Get(raw, "name") == Undefined && Get(raw, "vod_name") == Str(s)
    ensures var vs := AliasValues(raw, NameAliases); |vs| == 5 && vs[0] == Undefined && vs[1] == Str(s)
  {
  }

  const ExampleInfo := ApiInfo("https://p1.example", "P1")
  const ExampleCatalog := Catalog(map["p1" := ExampleInfo], map[])
  const ExampleItem := Obj(map["vod_name" := Str("流浪地球2")])
  const ExamplePage := Body(Obj(map["list" := Arr([ExampleItem]), "pagecount" := Num(1)]))

  /**
   * A one-page answer `{list: [{vod_name: "流浪地球2"}], pagecount: 1}` from a
   * builtin source "p1" gives exactly one item, titled "流浪地球2" and tagged
   * with "p1", and no further page is requested.
   */
  lemma SinglePageExample(fetchPage: int -> PageOutcome)
    ensures var r := SearchResult(ExampleCatalog, "p1", 5, ExamplePage, fetchPage);
      |r| == 1 && r[0]["norm_title"] == Str("流浪地球2") && r[0]["source_code"] == Str("p1") &&
      SearchRequests(ExampleCatalog, "p1", 5, ExamplePage) == []
  {
    assert !IsCustomId("p1");
    assert ResolveSource(ExampleCatalog, "p1") == Some(ExampleInfo);
    assert FirstPageItems(ExamplePage) == Some([ExampleItem]);
    ExampleItemTitle();
    TagItemIsTagged(ExampleItem, "p1", ExampleInfo);
    TagAllOfOne(ExampleItem, "p1", ExampleInfo);
    assert PageCountValue(ExamplePage.data) == Num(1);
    assert Proceeds(ExampleCatalog, "p1", ExamplePage);
    NoPagesBeyondFirstWithoutPageCount(ExamplePage.data.fields, 5);
    NoMorePagesGivesFirstPageOnly(ExampleCatalog, "p1", 5, ExamplePage, fetchPage);
  }

  lemma TagAllOfOne(item: JsValue, apiId: string, info: ApiInfo)
    requires TagItem(item, apiId, info).Some?
    ensures TagAll([item], apiId, info) == Some([TagItem(item, apiId, info).value])
  {
    var r := TagAll([item], apiId, info);
    var x := TagItem(item, apiId, info).value;
    assert r.Some? && |r.value| == 1 && Some(r.value[0]) == Some(x);
    assert r.value == [x];
  }

  lemma ExampleItemTitle()
    ensures TagItem(ExampleItem, "p1", ExampleInfo).Some?
    ensures TagItem(ExampleItem, "p1", ExampleInfo).value["norm_title"] == Str("流浪地球2")
  {
    var raw := Enrich(ExampleItem, "p1", ExampleInfo);
    ExampleNamePresent();
    ExampleEnrichedNames();
    ExampleItemPrintable();
    assert TagItem(ExampleItem, "p1", ExampleInfo) == NormalizeVodItem(raw);
    TitleFromVodName(raw, "流浪地球2");
  }

  lemma ExampleNamePresent()
    ensures Present(Str("流浪地球2"))
  {
    assert !AllSpace("流浪地球2") by {
      assert !IsJsSpace("流浪地球2"[0]);
    }
    StringPresentIffNotAllSpace("流浪地球2");
  }

  lemma ExampleEnrichedNames()
    ensures var raw := Enrich(ExampleItem, "p1", ExampleInfo);
      Get(raw, "name") == Undefined && Get(raw, "vod_name") == Str("流浪地球2")
  {
    var raw := Enrich(ExampleItem, "p1", ExampleInfo);
    assert "name" !in raw.Keys;
  }

  lemma ExampleItemPrintable()
    ensures TagItem(ExampleItem, "p1", ExampleInfo).Some?
  {
    assert forall k :: k in OwnProperties(ExampleItem) ==> OwnProperties(ExampleItem)[k] == Str("流浪地球2");
    TagItemThrowsOnlyOnUnprintable(ExampleItem, "p1", ExampleInfo);
  }
}
