/**
 * `searchByAPIAndKeyWord(apiId, query)` of search.js: resolve the source,
 * read page 1, decide how many further pages to request from the reported
 * `pagecount`, request them, and concatenate every page's items in page
 * order, each item tagged with its source and normalized.
 *
 * The network is abstracted: page 1's outcome is an input, and the outcome of
 * page k is `fetchPage(k)`. Whatever order the requests settle in,
 * `Promise.all` hands the results back in request order, which is the order
 * the model uses.
 */
module VodSearch {
  import opened Wrappers
  import opened JsValues
  import opened VodNormalize
  import opened PageMerge

  /** A source as the catalog gives it: `API_SITES[id]` (`api`, `name`) or `getCustomApiInfo(index)` (`url`, `name`). */
  datatype ApiInfo = ApiInfo(url: string, name: string)

  /** The builtin table `API_SITES` and the custom-source registry behind `getCustomApiInfo`, keyed by index string. */
  datatype Catalog = Catalog(builtin: map<string, ApiInfo>, custom: map<string, ApiInfo>)

  const CustomPrefix: string := "custom_"

  predicate IsCustomId(apiId: string) {
    CustomPrefix <= apiId
  }

  /**
   * Source resolution: an id starting with `custom_` is looked up in the
   * custom registry under the rest of the id (`apiId.replace('custom_', '')`
   * removes exactly that prefix); any other id in the builtin table.
   */
  function ResolveSource(cat: Catalog, apiId: string): (r: Option<ApiInfo>)
    ensures r.Some? && IsCustomId(apiId) ==> apiId[|CustomPrefix|..] in cat.custom && r.value == cat.custom[apiId[|CustomPrefix|..]]
    ensures r.Some? && !IsCustomId(apiId) ==> apiId in cat.builtin && r.value == cat.builtin[apiId]
    ensures r.None? <==> (if IsCustomId(apiId) then apiId[|CustomPrefix|..] !in cat.custom else apiId !in cat.builtin)
  {
    if IsCustomId(apiId) then
      var index := apiId[|CustomPrefix|..];
      if index in cat.custom then Some(cat.custom[index]) else None
    else
      if apiId in cat.builtin then Some(cat.builtin[apiId]) else None
  }

  /** How one page request ended. */
  datatype PageOutcome =
    | Failed             // the fetch threw (timeout abort, network error) or the body was not JSON
    | NotOk(status: int) // `response.ok` was false
    | Body(data: JsValue)

  /** `data.list` when `data` is an object whose `list` is an array; `None` where the source's guard returns `[]`. */
  function ListOf(data: JsValue): (r: Option<seq<JsValue>>)
    ensures r.Some? <==> data.Obj? && "list" in data.fields && data.fields["list"].Arr?
  {
    var list := Prop(data, "list");
    if list.Arr? then Some(list.items) else None
  }

  /** The items an additional page contributes: its list, or nothing when the request or the guard fails. */
  function PageItems(o: PageOutcome): (r: seq<JsValue>)
    ensures !o.Body? ==> r == []
    ensures o.Body? && ListOf(o.data).None? ==> r == []
  {
    match o
    case Body(data) => ListOf(data).GetOr([])
    case _ => []
  }

  /** Page 1 is usable only with an OK body whose `list` is a non-empty array. */
  function FirstPageItems(o: PageOutcome): (r: Option<seq<JsValue>>)
    ensures r.Some? ==> o.Body? && ListOf(o.data) == r && |r.value| > 0
    ensures r.None? ==> !o.Body? || ListOf(o.data).None? || ListOf(o.data) == Some([])
  {
    match o
    case Body(data) =>
      (match ListOf(data)
       case Some(items) => if |items| > 0 then Some(items) else None
       case None => None)
    case _ => None
  }

  /** `data.pagecount || 1`. */
  function PageCountValue(data: JsValue): JsValue {
    Or(Prop(data, "pagecount"), Num(1))
  }

  /**
   * `pageCount - 1` throws when the page count cannot be converted to a
   * primitive (see `StringThrows`); the default `1` never does, so only a
   * truthy `pagecount` of the body's own can.
   */
  predicate PageCountThrows(data: JsValue)
    ensures PageCountThrows(data) ==> data.Obj? && "pagecount" in data.fields && Truthy(data.fields["pagecount"])
  {
    StringThrows(PageCountValue(data))
  }

  /** `data.pagecount || 1`, as a number (meaningful only where `PageCountThrows` does not hold). */
  function PageCount(data: JsValue): Option<int> {
    ToNumber(PageCountValue(data))
  }

  /** `Math.min(pageCount - 1, maxPages - 1)`; NaN stays NaN. */
  function PagesToFetch(data: JsValue, maxPages: int): (r: Option<int>)
    ensures r.Some? <==> PageCount(data).Some?
    ensures r.Some? ==> r.value <= PageCount(data).value - 1 && r.value <= maxPages - 1
    ensures r.Some? ==> r.value == PageCount(data).value - 1 || r.value == maxPages - 1
  {
    match PageCount(data)
    case Some(n) => Some(if n - 1 <= maxPages - 1 then n - 1 else maxPages - 1)
    case None => None
  }

  /** The pages the loop `for (page = 2; page <= pagesToFetch + 1; page++)` requests; none unless `pagesToFetch > 0`. */
  function RequestedPages(data: JsValue, maxPages: int): (r: seq<int>)
    ensures PagesToFetch(data, maxPages).None? ==> r == []
    ensures forall j :: 0 <= j < |r| ==> r[j] == j + 2 && r[j] <= maxPages
    ensures PagesToFetch(data, maxPages).Some? ==> |r| == if PagesToFetch(data, maxPages).value > 0 then PagesToFetch(data, maxPages).value else 0
  {
    PagesAfterFirst(PagesToFetch(data, maxPages).GetOr(0))
  }

  /** The tags `searchByAPIAndKeyWord` adds to every item. */
  const EnrichKeys: set<string> := {"source_name", "source_code", "api_url"}

  /** `api_url`: the custom source's `url` for a custom id, `undefined` for a builtin one. */
  function ApiUrl(apiId: string, info: ApiInfo): JsValue {
    if IsCustomId(apiId) then Str(info.url) else Undefined
  }

  /** `{...item, source_name, source_code, api_url}`: the item's own properties with the three tags set. */
  function Enrich(item: JsValue, apiId: string, info: ApiInfo): (e: map<string, JsValue>)
    ensures e.Keys == OwnProperties(item).Keys + EnrichKeys
    ensures "source_name" in e && e["source_name"] == Str(info.name)
    ensures "source_code" in e && e["source_code"] == Str(apiId)
    ensures "api_url" in e && e["api_url"] == (if IsCustomId(apiId) then Str(info.url) else Undefined)
    ensures forall k :: k in OwnProperties(item) && k !in EnrichKeys ==> e[k] == OwnProperties(item)[k]
  {
    OwnProperties(item)
      ["source_name" := Str(info.name)]
      ["source_code" := Str(apiId)]
      ["api_url" := ApiUrl(apiId, info)]
  }

  /** The properties object spread copies: an object's own fields, a string's or array's indexed elements, nothing else. */
  function OwnProperties(v: JsValue): map<string, JsValue> {
    match v
    case Obj(fields) => fields
    case Str(s) => Indexed(seq(|s|, i requires 0 <= i < |s| => Str([s[i]])))
    case Arr(items) => Indexed(items)
    case _ => map[]
  }

  function Indexed(xs: seq<JsValue>): (m: map<string, JsValue>)
    ensures forall k :: k in m ==> m[k] in xs
  {
    if xs == [] then map[] else Indexed(xs[..|xs| - 1])[NatToDecimal(|xs| - 1) := xs[|xs| - 1]]
  }

  /**
   * `normalizeVodItem({...item, source_name, source_code, api_url})`; `None`
   * when normalization throws (`NormThrows`).
   */
  function TagItem(item: JsValue, apiId: string, info: ApiInfo): (r: Option<map<string, JsValue>>)
    ensures r.Some? ==> r.value.Keys == (OwnProperties(item).Keys - {ProtoKey}) + EnrichKeys + NormKeys
  {
    var e := Enrich(item, apiId, info);
    assert ProtoKey !in EnrichKeys;
    assert e.Keys - {ProtoKey} == (OwnProperties(item).Keys - {ProtoKey}) + EnrichKeys;
    NormalizeVodItem(Enrich(item, apiId, info))
  }

  /** A tagged item keeps both tags through normalization and has all eight canonical keys. */
  predicate Tagged(x: map<string, JsValue>, apiId: string, info: ApiInfo) {
    "source_code" in x && x["source_code"] == Str(apiId) &&
    "source_name" in x && x["source_name"] == Str(info.name) &&
    NormKeys <= x.Keys
  }

  /** A tagged item carries `api_url` and every own property of the item that is neither a tag nor a canonical key. */
  predicate KeepsOwnFields(x: map<string, JsValue>, item: JsValue, apiId: string, info: ApiInfo) {
    "api_url" in x && x["api_url"] == ApiUrl(apiId, info) &&
    forall k :: k in OwnProperties(item) && k !in EnrichKeys && k !in NormKeys && k != ProtoKey ==> k in x && x[k] == OwnProperties(item)[k]
  }

  lemma TagItemIsTagged(item: JsValue, apiId: string, info: ApiInfo)
    ensures TagItem(item, apiId, info).Some? ==> Tagged(TagItem(item, apiId, info).value, apiId, info)
  {
    var e := Enrich(item, apiId, info);
    assert "source_code" !in NormKeys && "source_name" !in NormKeys;
    assert TagItem(item, apiId, info) == NormalizeVodItem(e);
  }

  lemma TagItemKeepsOwnFields(item: JsValue, apiId: string, info: ApiInfo)
    ensures TagItem(item, apiId, info).Some? ==> KeepsOwnFields(TagItem(item, apiId, info).value, item, apiId, info)
  {
    var e := Enrich(item, apiId, info);
    assert "api_url" !in NormKeys;
    assert TagItem(item, apiId, info) == NormalizeVodItem(e);
  }

  /** Tagging throws only on a property value that cannot be converted to a string. */
  lemma TagItemThrowsOnlyOnUnprintable(item: JsValue, apiId: string, info: ApiInfo)
    requires forall k :: k in OwnProperties(item) ==> !StringThrows(OwnProperties(item)[k])
    ensures TagItem(item, apiId, info).Some?
  {
    var e := Enrich(item, apiId, info);
    forall k | k in e ensures !StringThrows(e[k]) {
      if k !in EnrichKeys {
        assert e[k] == OwnProperties(item)[k];
      }
    }
    NormalizeThrowsOnlyOnUnprintable(e);
  }

  /** `list.map(item => normalizeVodItem({...item, ...}))`; `None` when any item's normalization throws. */
  function TagAll(items: seq<JsValue>, apiId: string, info: ApiInfo): (r: Option<seq<map<string, JsValue>>>)
    ensures r.None? <==> exists i :: 0 <= i < |items| && TagItem(items[i], apiId, info).None?
    ensures r.Some? ==> |r.value| == |items| && forall i :: 0 <= i < |items| ==> Some(r.value[i]) == TagItem(items[i], apiId, info)
  {
    MapAll(items, (item: JsValue) => TagItem(item, apiId, info))
  }

  lemma TagAllIsTagged(items: seq<JsValue>, apiId: string, info: ApiInfo)
    ensures TagAll(items, apiId, info).Some? ==> forall x :: x in TagAll(items, apiId, info).value ==> Tagged(x, apiId, info)
  {
    var r := TagAll(items, apiId, info);
    if r.Some? {
      forall x | x in r.value ensures Tagged(x, apiId, info) {
        var k :| 0 <= k < |r.value| && r.value[k] == x;
        TagItemIsTagged(items[k], apiId, info);
      }
    }
  }

  lemma TagAllKeepsOwnFields(items: seq<JsValue>, apiId: string, info: ApiInfo)
    ensures TagAll(items, apiId, info).Some? ==>
      forall i :: 0 <= i < |items| ==> KeepsOwnFields(TagAll(items, apiId, info).value[i], items[i], apiId, info)
  {
    var r := TagAll(items, apiId, info);
    if r.Some? {
      forall i | 0 <= i < |items| ensures KeepsOwnFields(r.value[i], items[i], apiId, info) {
        assert Some(r.value[i]) == TagItem(items[i], apiId, info);
        TagItemKeepsOwnFields(items[i], apiId, info);
      }
    }
  }

  /**
   * Page k's contribution: its items, tagged and normalized; `[]` when the
   * request failed, the guard refused the body, or tagging one of its items
   * threw (the page's own `catch`).
   */
  function TaggedPage(apiId: string, info: ApiInfo, fetchPage: int -> PageOutcome): (r: int -> seq<map<string, JsValue>>)
    ensures forall k :: r(k) != [] ==> fetchPage(k).Body? && |r(k)| == |PageItems(fetchPage(k))|
  {
    k => TagAll(PageItems(fetchPage(k)), apiId, info).GetOr([])
  }

  /**
   * The search gets past page 1: the source resolves, page 1 is usable,
   * tagging its items does not throw, and neither does `pageCount - 1`.
   * Otherwise the outer `catch` (or an early return) gives `[]`.
   */
  predicate Proceeds(cat: Catalog, apiId: string, page1: PageOutcome)
    ensures Proceeds(cat, apiId, page1) ==> page1.Body? && ListOf(page1.data).Some? && |ListOf(page1.data).value| > 0
  {
    ResolveSource(cat, apiId).Some? && FirstPageItems(page1).Some? &&
    TagAll(FirstPageItems(page1).value, apiId, ResolveSource(cat, apiId).value).Some? &&
    !PageCountThrows(page1.data)
  }

  /** The pages requested beyond page 1: none unless the search gets past page 1. */
  function SearchRequests(cat: Catalog, apiId: string, maxPages: int, page1: PageOutcome): (r: seq<int>)
    ensures !Proceeds(cat, apiId, page1) ==> r == []
    ensures forall j :: 0 <= j < |r| ==> r[j] == j + 2 && r[j] <= maxPages
  {
    if Proceeds(cat, apiId, page1) then RequestedPages(page1.data, maxPages) else []
  }

  /** What `searchByAPIAndKeyWord` resolves to: page 1's tagged items, then each requested page's, merged in request order. */
  function SearchResult(cat: Catalog, apiId: string, maxPages: int, page1: PageOutcome, fetchPage: int -> PageOutcome)
    : (r: seq<map<string, JsValue>>)
    ensures ResolveSource(cat, apiId).None? ==> r == []
    ensures FirstPageItems(page1).None? ==> r == []
  {
    if !Proceeds(cat, apiId, page1) then []
    else
      var info := ResolveSource(cat, apiId).value;
      var first := TagAll(FirstPageItems(page1).value, apiId, info).value;
      Flatten(PageLists(first, RequestedPages(page1.data, maxPages), TaggedPage(apiId, info, fetchPage)))
  }

  /**
   * The request loop `for (let page = 2; page <= pagesToFetch + 1; page++)`:
   * one request per page, each settling into that page's tagged items (`[]`
   * when it fails or throws), kept in request order as `Promise.all` returns them.
   */
  method RequestAdditionalPages(info: ApiInfo, apiId: string, pagesToFetch: int, fetchPage: int -> PageOutcome)
    returns (pages: seq<seq<map<string, JsValue>>>, requested: seq<int>)
    ensures requested == PagesAfterFirst(pagesToFetch)
    ensures |pages| == |requested|
    ensures forall j :: 0 <= j < |pages| ==> pages[j] == TagAll(PageItems(fetchPage(requested[j])), apiId, info).GetOr([])
  {
    var request := TaggedPage(apiId, info, fetchPage);
    pages, requested := RequestPages(pagesToFetch, request);
    forall j | 0 <= j < |pages| ensures pages[j] == TagAll(PageItems(fetchPage(requested[j])), apiId, info).GetOr([]) {
      assert pages[j] == request(requested[j]);
    }
  }

  /** The decision procedure of `searchByAPIAndKeyWord`, network outcomes given. */
  method SearchByApiAndKeyword(cat: Catalog, apiId: string, maxPages: int, page1: PageOutcome, fetchPage: int -> PageOutcome)
    returns (results: seq<map<string, JsValue>>, requested: seq<int>)
    ensures results == SearchResult(cat, apiId, maxPages, page1, fetchPage)
    ensures requested == SearchRequests(cat, apiId, maxPages, page1)
  {
    var source := ResolveSource(cat, apiId);
    if source.None? {
      return [], [];
    }
    var info := source.value;
    if !page1.Body? {
      return [], [];
    }
    var data := page1.data;
    var list := ListOf(data);
    if list.None? || |list.value| == 0 {
      return [], [];
    }
    assert FirstPageItems(page1) == Some(list.value);
    var first := TagAll(list.value, apiId, info);
    if first.None? {
      return [], [];  // a throw while tagging page 1, caught by the outer `catch`
    }
    if PageCountThrows(data) {
      return [], [];  // `pageCount - 1` threw, caught by the outer `catch`
    }
    results := first.value;
    var pagesToFetch := PagesToFetch(data, maxPages);
    var pages;
    pages, requested := RequestAdditionalPages(info, apiId, pagesToFetch.GetOr(0), fetchPage);
    ghost var f := TaggedPage(apiId, info, fetchPage);
    assert SearchResult(cat, apiId, maxPages, page1, fetchPage) == Flatten(PageLists(results, requested, f));
    forall j | 0 <= j < |requested| ensures pages[j] == f(requested[j]) {
    }
    PageListsOfResults(results, requested, f, pages);
    results := MergePages(results, pages);
  }
}
