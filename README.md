# Search shaping and the recommendation panel, modelled in Dafny

This project models two browser modules of a video-search front end.

**Search (js/search.js).**
- `pick` and `normalizeVodItem` map a raw catalog item onto eight canonical
  `norm_*` fields, each taken from a fixed alias list in priority order.
- `escapeHTML` writes the five predefined character references.
- The badge builders show nothing for a falsy value.
- `searchByAPIAndKeyWord` searches one source:
  - it resolves the source id against the builtin table or the custom-source registry;
  - it reads page 1;
  - it requests pages 2 to `min(pagecount, maxPages)`;
  - it tags and normalizes every item;
  - it merges the pages in page order, dropping failed pages.

**Recommendation panel (js/douban.js).**
- The panel's state is the module-level bindings: the movie and TV tag lists,
  the category switch, the selected tag and the page offset.
- The handlers that change that state are modelled: adding, deleting and
  resetting tags, switching category, clicking a tag, refreshing, and loading
  the saved lists.
- So are `fetchDoubanData`'s primary-then-fallback decision and
  `renderDoubanCards`' empty, failure and default-field rules.

Network, storage and `JSON.parse` results are parameters, not performed calls:
- a page fetch is a `PageOutcome`;
- the two recommendation requests are a `PrimaryOutcome` and a `FallbackOutcome`;
- a saved tag list is an `Option<string>`;
- parsing is a function `string -> Option<...>`, where `None` means the parse throws.

Each handler that calls `renderRecommend` returns the request it makes.

Modules:
- `Wrappers`: Option and Result.
- `JsValues`: JSON values, truthiness, `||`, `String(v)` and when it throws, `trim`, and `pick`'s "present" test.
- `HtmlEscape`: `escapeHTML`. js/search.js and js/douban.js define it identically, so it is defined once.
- `VodNormalize`: `pick`, `normalizeVodItem` and the badge rule.
- `PageMerge`: the generic request loop over pages 2 and on, and the merge of per-page result lists.
- `VodSearch`: `searchByAPIAndKeyWord`, as a specification function `SearchResult` and a method proved equal to it.
- `VodSearchFacts`: properties of the search.
- `DoubanFetch`: the fetch fallback and card rendering.
- `DoubanPanel`: the `Panel` class, its specification functions and lemmas.

## Model

| member | source | states |
|---|---|---|
| Wrappers.MapAll | js/search.js:270-278 | `xs.map(f)` with an `f` that may throw: it throws exactly when `f` throws on some element, and otherwise gives `f`'s result for element i at position i |
| JsValues.Prop | js/douban.js:344 | `v.key` on a parsed JSON value is the object's own field, and `undefined` for a missing key or a value that is not an object |
| JsValues.NatToDecimal | js/search.js:282 | `String(n)` of a natural number is a run of decimal digits whose value is `n` |
| JsValues.StringThrows | js/search.js:21 | only an object or an array, both truthy, can make `String` throw |
| JsValues.ToString | js/search.js:21 | `String(s)` of a string is `s`, of an object is "[object Object]", and `String(n)` of a number converts back to `n` |
| JsValues.TrimStart | js/search.js:21 | the result is a suffix of the input, the part removed is all whitespace, and the result is empty or starts with a non-whitespace character |
| JsValues.TrimEnd | js/search.js:21 | the result is a prefix of the input, the part removed is all whitespace, and the result is empty or ends with a non-whitespace character |
| JsValues.TrimStartEmptyIffAllSpace | js/search.js:21 | stripping leading whitespace leaves "" exactly when every character is whitespace |
| JsValues.Trim | js/search.js:21 | `s.trim()` is a contiguous piece of `s` that is empty or starts and ends with a non-whitespace character, and it is "" exactly when `s` is all whitespace or line terminators |
| JsValues.StringToNumber | js/search.js:282 | numeric conversion of blank text is 0 |
| JsValues.NonDigitIsNaN | js/search.js:282 | trimmed text holding a character other than a digit, unless it is a leading sign, converts to NaN |
| JsValues.DecimalRoundTrip | js/search.js:282 | `Number(String(n)) === n` for every integer `n` |
| JsValues.ToNumber | js/search.js:282 | a number converts to itself, `undefined` and objects to NaN, `null` and `[]` to 0, and a one-element array of a number to that number |
| JsValues.StringPresentIffNotAllSpace | js/search.js:21 | `pick` accepts a string candidate exactly when it is not all whitespace |
| JsValues.NonStringScalarsArePresent | js/search.js:21 | `pick` accepts every number (0 included) and boolean (false included); an object is accepted unless it has an own `toString` key, and then `String` throws |
| HtmlEscape.ReplaceAll | js/search.js:11-15 | `s.replace(/c/g, rep)` keeps no `c` of the input: every output character is an input character other than `c` or a character of `rep` |
| HtmlEscape.EscapeHtml | js/search.js:10-17 | the output of the five chained replacements holds no `<`, `>`, `"` or `'` |
| HtmlEscape.ReplaceAllAbsent | js/search.js:11-15 | a global replace of a character that does not occur leaves the text unchanged |
| HtmlEscape.EscapeHtmlAppend | js/search.js:10-17 | escaping distributes over concatenation |
| HtmlEscape.EscapeHtmlIsCharwise | js/search.js:10-17 | the five chained replacements equal replacing each character by its own reference; the `&` pass runs first, so no reference is escaped twice |
| HtmlEscape.EscapedAmpersandsStartReferences | js/search.js:10-17 | every `&` in the output starts one of `&amp; &lt; &gt; &quot; &#039;` |
| HtmlEscape.EscapeHtmlRoundTrip | js/search.js:10-17 | decoding the five references restores the input, so escaping loses nothing |
| HtmlEscape.EscapeHtmlFixesPlainText | js/douban.js:23-30 | text without the five special characters is unchanged |
| HtmlEscape.EscapeValue | js/douban.js:23-30 | `escapeHTML(v)` throws exactly when `String(v)` does |
| VodNormalize.Test | js/search.js:19-24 | each candidate is exactly one of: accepted (present), passed over, or one on which `String` throws |
| VodNormalize.FirstAccepted | js/search.js:19-24 | the scan yields the fallback or an accepted candidate, and aborts only if some candidate throws |
| VodNormalize.FirstAcceptedAt | js/search.js:19-24 | the first candidate not passed over decides: if accepted it is returned, if it throws the scan aborts |
| VodNormalize.Pick | js/search.js:19-24 | the result is "" or a candidate passing the not-null, non-blank test; `pick` throws only if some candidate makes `String` throw |
| VodNormalize.PickReturnsFirstPresent | js/search.js:19-24 | the first candidate passing the test is returned, whatever follows it, when every earlier one was passed over without throwing |
| VodNormalize.PickThrowsAt | js/search.js:19-24 | `pick` throws at the first candidate on which `String` throws, when every earlier one was passed over |
| VodNormalize.PickOfNothingPresent | js/search.js:19-24 | when every candidate is passed over without throwing the result is "" |
| VodNormalize.NormalizeVodItem | js/search.js:29-49 | throws exactly when one of the eight `pick` calls throws; otherwise the result has every key of `raw` but `__proto__` (which `Object.assign` turns into a prototype change) plus the eight `norm_*` keys, every other field of `raw` keeps its value, and each `norm_*` field is its `pick(...) || default` |
| VodNormalize.NormalizeThrowsOnlyOnUnprintable | js/search.js:19-49 | normalization does not throw when no field value makes `String` throw |
| VodNormalize.UnprintableNameThrows | js/search.js:19-31 | a `name` that is an object with an own `toString` key makes normalization throw |
| VodNormalize.NormalizeTakesFirstAlias | js/search.js:30-47 | a canonical field is the first alias passing `pick`'s test, in the fixed priority order, when that value is truthy and every earlier alias was passed over without throwing |
| VodNormalize.NormalizeFalsyFirstAliasGivesDefault | js/search.js:30-47 | when the first alias passing the test is falsy (0 or false), the field is the default |
| VodNormalize.NormalizeDefaultWhenNoAlias | js/search.js:30-47 | when every alias is passed over without throwing, the field is "未知标题" for the title and "" otherwise |
| VodNormalize.NormFieldFromPick | js/search.js:30-47 | a canonical field is the value `pick` returned for its aliases, or its default when that value is falsy |
| VodNormalize.ProtoKeyIsDropped | js/search.js:39-48 | `{"__proto__": p, "vod_name": n}` with convertible values normalizes to an object without an own `__proto__` key that keeps `vod_name` = n |
| VodNormalize.NormTitleNeverBlank | js/search.js:30-40 | when normalization does not throw, `norm_title` is truthy and passes `pick`'s test |
| VodNormalize.ZeroNameGivesPlaceholder | js/search.js:30-40 | `{name: 0, vod_name: "X"}` gets the placeholder title: `pick` stops at 0 and `|| "未知标题"` replaces it |
| VodNormalize.ZeroNameHidesLaterAliases | js/search.js:30-40 | a `name` of 0 gives the placeholder title whatever the later aliases hold |
| VodNormalize.BuildBadge | js/search.js:101-112 | no badge exactly when the value is falsy; the builder throws exactly when `String(value)` does; the badge text decodes to `String(value)` and holds no `<` or `>` |
| PageMerge.ProductivePages | js/search.js:330-334 | the pages kept are requested pages with non-empty results, in increasing order when the requests were |
| PageMerge.FlattenPageLists | js/search.js:329-334 | merging gives page 1's results followed by each requested page's, in request order |
| PageMerge.ConcatSkipsUnproductivePages | js/search.js:330-334 | skipping the pages with no results does not change the merged sequence |
| PageMerge.MergePages | js/search.js:329-334 | the `forEach`/`push` loop produces page 1's results followed by every page's, in order |
| VodSearch.ResolveSource | js/search.js:227-241 | a `custom_` id resolves through the registry by its index, any other id through the builtin table; nothing resolves exactly when the lookup misses |
| VodSearch.ListOf | js/search.js:265-267 | a list exists exactly when `data` is an object whose `list` is an array |
| VodSearch.PageItems | js/search.js:308-319 | a failed, non-OK or list-less additional page contributes no items |
| VodSearch.FirstPageItems | js/search.js:259-267 | page 1 is usable only as an OK body whose `list` is a non-empty array |
| VodSearch.Enrich | js/search.js:271-276 | the item carries `source_name` = the source's name, `source_code` = the id, and `api_url` = the custom source's url (undefined for a builtin id); every other own property is copied unchanged |
| VodSearch.TagItemIsTagged | js/search.js:270-278 | a tagged item that did not throw keeps both tags through normalization and has all eight canonical keys |
| VodSearch.TagItem | js/search.js:270-278 | a tagged item's keys are the raw item's own properties but `__proto__`, the three tags and the eight canonical keys |
| VodSearch.TagItemKeepsOwnFields | js/search.js:270-278 | a tagged item keeps `api_url` and every own property of the raw item that is neither a tag, a canonical key nor `__proto__` |
| VodSearch.TagItemThrowsOnlyOnUnprintable | js/search.js:270-278 | tagging does not throw when no own property of the item makes `String` throw |
| VodSearch.TagAll | js/search.js:270-278 | mapping a page throws exactly when tagging one of its items throws; otherwise item i maps to tagged item i |
| VodSearch.TagAllIsTagged | js/search.js:270-278 | every item of a mapped page that did not throw is tagged that way |
| VodSearch.TagAllKeepsOwnFields | js/search.js:270-278 | every item of a mapped page keeps its raw item's own fields (but `__proto__`) and `api_url` |
| VodSearch.PageCountThrows | js/search.js:281-282 | `pageCount - 1` can throw only on a truthy `pagecount` of the body's own, never on the default 1 |
| VodSearch.PagesToFetch | js/search.js:282 | `Math.min(pageCount - 1, maxPages - 1)`: NaN exactly when the page count is NaN, otherwise at most each argument and equal to one of them |
| VodSearch.RequestedPages | js/search.js:282-287 | the requested pages are 2, 3, ... in order, none above maxPages, none for a NaN count, and `pagesToFetch` of them when that is positive |
| VodSearch.TaggedPage | js/search.js:292-324 | an additional page contributes items only from an OK body, and then all of its list's items or none |
| VodSearch.Proceeds | js/search.js:265-282 | the search gets past page 1 only with an OK body whose `list` is a non-empty array |
| VodSearch.SearchRequests | js/search.js:265-287 | no page is requested unless the search gets past page 1; the requested pages are 2, 3, ... in order, none above maxPages |
| VodSearch.SearchResult | js/search.js:222-342 | an unresolved source or an unusable page 1 gives `[]` |
| PageMerge.PagesAfterFirst | js/search.js:284-287 | the loop walks pages 2 .. p + 1, one each, and none when p ≤ 0 |
| PageMerge.RequestPages | js/search.js:287-327 | the loop requests exactly `PagesAfterFirst(pagesToFetch)`, and entry j is the request for the j-th of those pages |
| VodSearch.RequestAdditionalPages | js/search.js:284-327 | the loop requests pages 2 .. pagesToFetch + 1 in order, and each page's entry is that page's tagged items, or `[]` when the request failed or tagging threw |
| VodSearch.SearchByApiAndKeyword | js/search.js:222-342 | the method returns `SearchResult` and requests exactly `SearchRequests` |
| VodSearchFacts.RequestedPagesAreTwoThroughLimit | js/search.js:281-287 | with page count n the requested pages are exactly 2 .. min(n, maxPages), none above maxPages or n, and none when that minimum is below 2 |
| VodSearchFacts.NoPagesBeyondFirstWithoutPageCount | js/search.js:281-284 | an absent, null, 0 or 1 page count requests no further page |
| VodSearchFacts.NoPagesForObjectPageCount | js/search.js:281-284 | an object page count converts to NaN, which requests no further page |
| VodSearchFacts.TenPagesFiveAllowed | js/search.js:281-287 | page count 10 with at most 5 pages requests pages 2, 3, 4, 5 |
| VodSearchFacts.UnknownSourceGivesNothing | js/search.js:227-241 | an unknown builtin id, or a `custom_` id whose index does not resolve, gives `[]` and no request |
| VodSearchFacts.UnusableFirstPageGivesNothing | js/search.js:259-267 | a failed or non-OK page 1, or one without a non-empty list, gives `[]` and no further request |
| VodSearchFacts.UnprintableFirstPageItemGivesNothing | js/search.js:270-341 | a page-1 item whose normalization throws makes the search give `[]` and request nothing more |
| VodSearchFacts.UnprintablePageCountGivesNothing | js/search.js:281-341 | a page count on which `pageCount - 1` throws makes the search give `[]` and request nothing more |
| VodSearchFacts.UnprintableNameExample | js/search.js:270-341 | `{list: [{name: {toString: 1}}]}` gives `[]` |
| VodSearchFacts.SearchPages | js/search.js:329-334 | the result is the concatenation of page 1's list and the requested pages' lists |
| VodSearchFacts.SearchItemsAreTagged | js/search.js:270-319 | every result item has `source_code` = apiId, `source_name` = the source's name and all canonical keys |
| VodSearchFacts.SearchResultStartsWithFirstPage | js/search.js:270-278 | the result opens with page 1's items, tagged, in page 1's order |
| VodSearchFacts.SearchResultKeepsFirstPageFields | js/search.js:270-278 | result item i carries page-1 item i's own fields (other than tags, canonical keys and `__proto__`) unchanged, and `api_url` |
| VodSearchFacts.SearchResultPageSlots | js/search.js:284-334 | the j-th requested page's tagged items fill the (j+1)-th slot of the result; a failed page or one whose tagging threw has an empty slot |
| VodSearchFacts.FailedPagesContributeNothing | js/search.js:308-334 | the result is page 1's items followed by only the productive pages', in ascending page order; each productive page had an OK body with a list whose tagging did not throw |
| VodSearchFacts.NoMorePagesGivesFirstPageOnly | js/search.js:281-337 | when no further page is requested the result is page 1's tagged items |
| VodSearchFacts.TitleFromVodName | js/search.js:30 | with no `name`, a non-blank `vod_name` becomes the title |
| VodSearchFacts.SinglePageExample | js/search.js:222-342 | `{list: [{vod_name: "流浪地球2"}], pagecount: 1}` gives one item titled "流浪地球2" and tagged with its source |
| VodSearchFacts.ExampleItemTitle | js/search.js:270-278 | that item's normalized title is "流浪地球2" |
| DoubanFetch.FetchDoubanData | js/douban.js:313-351 | the primary body wins; otherwise a fallback envelope with truthy `contents` that converts to a string and parses yields the parsed value; a non-OK fallback, missing `contents` or unconvertible `contents` is an error |
| DoubanFetch.FallbackUsable | js/douban.js:343-344 | the fallback yields data only from an OK envelope that is an object with a `contents` field |
| DoubanFetch.PrimarySuccessIgnoresFallback | js/douban.js:326-335 | after a primary success the fallback's outcome does not matter |
| DoubanFetch.SubjectThrows | js/douban.js:405-410 | only `null`, `undefined` or an object subject can make building its card throw; a string or number subject reads every field as `undefined` |
| DoubanFetch.SubjectCard | js/douban.js:405-410 | building a card throws exactly when the subject is null or undefined or its title, rate, cover or url cannot be converted to a string |
| DoubanFetch.SubjectCards | js/douban.js:405-452 | one card per subject, in order, exactly when no subject's card throws |
| DoubanFetch.RenderDoubanCards | js/douban.js:396-455 | the empty notice shows exactly for falsy or zero-length `subjects`; cards map the subjects one to one; rendering throws exactly when `data` is null or undefined, or `subjects` is non-empty and is not an array or holds a subject whose card throws |
| DoubanFetch.Recommend | js/douban.js:371-393 | the failure notice shows exactly when fetching or rendering throws; otherwise the rendered view shows |
| DoubanFetch.BothRequestsFailingShowsFailure | js/douban.js:339-349 | primary failure with an unusable fallback shows the failure notice |
| DoubanFetch.EmptySubjectsShowEmptyNotice | js/douban.js:399-403 | `{subjects: []}` shows "no data", not the failure notice |
| DoubanFetch.RelayedDataRendersLikeDirect | js/douban.js:343-344 | data unwrapped from the relay envelope renders as the same data served directly |
| DoubanFetch.EscapedWithDefault | js/douban.js:406-407 | `escapeHTML(v || d)` throws exactly when `String(v)` does; otherwise it decodes to `String(v || d)`, is `d` when `v` is falsy, and holds no markup characters |
| DoubanFetch.SubjectCardFields | js/douban.js:406-407 | a built card's title and rate are the escaped `item.title || "未知标题"` and `item.rate || "暂无"` |
| DoubanFetch.CardTitleIsEscapedTitleOrPlaceholder | js/douban.js:406 | a built card's title decodes to the subject's title, or is "未知标题" when that is falsy, and holds no markup characters |
| DoubanFetch.CardRateIsEscapedRateOrPlaceholder | js/douban.js:407 | a built card's rate decodes to the subject's rate, or is "暂无" when that is falsy, and holds no markup characters |
| DoubanFetch.ThrowingSubjectShowsFailure | js/douban.js:405-410 | one subject whose card throws (null, or a field that cannot be converted to a string) makes rendering throw, so the failure notice shows |
| DoubanFetch.UnprintableTitleShowsFailure | js/douban.js:406 | `{subjects: [{title: {toString: 1}}]}` shows the failure notice |
| DoubanPanel.NextPageStart | js/douban.js:303-307 | refresh moves one page on or back to 0, and keeps the offset in {0, 16, ..., 144} |
| DoubanPanel.RefreshVisitsPagesInOrder | js/douban.js:303-307 | from 0, the k-th refresh (k ≤ 9) shows offset 16·k |
| DoubanPanel.RefreshCyclesInTenPresses | js/douban.js:303-307 | ten refreshes return to the starting offset |
| DoubanPanel.RemoveFirst | js/douban.js:570-572 | an absent tag leaves the list unchanged; a present one shortens it by one |
| DoubanPanel.RemoveFirstMultiset | js/douban.js:570-572 | exactly one occurrence of the tag leaves the list, and nothing else |
| DoubanPanel.RemoveFirstAt | js/douban.js:570-572 | `splice` at the first index is removing the first occurrence |
| DoubanPanel.RemoveFirstKeepsOthers | js/douban.js:566-572 | deleting a tag keeps every other tag, "热门" included |
| DoubanPanel.IndexOf | js/douban.js:570 | -1 exactly when the tag is absent, otherwise the index of its first occurrence |
| DoubanPanel.LoadedTags | js/douban.js:66-77 | each loaded list is its default or exactly what its saved entry parses to |
| DoubanPanel.CorruptEntryResetsBothLists | js/douban.js:66-77 | one saved entry that fails to parse resets both lists to their defaults |
| DoubanPanel.ReadableEntriesAreKept | js/douban.js:66-77 | without parse failures, a non-empty entry gives its parsed list and a missing or empty one the defaults |
| DoubanPanel.HasTagIgnoringCase | js/douban.js:556 | the duplicate check catches at least every exact duplicate |
| DoubanPanel.Panel.constructor | js/douban.js:13-20 | empty lists, movies, "热门", offset 0 |
| DoubanPanel.Panel.LoadUserTags | js/douban.js:66-77 | both lists become `LoadedTags`; nothing else changes |
| DoubanPanel.Panel.AddTag | js/douban.js:551-563 | the escaped tag is appended to the active list exactly when no tag there equals it ignoring case; the other list and the selection are unchanged |
| DoubanPanel.Panel.DeleteTag | js/douban.js:565-582 | "热门" is refused; otherwise the first occurrence leaves the active list only; deleting the selected tag selects "热门" at offset 0 and requests it; otherwise selection and offset are unchanged |
| DoubanPanel.Panel.ResetTagsToDefault | js/douban.js:584-593 | only the active list returns to its defaults; "热门" is selected at offset 0 and requested |
| DoubanPanel.Panel.SelectCategory | js/douban.js:222-256 | the active category is a no-op; switching sets the category and "热门" but keeps the offset, and requests only when the setting is "true" |
| DoubanPanel.Panel.ClickTag | js/douban.js:285-292 | a different tag becomes selected at offset 0 and is requested; the selected tag changes nothing |
| DoubanPanel.Panel.Refresh | js/douban.js:303-309 | the offset becomes `NextPageStart` of the old one and is requested; the class invariant keeps it in {0, 16, ..., 144} |

## Left out

- URLs are not modelled: the proxy prefix, `encodeURIComponent`, the page-path template, request headers and `ProxyAuth` only build the request, and fetch outcomes are inputs.
- Timeouts, `AbortController` and the concurrency of `Promise.all` are not modelled. Pages are indexed by page number, and the merge order is the page order.
- Numbers are integers. Fractional and infinite page counts are not modelled. Of strings, only optionally signed decimal integers convert to numbers; any other string is NaN. Hex and exponent forms are not parsed.
- `toLowerCase` folds ASCII letters only; Unicode case mapping is not modelled.
- Object key order is not modelled (objects are maps), and neither are inherited properties such as the prototype keys of `API_SITES`.
- VodNormalize.NormalizeVodItem: an own `__proto__` key of the item (which `JSON.parse` creates and the spread keeps) is dropped, as `Object.assign` does; the prototype that assignment installs, and the properties the item then inherits through it, are not modelled. VodSearch.TagItemKeepsOwnFields, VodSearch.TagAllKeepsOwnFields and VodSearchFacts.SearchResultKeepsFirstPageFields accordingly promise nothing about `__proto__`.
- VodSearch.OwnProperties, DoubanFetch.SubjectThrows: strings are sequences of Unicode scalar values, not of UTF-16 code units. A character outside the Basic Multilingual Plane is one index here, so spreading `"😀"` gives one indexed property where JavaScript gives two. A lone surrogate is not a string value here, so the URIError that `encodeURIComponent(item.cover)` throws on one (js/douban.js:409) is not among the causes of `SubjectThrows`.
- The custom-source registry is a map, so it answers the same index the same way both times `searchByAPIAndKeyWord` reads it.
- Nothing that draws or stores is modelled: DOM, card markup, skeletons, lazy image loading, toasts, `saveUserTags`, history updates and the tag-manager modal. The handlers' calls to them are dropped.
- A saved tag list that parses to something other than an array of strings is not modelled, nor is a `localStorage.getItem` that throws. `JSON.parse` is the `parse` parameter.
- The multi-source `search()` that calls `searchByAPIAndKeyWord` for several sources is not part of this model.
- `String` is modelled as throwing for one cause only: an object with an own `toString` key, or an array holding one. JSON can carry such a key but no function, so the key is never callable. Numeric conversion (`pageCount - 1`) throws on the same values. Getters and proxies cannot come from JSON.
- `normalizeVodItem` called with `null` throws in the source; the model only takes objects, which is all `searchByAPIAndKeyWord` passes it.
- `fillAndSearchWithDouban` and the click handlers it installs on cards are not part of this model.
- `renderDoubanCards`' category label reads the switch at render time. The model takes that category as a parameter, so a switch made while a request is in flight is not modelled.
