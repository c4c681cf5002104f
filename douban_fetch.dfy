/**
 * The recommendation path of douban.js: `fetchDoubanData`'s choice between
 * the primary proxied response, the fallback relay's `{contents}` envelope
 * and an error; what `renderDoubanCards` makes of the data (an empty notice,
 * cards with defaulted fields, or a throw); and `renderRecommend`, which
 * shows the failure notice whenever either of them throws.
 */
module DoubanFetch {
  import opened Wrappers
  import opened JsValues
  import opened HtmlEscape
  import VodNormalize

  /** `doubanMovieTvCurrentSwitch`: 'movie' or 'tv'. */
  datatype Category = Movie | Tv

  /** How the primary request through the proxy ended. */
  datatype PrimaryOutcome =
    | PrimaryOk(body: JsValue) // an OK response whose body parsed as JSON
    | PrimaryFailed            // timeout, network error, non-OK status or unparsable body: all reach the `catch`

  /** How the fallback relay request ended. */
  datatype FallbackOutcome =
    | FallbackFailed             // the request or the parsing of its JSON body threw
    | FallbackNotOk(status: int) // `fallbackResponse.ok` was false
    | FallbackBody(data: JsValue)

  /** The error `fetchDoubanData` rethrows when the fallback fails too. */
  datatype FetchError =
    | FallbackTransportError
    | FallbackHttpError(status: int)
    | NoContents          // "无法获取有效数据": the envelope is falsy or its `contents` is
    | ContentsNotJson     // `JSON.parse(data.contents)` threw, converting `contents` to a string or parsing it

  /** The fallback yields data: an envelope whose truthy `contents` converts to a string that parses as JSON. */
  predicate FallbackUsable(fallback: FallbackOutcome, parse: string -> Option<JsValue>)
    ensures FallbackUsable(fallback, parse) ==> fallback.FallbackBody? && fallback.data.Obj? && "contents" in fallback.data.fields
  {
    fallback.FallbackBody? && Truthy(Prop(fallback.data, "contents")) && !StringThrows(Prop(fallback.data, "contents")) &&
    parse(ToString(Prop(fallback.data, "contents"))).Some?
  }

  /**
   * `fetchDoubanData(url)`. `parse` stands for `JSON.parse`, which converts
   * its argument to a string first.
   */
  function FetchDoubanData(primary: PrimaryOutcome, fallback: FallbackOutcome, parse: string -> Option<JsValue>)
    : (r: Result<JsValue, FetchError>)
    ensures primary.PrimaryOk? ==> r == Success(primary.body)
    ensures r.Success? <==> primary.PrimaryOk? || FallbackUsable(fallback, parse)
    ensures primary.PrimaryFailed? && r.Success? ==> parse(ToString(Prop(fallback.data, "contents"))) == Some(r.value)
    ensures r.Failure? && r.error.FallbackHttpError? ==> fallback == FallbackNotOk(r.error.status)
    ensures r == Failure(NoContents) <==>
      primary.PrimaryFailed? && fallback.FallbackBody? && !Truthy(Prop(fallback.data, "contents"))
    ensures primary.PrimaryFailed? && fallback.FallbackBody? && StringThrows(Prop(fallback.data, "contents")) ==>
      r == Failure(ContentsNotJson)
  {
    match primary
    case PrimaryOk(body) => Success(body)
    case PrimaryFailed =>
      match fallback
      case FallbackFailed => Failure(FallbackTransportError)
      case FallbackNotOk(status) => Failure(FallbackHttpError(status))
      case FallbackBody(data) =>
        var contents := Prop(data, "contents");
        if Truthy(contents) then
          if StringThrows(contents) then Failure(ContentsNotJson)
          else match parse(ToString(contents))
          case Some(v) => Success(v)
          case None => Failure(ContentsNotJson)
        else Failure(NoContents)
  }

  /** The fallback relay is consulted only once the primary request has failed. */
  lemma {:induction false} PrimarySuccessIgnoresFallback(body: JsValue, f1: FallbackOutcome, f2: FallbackOutcome, parse: string -> Option<JsValue>)
    ensures FetchDoubanData(PrimaryOk(body), f1, parse) == FetchDoubanData(PrimaryOk(body), f2, parse)
  {
  }

  const RatePlaceholder := "暂无"

  /** One recommendation card: its escaped title and rate, cover, link and category label. */
  datatype Card = Card(title: string, rate: string, badge: string, cover: Option<JsValue>, link: JsValue)

  /** What the results container ends up showing. */
  datatype View =
    | FailureNotice         // "获取豆瓣数据失败"
    | EmptyNotice           // "暂无数据"
    | Cards(cards: seq<Card>)

  /** `x.length === 0`: a string or array of length 0, or an object whose `length` is 0. */
  predicate LengthIsZero(v: JsValue) {
    match v
    case Str(s) => |s| == 0
    case Arr(items) => |items| == 0
    case Obj(fields) => Get(fields, "length") == Num(0)
    case _ => false
  }

  function CategoryLabel(c: Category): string {
    if c == Movie then "电影" else "电视剧"
  }

  /**
   * Building a subject's card throws: reading a field of `null` or
   * `undefined`, or converting to a string a title, rate, cover or url that
   * cannot be converted (`escapeHTML`, `encodeURIComponent` and the template
   * literal all convert).
   */
  predicate SubjectThrows(item: JsValue)
    ensures SubjectThrows(item) ==> item == Undefined || item == Null || item.Obj?
  {
    item == Undefined || item == Null ||
    StringThrows(Prop(item, "title")) || StringThrows(Prop(item, "rate")) ||
    StringThrows(Prop(item, "cover")) || StringThrows(Prop(item, "url"))
  }

  /** The card built for one subject, or None when building it throws. */
  function SubjectCard(item: JsValue, c: Category): (r: Option<Card>)
    ensures r.None? <==> SubjectThrows(item)
  {
    if item == Undefined || item == Null then None
    else
      var cover := Prop(item, "cover");
      match (EscapeValue(Or(Prop(item, "title"), Str(VodNormalize.TitlePlaceholder))),
             EscapeValue(Or(Prop(item, "rate"), Str(RatePlaceholder))))
      case (Some(title), Some(rate)) =>
        if StringThrows(cover) || StringThrows(Prop(item, "url")) then None
        else Some(Card(title, rate, CategoryLabel(c), if Truthy(cover) then Some(cover) else None, Prop(item, "url")))
      case _ => None
  }

  /** `subjects.forEach(...)`: one card per subject, in order, or None when building one of them throws. */
  function SubjectCards(items: seq<JsValue>, c: Category): (r: Option<seq<Card>>)
    ensures r.Some? <==> forall i :: 0 <= i < |items| ==> !SubjectThrows(items[i])
    ensures r.Some? ==> |r.value| == |items| && forall i :: 0 <= i < |items| ==> Some(r.value[i]) == SubjectCard(items[i], c)
  {
    MapAll(items, (item: JsValue) => SubjectCard(item, c))
  }

  /**
   * `renderDoubanCards(data)` with `c` the category switch at rendering time,
   * or None when it throws: `data` is null or undefined, `subjects` is truthy
   * but not an array (no `forEach`), or building one subject's card throws.
   */
  function RenderDoubanCards(data: JsValue, c: Category): (r: Option<View>)
    ensures r != Some(FailureNotice)
    ensures r == Some(EmptyNotice) <==>
      data != Undefined && data != Null && (!Truthy(Prop(data, "subjects")) || LengthIsZero(Prop(data, "subjects")))
    ensures r.Some? && r.value.Cards? ==>
      var subjects := Prop(data, "subjects");
      subjects.Arr? && 0 < |subjects.items| == |r.value.cards| &&
      forall i :: 0 <= i < |subjects.items| ==> Some(r.value.cards[i]) == SubjectCard(subjects.items[i], c)
    ensures r.None? <==>
      var subjects := Prop(data, "subjects");
      data == Undefined || data == Null ||
      (Truthy(subjects) && !LengthIsZero(subjects) &&
       (!subjects.Arr? || exists i :: 0 <= i < |subjects.items| && SubjectThrows(subjects.items[i])))
  {
    if data == Undefined || data == Null then None
    else
      var subjects := Prop(data, "subjects");
      if !Truthy(subjects) || LengthIsZero(subjects) then Some(EmptyNotice)
      else if !subjects.Arr? then None
      else
        match SubjectCards(subjects.items, c)
        case None => None
        case Some(cards) => Some(Cards(cards))
  }

  /**
   * `renderRecommend`'s outcome once the request has settled: the view
   * `renderDoubanCards` builds, or the failure notice when fetching or
   * rendering threw.
   */
  function Recommend(primary: PrimaryOutcome, fallback: FallbackOutcome, parse: string -> Option<JsValue>, c: Category): (v: View)
    ensures v == FailureNotice <==>
      FetchDoubanData(primary, fallback, parse).Failure? ||
      RenderDoubanCards(FetchDoubanData(primary, fallback, parse).value, c).None?
    ensures v != FailureNotice ==> Some(v) == RenderDoubanCards(FetchDoubanData(primary, fallback, parse).value, c)
  {
    match FetchDoubanData(primary, fallback, parse)
    case Failure(_) => FailureNotice
    case Success(data) => RenderDoubanCards(data, c).GetOr(FailureNotice)
  }

  /** Both requests failing shows the failure notice. */
  lemma {:induction false} BothRequestsFailingShowsFailure(fallback: FallbackOutcome, parse: string -> Option<JsValue>, c: Category)
    requires !FallbackUsable(fallback, parse)
    ensures Recommend(PrimaryFailed, fallback, parse, c) == FailureNotice
  {
  }

  /** `{subjects: []}` is "no data", not a failure, whichever request delivered it. */
  lemma EmptySubjectsShowEmptyNotice(c: Category)
    ensures Recommend(PrimaryOk(Obj(map["subjects" := Arr([])])), FallbackFailed, (t: string) => None, c) == EmptyNotice
  {
  }

  /** A relayed envelope is rendered exactly like the same data served directly. */
  lemma {:induction false} RelayedDataRendersLikeDirect(data: JsValue, envelope: JsValue, parse: string -> Option<JsValue>, c: Category)
    requires Truthy(Prop(envelope, "contents")) && !StringThrows(Prop(envelope, "contents")) && parse(ToString(Prop(envelope, "contents"))) == Some(data)
    ensures Recommend(PrimaryFailed, FallbackBody(envelope), parse, c) == Recommend(PrimaryOk(data), FallbackFailed, parse, c)
  {
  }

  /**
   * `escapeHTML(v || d)` for a default `d` without special characters: it
   * throws exactly when `v` cannot be converted to a string; otherwise it
   * decodes to the string form of `v || d`, is `d` itself when `v` is falsy,
   * and cannot open a tag or close an attribute.
   */
  lemma {:induction false} EscapedWithDefault(v: JsValue, d: string)
    requires forall i :: 0 <= i < |d| ==> !IsSpecial(d[i])
    ensures var t := EscapeValue(Or(v, Str(d)));
      (t.None? <==> StringThrows(v)) &&
      (t.Some? ==>
        Unescape(t.value) == ToString(Or(v, Str(d))) &&
        (!Truthy(v) ==> t.value == d) &&
        '<' !in t.value && '>' !in t.value && '"' !in t.value && '\'' !in t.value)
  {
    var w := Or(v, Str(d));
    assert w != Undefined;
    if !StringThrows(w) {
      EscapeHtmlRoundTrip(ToString(w));
      if !Truthy(v) {
        EscapeHtmlFixesPlainText(d);
      }
    }
  }

  lemma PlainPlaceholders()
    ensures forall i :: 0 <= i < |VodNormalize.TitlePlaceholder| ==> !IsSpecial(VodNormalize.TitlePlaceholder[i])
    ensures forall i :: 0 <= i < |RatePlaceholder| ==> !IsSpecial(RatePlaceholder[i])
  {
  }

  /** A built card's title and rate are the escaped `item.title || "未知标题"` and `item.rate || "暂无"`. */
  lemma SubjectCardFields(item: JsValue, c: Category)
    ensures SubjectCard(item, c).Some? ==>
      Some(SubjectCard(item, c).value.title) == EscapeValue(Or(Prop(item, "title"), Str(VodNormalize.TitlePlaceholder))) &&
      Some(SubjectCard(item, c).value.rate) == EscapeValue(Or(Prop(item, "rate"), Str(RatePlaceholder)))
  {
  }

  /**
   * A card's title is the subject's title, or "未知标题" when that is falsy,
   * escaped: decoding it gives back the text, and it cannot open a tag or
   * close an attribute.
   */
  lemma CardTitleIsEscapedTitleOrPlaceholder(item: JsValue, c: Category)
    ensures SubjectCard(item, c).Some? ==>
      var t := SubjectCard(item, c).value.title;
      Unescape(t) == ToString(Or(Prop(item, "title"), Str(VodNormalize.TitlePlaceholder))) &&
      (!Truthy(Prop(item, "title")) ==> t == VodNormalize.TitlePlaceholder) &&
      forall i :: 0 <= i < |t| ==> t[i] != '<' && t[i] != '>' && t[i] != '"' && t[i] != '\''
  {
    var p := VodNormalize.TitlePlaceholder;
    PlainPlaceholders();
    EscapedWithDefault(Prop(item, "title"), p);
    SubjectCardFields(item, c);
  }

  /** A card's rate is the subject's rate, or "暂无" when that is falsy, escaped. */
  lemma CardRateIsEscapedRateOrPlaceholder(item: JsValue, c: Category)
    ensures SubjectCard(item, c).Some? ==>
      var t := SubjectCard(item, c).value.rate;
      Unescape(t) == ToString(Or(Prop(item, "rate"), Str(RatePlaceholder))) &&
      (!Truthy(Prop(item, "rate")) ==> t == RatePlaceholder) &&
      forall i :: 0 <= i < |t| ==> t[i] != '<' && t[i] != '>' && t[i] != '"' && t[i] != '\''
  {
    PlainPlaceholders();
    EscapedWithDefault(Prop(item, "rate"), RatePlaceholder);
    SubjectCardFields(item, c);
  }

  /**
   * One subject whose card cannot be built (null, undefined, or a field that
   * cannot be converted to a string) makes the whole rendering throw, so the
   * failure notice shows.
   */
  lemma {:induction false} ThrowingSubjectShowsFailure(items: seq<JsValue>, k: nat, c: Category)
    requires k < |items| && SubjectThrows(items[k])
    ensures Recommend(PrimaryOk(Obj(map["subjects" := Arr(items)])), FallbackFailed, (t: string) => None, c) == FailureNotice
  {
    var data := Obj(map["subjects" := Arr(items)]);
    assert FetchDoubanData(PrimaryOk(data), FallbackFailed, (t: string) => None) == Success(data);
    var subjects := Prop(data, "subjects");
    assert subjects == Arr(items);
    assert Truthy(subjects) && !LengthIsZero(subjects);
    assert SubjectCards(items, c).None?;
    assert RenderDoubanCards(data, c).None?;
  }

  /** `{subjects: [{title: {toString: 1}}]}`: escaping the title throws, so the failure notice shows. */
  lemma UnprintableTitleShowsFailure(c: Category)
    ensures var item := Obj(map["title" := Obj(map["toString" := Num(1)])]);
      Recommend(PrimaryOk(Obj(map["subjects" := Arr([item])])), FallbackFailed, (t: string) => None, c) == FailureNotice
  {
    var item := Obj(map["title" := Obj(map["toString" := Num(1)])]);
    assert StringThrows(Prop(item, "title"));
    ThrowingSubjectShowsFailure([item], 0, c);
  }
}
