/**
 * Field reconciliation for video-catalog items (search.js): `pick`,
 * `normalizeVodItem` and the empty-input rule of the three card badges.
 * An item is the map of its own properties; `normalizeVodItem` copies it
 * and adds eight `norm_*` fields, each resolved from a fixed alias list.
 */
module VodNormalize {
  import opened Wrappers
  import opened JsValues
  import opened HtmlEscape

  /** What `pick`'s test does with one candidate: accept it, move past it, or throw. */
  datatype Verdict = Accept | MovePast | Throw

  /** `v !== undefined && v !== null && String(v).trim() !== ""`, evaluated. */
  function Test(v: JsValue): (t: Verdict)
    ensures t == Accept <==> Present(v)
    ensures t == Throw <==> StringThrows(v)
    ensures t == MovePast <==> Skipped(v)
  {
    if Present(v) then Accept else if StringThrows(v) then Throw else MovePast
  }

  /**
   * The loop of `pick` for any test: the first candidate the test accepts, or
   * `none` when it accepts none, or `None` once the test throws.
   */
  function FirstAccepted<T>(candidates: seq<T>, test: T -> Verdict, none: T): (r: Option<T>)
    ensures r.Some? ==> r.value == none || (test(r.value) == Accept && r.value in candidates)
    ensures r.None? ==> exists i :: 0 <= i < |candidates| && test(candidates[i]) == Throw
  {
    if candidates == [] then Some(none)
    else
      match test(candidates[0])
      case Accept => Some(candidates[0])
      case Throw => None
      case MovePast =>
        var r := FirstAccepted(candidates[1..], test, none);
        assert r.None? ==> exists i :: 1 <= i < |candidates| && test(candidates[i]) == Throw by {
          if r.None? {
            var i :| 0 <= i < |candidates[1..]| && test(candidates[1..][i]) == Throw;
            assert candidates[i + 1] == candidates[1..][i];
          }
        }
        r
  }

  lemma {:induction false} FirstAcceptedAt<T>(candidates: seq<T>, test: T -> Verdict, none: T, i: nat)
    requires i < |candidates| && test(candidates[i]) != MovePast
    requires forall j :: 0 <= j < i ==> test(candidates[j]) == MovePast
    ensures FirstAccepted(candidates, test, none) == if test(candidates[i]) == Accept then Some(candidates[i]) else None
  {
    if i > 0 {
      var tail := candidates[1..];
      assert tail[i - 1] == candidates[i];
      assert forall j :: 0 <= j < i - 1 ==> tail[j] == candidates[j + 1];
      FirstAcceptedAt(tail, test, none, i - 1);
    }
  }

  lemma {:induction false} FirstAcceptedOfNothing<T>(candidates: seq<T>, test: T -> Verdict, none: T)
    requires forall j :: 0 <= j < |candidates| ==> test(candidates[j]) == MovePast
    ensures FirstAccepted(candidates, test, none) == Some(none)
  {
    if candidates != [] {
      var tail := candidates[1..];
      assert forall j :: 0 <= j < |tail| ==> tail[j] == candidates[j + 1];
      FirstAcceptedOfNothing(tail, test, none);
    }
  }

  /**
   * `pick(...candidates)`: the first candidate that passes `Present`, or `""`
   * when none does; `None` when the test throws on a candidate it reaches.
   */
  function Pick(candidates: seq<JsValue>): (r: Option<JsValue>)
    ensures r.Some? ==> r.value == Str("") || (Present(r.value) && r.value in candidates)
    ensures r.None? ==> exists i :: 0 <= i < |candidates| && StringThrows(candidates[i])
  {
    FirstAccepted(candidates, Test, Str(""))
  }

  /** `pick` returns the first candidate that passes the test, moving past every one before it. */
  lemma PickReturnsFirstPresent(candidates: seq<JsValue>, i: nat)
    requires i < |candidates| && Present(candidates[i])
    requires forall j :: 0 <= j < i ==> Skipped(candidates[j])
    ensures Pick(candidates) == Some(candidates[i])
  {
    FirstAcceptedAt(candidates, Test, Str(""), i);
  }

  /** The test throwing on the first candidate it does not move past makes `pick` throw. */
  lemma PickThrowsAt(candidates: seq<JsValue>, i: nat)
    requires i < |candidates| && StringThrows(candidates[i])
    requires forall j :: 0 <= j < i ==> Skipped(candidates[j])
    ensures Pick(candidates) == None
  {
    FirstAcceptedAt(candidates, Test, Str(""), i);
  }

  /** With every candidate moved past, `pick` returns `""`. */
  lemma PickOfNothingPresent(candidates: seq<JsValue>)
    requires forall j :: 0 <= j < |candidates| ==> Skipped(candidates[j])
    ensures Pick(candidates) == Some(Str(""))
  {
    FirstAcceptedOfNothing(candidates, Test, Str(""));
  }

  const NameAliases: seq<string> := ["name", "vod_name", "title", "vod_title", "videoName"]
  const CoverAliases: seq<string> := ["pic", "vod_pic", "cover", "image", "vod_pic_thumb"]
  const YearAliases: seq<string> := ["year", "vod_year", "releaseyear"]
  const RemarkAliases: seq<string> := ["note", "vod_remarks", "remarks", "remark", "type_name", "category"]
  const AreaAliases: seq<string> := ["area", "vod_area", "region"]
  const TypeAliases: seq<string> := ["type", "type_name", "vod_class", "class"]
  const ScoreAliases: seq<string> := ["score", "rating", "rate"]
  const IdAliases: seq<string> := ["id", "vod_id", "_id"]

  /** The placeholder title `normalizeVodItem` uses when no name alias resolves. */
  const TitlePlaceholder: string := "未知标题"

  const NormKeys: set<string> :=
    {"norm_title", "norm_cover", "norm_year", "norm_remark", "norm_area", "norm_type", "norm_score", "norm_id"}

  /** The values of the alias properties, in priority order, as the arguments of one `pick` call. */
  function AliasValues(raw: map<string, JsValue>, aliases: seq<string>): (vs: seq<JsValue>)
    ensures |vs| == |aliases|
    ensures forall i :: 0 <= i < |aliases| ==> vs[i] == Get(raw, aliases[i])
  {
    seq(|aliases|, i requires 0 <= i < |aliases| => Get(raw, aliases[i]))
  }

  /** One canonical field: `pick(raw.a1, raw.a2, ...) || default`, or `None` when `pick` throws. */
  function NormField(raw: map<string, JsValue>, aliases: seq<string>, default: string): Option<JsValue> {
    match Pick(AliasValues(raw, aliases))
    case None => None
    case Some(v) => Some(Or(v, Str(default)))
  }

  /** The alias list behind each canonical key, in priority order. */
  function AliasesOf(key: string): seq<string> {
    if key == "norm_title" then NameAliases
    else if key == "norm_cover" then CoverAliases
    else if key == "norm_year" then YearAliases
    else if key == "norm_remark" then RemarkAliases
    else if key == "norm_area" then AreaAliases
    else if key == "norm_type" then TypeAliases
    else if key == "norm_score" then ScoreAliases
    else IdAliases
  }

  /** The fallback of `|| default`: the placeholder for `norm_title`, `""` for the other seven. */
  function DefaultOf(key: string): string {
    if key == "norm_title" then TitlePlaceholder else ""
  }

  /** The value `normalizeVodItem` computes for one canonical key. */
  function NormFieldOf(raw: map<string, JsValue>, key: string): Option<JsValue> {
    NormField(raw, AliasesOf(key), DefaultOf(key))
  }

  /** One of the eight `pick` calls throws. */
  predicate NormThrows(raw: map<string, JsValue>) {
    exists key :: key in NormKeys && NormFieldOf(raw, key).None?
  }

  /**
   * The one key `Object.assign` does not copy as an own property: assigning
   * `__proto__` runs the inherited setter, which replaces the target's
   * prototype instead.
   */
  const ProtoKey := "__proto__"

  /**
   * `normalizeVodItem(raw)`: `Object.assign({}, raw, {norm_title: ..., ..., norm_id: ...})`,
   * or `None` when one of the eight `pick` calls throws. The object literal of
   * eight fields is written as a map over `NormKeys`.
   */
  function NormalizeVodItem(raw: map<string, JsValue>): (r: Option<map<string, JsValue>>)
    ensures r.None? <==> NormThrows(raw)
    ensures r.Some? ==> r.value.Keys == (raw.Keys - {ProtoKey}) + NormKeys
    ensures r.Some? ==> forall k :: k in raw && k !in NormKeys && k != ProtoKey ==> r.value[k] == raw[k]
    ensures r.Some? ==> forall k :: k in NormKeys ==> Some(r.value[k]) == NormFieldOf(raw, k)
  {
    match FieldsOf(NormKeys, (key: string) => NormFieldOf(raw, key))
    case None => None
    case Some(fields) => Some(AssignOnto(raw, fields))
  }

  /** `Object.assign({}, raw, fields)`: `raw`'s own keys but `__proto__`, then `fields` over them. */
  function AssignOnto<V>(raw: map<string, V>, fields: map<string, V>): (r: map<string, V>)
    ensures r.Keys == (raw.Keys - {ProtoKey}) + fields.Keys
    ensures forall k :: k in fields ==> r[k] == fields[k]
    ensures forall k :: k in raw && k !in fields && k != ProtoKey ==> r[k] == raw[k]
  {
    (raw - {ProtoKey}) + fields
  }

  /** The object literal `{k1: f(k1), ...}` over `keys`, built only when no field's expression throws. */
  function FieldsOf<V>(keys: set<string>, f: string -> Option<V>): (r: Option<map<string, V>>)
    ensures r.None? <==> exists k :: k in keys && f(k).None?
    ensures r.Some? ==> r.value.Keys == keys && forall k :: k in keys ==> Some(r.value[k]) == f(k)
  {
    if exists k :: k in keys && f(k).None? then None
    else Some(map k | k in keys :: f(k).value)
  }

  /** `normalizeVodItem` throws only on a property whose string conversion throws. */
  lemma NormalizeThrowsOnlyOnUnprintable(raw: map<string, JsValue>)
    requires forall k :: k in raw ==> !StringThrows(raw[k])
    ensures NormalizeVodItem(raw).Some?
  {
    forall key | key in NormKeys ensures NormFieldOf(raw, key).Some? {
      NormFieldOfPrintable(raw, AliasesOf(key), DefaultOf(key));
    }
    assert !NormThrows(raw);
  }

  lemma NormFieldOfPrintable(raw: map<string, JsValue>, aliases: seq<string>, default: string)
    requires forall k :: k in raw ==> !StringThrows(raw[k])
    ensures NormField(raw, aliases, default).Some?
  {
    var vs := AliasValues(raw, aliases);
    assert forall i :: 0 <= i < |vs| ==> !StringThrows(vs[i]);
  }

  /** A title alias holding `{toString: ...}`, reached by `pick`, makes `normalizeVodItem` throw. */
  lemma UnprintableNameThrows(raw: map<string, JsValue>, fields: map<string, JsValue>)
    requires "toString" in fields && Get(raw, "name") == Obj(fields)
    ensures NormalizeVodItem(raw).None?
  {
    var vs := AliasValues(raw, NameAliases);
    assert vs[0] == Obj(fields) && StringThrows(vs[0]);
    PickThrowsAt(vs, 0);
    assert NormFieldOf(raw, "norm_title").None?;
  }

  /**
   * Alias priority: a canonical field takes the value of the first alias that
   * passes `pick`'s test, when that value is truthy.
   */
  lemma NormalizeTakesFirstAlias(raw: map<string, JsValue>, key: string, i: nat)
    requires key in NormKeys && i < |AliasesOf(key)|
    requires forall j :: 0 <= j < i ==> Skipped(Get(raw, AliasesOf(key)[j]))
    requires Present(Get(raw, AliasesOf(key)[i])) && Truthy(Get(raw, AliasesOf(key)[i]))
    ensures NormFieldOf(raw, key) == Some(raw[AliasesOf(key)[i]])
    ensures NormalizeVodItem(raw).Some? ==> NormalizeVodItem(raw).value[key] == raw[AliasesOf(key)[i]]
  {
    PickReturnsFirstPresent(AliasValues(raw, AliasesOf(key)), i);
  }

  /**
   * A falsy value that still passes `pick`'s test (`0` or `false`) stops the
   * search, and `|| default` then replaces it: later aliases are not consulted.
   */
  lemma NormalizeFalsyFirstAliasGivesDefault(raw: map<string, JsValue>, key: string, i: nat)
    requires key in NormKeys && i < |AliasesOf(key)|
    requires forall j :: 0 <= j < i ==> Skipped(Get(raw, AliasesOf(key)[j]))
    requires Present(Get(raw, AliasesOf(key)[i])) && !Truthy(Get(raw, AliasesOf(key)[i]))
    ensures NormFieldOf(raw, key) == Some(Str(DefaultOf(key)))
    ensures NormalizeVodItem(raw).Some? ==> NormalizeVodItem(raw).value[key] == Str(DefaultOf(key))
  {
    var vs := AliasValues(raw, AliasesOf(key));
    PickReturnsFirstPresent(vs, i);
    assert !Truthy(vs[i]);
    NormFieldFromPick(raw, key, vs[i]);
  }

  /** The canonical field `key` of the normalized item is the value `pick` returned, or the default when that is falsy. */
  lemma NormFieldFromPick(raw: map<string, JsValue>, key: string, v: JsValue)
    requires key in NormKeys && Pick(AliasValues(raw, AliasesOf(key))) == Some(v)
    ensures NormFieldOf(raw, key) == Some(Or(v, Str(DefaultOf(key))))
    ensures NormalizeVodItem(raw).Some? ==> NormalizeVodItem(raw).value[key] == Or(v, Str(DefaultOf(key)))
  {
  }

  /** With every alias moved past, a canonical field is `""`, and `norm_title` is the placeholder. */
  lemma NormalizeDefaultWhenNoAlias(raw: map<string, JsValue>, key: string)
    requires key in NormKeys
    requires forall j :: 0 <= j < |AliasesOf(key)| ==> Skipped(Get(raw, AliasesOf(key)[j]))
    ensures NormFieldOf(raw, key) == Some(Str(DefaultOf(key)))
    ensures NormalizeVodItem(raw).Some? ==> NormalizeVodItem(raw).value[key] == Str(DefaultOf(key))
  {
    PickOfNothingPresent(AliasValues(raw, AliasesOf(key)));
  }

  /** `norm_title` is never blank: it is truthy and its string form has a non-space character. */
  lemma NormTitleNeverBlank(raw: map<string, JsValue>)
    ensures NormalizeVodItem(raw).Some? ==>
      var t := NormalizeVodItem(raw).value["norm_title"]; Truthy(t) && Present(t)
  {
    var picked := Pick(AliasValues(raw, NameAliases));
    if picked.Some? && !Truthy(picked.value) {
      var p := TitlePlaceholder;
      assert p[0] == '未' && !IsJsSpace(p[0]);
      StringPresentIffNotAllSpace(p);
    }
  }

  /** Kinds of the three card badges. */
  datatype BadgeKind = SourceBadge | ScoreBadge | RemarkBadge

  /** What a badge builder renders: nothing (the empty string) or a badge around escaped text. */
  datatype Badge = NoBadge | Badge(kind: BadgeKind, text: string)

  /**
   * `buildSourceBadge`, `buildScoreBadge`, `buildRemarkBadge`: `if (!v) return ""`,
   * else a span holding `escapeHTML(v)`; `None` when that conversion throws.
   */
  function BuildBadge(kind: BadgeKind, v: JsValue): (b: Option<Badge>)
    ensures b == Some(NoBadge) <==> !Truthy(v)
    ensures b.None? <==> StringThrows(v)
    ensures b.Some? && b.value.Badge? ==> b.value.kind == kind && Unescape(b.value.text) == ToString(v)
    ensures b.Some? && b.value.Badge? ==> '<' !in b.value.text && '>' !in b.value.text
  {
    if !Truthy(v) then Some(NoBadge)
    else
      match EscapeValue(v)
      case None => None
      case Some(text) =>
        EscapeHtmlRoundTrip(ToString(v));
        Some(Badge(kind, text))
  }

  /** A numeric name `0` passes `pick` and is then replaced by the placeholder, although `vod_name` has a title. */
  lemma ZeroNameGivesPlaceholder()
    ensures var r := NormalizeVodItem(map["name" := Num(0), "vod_name" := Str("X")]);
      r.Some? && r.value["norm_title"] == Str(TitlePlaceholder)
  {
    var raw := map["name" := Num(0), "vod_name" := Str("X")];
    forall k | k in raw ensures !StringThrows(raw[k]) {
      assert raw[k] == Num(0) || raw[k] == Str("X");
    }
    NormalizeThrowsOnlyOnUnprintable(raw);
    assert Get(raw, "name") == Num(0);
    ZeroNameHidesLaterAliases(raw);
  }

  /** Every canonical key starts with `n`, so a key that does not is not canonical. */
  lemma NormKeysStartWithN(k: string)
    ensures k in NormKeys ==> |k| > 0 && k[0] == 'n'
  {
  }

  /**
   * `{"__proto__": p, "vod_name": n}`, as `JSON.parse` builds it, normalizes
   * to an object without an own `__proto__` key that keeps `vod_name`.
   */
  lemma ProtoKeyIsDropped(p: JsValue, n: JsValue)
    requires !StringThrows(p) && !StringThrows(n)
    ensures var r := NormalizeVodItem(map[ProtoKey := p, "vod_name" := n]);
      r.Some? && ProtoKey !in r.value && r.value["vod_name"] == n
  {
    var raw := map[ProtoKey := p, "vod_name" := n];
    assert forall k :: k in raw ==> raw[k] == p || raw[k] == n;
    NormalizeThrowsOnlyOnUnprintable(raw);
    NormKeysStartWithN(ProtoKey);
    NormKeysStartWithN("vod_name");
    KeptField(raw, "vod_name");
  }

  /** A field of `raw` that is neither canonical nor `__proto__` keeps its value through normalization. */
  lemma KeptField(raw: map<string, JsValue>, k: string)
    requires NormalizeVodItem(raw).Some? && k in raw && k !in NormKeys && k != ProtoKey
    ensures k in NormalizeVodItem(raw).value && NormalizeVodItem(raw).value[k] == raw[k]
  {
  }

  /** A `name` of 0 stops `pick` at the first alias, whatever the later aliases hold. */
  lemma ZeroNameHidesLaterAliases(raw: map<string, JsValue>)
    requires Get(raw, "name") == Num(0)
    ensures NormFieldOf(raw, "norm_title") == Some(Str(TitlePlaceholder))
    ensures NormalizeVodItem(raw).Some? ==> NormalizeVodItem(raw).value["norm_title"] == Str(TitlePlaceholder)
  {
    var vs := AliasValues(raw, NameAliases);
    assert vs[0] == Num(0);
    NonStringScalarsArePresent(Num(0));
    assert Pick(vs) == Some(Num(0));
    NormFieldFromPick(raw, "norm_title", Num(0));
  }
}
