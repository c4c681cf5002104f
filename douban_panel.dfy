/**
 * The recommendation panel's module-level state in douban.js — the movie and
 * TV tag lists, the category switch, the selected tag and the page offset —
 * and the handlers that change it: adding, deleting and resetting tags,
 * switching category, clicking a tag, "换一批" (refresh) and loading the
 * saved tag lists. Each handler that triggers `renderRecommend` returns the
 * request it makes.
 */
module DoubanPanel {
  import opened Wrappers
  import opened HtmlEscape
  import opened DoubanFetch

  const HotTag: string := "热门"
  const PageSize: int := 16
  /** The refresh button wraps to the first page once the offset passes nine pages. */
  const LastPageStart: int := 9 * PageSize

  const DefaultMovieTags: seq<string> :=
    ["热门", "最新", "经典", "豆瓣高分", "冷门佳片", "华语", "欧美", "韩国", "日本",
     "动作", "喜剧", "日综", "爱情", "科幻", "悬疑", "恐怖", "治愈"]
  const DefaultTvTags: seq<string> :=
    ["热门", "美剧", "英剧", "韩剧", "日剧", "国产剧", "港剧", "日本动画", "综艺", "纪录片"]

  function DefaultTags(c: Category): seq<string> {
    if c == Movie then DefaultMovieTags else DefaultTvTags
  }

  /** The query `renderRecommend(tag, pageLimit, pageStart)` sends, with the switch as `type`. */
  datatype RecommendRequest = RecommendRequest(category: Category, tag: string, pageLimit: int, pageStart: int)

  /** Offsets the panel can request: the first ten pages of sixteen. */
  predicate ValidPageStart(p: int) {
    0 <= p <= LastPageStart && p % PageSize == 0
  }

  /** The refresh handler's new offset. */
  function NextPageStart(p: int): (r: int)
    ensures ValidPageStart(p) ==> ValidPageStart(r)
    ensures r == 0 || r == p + PageSize
  {
    if p + PageSize > LastPageStart then 0 else p + PageSize
  }

  /** The offset after `n` presses of the refresh button. */
  function Refreshed(p: int, n: nat): int {
    if n == 0 then p else NextPageStart(Refreshed(p, n - 1))
  }

  lemma {:induction false} RefreshedAdds(p: int, a: nat, b: nat)
    ensures Refreshed(p, a + b) == Refreshed(Refreshed(p, a), b)
  {
    if b > 0 {
      RefreshedAdds(p, a, b - 1);
    }
  }

  /** Below the last page each press moves exactly one page on. */
  lemma {:induction false} RefreshedWalks(p: int, n: nat)
    requires p + n * PageSize <= LastPageStart
    ensures Refreshed(p, n) == p + n * PageSize
  {
    if n > 0 {
      RefreshedWalks(p, n - 1);
    }
  }

  /** From the first page, the refresh button visits the ten pages in order. */
  lemma RefreshVisitsPagesInOrder(k: nat)
    requires k <= 9
    ensures Refreshed(0, k) == k * PageSize
  {
    RefreshedWalks(0, k);
  }

  /** Ten presses of the refresh button come back to the page they started from. */
  lemma {:induction false} RefreshCyclesInTenPresses(p: int)
    requires ValidPageStart(p)
    ensures Refreshed(p, 10) == p
  {
    var k := p / PageSize;
    assert p == k * PageSize;
    RefreshedWalks(p, 9 - k);
    assert Refreshed(p, 9 - k) == LastPageStart;
    assert Refreshed(p, 10 - k) == 0;
    RefreshedWalks(0, k);
    RefreshedAdds(p, 10 - k, k);
  }

  /** ASCII case folding for the duplicate check of `addTag`. */
  function LowerChar(c: char): char {
    if 'A' <= c <= 'Z' then (c as int + 32) as char else c
  }

  function Lower(s: string): (r: string)
    ensures |r| == |s|
    ensures forall i :: 0 <= i < |s| ==> r[i] == LowerChar(s[i])
  {
    seq(|s|, i requires 0 <= i < |s| => LowerChar(s[i]))
  }

  /** `tags.some(t => t.toLowerCase() === tag.toLowerCase())`. */
  predicate HasTagIgnoringCase(tags: seq<string>, tag: string)
    ensures tag in tags ==> HasTagIgnoringCase(tags, tag)
  {
    exists i :: 0 <= i < |tags| && Lower(tags[i]) == Lower(tag)
  }

  /** The list with the first occurrence of `tag` spliced out. */
  function RemoveFirst(tags: seq<string>, tag: string): (r: seq<string>)
    ensures tag !in tags ==> r == tags
    ensures tag in tags ==> |r| == |tags| - 1
  {
    if tags == [] then []
    else if tags[0] == tag then tags[1..]
    else
      assert tag in tags ==> tag in tags[1..];
      [tags[0]] + RemoveFirst(tags[1..], tag)
  }

  /** Removing the first occurrence takes exactly one copy of `tag` out, and nothing else. */
  lemma {:induction false} RemoveFirstMultiset(tags: seq<string>, tag: string)
    ensures multiset(RemoveFirst(tags, tag)) == multiset(tags) - multiset{tag}
  {
    if tags != [] {
      assert tags == [tags[0]] + tags[1..];
      if tags[0] != tag {
        RemoveFirstMultiset(tags[1..], tag);
      }
    }
  }

  /** Splicing at the first index is removing the first occurrence. */
  lemma {:induction false} RemoveFirstAt(tags: seq<string>, tag: string, idx: nat)
    requires idx < |tags| && tags[idx] == tag && tag !in tags[..idx]
    ensures RemoveFirst(tags, tag) == tags[..idx] + tags[idx + 1..]
  {
    if idx == 0 {
      assert tags[..0] + tags[1..] == tags[1..];
    } else {
      var tail := tags[1..];
      assert tags[0] == tags[..idx][0];
      assert tags[0] != tag;
      assert RemoveFirst(tags, tag) == [tags[0]] + RemoveFirst(tail, tag);
      assert tail[..idx - 1] == tags[1..idx];
      assert tail[idx - 1] == tag;
      assert tag !in tail[..idx - 1] by {
        assert forall x :: x in tags[1..idx] ==> x in tags[..idx];
      }
      RemoveFirstAt(tail, tag, idx - 1);
      assert tail[idx..] == tags[idx + 1..];
      assert [tags[0]] + tags[1..idx] == tags[..idx];
    }
  }

  /** Deleting one tag keeps every other tag, "热门" included. */
  lemma RemoveFirstKeepsOthers(tags: seq<string>, tag: string, other: string)
    requires other != tag
    ensures other in RemoveFirst(tags, tag) <==> other in tags
  {
    RemoveFirstMultiset(tags, tag);
    assert other in multiset(RemoveFirst(tags, tag)) <==> other in multiset(tags);
  }

  /** `currentTags.indexOf(tag)`: the first index holding `tag`, or -1. */
  method IndexOf(tags: seq<string>, tag: string) returns (idx: int)
    ensures idx == -1 <==> tag !in tags
    ensures idx != -1 ==> 0 <= idx < |tags| && tags[idx] == tag && tag !in tags[..idx]
  {
    var i := 0;
    while i < |tags|
      invariant 0 <= i <= |tags|
      invariant tag !in tags[..i]
    {
      if tags[i] == tag {
        return i;
      }
      assert tags[..i + 1] == tags[..i] + [tags[i]];
      i := i + 1;
    }
    assert tags[..i] == tags;
    return -1;
  }

  /** The list one saved entry yields: its parse when it is a non-empty string, the defaults when it is missing or empty, None when parsing throws. */
  function StoredList(saved: Option<string>, parse: string -> Option<seq<string>>, defaults: seq<string>): Option<seq<string>> {
    if saved.Some? && saved.value != "" then parse(saved.value) else Some(defaults)
  }

  /** The entry is there but does not parse, so `JSON.parse` throws. */
  predicate Unparsable(saved: Option<string>, parse: string -> Option<seq<string>>) {
    saved.Some? && saved.value != "" && parse(saved.value).None?
  }

  /**
   * `loadUserTags`: the movie and TV lists read from the saved entries
   * `userMovieTags` and `userTvTags`; one entry that fails to parse resets
   * both lists to their defaults.
   */
  function LoadedTags(savedMovie: Option<string>, savedTv: Option<string>, parse: string -> Option<seq<string>>)
    : (r: (seq<string>, seq<string>))
    ensures r.0 == DefaultMovieTags || (savedMovie.Some? && parse(savedMovie.value) == Some(r.0))
    ensures r.1 == DefaultTvTags || (savedTv.Some? && parse(savedTv.value) == Some(r.1))
  {
    var movie := StoredList(savedMovie, parse, DefaultMovieTags);
    var tv := StoredList(savedTv, parse, DefaultTvTags);
    if movie.Some? && tv.Some? then (movie.value, tv.value) else (DefaultMovieTags, DefaultTvTags)
  }

  /** One corrupt entry resets both lists, even the one that parsed. */
  lemma {:induction false} CorruptEntryResetsBothLists(savedMovie: Option<string>, savedTv: Option<string>, parse: string -> Option<seq<string>>)
    requires Unparsable(savedMovie, parse) || Unparsable(savedTv, parse)
    ensures LoadedTags(savedMovie, savedTv, parse) == (DefaultMovieTags, DefaultTvTags)
  {
  }

  /** Without corrupt entries, each list is its parsed entry or, if missing or empty, the defaults. */
  lemma {:induction false} ReadableEntriesAreKept(savedMovie: Option<string>, savedTv: Option<string>, parse: string -> Option<seq<string>>)
    requires !Unparsable(savedMovie, parse) && !Unparsable(savedTv, parse)
    ensures var r := LoadedTags(savedMovie, savedTv, parse);
      r.0 == (if savedMovie.Some? && savedMovie.value != "" then parse(savedMovie.value).value else DefaultMovieTags) &&
      r.1 == (if savedTv.Some? && savedTv.value != "" then parse(savedTv.value).value else DefaultTvTags)
  {
  }

  /** The panel's state: douban.js's module-level `let` bindings. */
  class Panel {
    var movieTags: seq<string>
    var tvTags: seq<string>
    var current: Category
    var currentTag: string
    var pageStart: int

    ghost predicate Valid()
      reads this
    {
      ValidPageStart(pageStart)
    }

    /** The initial bindings: empty lists, movies, "热门", first page. */
    constructor ()
      ensures Valid()
      ensures movieTags == [] && tvTags == []
      ensures current == Movie && currentTag == HotTag && pageStart == 0
    {
      movieTags := [];
      tvTags := [];
      current := Movie;
      currentTag := HotTag;
      pageStart := 0;
    }

    /** The list the tag bar and the tag manager show. */
    function ActiveTags(): seq<string>
      reads this
    {
      if current == Movie then movieTags else tvTags
    }

    function InactiveTags(): seq<string>
      reads this
    {
      if current == Movie then tvTags else movieTags
    }

    /** The request `renderRecommend(doubanCurrentTag, doubanPageSize, doubanPageStart)` makes now. */
    function Request(): RecommendRequest
      reads this
    {
      RecommendRequest(current, currentTag, PageSize, pageStart)
    }

    /** `loadUserTags()`, given the two saved entries. */
    method LoadUserTags(savedMovie: Option<string>, savedTv: Option<string>, parse: string -> Option<seq<string>>)
      requires Valid()
      modifies this
      ensures Valid()
      ensures (movieTags, tvTags) == LoadedTags(savedMovie, savedTv, parse)
      ensures current == old(current) && currentTag == old(currentTag) && pageStart == old(pageStart)
    {
      var loaded := LoadedTags(savedMovie, savedTv, parse);
      movieTags := loaded.0;
      tvTags := loaded.1;
    }

    /**
     * `addTag(tag)`: the escaped tag is appended to the active list unless a
     * tag equal to it ignoring case is already there.
     */
    method AddTag(tag: string) returns (added: bool)
      requires Valid()
      modifies this
      ensures Valid()
      ensures added <==> !HasTagIgnoringCase(old(ActiveTags()), EscapeHtml(tag))
      ensures ActiveTags() == if added then old(ActiveTags()) + [EscapeHtml(tag)] else old(ActiveTags())
      ensures InactiveTags() == old(InactiveTags())
      ensures current == old(current) && currentTag == old(currentTag) && pageStart == old(pageStart)
    {
      var safeTag := EscapeHtml(tag);
      if HasTagIgnoringCase(ActiveTags(), safeTag) {
        return false;
      }
      if current == Movie {
        movieTags := movieTags + [safeTag];
      } else {
        tvTags := tvTags + [safeTag];
      }
      return true;
    }

    /**
     * `deleteTag(tag)`: "热门" is refused; otherwise the first occurrence
     * leaves the active list, and deleting the selected tag selects "热门"
     * on the first page and requests it.
     */
    method DeleteTag(tag: string) returns (req: Option<RecommendRequest>)
      requires Valid()
      modifies this
      ensures Valid()
      ensures tag == HotTag ==> ActiveTags() == old(ActiveTags())
      ensures tag != HotTag ==> ActiveTags() == RemoveFirst(old(ActiveTags()), tag)
      ensures HotTag in old(ActiveTags()) ==> HotTag in ActiveTags()
      ensures InactiveTags() == old(InactiveTags()) && current == old(current)
      ensures var hit := tag != HotTag && tag in old(ActiveTags()) && tag == old(currentTag);
        if hit then currentTag == HotTag && pageStart == 0 && req == Some(Request())
        else currentTag == old(currentTag) && pageStart == old(pageStart) && req.None?
    {
      req := None;
      if tag == HotTag {
        return;
      }
      var tags := ActiveTags();
      var idx := IndexOf(tags, tag);
      if idx != -1 {
        RemoveFirstAt(tags, tag, idx);
        RemoveFirstKeepsOthers(tags, tag, HotTag);
        if current == Movie {
          movieTags := tags[..idx] + tags[idx + 1..];
        } else {
          tvTags := tags[..idx] + tags[idx + 1..];
        }
        if currentTag == tag {
          currentTag := HotTag;
          pageStart := 0;
          req := Some(Request());
        }
      }
    }

    /** `resetTagsToDefault()`: the active list is restored, "热门" selected on the first page and requested. */
    method ResetTagsToDefault() returns (req: RecommendRequest)
      requires Valid()
      modifies this
      ensures Valid()
      ensures ActiveTags() == DefaultTags(current) && InactiveTags() == old(InactiveTags())
      ensures current == old(current) && currentTag == HotTag && pageStart == 0
      ensures req == Request()
    {
      if current == Movie {
        movieTags := DefaultMovieTags;
      } else {
        tvTags := DefaultTvTags;
      }
      currentTag := HotTag;
      pageStart := 0;
      req := Request();
    }

    /**
     * The movie and TV toggles' click handlers: switching to the other
     * category selects "热门" but keeps the page offset, and requests
     * recommendations only when the `doubanEnabled` setting is "true".
     */
    method SelectCategory(c: Category, doubanEnabled: Option<string>) returns (req: Option<RecommendRequest>)
      requires Valid()
      modifies this
      ensures Valid()
      ensures movieTags == old(movieTags) && tvTags == old(tvTags) && pageStart == old(pageStart)
      ensures current == c
      ensures old(current) == c ==> currentTag == old(currentTag) && req.None?
      ensures old(current) != c ==> currentTag == HotTag
      ensures req.Some? <==> old(current) != c && doubanEnabled == Some("true")
      ensures req.Some? ==> req.value == RecommendRequest(c, HotTag, PageSize, old(pageStart))
    {
      req := None;
      if current != c {
        current := c;
        currentTag := HotTag;
        if doubanEnabled == Some("true") {
          req := Some(Request());
        }
      }
    }

    /** A tag button's click handler: a different tag is selected on the first page and requested. */
    method ClickTag(tag: string) returns (req: Option<RecommendRequest>)
      requires Valid()
      modifies this
      ensures Valid()
      ensures movieTags == old(movieTags) && tvTags == old(tvTags) && current == old(current)
      ensures currentTag == tag
      ensures old(currentTag) == tag ==> pageStart == old(pageStart) && req.None?
      ensures old(currentTag) != tag ==> pageStart == 0 && req == Some(RecommendRequest(current, tag, PageSize, 0))
    {
      req := None;
      if currentTag != tag {
        currentTag := tag;
        pageStart := 0;
        req := Some(Request());
      }
    }

    /** The refresh button's handler: one page on, back to the first after the tenth, and request it. */
    method Refresh() returns (req: RecommendRequest)
      requires Valid()
      modifies this
      ensures Valid()
      ensures pageStart == NextPageStart(old(pageStart))
      ensures movieTags == old(movieTags) && tvTags == old(tvTags)
      ensures current == old(current) && currentTag == old(currentTag)
      ensures req == Request()
    {
      pageStart := pageStart + PageSize;
      if pageStart > LastPageStart {
        pageStart := 0;
      }
      req := Request();
    }
  }
}
