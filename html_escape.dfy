/**
 * `escapeHTML`, which search.js and douban.js each define with the same body:
 * `String(str)` followed by five global replacements, `&` first, then `<`, `>`,
 * `"` and `'`.
 */
module HtmlEscape {
  import opened Wrappers
  import opened JsValues

  /** `s.replace(/c/g, rep)` for a one-character pattern: every output character is a kept input character or part of a replacement. */
  function ReplaceAll(s: string, c: char, rep: string): (r: string)
    ensures forall d :: d in r ==> (d in s && d != c) || d in rep
  {
    if s == [] then [] else (if s[0] == c then rep else [s[0]]) + ReplaceAll(s[1..], c, rep)
  }

  /**
   * `escapeHTML(str)` on a string: the five replacements in the order the
   * source chains them. The output holds none of `<`, `>`, `"` and `'`.
   */
  function EscapeHtml(s: string): (r: string)
    ensures '<' !in r && '>' !in r && '"' !in r && '\'' !in r
  {
    var amp := ReplaceAll(s, '&', "&amp;");
    var lt := ReplaceAll(amp, '<', "&lt;");
    var gt := ReplaceAll(lt, '>', "&gt;");
    var quot := ReplaceAll(gt, '"', "&quot;");
    ReplaceAll(quot, '\'', "&#039;")
  }

  /**
   * `escapeHTML(v)` on any value: the default parameter turns `undefined`
   * into `""`, anything else goes through `String`, which may throw (`None`).
   */
  function EscapeValue(v: JsValue): (r: Option<string>)
    ensures r.None? <==> StringThrows(v)
  {
    if StringThrows(v) then None
    else Some(EscapeHtml(if v == Undefined then "" else ToString(v)))
  }

  /** The reference the chain is checked against: each character replaced by its own character reference. */
  function EscapeChar(c: char): string {
    match c
    case '&' => "&amp;"
    case '<' => "&lt;"
    case '>' => "&gt;"
    case '"' => "&quot;"
    case '\'' => "&#039;"
    case _ => [c]
  }

  function EscapeEach(s: string): string {
    if s == [] then [] else EscapeChar(s[0]) + EscapeEach(s[1..])
  }

  predicate IsSpecial(c: char) {
    c == '&' || c == '<' || c == '>' || c == '"' || c == '\''
  }

  /** One of the five character references `escapeHTML` writes starts `t`. */
  predicate StartsWithReference(t: string) {
    "&amp;" <= t || "&lt;" <= t || "&gt;" <= t || "&quot;" <= t || "&#039;" <= t
  }

  /** Decoding of the five references, the inverse the escaping is meant to have. */
  function Unescape(t: string): string {
    if t == [] then []
    else if "&amp;" <= t then ['&'] + Unescape(t[5..])
    else if "&lt;" <= t then ['<'] + Unescape(t[4..])
    else if "&gt;" <= t then ['>'] + Unescape(t[4..])
    else if "&quot;" <= t then ['"'] + Unescape(t[6..])
    else if "&#039;" <= t then ['\''] + Unescape(t[6..])
    else [t[0]] + Unescape(t[1..])
  }

  lemma {:induction false} ReplaceAllAppend(a: string, b: string, c: char, rep: string)
    ensures ReplaceAll(a + b, c, rep) == ReplaceAll(a, c, rep) + ReplaceAll(b, c, rep)
  {
    if a == [] {
      assert a + b == b;
    } else {
      var ab := a + b;
      assert ab[0] == a[0] && ab[1..] == a[1..] + b;
      ReplaceAllAppend(a[1..], b, c, rep);
    }
  }

  /** A global replace of a character that does not occur leaves the text unchanged. */
  lemma {:induction false} ReplaceAllAbsent(s: string, c: char, rep: string)
    requires c !in s
    ensures ReplaceAll(s, c, rep) == s
  {
    if s != [] {
      assert s[0] != c;
      assert c !in s[1..];
      ReplaceAllAbsent(s[1..], c, rep);
      assert s == [s[0]] + s[1..];
    }
  }

  lemma ReplaceAllOne(x: char, c: char, rep: string)
    ensures ReplaceAll([x], c, rep) == if x == c then rep else [x]
  {
    assert [x][1..] == [];
  }

  lemma EscapeHtmlOneChar(x: char)
    ensures EscapeHtml([x]) == EscapeChar(x)
  {
    ReplaceAllOne(x, '&', "&amp;");
    if x == '&' {
      var r := "&amp;";
      assert '<' !in r && '>' !in r && '"' !in r && '\'' !in r;
      ReplaceAllAbsent(r, '<', "&lt;");
      ReplaceAllAbsent(r, '>', "&gt;");
      ReplaceAllAbsent(r, '"', "&quot;");
      ReplaceAllAbsent(r, '\'', "&#039;");
      return;
    }
    ReplaceAllOne(x, '<', "&lt;");
    if x == '<' {
      var r := "&lt;";
      assert '>' !in r && '"' !in r && '\'' !in r;
      ReplaceAllAbsent(r, '>', "&gt;");
      ReplaceAllAbsent(r, '"', "&quot;");
      ReplaceAllAbsent(r, '\'', "&#039;");
      return;
    }
    ReplaceAllOne(x, '>', "&gt;");
    if x == '>' {
      var r := "&gt;";
      assert '"' !in r && '\'' !in r;
      ReplaceAllAbsent(r, '"', "&quot;");
      ReplaceAllAbsent(r, '\'', "&#039;");
      return;
    }
    ReplaceAllOne(x, '"', "&quot;");
    if x == '"' {
      var r := "&quot;";
      assert '\'' !in r;
      ReplaceAllAbsent(r, '\'', "&#039;");
      return;
    }
    ReplaceAllOne(x, '\'', "&#039;");
  }

  lemma {:induction false} EscapeHtmlAppend(a: string, b: string)
    ensures EscapeHtml(a + b) == EscapeHtml(a) + EscapeHtml(b)
  {
    var amp := ReplaceAll(a + b, '&', "&amp;");
    ReplaceAllAppend(a, b, '&', "&amp;");
    var a1, b1 := ReplaceAll(a, '&', "&amp;"), ReplaceAll(b, '&', "&amp;");
    ReplaceAllAppend(a1, b1, '<', "&lt;");
    var a2, b2 := ReplaceAll(a1, '<', "&lt;"), ReplaceAll(b1, '<', "&lt;");
    ReplaceAllAppend(a2, b2, '>', "&gt;");
    var a3, b3 := ReplaceAll(a2, '>', "&gt;"), ReplaceAll(b2, '>', "&gt;");
    ReplaceAllAppend(a3, b3, '"', "&quot;");
    var a4, b4 := ReplaceAll(a3, '"', "&quot;"), ReplaceAll(b3, '"', "&quot;");
    ReplaceAllAppend(a4, b4, '\'', "&#039;");
  }

  /** The chained replacements escape each character on its own: no replacement rewrites the output of an earlier one. */
  lemma {:induction false} EscapeHtmlIsCharwise(s: string)
    ensures EscapeHtml(s) == EscapeEach(s)
  {
    if s != [] {
      assert s == [s[0]] + s[1..];
      EscapeHtmlAppend([s[0]], s[1..]);
      EscapeHtmlOneChar(s[0]);
      EscapeHtmlIsCharwise(s[1..]);
    }
  }

  /** Every `&` in the output of `escapeHTML` begins one of `&amp;`, `&lt;`, `&gt;`, `&quot;`, `&#039;`. */
  lemma EscapedAmpersandsStartReferences(s: string)
    ensures forall i :: 0 <= i < |EscapeHtml(s)| && EscapeHtml(s)[i] == '&' ==> StartsWithReference(EscapeHtml(s)[i..])
  {
    EscapeHtmlIsCharwise(s);
    EscapeEachAmpersands(s);
  }

  lemma {:induction false} EscapeEachAmpersands(s: string)
    ensures forall i :: 0 <= i < |EscapeEach(s)| && EscapeEach(s)[i] == '&' ==> StartsWithReference(EscapeEach(s)[i..])
  {
    if s != [] {
      EscapeEachAmpersands(s[1..]);
      var head, tail := EscapeChar(s[0]), EscapeEach(s[1..]);
      assert EscapeEach(s) == head + tail;
      forall i | 0 <= i < |head + tail| && (head + tail)[i] == '&'
        ensures StartsWithReference((head + tail)[i..])
      {
        if i < |head| {
          // Only a reference contains '&', and only in its first position.
          assert i == 0;
          assert head <= (head + tail)[i..];
        } else {
          assert (head + tail)[i..] == tail[i - |head|..];
        }
      }
    }
  }

  lemma {:induction false} UnescapeEach(s: string)
    ensures Unescape(EscapeEach(s)) == s
  {
    if s != [] {
      assert EscapeEach(s) == EscapeChar(s[0]) + EscapeEach(s[1..]);
      UnescapeEach(s[1..]);
      UnescapeOneReference(s[0], EscapeEach(s[1..]));
      assert s == [s[0]] + s[1..];
    }
  }

  /** Decoding reads one escaped character back off the front of the text. */
  lemma UnescapeOneReference(x: char, t: string)
    ensures Unescape(EscapeChar(x) + t) == [x] + Unescape(t)
  {
    if IsSpecial(x) {
      UnescapeSpecial(x, t);
    } else {
      var e := EscapeChar(x) + t;
      assert e[0] == x && e[1..] == t;
    }
  }

  lemma UnescapeSpecial(x: char, t: string)
    requires IsSpecial(x)
    ensures Unescape(EscapeChar(x) + t) == [x] + Unescape(t)
  {
    var e := EscapeChar(x) + t;
    if x == '&' {
      assert "&amp;" <= e && e[5..] == t;
    } else if x == '<' {
      assert e[1] == 'l';
      assert !("&amp;" <= e) && "&lt;" <= e && e[4..] == t;
    } else if x == '>' {
      assert e[1] == 'g';
      assert !("&amp;" <= e) && !("&lt;" <= e) && "&gt;" <= e && e[4..] == t;
    } else if x == '"' {
      assert e[1] == 'q';
      assert !("&amp;" <= e) && !("&lt;" <= e) && !("&gt;" <= e) && "&quot;" <= e && e[6..] == t;
    } else {
      assert e[1] == '#';
      assert !("&amp;" <= e) && !("&lt;" <= e) && !("&gt;" <= e) && !("&quot;" <= e);
      assert "&#039;" <= e && e[6..] == t;
    }
  }

  /** Decoding the five references restores the input: `escapeHTML` loses nothing and is injective. */
  lemma EscapeHtmlRoundTrip(s: string)
    ensures Unescape(EscapeHtml(s)) == s
  {
    EscapeHtmlIsCharwise(s);
    UnescapeEach(s);
  }

  /** Text without any of the five special characters passes through `escapeHTML` unchanged. */
  lemma {:induction false} EscapeHtmlFixesPlainText(s: string)
    requires forall i :: 0 <= i < |s| ==> !IsSpecial(s[i])
    ensures EscapeHtml(s) == s
  {
    EscapeHtmlIsCharwise(s);
    PlainEachIsIdentity(s);
  }

  lemma {:induction false} PlainEachIsIdentity(s: string)
    requires forall i :: 0 <= i < |s| ==> !IsSpecial(s[i])
    ensures EscapeEach(s) == s
  {
    if s != [] {
      PlainEachIsIdentity(s[1..]);
      assert s == [s[0]] + s[1..];
    }
  }
}
