/**
  Markup escaping and the rendering of a message body.

  Each escaper is paired with the decoder a reader of the markup applies, and the
  round trip is proved for every text. For MarkdownV2 two decoders are given: the
  one that undoes exactly this escaper, and Telegram's stricter published rule, for
  which the round trip holds exactly when `BackslashSafe` does.
*/
module Escaping {
  import opened Messages

  // ----- HTML -----

  /** `str::replace` of a single character by a string. */
  function Replace(s: string, ch: char, with: string): string {
    if s == "" then ""
    else (if s[0] == ch then with else [s[0]]) + Replace(s[1..], ch, with)
  }

  function EscapeHtml(text: string): string {
    Replace(Replace(Replace(text, '&', "&amp;"), '<', "&lt;"), '>', "&gt;")
  }

  function Entity(ch: char): string {
    match ch
    case '&' => "&amp;"
    case '<' => "&lt;"
    case '>' => "&gt;"
    case _ => [ch]
  }

  /** The single-pass reading of the three replacements. */
  function EscapeHtmlOnePass(text: string): string {
    if text == "" then "" else Entity(text[0]) + EscapeHtmlOnePass(text[1..])
  }

  lemma {:induction false} ReplaceAppend(a: string, b: string, ch: char, with: string)
    ensures Replace(a + b, ch, with) == Replace(a, ch, with) + Replace(b, ch, with)
  {
    if a == "" {
      assert a + b == b;
    } else {
      var head := if a[0] == ch then with else [a[0]];
      calc {
        Replace(a + b, ch, with);
        { assert (a + b)[0] == a[0] && (a + b)[1..] == a[1..] + b; }
        head + Replace(a[1..] + b, ch, with);
        { ReplaceAppend(a[1..], b, ch, with); }
        head + (Replace(a[1..], ch, with) + Replace(b, ch, with));
        Replace(a, ch, with) + Replace(b, ch, with);
      }
    }
  }

  lemma {:induction false} ReplaceAbsent(s: string, ch: char, with: string)
    requires ch !in s
    ensures Replace(s, ch, with) == s
  {
    if s == "" {
    } else {
      ReplaceAbsent(s[1..], ch, with);
    }
  }

  lemma ReplaceOne(ch: char, from: char, with: string)
    ensures Replace([ch], from, with) == if ch == from then with else [ch]
  {
    assert [ch][1..] == "";
  }

  lemma EscapeOneCharacter(ch: char)
    ensures Replace(Replace(Replace([ch], '&', "&amp;"), '<', "&lt;"), '>', "&gt;") == Entity(ch)
  {
    ReplaceOne(ch, '&', "&amp;");
    ReplaceOne(ch, '<', "&lt;");
    ReplaceOne(ch, '>', "&gt;");
    if ch == '&' {
      ReplaceAbsent("&amp;", '<', "&lt;");
      ReplaceAbsent("&amp;", '>', "&gt;");
    } else if ch == '<' {
      ReplaceAbsent("&lt;", '>', "&gt;");
    }
  }

  /** Replacing `&` first keeps the later replacements from touching its output. */
  lemma {:induction false} EscapeHtmlIsOnePass(text: string)
    ensures EscapeHtml(text) == EscapeHtmlOnePass(text)
  {
    if text == "" {
    } else {
      var head, tail := [text[0]], text[1..];
      assert text == head + tail;
      ReplaceAppend(head, tail, '&', "&amp;");
      var head1, tail1 := Replace(head, '&', "&amp;"), Replace(tail, '&', "&amp;");
      ReplaceAppend(head1, tail1, '<', "&lt;");
      ReplaceAppend(Replace(head1, '<', "&lt;"), Replace(tail1, '<', "&lt;"), '>', "&gt;");
      EscapeOneCharacter(text[0]);
      EscapeHtmlIsOnePass(tail);
    }
  }

  lemma {:induction false} NoRawAngleBracket(text: string)
    ensures '<' !in EscapeHtml(text) && '>' !in EscapeHtml(text)
  {
    EscapeHtmlIsOnePass(text);
    if text == "" {
    } else {
      NoRawAngleBracket(text[1..]);
      EscapeHtmlIsOnePass(text[1..]);
    }
  }

  /** What an HTML reader shows: the three entities decoded, everything else as is. */
  function UnescapeHtml(s: string): string {
    if s == "" then ""
    else if "&amp;" <= s then "&" + UnescapeHtml(s[5..])
    else if "&lt;" <= s then "<" + UnescapeHtml(s[4..])
    else if "&gt;" <= s then ">" + UnescapeHtml(s[4..])
    else [s[0]] + UnescapeHtml(s[1..])
  }

  lemma DecodeEntity(ch: char, rest: string)
    ensures UnescapeHtml(Entity(ch) + rest) == [ch] + UnescapeHtml(rest)
  {
    var s := Entity(ch) + rest;
    match ch
    case '&' => assert "&amp;" <= s && s[5..] == rest;
    case '<' => assert s[1] == 'l' && "&lt;" <= s && s[4..] == rest;
    case '>' => assert s[1] == 'g' && "&gt;" <= s && s[4..] == rest;
    case _ => assert s[0] == ch && s[1..] == rest;
  }

  lemma {:induction false} HtmlRoundTrip(text: string)
    ensures UnescapeHtml(EscapeHtml(text)) == text
  {
    EscapeHtmlIsOnePass(text);
    if text == "" {
    } else {
      HtmlRoundTrip(text[1..]);
      EscapeHtmlIsOnePass(text[1..]);
      DecodeEntity(text[0], EscapeHtmlOnePass(text[1..]));
    }
  }

  // ----- MarkdownV2 -----

  predicate Reserved(ch: char) {
    ch in "_*[]()~`>#+-=|{}.!"
  }

  function EscapeMarkdown(text: string): string {
    if text == "" then ""
    else (if Reserved(text[0]) then ['\\', text[0]] else [text[0]]) + EscapeMarkdown(text[1..])
  }

  lemma {:induction false} EscapeMarkdownPush(text: string, ch: char)
    ensures EscapeMarkdown(text + [ch]) == EscapeMarkdown(text) + (if Reserved(ch) then ['\\', ch] else [ch])
  {
    if text == "" {
      assert text + [ch] == [ch];
    } else {
      EscapeMarkdownPush(text[1..], ch);
      assert (text + [ch])[0] == text[0] && (text + [ch])[1..] == text[1..] + [ch];
    }
  }

  method EscapeMarkdownV2(text: string) returns (out: string)
    ensures out == EscapeMarkdown(text)
  {
    out := "";
    for i := 0 to |text|
      invariant out == EscapeMarkdown(text[..i])
    {
      EscapeMarkdownPush(text[..i], text[i]);
      assert text[..i + 1] == text[..i] + [text[i]];
      if Reserved(text[i]) {
        out := out + ['\\'];
      }
      out := out + [text[i]];
    }
    assert text[..|text|] == text;
  }

  /** Drops a backslash only where it stands before a reserved character. */
  function UnescapeReserved(s: string): string {
    if s == "" then ""
    else if s[0] == '\\' && |s| > 1 && Reserved(s[1]) then [s[1]] + UnescapeReserved(s[2..])
    else [s[0]] + UnescapeReserved(s[1..])
  }

  lemma EscapedHead(text: string)
    requires text != ""
    ensures EscapeMarkdown(text) != ""
    ensures EscapeMarkdown(text)[0] == if Reserved(text[0]) then '\\' else text[0]
    ensures var k := if Reserved(text[0]) then 2 else 1;
            k <= |EscapeMarkdown(text)| && EscapeMarkdown(text)[k..] == EscapeMarkdown(text[1..])
  {
  }

  /** The escaper is inverted on every text, one with backslashes included. */
  lemma {:induction false} MarkdownRoundTrip(text: string)
    ensures UnescapeReserved(EscapeMarkdown(text)) == text
  {
    if text == "" {
    } else {
      MarkdownRoundTrip(text[1..]);
      EscapedHead(text);
      if text[1..] != "" {
        EscapedHead(text[1..]);
      }
    }
  }

  /** Characters that a backslash escapes in MarkdownV2: code points 1 to 126. */
  predicate Escapable(ch: char) {
    1 <= ch as int <= 126
  }

  /** ASCII punctuation that MarkdownV2 gives a meaning, by code point. */
  predicate Special(ch: char) {
    var c := ch as int;
    || c == 33 || c == 35 || 40 <= c <= 43 || 45 <= c <= 46 || 61 <= c <= 62
    || c == 91 || c == 93 || 95 <= c <= 96 || 123 <= c <= 126
  }

  /** That is what counts as reserved, here and for a reader. */
  lemma ReservedIsSpecial(ch: char)
    ensures Reserved(ch) <==> Special(ch)
  {
  }

  /**
    Telegram's rule: a backslash makes any following character of code 1 to 126
    ordinary, and a reserved character that is not escaped is an error.
  */
  function ReadMarkdown(s: string): (r: Option<string>)
    ensures r.Some? ==> |r.value| <= |s|
  {
    if s == "" then Some("")
    else if s[0] == '\\' && |s| > 1 && Escapable(s[1]) then Prepend(s[1], ReadMarkdown(s[2..]))
    else if Reserved(s[0]) then None
    else Prepend(s[0], ReadMarkdown(s[1..]))
  }

  function Prepend(ch: char, r: Option<string>): Option<string> {
    if r.None? then None else Some([ch] + r.value)
  }

  /** No backslash of the text stands before a character it would escape. */
  predicate BackslashSafe(text: string) {
    forall i :: 0 <= i < |text| - 1 ==> text[i] == '\\' ==> !Escapable(text[i + 1])
  }

  lemma BackslashSafeTail(text: string)
    requires text != ""
    ensures BackslashSafe(text) <==>
              BackslashSafe(text[1..]) && !(text[0] == '\\' && |text| > 1 && Escapable(text[1]))
  {
  }

  predicate SwallowsNext(text: string) {
    |text| > 1 && text[0] == '\\' && Escapable(text[1])
  }

  lemma ReservedIsEscapable(ch: char)
    ensures Reserved(ch) ==> Escapable(ch) && ch != '\\'
    ensures !Reserved('\\')
  {
  }

  lemma ReadOrdinary(text: string)
    requires text != "" && !SwallowsNext(text)
    ensures ReadMarkdown(EscapeMarkdown(text)) == Prepend(text[0], ReadMarkdown(EscapeMarkdown(text[1..])))
  {
    EscapedHead(text);
    if Reserved(text[0]) {
      ReservedIsEscapable(text[0]);
    } else if |text| > 1 {
      EscapedHead(text[1..]);
      assert EscapeMarkdown(text)[1..] == EscapeMarkdown(text[1..]);
      assert EscapeMarkdown(text)[1] == EscapeMarkdown(text[1..])[0];
    }
  }

  lemma ReadSwallowing(text: string)
    requires SwallowsNext(text)
    ensures var r := ReadMarkdown(EscapeMarkdown(text));
            r.None? || r == Prepend(text[1], ReadMarkdown(EscapeMarkdown(text[2..])))
  {
    var s, t := EscapeMarkdown(text), EscapeMarkdown(text[1..]);
    EscapedHead(text);
    EscapedHead(text[1..]);
    assert s[0] == '\\' && s[1..] == t && s[1] == t[0] && s[2..] == t[1..];
    if Reserved(text[1]) {
      ReadRawReserved(t[1..]);
    } else {
      assert text[1..][1..] == text[2..];
    }
  }

  lemma ReadRawReserved(s: string)
    requires s != "" && Reserved(s[0])
    ensures ReadMarkdown(s).None?
  {
  }

  /**
    Reading the escaped text by Telegram's rule: either the text comes back, or a
    backslash was swallowed and the result is shorter or an error.
  */
  lemma {:induction false} ReadEscaped(text: string)
    ensures var r := ReadMarkdown(EscapeMarkdown(text));
            if BackslashSafe(text) then r == Some(text) else r.None? || |r.value| < |text|
  {
    if text == "" {
    } else if SwallowsNext(text) {
      BackslashSafeTail(text);
      ReadEscaped(text[2..]);
      ReadSwallowing(text);
    } else {
      BackslashSafeTail(text);
      ReadEscaped(text[1..]);
      ReadOrdinary(text);
      assert [text[0]] + text[1..] == text;
    }
  }

  /** Under Telegram's own rule the round trip holds exactly for `BackslashSafe` texts. */
  lemma MarkdownReadExactly(text: string)
    ensures ReadMarkdown(EscapeMarkdown(text)) == Some(text) <==> BackslashSafe(text)
  {
    ReadEscaped(text);
  }

  // ----- a bold heading -----

  datatype Element = Element(inner: string, rest: string)

  function PrependInner(ch: char, r: Option<Element>): Option<Element> {
    if r.None? then None else Some(Element([ch] + r.value.inner, r.value.rest))
  }

  /** Telegram's rule past an opening star: the element ends at the first star that is not escaped. */
  function ReadBold(s: string): (r: Option<Element>)
    ensures r.Some? ==> |r.value.rest| < |s|
  {
    if s == "" then None
    else if s[0] == '\\' && |s| > 1 && Escapable(s[1]) then PrependInner(s[1], ReadBold(s[2..]))
    else if s[0] == '*' then Some(Element("", s[1..]))
    else if Reserved(s[0]) then None
    else PrependInner(s[0], ReadBold(s[1..]))
  }

  lemma DropFront(a: string, b: string, k: nat)
    requires k <= |a|
    ensures (a + b)[k..] == a[k..] + b
  {
  }

  lemma BoldOrdinary(text: string, tail: string)
    requires text != "" && !SwallowsNext(text) && tail != "" && tail[0] == '*' && text != "\\"
    ensures ReadBold(EscapeMarkdown(text) + tail)
         == PrependInner(text[0], ReadBold(EscapeMarkdown(text[1..]) + tail))
  {
    var s := EscapeMarkdown(text);
    EscapedHead(text);
    DropFront(s, tail, if Reserved(text[0]) then 2 else 1);
    if Reserved(text[0]) {
      ReservedIsEscapable(text[0]);
    } else if |text| > 1 {
      EscapedHead(text[1..]);
      assert s[1] == s[1..][0];
    }
  }

  lemma BoldSwallowing(text: string, tail: string)
    requires SwallowsNext(text)
    ensures var r := ReadBold(EscapeMarkdown(text) + tail);
            || r.None? || r.value.inner == "\\"
            || r == PrependInner(text[1], ReadBold(EscapeMarkdown(text[2..]) + tail))
  {
    var s, t := EscapeMarkdown(text), EscapeMarkdown(text[1..]);
    EscapedHead(text);
    EscapedHead(text[1..]);
    assert s[0] == '\\' && s[1..] == t && s[1] == t[0] && s[2..] == t[1..];
    DropFront(s, tail, 2);
    if Reserved(text[1]) {
      assert (t[1..] + tail)[0] == text[1];
    } else {
      assert text[1..][1..] == text[2..];
    }
  }

  lemma SafeBeforeStar(text: string)
    requires text != ""
    ensures BackslashSafe(text + "*") <==>
              BackslashSafe(text[1..] + "*") && !SwallowsNext(text) && text != "\\"
  {
    assert (text + "*")[1..] == text[1..] + "*";
    BackslashSafeTail(text + "*");
  }

  /** Past the opening star of a heading: it closes where the title ends, or a backslash was swallowed. */
  lemma {:induction false} ReadHeading(title: string, rest: string)
    ensures var r := ReadBold(EscapeMarkdown(title) + ("*" + rest));
            if BackslashSafe(title + "*") then r == Some(Element(title, rest))
            else r.None? || |r.value.inner| < |title| || |r.value.rest| < |rest|
  {
    var tail := "*" + rest;
    if title == "" {
      assert EscapeMarkdown(title) + tail == tail && tail[1..] == rest;
    } else if title == "\\" {
      SafeBeforeStar(title);
      assert EscapeMarkdown(title) + tail == "\\*" + rest && ("\\*" + rest)[2..] == rest;
    } else if SwallowsNext(title) {
      SafeBeforeStar(title);
      BoldSwallowing(title, tail);
      ReadHeading(title[2..], rest);
    } else {
      SafeBeforeStar(title);
      BoldOrdinary(title, tail);
      ReadHeading(title[1..], rest);
      assert [title[0]] + title[1..] == title;
    }
  }

  // ----- rendering -----

  /** `char::is_whitespace`, the Unicode property White_Space. */
  predicate IsWhitespace(ch: char) {
    var c := ch as int;
    || 0x9 <= c <= 0xD || c == 0x20 || c == 0x85 || c == 0xA0 || c == 0x1680
    || 0x2000 <= c <= 0x200A || c == 0x2028 || c == 0x2029 || c == 0x202F || c == 0x205F || c == 0x3000
  }

  function TrimStart(s: string): string {
    if s != "" && IsWhitespace(s[0]) then TrimStart(s[1..]) else s
  }

  function TrimEnd(s: string): string {
    if s != "" && IsWhitespace(s[|s| - 1]) then TrimEnd(s[..|s| - 1]) else s
  }

  function Trim(s: string): string {
    TrimEnd(TrimStart(s))
  }

  predicate AllSpace(s: string) {
    forall i :: 0 <= i < |s| ==> IsWhitespace(s[i])
  }

  lemma {:induction false} TrimStartCuts(s: string)
    ensures var t := TrimStart(s);
            && (t != "" ==> !IsWhitespace(t[0]))
            && |t| <= |s| && s[|s| - |t|..] == t && AllSpace(s[..|s| - |t|])
  {
    if s == "" {
    } else if IsWhitespace(s[0]) {
      TrimStartCuts(s[1..]);
      var t := TrimStart(s);
      assert s[|s| - |t|..] == s[1..][|s[1..]| - |t|..];
      assert s[..|s| - |t|] == [s[0]] + s[1..][..|s[1..]| - |t|];
    }
  }

  lemma {:induction false} TrimEndCuts(s: string)
    ensures var t := TrimEnd(s);
            && (t != "" ==> !IsWhitespace(t[|t| - 1]))
            && |t| <= |s| && s[..|t|] == t && AllSpace(s[|t|..])
  {
    if s == "" {
    } else if IsWhitespace(s[|s| - 1]) {
      var front := s[..|s| - 1];
      TrimEndCuts(front);
      var t := TrimEnd(s);
      assert s[..|t|] == front[..|t|];
      assert s[|t|..] == front[|t|..] + [s[|s| - 1]];
    }
  }

  /** `str::trim` takes off exactly the white space at both ends. */
  lemma TrimIsExact(s: string) returns (before: string, after: string)
    ensures s == before + Trim(s) + after && AllSpace(before) && AllSpace(after)
    ensures var t := Trim(s); t != "" ==> !IsWhitespace(t[0]) && !IsWhitespace(t[|t| - 1])
  {
    var mid := TrimStart(s);
    TrimStartCuts(s);
    TrimEndCuts(mid);
    before, after := s[..|s| - |mid|], mid[|Trim(s)|..];
    Reassemble(s, mid, Trim(s));
  }

  /** What trims to nothing is all white space. */
  lemma BlankMeans(s: string)
    ensures Trim(s) == "" <==> AllSpace(s)
  {
    var before, after := TrimIsExact(s);
    if Trim(s) != "" {
      assert !IsWhitespace(s[|before|]);
    }
  }

  lemma Reassemble(s: string, mid: string, t: string)
    requires |t| <= |mid| <= |s| && s[|s| - |mid|..] == mid && mid[..|t|] == t
    ensures s == s[..|s| - |mid|] + t + mid[|t|..] && (t != "" ==> t[0] == mid[0])
  {
    assert mid == t + mid[|t|..];
    assert s == s[..|s| - |mid|] + mid;
  }

  function Heading(title: string, format: Format): string {
    match format
    case Plain => title
    case Markdown => "*" + title + "*"
    case MarkdownV2 => "*" + EscapeMarkdown(title) + "*"
    case Html => "<b>" + EscapeHtml(title) + "</b>"
  }

  function RenderBody(title: Option<string>, text: string, format: Format): string {
    if title.None? || Trim(title.value) == "" then text
    else
      var heading := Heading(Trim(title.value), format);
      if Trim(text) == "" then heading else heading + "\n" + text
  }

  /** The characters of `s` before the first `stop`. */
  function Before(s: string, stop: char): string {
    if s == "" || s[0] == stop then "" else [s[0]] + Before(s[1..], stop)
  }

  lemma {:induction false} BeforeStops(s: string, rest: string, stop: char)
    requires stop !in s && rest != "" && rest[0] == stop
    ensures Before(s + rest, stop) == s
  {
    if s == "" {
      assert s + rest == rest;
    } else {
      BeforeStops(s[1..], rest, stop);
      assert (s + rest)[0] == s[0] && (s + rest)[1..] == s[1..] + rest;
    }
  }

  /** What follows the heading in a rendered body. */
  function AfterHeading(text: string): string {
    if Trim(text) == "" then "" else "\n" + text
  }

  /**
    A title cannot break out of its HTML heading: whatever characters it has, the
    bold element of the rendered body closes where the title ends and decodes to it.
  */
  lemma HtmlTitleIsContained(title: string, text: string)
    requires Trim(title) != ""
    ensures var body := RenderBody(Some(title), text, Html);
            "<b>" <= body && UnescapeHtml(Before(body[3..], '<')) == Trim(title)
  {
    var body := RenderBody(Some(title), text, Html);
    var inner := EscapeHtml(Trim(title));
    var rest := "</b>" + AfterHeading(text);
    assert body == "<b>" + (inner + rest);
    assert body[3..] == inner + rest;
    NoRawAngleBracket(Trim(title));
    BeforeStops(inner, rest, '<');
    HtmlRoundTrip(Trim(title));
  }

  /**
    In MarkdownV2 it can: the bold heading closes where the title ends, and reads as the
    title, exactly when no backslash of it stands before an escapable character, the
    closing star included.
  */
  lemma MarkdownTitleIsContained(title: string, text: string)
    requires Trim(title) != ""
    ensures var body := RenderBody(Some(title), text, MarkdownV2);
            && "*" <= body
            && (ReadBold(body[1..]) == Some(Element(Trim(title), AfterHeading(text)))
                <==> BackslashSafe(Trim(title) + "*"))
  {
    var body := RenderBody(Some(title), text, MarkdownV2);
    var inner, tail := EscapeMarkdown(Trim(title)), "*" + AfterHeading(text);
    assert body == "*" + (inner + tail);
    assert body[1..] == inner + tail;
    ReadHeading(Trim(title), AfterHeading(text));
  }

  /** A title that ends in a backslash swallows the closing star. */
  lemma StarIsSwallowed()
    ensures RenderBody(Some("a\\"), "", MarkdownV2) == "*a\\*" && ReadBold("a\\*") == None
  {
    var title := "a\\";
    assert TrimStart(title) == title && TrimEnd(title) == title;
    assert EscapeMarkdown(title) == title by {
      assert title[1..] == "\\" && "\\"[1..] == "";
    }
    assert Trim("") == "";
    assert "a\\*"[1..] == "\\*" && "\\*"[2..] == "";
  }

  /** The text part is never altered: it is the end of the body, blank texts under a title aside. */
  lemma TextIsVerbatim(title: Option<string>, text: string, format: Format)
    requires Trim(text) != "" || title.None? || Trim(title.value) == ""
    ensures var body := RenderBody(title, text, format);
            |text| <= |body| && body[|body| - |text|..] == text
  {
  }

  /** The body an entry is sent with: the target's prefix, then the rendered message. */
  function BodyOf(message: QueuedMessage, target: Target): string {
    target.prefix.GetOr("") + RenderBody(message.title, message.text, message.format.GetOr(target.format))
  }

  /**
    `body` is the message as it should read: the prefix, then the title trimmed and in
    bold on a line of its own, then the text; a blank title or a blank text under a title
    is left out.
  */
  predicate Says(body: string, prefix: string, title: Option<string>, text: string, format: Format) {
    if title.None? || Trim(title.value) == "" then body == prefix + text
    else
      var bold := match format
                  case Plain => Trim(title.value)
                  case Markdown => "*" + Trim(title.value) + "*"
                  case MarkdownV2 => "*" + EscapeMarkdown(Trim(title.value)) + "*"
                  case Html => "<b>" + EscapeHtml(Trim(title.value)) + "</b>";
      if Trim(text) == "" then body == prefix + bold else body == prefix + bold + "\n" + text
  }

  /** What is sent says what was asked, in the message's own format or else the target's. */
  lemma BodySays(message: QueuedMessage, target: Target)
    ensures var prefix := if target.prefix.Some? then target.prefix.value else "";
            var format := if message.format.Some? then message.format.value else target.format;
            Says(BodyOf(message, target), prefix, message.title, message.text, format)
  {
    var prefix := target.prefix.GetOr("");
    if message.title.Some? && Trim(message.title.value) != "" {
      var bold := Heading(Trim(message.title.value), message.format.GetOr(target.format));
      assert prefix + (bold + "\n" + message.text) == prefix + bold + "\n" + message.text;
    }
  }
}
