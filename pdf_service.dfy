/** The story list `generate_pdf` hands to ReportLab (backend/app/pdf_service.py):
    the markup escaping of each message, the role-to-paragraph dispatch, the
    font fallback and the once-only font registration. ReportLab's layout and
    the bytes it produces are not part of this model. */
module PdfService {
  import opened Base

  const ChineseFont := "ChineseFont"
  const FallbackFont := "Helvetica"

  /** `s.replace(c, r)` for a one-character pattern. */
  function ReplaceChar(s: string, c: char, r: string): string
  {
    if s == [] then [] else (if s[0] == c then r else [s[0]]) + ReplaceChar(s[1..], c, r)
  }

  /** The escaping applied to each message, in the source's order:
      `<` first, then `>`, then newlines. */
  function Escape(s: string): string
  {
    ReplaceChar(ReplaceChar(ReplaceChar(s, '<', "&lt;"), '>', "&gt;"), '\n', "<br/>")
  }

  /** What one input character turns into. */
  function EscapeChar(c: char): string
  {
    if c == '<' then "&lt;" else if c == '>' then "&gt;" else if c == '\n' then "<br/>" else [c]
  }

  /** The reference: each input character escaped on its own, in one pass. */
  function EscapeEach(s: string): string
  {
    if s == [] then [] else EscapeChar(s[0]) + EscapeEach(s[1..])
  }

  lemma {:induction false} ReplaceAppend(a: string, b: string, c: char, r: string)
    ensures ReplaceChar(a + b, c, r) == ReplaceChar(a, c, r) + ReplaceChar(b, c, r)
  {
    if a == [] {
      assert a + b == b;
    } else {
      assert (a + b)[1..] == a[1..] + b;
      ReplaceAppend(a[1..], b, c, r);
    }
  }

  lemma {:induction false} ReplaceAbsent(s: string, c: char, r: string)
    requires c !in s
    ensures ReplaceChar(s, c, r) == s
  {
    if s != [] {
      ReplaceAbsent(s[1..], c, r);
    }
  }

  /** Escaping distributes over concatenation. */
  lemma EscapeAppend(a: string, b: string)
    ensures Escape(a + b) == Escape(a) + Escape(b)
  {
    ReplaceAppend(a, b, '<', "&lt;");
    var a1, b1 := ReplaceChar(a, '<', "&lt;"), ReplaceChar(b, '<', "&lt;");
    ReplaceAppend(a1, b1, '>', "&gt;");
    ReplaceAppend(ReplaceChar(a1, '>', "&gt;"), ReplaceChar(b1, '>', "&gt;"), '\n', "<br/>");
  }

  lemma ReplaceSingle(c: char, x: char, r: string)
    ensures ReplaceChar([c], x, r) == if c == x then r else [c]
  {
    assert [c][1..] == [];
    assert ReplaceChar([c], x, r) == (if c == x then r else [c]) + ReplaceChar([], x, r);
  }

  lemma EscapeOne(c: char)
    ensures Escape([c]) == EscapeChar(c)
  {
    ReplaceSingle(c, '<', "&lt;");
    if c == '<' {
      ReplaceAbsent("&lt;", '>', "&gt;");
      ReplaceAbsent("&lt;", '\n', "<br/>");
    } else {
      ReplaceSingle(c, '>', "&gt;");
      if c == '>' {
        ReplaceAbsent("&gt;", '\n', "<br/>");
      } else {
        ReplaceSingle(c, '\n', "<br/>");
      }
    }
  }

  /** The three chained replacements act like one pass over the input: the
      `&lt;`, `&gt;` and `<br/>` they insert are never escaped again. */
  lemma {:induction false} EscapeIsSinglePass(s: string)
    ensures Escape(s) == EscapeEach(s)
  {
    if s != [] {
      assert s == [s[0]] + s[1..];
      EscapeAppend([s[0]], s[1..]);
      EscapeOne(s[0]);
      EscapeIsSinglePass(s[1..]);
    }
  }

  /** Each `<` and `>` grows by three characters, each newline by four. */
  lemma {:induction false} EscapeEachLength(s: string)
    ensures |EscapeEach(s)| == |s| + 3 * multiset(s)['<'] + 3 * multiset(s)['>'] + 4 * multiset(s)['\n']
  {
    if s != [] {
      assert s == [s[0]] + s[1..];
      EscapeEachLength(s[1..]);
    }
  }

  lemma EscapeLength(s: string)
    ensures |Escape(s)| == |s| + 3 * multiset(s)['<'] + 3 * multiset(s)['>'] + 4 * multiset(s)['\n']
  {
    EscapeIsSinglePass(s);
    EscapeEachLength(s);
  }

  /** `&` is left alone, so text without `<`, `>` or newlines passes
      through unchanged. */
  lemma PlainTextUnchanged(s: string)
    requires '<' !in s && '>' !in s && '\n' !in s
    ensures Escape(s) == s
  {
    ReplaceAbsent(s, '<', "&lt;");
    ReplaceAbsent(s, '>', "&gt;");
    ReplaceAbsent(s, '\n', "<br/>");
  }

  /** No newline survives escaping. */
  lemma {:induction false} EscapedHasNoNewline(s: string)
    ensures '\n' !in Escape(s)
  {
    EscapeIsSinglePass(s);
    EscapeEachNoNewline(s);
  }

  lemma {:induction false} EscapeEachNoNewline(s: string)
    ensures '\n' !in EscapeEach(s)
  {
    if s != [] {
      EscapeEachNoNewline(s[1..]);
    }
  }

  /** A ReportLab `ParagraphStyle`, with the attributes the source sets. */
  datatype ParaStyle = ParaStyle(
    name: string, parent: string, fontName: string, fontSize: nat,
    leading: Option<nat>, spaceAfter: nat, alignment: Option<nat>, textColor: Option<string>)

  function TitleStyle(font: string): ParaStyle
  {
    ParaStyle("TitleStyle", "Heading1", font, 18, None, 20, Some(1), None)
  }

  function NormalStyle(font: string): ParaStyle
  {
    ParaStyle("NormalStyle", "Normal", font, 10, Some(14), 10, None, None)
  }

  function BoldStyle(font: string): ParaStyle
  {
    ParaStyle("BoldStyle", "Normal", font, 11, Some(14), 6, None, Some("darkblue"))
  }

  /** An element of the story. */
  datatype Flowable = Paragraph(text: string, style: ParaStyle) | Spacer(width: nat, height: nat)

  /** `msg.get(key, default)` */
  function Get(msg: map<string, string>, key: string, default: string): string
  {
    if key in msg then msg[key] else default
  }

  /** The flowables one message contributes: a bold question for the user,
      an answer and a gap for the assistant, nothing for any other role. */
  function MessageItems(msg: map<string, string>, font: string): seq<Flowable>
  {
    var content := Escape(Get(msg, "content", ""));
    if "role" in msg && msg["role"] == "user" then
      [Paragraph("Q: " + content, BoldStyle(font))]
    else if "role" in msg && msg["role"] == "assistant" then
      [Paragraph("A: " + content, NormalStyle(font)), Spacer(1, 10)]
    else
      []
  }

  function ItemsOf(messages: seq<map<string, string>>, font: string): seq<Flowable>
  {
    if messages == [] then []
    else ItemsOf(messages[..|messages| - 1], font) + MessageItems(messages[|messages| - 1], font)
  }

  /** The title page: the title, the generation time, a gap. */
  function Header(title: string, generatedAt: string, font: string): seq<Flowable>
  {
    [Paragraph(title, TitleStyle(font)),
     Paragraph("生成时间: " + generatedAt, NormalStyle(font)),
     Spacer(1, 20)]
  }

  function StoryOf(messages: seq<map<string, string>>, title: string, generatedAt: string, font: string): seq<Flowable>
  {
    Header(title, generatedAt, font) + ItemsOf(messages, font)
  }

  /** The messages' items appear in input order: the items of a
      concatenation are the concatenation of the items. */
  lemma {:induction false} ItemsAppend(a: seq<map<string, string>>, b: seq<map<string, string>>, font: string)
    ensures ItemsOf(a + b, font) == ItemsOf(a, font) + ItemsOf(b, font)
  {
    if b == [] {
      assert a + b == a;
    } else {
      var b' := b[..|b| - 1];
      assert (a + b)[..|a + b| - 1] == a + b';
      assert (a + b)[|a + b| - 1] == b[|b| - 1];
      ItemsAppend(a, b', font);
    }
  }

  function CountRole(messages: seq<map<string, string>>, role: string): nat
  {
    if messages == [] then 0
    else CountRole(messages[..|messages| - 1], role)
         + (if "role" in messages[|messages| - 1] && messages[|messages| - 1]["role"] == role then 1 else 0)
  }

  /** One item per user message, two per assistant message, none for
      tool messages or any other role. */
  lemma {:induction false} ItemsCount(messages: seq<map<string, string>>, font: string)
    ensures |ItemsOf(messages, font)| == CountRole(messages, "user") + 2 * CountRole(messages, "assistant")
  {
    if messages != [] {
      ItemsCount(messages[..|messages| - 1], font);
    }
  }

  /** The whole story: the three title-page items, then the message items. */
  lemma StoryLength(messages: seq<map<string, string>>, title: string, generatedAt: string, font: string)
    ensures |StoryOf(messages, title, generatedAt, font)|
            == 3 + CountRole(messages, "user") + 2 * CountRole(messages, "assistant")
  {
    ItemsCount(messages, font);
  }

  /** A missing content reads as the empty string. */
  lemma MissingContentIsEmpty(role: string, font: string)
    ensures MessageItems(map["role" := role], font) == MessageItems(map["role" := role, "content" := ""], font)
  {
  }

  /** `generate_pdf`'s story loop. */
  method BuildStory(messages: seq<map<string, string>>, title: string, generatedAt: string, font: string)
    returns (story: seq<Flowable>)
    ensures story == StoryOf(messages, title, generatedAt, font)
  {
    story := [];
    story := story + [Paragraph(title, TitleStyle(font))];
    story := story + [Paragraph("生成时间: " + generatedAt, NormalStyle(font))];
    story := story + [Spacer(1, 20)];
    var i := 0;
    while i < |messages|
      invariant 0 <= i <= |messages|
      invariant story == Header(title, generatedAt, font) + ItemsOf(messages[..i], font)
    {
      story := AppendMessage(story, messages[i], font);
      ItemsStep(messages, i, font);
      i := i + 1;
    }
    assert messages[..i] == messages;
  }

  /** The body of the story loop for one message. */
  method AppendMessage(story: seq<Flowable>, msg: map<string, string>, font: string) returns (story': seq<Flowable>)
    ensures story' == story + MessageItems(msg, font)
  {
    story' := story;
    var role: Option<string> := if "role" in msg then Some(msg["role"]) else None;
    var content := Get(msg, "content", "");
    var escaped := Escape(content);
    if role == Some("user") {
      story' := story' + [Paragraph("Q: " + escaped, BoldStyle(font))];
    } else if role == Some("assistant") {
      story' := story' + [Paragraph("A: " + escaped, NormalStyle(font))];
      story' := story' + [Spacer(1, 10)];
    } else if role == Some("tool") {
      // tool output is left out of the report
    }
    MessageItemsByRole(msg, font);
  }

  lemma MessageItemsByRole(msg: map<string, string>, font: string)
    ensures var role: Option<string> := if "role" in msg then Some(msg["role"]) else None;
      var e := Escape(Get(msg, "content", ""));
      MessageItems(msg, font) ==
        if role == Some("user") then [Paragraph("Q: " + e, BoldStyle(font))]
        else if role == Some("assistant") then [Paragraph("A: " + e, NormalStyle(font)), Spacer(1, 10)]
        else []
  {
  }

  lemma ItemsStep(messages: seq<map<string, string>>, i: nat, font: string)
    requires i < |messages|
    ensures ItemsOf(messages[..i + 1], font) == ItemsOf(messages[..i], font) + MessageItems(messages[i], font)
  {
    assert messages[..i + 1][..i] == messages[..i];
  }

  /** `FONT_NAME if has_font else "Helvetica"` */
  function FontFor(hasFont: bool): string
  {
    if hasFont then ChineseFont else FallbackFont
  }

  /** The module-level `_font_registered` flag and what `register_font`
      does with it. The font file's presence and whether ReportLab accepts
      it are parameters. */
  class FontRegistry {
    var registered: bool
    /** How many times registration with ReportLab was attempted. */
    ghost var attempts: nat

    constructor()
      ensures !registered && attempts == 0
    {
      registered := false;
      attempts := 0;
    }

    method RegisterFont(fileExists: bool, registrationFails: bool) returns (ok: bool)
      modifies this
      ensures ok == registered
      ensures old(registered) ==> registered && attempts == old(attempts)
      ensures !old(registered) ==> registered == (fileExists && !registrationFails)
      ensures !old(registered) ==> attempts == old(attempts) + (if fileExists then 1 else 0)
    {
      if registered {
        return true;
      }
      if fileExists {
        attempts := attempts + 1;
        if registrationFails {
          return false;
        }
        registered := true;
        return true;
      } else {
        return false;
      }
    }
  }

  /** `generate_pdf` up to the point where ReportLab lays the story out. */
  method GeneratePdf(fonts: FontRegistry, messages: seq<map<string, string>>, title: string,
                     generatedAt: string, fontFileExists: bool, registrationFails: bool)
    returns (story: seq<Flowable>)
    modifies fonts
    ensures fonts.registered == (old(fonts.registered) || (fontFileExists && !registrationFails))
    ensures story == StoryOf(messages, title, generatedAt, FontFor(fonts.registered))
  {
    var hasFont := fonts.RegisterFont(fontFileExists, registrationFails);
    var fontName := FontFor(hasFont);
    story := BuildStory(messages, title, generatedAt, fontName);
  }
}
