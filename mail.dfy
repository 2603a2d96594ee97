/** The new-message e-mail of `src/utils/mailTemplates.js`: HTML escaping of
    the message body and the normalisation of the receiver's name and of the
    message text. The static markup around the inserted values is not part of
    the model; the template is modelled by the values it inserts, in order. */
module MailTemplates {
  import opened Common
  import opened Text

  /** The five characters `escapeHtml` rewrites. */
  predicate IsSpecial(c: char) {
    c == '&' || c == '<' || c == '>' || c == '"' || c == '\''
  }

  /** Characters that open or close markup or an attribute value. */
  predicate IsMarkup(c: char) {
    c == '<' || c == '>' || c == '"' || c == '\''
  }

  predicate StartsWith(s: string, p: string) {
    |p| <= |s| && s[..|p|] == p
  }

  /** One of the five entities `escapeHtml` produces begins at position `i`. */
  predicate EntityAt(s: string, i: nat)
    requires i <= |s|
  {
    var t := s[i..];
    StartsWith(t, "&amp;") || StartsWith(t, "&lt;") || StartsWith(t, "&gt;")
    || StartsWith(t, "&quot;") || StartsWith(t, "&#039;")
  }

  /** The entity for one character (the character itself when not special). */
  function EscapeChar(c: char): (r: string)
    ensures r != [] && (r[0] == '&' <==> IsSpecial(c))
  {
    match c
    case '&' => "&amp;"
    case '<' => "&lt;"
    case '>' => "&gt;"
    case '"' => "&quot;"
    case '\'' => "&#039;"
    case _ => [c]
  }

  /** An escaped character in front of text whose every `&` begins an entity
      gives text with the same property. */
  lemma EscapedConsKeepsEntities(c: char, rest: string)
    requires forall i :: 0 <= i < |rest| && rest[i] == '&' ==> EntityAt(rest, i)
    ensures var r := EscapeChar(c) + rest;
      forall i :: 0 <= i < |r| && r[i] == '&' ==> EntityAt(r, i)
  {
    var e := EscapeChar(c);
    var r := e + rest;
    forall i | 0 <= i < |r| && r[i] == '&'
      ensures EntityAt(r, i)
    {
      if i < |e| {
        assert r[i..][..|e|] == e;
      } else {
        assert r[i..] == rest[i - |e|..];
        assert EntityAt(rest, i - |e|);
      }
    }
  }

  /** The escaped text as a per-character rewriting: it contains no markup
      character and every `&` in it begins an entity. */
  function EscapeEach(s: string): (r: string)
    ensures forall i :: 0 <= i < |r| ==> !IsMarkup(r[i])
    ensures forall i :: 0 <= i < |r| && r[i] == '&' ==> EntityAt(r, i)
  {
    if s == [] then []
    else
      var rest := EscapeEach(s[1..]);
      EscapedConsKeepsEntities(s[0], rest);
      EscapeChar(s[0]) + rest
  }

  /** `escapeHtml(str)`: the chain of `replaceAll` calls, `&` first. */
  function EscapeHtml(s: string): string {
    var amp := ReplaceChar(s, '&', "&amp;");
    var lt := ReplaceChar(amp, '<', "&lt;");
    var gt := ReplaceChar(lt, '>', "&gt;");
    var quot := ReplaceChar(gt, '"', "&quot;");
    ReplaceChar(quot, '\'', "&#039;")
  }

  /** `escapeHtml` distributes over concatenation. */
  lemma EscapeHtmlConcat(a: string, b: string)
    ensures EscapeHtml(a + b) == EscapeHtml(a) + EscapeHtml(b)
  {
    ReplaceCharConcat(a, b, '&', "&amp;");
    var a1, b1 := ReplaceChar(a, '&', "&amp;"), ReplaceChar(b, '&', "&amp;");
    ReplaceCharConcat(a1, b1, '<', "&lt;");
    var a2, b2 := ReplaceChar(a1, '<', "&lt;"), ReplaceChar(b1, '<', "&lt;");
    ReplaceCharConcat(a2, b2, '>', "&gt;");
    var a3, b3 := ReplaceChar(a2, '>', "&gt;"), ReplaceChar(b2, '>', "&gt;");
    ReplaceCharConcat(a3, b3, '"', "&quot;");
    var a4, b4 := ReplaceChar(a3, '"', "&quot;"), ReplaceChar(b3, '"', "&quot;");
    ReplaceCharConcat(a4, b4, '\'', "&#039;");
  }

  /** On one character the chain of replacements yields that character's
      entity: a later step never rewrites what an earlier one produced. */
  lemma EscapeHtmlSingle(c: char)
    ensures EscapeHtml([c]) == EscapeChar(c)
  {
    ReplaceCharSingle(c, '&', "&amp;");
    var a1 := ReplaceChar([c], '&', "&amp;");
    if c == '&' {
      assert '<' !in "&amp;" && '>' !in "&amp;" && '"' !in "&amp;" && '\'' !in "&amp;";
    } else {
      ReplaceCharSingle(c, '<', "&lt;");
      if c == '<' {
        assert '>' !in "&lt;" && '"' !in "&lt;" && '\'' !in "&lt;";
      } else {
        ReplaceCharSingle(c, '>', "&gt;");
        if c == '>' {
          assert '"' !in "&gt;" && '\'' !in "&gt;";
        } else {
          ReplaceCharSingle(c, '"', "&quot;");
          if c == '"' {
            assert '\'' !in "&quot;";
          } else {
            ReplaceCharSingle(c, '\'', "&#039;");
          }
        }
      }
    }
  }

  /** Because `&` is replaced first, the chain of `replaceAll` calls is the
      per-character rewriting. */
  lemma {:induction false} EscapeHtmlIsPerChar(s: string)
    ensures EscapeHtml(s) == EscapeEach(s)
  {
    if s != [] {
      assert s == [s[0]] + s[1..];
      EscapeHtmlConcat([s[0]], s[1..]);
      EscapeHtmlSingle(s[0]);
      EscapeHtmlIsPerChar(s[1..]);
    }
  }

  /** Decoding of the five entities (any other character is kept). */
  function Unescape(s: string): string
  {
    if s == [] then []
    else if s[0] != '&' then [s[0]] + Unescape(s[1..])
    else if StartsWith(s, "&amp;") then ['&'] + Unescape(s[5..])
    else if StartsWith(s, "&lt;") then ['<'] + Unescape(s[4..])
    else if StartsWith(s, "&gt;") then ['>'] + Unescape(s[4..])
    else if StartsWith(s, "&quot;") then ['"'] + Unescape(s[6..])
    else if StartsWith(s, "&#039;") then ['\''] + Unescape(s[6..])
    else [s[0]] + Unescape(s[1..])
  }

  lemma UnescapeStep(c: char, rest: string)
    ensures Unescape(EscapeChar(c) + rest) == [c] + Unescape(rest)
  {
    var e := EscapeChar(c);
    var s := e + rest;
    assert s[..|e|] == e;
    assert s[|e|..] == rest;
    if c == '&' {
      assert StartsWith(s, "&amp;");
    } else if c == '<' {
      assert s[1] == 'l' && !StartsWith(s, "&amp;");
      assert StartsWith(s, "&lt;");
    } else if c == '>' {
      assert s[1] == 'g' && !StartsWith(s, "&amp;") && !StartsWith(s, "&lt;");
      assert StartsWith(s, "&gt;");
    } else if c == '"' {
      assert s[1] == 'q' && !StartsWith(s, "&amp;") && !StartsWith(s, "&lt;") && !StartsWith(s, "&gt;");
      assert StartsWith(s, "&quot;");
    } else if c == '\'' {
      assert s[1] == '#' && !StartsWith(s, "&amp;") && !StartsWith(s, "&lt;") && !StartsWith(s, "&gt;");
      assert !StartsWith(s, "&quot;");
      assert StartsWith(s, "&#039;");
    } else {
      assert s[0] == c && s[1..] == rest;
    }
  }

  /** Unescaping the output of `escapeHtml` gives back its input. */
  lemma {:induction false} EscapeHtmlRoundTrip(s: string)
    ensures Unescape(EscapeHtml(s)) == s
  {
    EscapeHtmlIsPerChar(s);
    EscapeEachRoundTrip(s);
  }

  lemma {:induction false} EscapeEachRoundTrip(s: string)
    ensures Unescape(EscapeEach(s)) == s
  {
    if s != [] {
      UnescapeStep(s[0], EscapeEach(s[1..]));
      EscapeEachRoundTrip(s[1..]);
      assert s == [s[0]] + s[1..];
    }
  }

  /** The output of `escapeHtml` contains none of `<`, `>`, `"`, `'`, and each
      `&` in it begins one of the five entities. */
  lemma EscapeHtmlIsInert(s: string)
    ensures forall i :: 0 <= i < |EscapeHtml(s)| ==> !IsMarkup(EscapeHtml(s)[i])
    ensures forall i :: 0 <= i < |EscapeHtml(s)| && EscapeHtml(s)[i] == '&' ==> EntityAt(EscapeHtml(s), i)
  {
    EscapeHtmlIsPerChar(s);
  }

  /** Escaping is applied piecewise, and text without special characters is
      kept as it is: every other character is preserved in place and order. */
  lemma {:induction false} EscapeHtmlPreservesPlainText(a: string, b: string)
    ensures EscapeHtml(a + b) == EscapeHtml(a) + EscapeHtml(b)
    ensures (forall i :: 0 <= i < |a| ==> !IsSpecial(a[i])) ==> EscapeHtml(a) == a
  {
    EscapeHtmlConcat(a, b);
    if forall i :: 0 <= i < |a| ==> !IsSpecial(a[i]) {
      EscapeHtmlIsPerChar(a);
      EscapeEachPlain(a);
    }
  }

  lemma {:induction false} EscapeEachPlain(a: string)
    requires forall i :: 0 <= i < |a| ==> !IsSpecial(a[i])
    ensures EscapeEach(a) == a
  {
    if a != [] {
      EscapeEachPlain(a[1..]);
      assert a == [a[0]] + a[1..];
    }
  }

  /** Longest message excerpt the e-mail shows, in UTF-16 code units: the
      unit JavaScript's `slice` counts. */
  const MaxMessageUnits: nat := 1200

  /** The UTF-16 code units of one character: two for a character outside
      the Basic Multilingual Plane (a surrogate pair), one otherwise. */
  function Units(c: char): (n: nat)
    ensures n == 1 || n == 2
    ensures n == 2 <==> c as int >= 0x10000
  {
    if c as int >= 0x10000 then 2 else 1
  }

  /** The length JavaScript reports for a string. */
  function Utf16Len(s: string): nat {
    if s == [] then 0 else Units(s[0]) + Utf16Len(s[1..])
  }

  /** A string is at least as long in code units as in characters, and no
      more than twice as long; the two agree exactly when every character
      lies in the Basic Multilingual Plane. */
  lemma {:induction false} Utf16LenBounds(s: string)
    ensures |s| <= Utf16Len(s) <= 2 * |s|
    ensures Utf16Len(s) == |s| <==> forall i :: 0 <= i < |s| ==> s[i] as int < 0x10000
  {
    if s != [] {
      Utf16LenBounds(s[1..]);
      if Utf16Len(s) == |s| {
        forall i | 0 <= i < |s|
          ensures s[i] as int < 0x10000
        {
          if i > 0 {
            assert s[i] == s[1..][i - 1];
          }
        }
      }
      if forall i :: 0 <= i < |s| ==> s[i] as int < 0x10000 {
        assert forall i :: 0 <= i < |s[1..]| ==> s[1..][i] == s[i + 1];
      }
    }
  }

  /** The longest prefix of `s` whose code units fit in `budget`: a
      character is kept only when both its units fit. */
  function TakeUnits(s: string, budget: nat): (r: string)
    ensures r <= s && Utf16Len(r) <= budget
    ensures Utf16Len(s) <= budget ==> r == s
    ensures |r| < |s| ==> Utf16Len(r) + Units(s[|r|]) > budget
  {
    if s == [] || Units(s[0]) > budget then []
    else
      var rest := TakeUnits(s[1..], budget - Units(s[0]));
      assert ([s[0]] + rest)[1..] == rest;
      [s[0]] + rest
  }

  /** `safeName`: the trimmed receiver name, or "Merhaba" when that is empty
      or the name is missing. */
  function SafeName(receiverName: Option<string>): (r: string)
    ensures r != [] && !IsJsSpace(r[0]) && !IsJsSpace(r[|r| - 1])
    ensures receiverName.Some? && Trim(receiverName.value) != [] ==> r == Trim(receiverName.value)
    ensures (receiverName.None? || Trim(receiverName.value) == []) ==> r == "Merhaba"
  {
    var t := if receiverName.Some? then Trim(receiverName.value) else "";
    if t == "" then "Merhaba" else t
  }

  /** `safeMsg`: the message text (empty when it is missing) cut to at most
      1200 UTF-16 code units; the whole text when it fits, otherwise the
      longest prefix that fits, so the next character would not. */
  function SafeMsg(messageText: Option<string>): (r: string)
    ensures Utf16Len(r) <= MaxMessageUnits
    ensures messageText.None? ==> r == []
    ensures messageText.Some? ==> r <= messageText.value
    ensures messageText.Some? && Utf16Len(messageText.value) <= MaxMessageUnits ==> r == messageText.value
    ensures messageText.Some? && |r| < |messageText.value| ==>
      Utf16Len(r) + Units(messageText.value[|r|]) > MaxMessageUnits
  {
    TakeUnits(if messageText.Some? then messageText.value else "", MaxMessageUnits)
  }

  /** On text of the Basic Multilingual Plane code units are characters, so
      the cut is the plain first-1200-characters slice. */
  lemma SafeMsgOfPlaneZeroText(text: string)
    requires forall i :: 0 <= i < |text| ==> text[i] as int < 0x10000
    ensures SafeMsg(Some(text)) == if |text| <= MaxMessageUnits then text else text[..MaxMessageUnits]
  {
    var r := SafeMsg(Some(text));
    Utf16LenBounds(text);
    Utf16LenBounds(r);
    if |text| > MaxMessageUnits {
      assert forall i :: 0 <= i < |r| ==> r[i] == text[i];
    }
  }

  /** The parameters of `buildNewMessageEmailTemplate`; `None` means the
      caller left the parameter out, so its default applies. */
  datatype EmailParams = EmailParams(
    receiverName: Option<string>,
    senderRoleLabel: Option<string>,
    messageText: Option<string>,
    chatUrl: Option<string>,
    brandName: Option<string>,
    supportEmail: Option<string>)

  function OrDefault(o: Option<string>, default: string): string {
    if o.Some? then o.value else default
  }

  const DefaultRoleLabel: string := "Karşı taraf"
  const DefaultChatUrl: string := "https://trphone.net"
  const DefaultBrandName: string := "TrPhone"
  const DefaultSupportEmail: string := "destek@trphone.net"

  /** The values the template inserts into its markup. The brand appears in
      the title, the header and the footer, the chat URL three times and the
      support address twice; the year comes from the clock and is a
      parameter. */
  datatype EmailContent = EmailContent(
    brandName: string, name: string, roleLabel: string, message: string,
    chatUrl: string, supportEmail: string, year: string)

  /** `buildNewMessageEmailTemplate`, by the values it inserts. */
  function BuildEmail(p: EmailParams, year: string): EmailContent {
    EmailContent(
      OrDefault(p.brandName, DefaultBrandName),
      SafeName(p.receiverName),
      OrDefault(p.senderRoleLabel, DefaultRoleLabel),
      EscapeHtml(SafeMsg(p.messageText)),
      OrDefault(p.chatUrl, DefaultChatUrl),
      OrDefault(p.supportEmail, DefaultSupportEmail),
      year)
  }

  /** Whatever the message says, its value cannot open a tag or close an
      attribute, and decoding it gives back the (shortened) message. */
  lemma MessageIsInert(p: EmailParams, year: string)
    ensures var m := BuildEmail(p, year).message;
            (forall i :: 0 <= i < |m| ==> !IsMarkup(m[i])) && Unescape(m) == SafeMsg(p.messageText)
  {
    EscapeHtmlIsInert(SafeMsg(p.messageText));
    EscapeHtmlRoundTrip(SafeMsg(p.messageText));
  }

  /** The name normalisation only trims: a non-empty name with no white
      space at either end is kept as it is, markup characters included. */
  lemma MarkupNameIsKept(n: string)
    requires n != [] && !IsJsSpace(n[0]) && !IsJsSpace(n[|n| - 1])
    ensures SafeName(Some(n)) == n
    ensures forall i :: 0 <= i < |n| && IsMarkup(n[i]) ==> IsMarkup(SafeName(Some(n))[i])
  {
    TrimOfTrimmed(n);
  }

  /** The other values are inserted without escaping: every name not framed
      by white space, and every role label, reaches the mail unchanged,
      whatever markup it holds. */
  lemma OtherValuesAreVerbatim(p: EmailParams, year: string)
    ensures (p.receiverName.Some? && p.receiverName.value != [] && !IsJsSpace(p.receiverName.value[0])
             && !IsJsSpace(p.receiverName.value[|p.receiverName.value| - 1])) ==>
      BuildEmail(p, year).name == p.receiverName.value
    ensures p.senderRoleLabel.Some? ==> BuildEmail(p, year).roleLabel == p.senderRoleLabel.value
  {
    if p.receiverName.Some? && p.receiverName.value != [] && !IsJsSpace(p.receiverName.value[0])
      && !IsJsSpace(p.receiverName.value[|p.receiverName.value| - 1]) {
      MarkupNameIsKept(p.receiverName.value);
    }
  }

  /** A template built with every parameter left out greets "Merhaba", shows
      an empty message, and uses the default role label, link, brand and
      support address. */
  lemma DefaultsApply(year: string)
    ensures BuildEmail(EmailParams(None, None, None, None, None, None), year)
      == EmailContent("TrPhone", "Merhaba", "Karşı taraf", "", "https://trphone.net", "destek@trphone.net", year)
  {
    assert EscapeHtml("") == "";
  }
}
