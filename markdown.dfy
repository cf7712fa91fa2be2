/** The message renderer's markdown parser: fenced code blocks, headers, bullet and
    numbered lists, and inline code, bold and italic. A styled span is abstracted to its
    text and a tag naming its style. */
module Markdown {
  import opened Wrappers
  import opened Text

  datatype Tag =
    | Raw          // unstyled text
    | Code         // inline code
    | Bold
    | Italic
    | Heading(level: nat)
    | Marker       // a list bullet or number
    | Frame        // the header and footer of a code block
    | CodeBody     // a line inside a code block

  datatype Span = Span(text: string, tag: Tag)

  /** One rendered line. */
  type MdLine = seq<Span>

  // ---------------------------------------------------------------------------
  // Inline spans
  // ---------------------------------------------------------------------------

  /** The first delimited stretch: the position `s` of the first delimiter and the length
      `e` of the text up to the next one. */
  function Pair(rem: string, d: string): (r: Option<(nat, nat)>)
    requires d != []
    ensures r.Some? ==> (r.value.0 + |d| + r.value.1 + |d| <= |rem|
      && rem[r.value.0..r.value.0 + |d|] == d
      && rem[r.value.0 + |d| + r.value.1..r.value.0 + |d| + r.value.1 + |d|] == d)
  {
    match Find(rem, d)
    case None => None
    case Some(s) =>
      match Find(rem[s + |d|..], d)
      case None => None
      case Some(e) =>
        OccursInRest(rem, s + |d|, d, e);
        Some((s, e))
  }

  /** An occurrence in a suffix is an occurrence in the whole text. */
  lemma OccursInRest(rem: string, m: nat, d: string, e: nat)
    requires m <= |rem| && OccursAt(rem[m..], d, e)
    ensures m + e + |d| <= |rem| && rem[m + e..m + e + |d|] == d
  {
    assert rem[m..][e..e + |d|] == rem[m + e..m + e + |d|];
  }

  /** The delimiters a styled span stood between in the markdown text. */
  function Delimiter(tag: Tag): string
  {
    match tag
    case Code => "`"
    case Bold => "**"
    case Italic => "*"
    case _ => []
  }

  /** The markdown text a span list stands for: each span's text between its delimiters. */
  function Render(spans: seq<Span>): string
  {
    if spans == [] then []
    else Delimiter(spans[0].tag) + spans[0].text + Delimiter(spans[0].tag) + Render(spans[1..])
  }

  lemma {:induction false} RenderAppend(a: seq<Span>, b: seq<Span>)
    ensures Render(a + b) == Render(a) + Render(b)
  {
    if a == [] {
      assert a + b == b;
    } else {
      assert (a + b)[1..] == a[1..] + b;
      RenderAppend(a[1..], b);
    }
  }

  /** What one round of the inline loop cuts off: its spans, and where the rest begins. */
  datatype Cut = Cut(spans: seq<Span>, next: nat)

  /** A slice cut in three. */
  lemma Split3(s: string, a: nat, b: nat, c: nat, n: nat)
    requires a <= b <= c <= n <= |s|
    ensures s[a..n] == s[a..b] + s[b..c] + s[c..n]
  {
    assert s[a..n] == s[a..b] + s[b..n];
    assert s[b..n] == s[b..c] + s[c..n];
  }

  /** The round for a stretch styled `tag` at `s` of inner length `e`: the raw text before
      it (when there is any), then the stretch without its delimiters. */
  function Delimited(rem: string, s: nat, e: nat, tag: Tag): (c: Cut)
    requires s + |Delimiter(tag)| + e + |Delimiter(tag)| <= |rem|
    ensures c.next == s + |Delimiter(tag)| + e + |Delimiter(tag)|
    ensures c.spans != [] && c.spans[|c.spans| - 1].tag == tag
    ensures s > 0 ==> c.spans[0] == Span(rem[..s], Raw)
  {
    var d := Delimiter(tag);
    var pre: seq<Span> := if s > 0 then [Span(rem[..s], Raw)] else [];
    Cut(pre + [Span(rem[s + |d|..s + |d| + e], tag)], s + |d| + e + |d|)
  }

  /** The text up to the end of a stretch between two `d`: what comes before, the first
      `d`, the stretch, the second `d`. */
  lemma StretchSplit(rem: string, s: nat, e: nat, d: string)
    requires s + |d| + e + |d| <= |rem|
    requires rem[s..s + |d|] == d && rem[s + |d| + e..s + |d| + e + |d|] == d
    ensures rem[..s + |d| + e + |d|] == rem[..s] + (d + rem[s + |d|..s + |d| + e] + d)
  {
    var n := s + |d| + e + |d|;
    Split3(rem, s, s + |d|, s + |d| + e, n);
    assert rem[..n] == rem[..s] + rem[s..n];
  }

  lemma RenderOne(sp: Span)
    ensures Render([sp]) == Delimiter(sp.tag) + sp.text + Delimiter(sp.tag)
  {
    assert Render([sp]) == Delimiter(sp.tag) + sp.text + Delimiter(sp.tag) + Render([]);
  }

  lemma RenderRawThen(x: string, sp: Span)
    ensures Render([Span(x, Raw), sp]) == x + (Delimiter(sp.tag) + sp.text + Delimiter(sp.tag))
  {
    RenderAppend([Span(x, Raw)], [sp]);
    assert [Span(x, Raw)] + [sp] == [Span(x, Raw), sp];
    RenderOne(sp);
    RenderOne(Span(x, Raw));
  }

  /** The spans of a delimited round: the raw text before the stretch, if any, then the
      stretch. */
  lemma DelimitedSpans(rem: string, s: nat, e: nat, d: string, tag: Tag)
    requires Delimiter(tag) == d && s + |d| + e + |d| <= |rem|
    ensures Delimited(rem, s, e, tag).spans
      == (if s > 0 then [Span(rem[..s], Raw), Span(rem[s + |d|..s + |d| + e], tag)] else [Span(rem[s + |d|..s + |d| + e], tag)])
  {
    if s == 0 {
      assert [] + [Span(rem[s + |d|..s + |d| + e], tag)] == [Span(rem[s + |d|..s + |d| + e], tag)];
    }
  }

  /** A delimited round stands for the text it consumes when that text starts and ends
      with the delimiter. */
  lemma DelimitedRender(rem: string, s: nat, e: nat, d: string, tag: Tag)
    requires Delimiter(tag) == d && s + |d| + e + |d| <= |rem|
    requires rem[s..s + |d|] == d && rem[s + |d| + e..s + |d| + e + |d|] == d
    ensures Render(Delimited(rem, s, e, tag).spans) == rem[..s + |d| + e + |d|]
  {
    var mid := Span(rem[s + |d|..s + |d| + e], tag);
    StretchSplit(rem, s, e, d);
    DelimitedSpans(rem, s, e, d, tag);
    if s > 0 {
      RenderRawThen(rem[..s], mid);
    } else {
      RenderOne(mid);
      assert rem[..s] == [];
    }
  }

  /** One round of the inline loop: inline code is tried first, then bold, then italic;
      without a complete pair of any, all of the rest is one raw span. */
  function Step(rem: string): (c: Cut)
    requires rem != []
    ensures 0 < c.next <= |rem| && c.spans != []
  {
    match Pair(rem, "`")
    case Some((s, e)) => Delimited(rem, s, e, Code)
    case None =>
      match Pair(rem, "**")
      case Some((s, e)) => Delimited(rem, s, e, Bold)
      case None =>
        match Pair(rem, "*")
        case Some((s, e)) => Delimited(rem, s, e, Italic)
        case None => Cut([Span(rem, Raw)], |rem|)
  }

  /** What a pair found by `Pair` gives: both delimiters where it says. */
  lemma PairFacts(rem: string, d: string, s: nat, e: nat)
    requires d != [] && Pair(rem, d) == Some((s, e))
    ensures s + |d| + e + |d| <= |rem|
    ensures rem[s..s + |d|] == d && rem[s + |d| + e..s + |d| + e + |d|] == d
  {
  }

  /** The round for a pair found by `Pair` stands for the text it consumes. */
  lemma PairRender(rem: string, d: string, tag: Tag, s: nat, e: nat)
    requires d != [] && Delimiter(tag) == d && Pair(rem, d) == Some((s, e))
    ensures s + |d| + e + |d| <= |rem|
    ensures Render(Delimited(rem, s, e, tag).spans) == rem[..Delimited(rem, s, e, tag).next]
  {
    PairFacts(rem, d, s, e);
    DelimitedRender(rem, s, e, d, tag);
  }

  /** The spans of each round stand for the text it consumes. */
  lemma StepRender(rem: string)
    requires rem != []
    ensures Render(Step(rem).spans) == rem[..Step(rem).next]
  {
    match Pair(rem, "`") {
      case Some((s, e)) =>
        PairRender(rem, "`", Code, s, e);
        assert Step(rem) == Delimited(rem, s, e, Code);
      case None =>
        match Pair(rem, "**") {
          case Some((s, e)) =>
            PairRender(rem, "**", Bold, s, e);
            assert Step(rem) == Delimited(rem, s, e, Bold);
          case None =>
            match Pair(rem, "*") {
              case Some((s, e)) =>
                PairRender(rem, "*", Italic, s, e);
                assert Step(rem) == Delimited(rem, s, e, Italic);
              case None =>
                RenderOne(Span(rem, Raw));
                assert rem[..|rem|] == rem;
            }
        }
    }
  }

  /** The spans the inline loop collects from `rem`. */
  function Tokens(rem: string): seq<Span>
    decreases |rem|
  {
    if rem == [] then []
    else
      var c := Step(rem);
      c.spans + Tokens(rem[c.next..])
  }

  /** `parse_inline_spans` as a function: the tokens, or one raw span of the (empty) text. */
  function InlineSpans(text: string): seq<Span>
  {
    var t := Tokens(text);
    if t == [] then [Span(text, Raw)] else t
  }

  /** Looks for a complete pair of `d` in `remaining`; when there is one, the spans it
      gives (the raw text before it, if any, then the text between) and the length
      consumed. */
  method CutPair(remaining: string, d: string, tag: Tag) returns (found: bool, piece: seq<Span>, next: nat)
    requires d != [] && Delimiter(tag) == d
    ensures found <==> Pair(remaining, d).Some?
    ensures found ==> Cut(piece, next) == Delimited(remaining, Pair(remaining, d).value.0, Pair(remaining, d).value.1, tag)
  {
    var p := Pair(remaining, d);
    found := p.Some?;
    piece := [];
    next := 0;
    if found {
      var (s, e) := p.value;
      PairFacts(remaining, d, s, e);
      DelimitedSpans(remaining, s, e, d, tag);
      if s > 0 {
        piece := [Span(remaining[..s], Raw)];
      }
      piece := piece + [Span(remaining[s + |d|..s + |d| + e], tag)];
      next := s + |d| + e + |d|;
      assert piece == Delimited(remaining, s, e, tag).spans;
    }
  }

  /** One round of the loop in `parse_inline_spans`: inline code, else bold, else italic,
      else all that remains as raw text. */
  method InlineRound(remaining: string) returns (piece: seq<Span>, next: nat)
    requires remaining != []
    ensures Cut(piece, next) == Step(remaining)
  {
    var found;
    found, piece, next := CutPair(remaining, "`", Code);
    if found {
      return;
    }
    found, piece, next := CutPair(remaining, "**", Bold);
    if found {
      return;
    }
    found, piece, next := CutPair(remaining, "*", Italic);
    if found {
      return;
    }
    piece := [Span(remaining, Raw)];
    next := |remaining|;
  }

  /** `parse_inline_spans`: repeats the round until nothing remains (the round that finds no
      styled stretch consumes everything), then falls back to one raw span of the text. */
  method ParseInlineSpans(text: string) returns (spans: seq<Span>)
    ensures spans == InlineSpans(text)
  {
    spans := [];
    var remaining := text;
    while remaining != []
      invariant spans + Tokens(remaining) == Tokens(text)
      decreases |remaining|
    {
      var piece, next := InlineRound(remaining);
      TokensCut(spans, remaining);
      spans := spans + piece;
      remaining := remaining[next..];
    }
    assert spans + [] == spans;
    if spans == [] {
      spans := [Span(text, Raw)];
    }
  }

  lemma TokensCut(before: seq<Span>, rem: string)
    requires rem != []
    ensures before + Tokens(rem) == (before + Step(rem).spans) + Tokens(rem[Step(rem).next..])
  {
    AppendAssoc(before, Step(rem).spans, Tokens(rem[Step(rem).next..]));
  }

  /** Delimiters are dropped, nothing else is: putting each span's delimiters back around
      its text gives the original text. */
  lemma {:induction false} TokensRoundTrip(rem: string)
    ensures Render(Tokens(rem)) == rem
    decreases |rem|
  {
    if rem != [] {
      var c := Step(rem);
      StepRender(rem);
      TokensRoundTrip(rem[c.next..]);
      RenderCut(rem, c.spans, c.next, Tokens(rem[c.next..]));
    }
  }

  /** Spans for the text up to `next` followed by spans for the rest stand for all of it. */
  lemma RenderCut(rem: string, spans: seq<Span>, next: nat, rest: seq<Span>)
    requires next <= |rem| && Render(spans) == rem[..next] && Render(rest) == rem[next..]
    ensures Render(spans + rest) == rem
  {
    RenderAppend(spans, rest);
    assert rem == rem[..next] + rem[next..];
  }

  lemma NoDelimiterNoPair(text: string, d: string)
    requires d != [] && d[0] !in text
    ensures Pair(text, d).None?
  {
  }

  /** `parse_inline_spans` never returns an empty list, loses no text, and turns text with
      no '`' and no '*' into one raw span equal to it. */
  lemma InlineSpansProperties(text: string)
    ensures InlineSpans(text) != []
    ensures Render(InlineSpans(text)) == text
    ensures '`' !in text && '*' !in text ==> InlineSpans(text) == [Span(text, Raw)]
  {
    TokensRoundTrip(text);
    if text == [] {
      assert Render([Span(text, Raw)]) == text + Render([]);
    } else if '`' !in text && '*' !in text {
      NoDelimiterNoPair(text, "`");
      NoDelimiterNoPair(text, "**");
      NoDelimiterNoPair(text, "*");
      assert text[|text|..] == [];
    }
  }

  /** The order in which styles are tried: a complete pair of backticks makes the first
      styled span inline code, whatever '*' the text holds; failing that a complete "**"
      pair makes it bold; failing both, a '*' pair makes it italic. */
  lemma StylePriority(rem: string)
    requires rem != []
    ensures var t := Tokens(rem);
      var first := if t[0].tag == Raw && |t| > 1 then t[1].tag else t[0].tag;
      (Pair(rem, "`").Some? ==> first == Code)
      && (Pair(rem, "`").None? && Pair(rem, "**").Some? ==> first == Bold)
      && (Pair(rem, "`").None? && Pair(rem, "**").None? && Pair(rem, "*").Some? ==> first == Italic)
      && (Pair(rem, "`").None? && Pair(rem, "**").None? && Pair(rem, "*").None? ==> t == [Span(rem, Raw)])
  {
    assert Tokens(rem) == Step(rem).spans + Tokens(rem[Step(rem).next..]);
    if Pair(rem, "`").None? && Pair(rem, "**").None? && Pair(rem, "*").None? {
      assert rem[|rem|..] == [];
    }
  }

  // ---------------------------------------------------------------------------
  // One line
  // ---------------------------------------------------------------------------

  predicate IsNumberedItem(line: string)
  {
    |line| >= 3 && IsAsciiDigit(line[0]) && line[1..3] == ". "
  }

  /** The line prefixes `parse_inline` dispatches on start with distinct characters, so at
      most one of them applies and the order in which they are checked decides nothing. */
  lemma PrefixesExclusive(line: string)
    ensures "### " <= line ==> !("## " <= line) && !("# " <= line)
    ensures "## " <= line ==> !("# " <= line)
    ensures "# " <= line || "## " <= line || "### " <= line ==> line[0] == '#'
    ensures "- " <= line ==> line[0] == '-'
    ensures "* " <= line ==> line[0] == '*'
  {
    if "### " <= line { assert line[1] == "### "[1] && line[2] == "### "[2]; }
    if "## " <= line { assert line[1] == "## "[1]; }
    if "# " <= line { assert line[0] == "# "[0]; }
    if "- " <= line { assert line[0] == "- "[0]; }
    if "* " <= line { assert line[0] == "* "[0]; }
  }

  predicate IsHeading(line: string)
  {
    "# " <= line || "## " <= line || "### " <= line
  }

  predicate IsBullet(line: string)
  {
    "- " <= line || "* " <= line
  }

  /** `parse_inline`: a header keeps its text unparsed; a bullet or one-digit numbered item
      gets a marker span followed by the inline spans of its text; anything else is inline
      spans. */
  function ParseInline(line: string): MdLine
  {
    if "### " <= line then [Span(line[4..], Heading(3))]
    else if "## " <= line then [Span(line[3..], Heading(2))]
    else if "# " <= line then [Span(line[2..], Heading(1))]
    else if "- " <= line || "* " <= line then [Span("  • ", Marker)] + InlineSpans(line[2..])
    else if IsNumberedItem(line) then [Span("  " + line[..1] + ". ", Marker)] + InlineSpans(line[3..])
    else InlineSpans(line)
  }

  /** Each kind of line is parsed as its own kind whatever the order of the tests, and a
      line of no kind is inline spans only. */
  lemma ParseInlineCases(line: string)
    ensures "### " <= line ==> ParseInline(line) == [Span(line[4..], Heading(3))]
    ensures "## " <= line ==> ParseInline(line) == [Span(line[3..], Heading(2))]
    ensures "# " <= line ==> ParseInline(line) == [Span(line[2..], Heading(1))]
    ensures IsBullet(line) ==> ParseInline(line) == [Span("  • ", Marker)] + InlineSpans(line[2..])
    ensures IsNumberedItem(line) ==> ParseInline(line) == [Span("  " + line[..1] + ". ", Marker)] + InlineSpans(line[3..])
    ensures !(IsHeading(line) || IsBullet(line) || IsNumberedItem(line)) ==> ParseInline(line) == InlineSpans(line)
  {
    PrefixesExclusive(line);
  }

  /** Only one leading digit makes a numbered item: "12. x" is ordinary text. */
  lemma TwoDigitsNotNumbered(line: string)
    requires |line| >= 2 && IsAsciiDigit(line[0]) && IsAsciiDigit(line[1])
    ensures ParseInline(line) == InlineSpans(line)
  {
    ParseInlineCases(line);
    assert !IsNumberedItem(line) by {
      if |line| >= 3 { assert line[1..3][0] == line[1]; }
    }
  }

  // ---------------------------------------------------------------------------
  // A whole message
  // ---------------------------------------------------------------------------

  predicate IsFence(line: string)
  {
    "```" <= line
  }

  function FenceHeader(lang: string): MdLine
  {
    [Span("  ┌─ " + lang + " ", Frame)]
  }

  const FenceFooter: MdLine := [Span("  └─", Frame)]

  function BodyLines(code: seq<string>): (r: seq<MdLine>)
    ensures |r| == |code|
    ensures forall i :: 0 <= i < |code| ==> r[i] == [Span("  │ " + code[i], CodeBody)]
  {
    seq(|code|, i requires 0 <= i < |code| => [Span("  │ " + code[i], CodeBody)])
  }

  /** The scanner state between lines: the output so far, whether a block is open, its
      language, and its lines. */
  datatype Scan = Scan(out: seq<MdLine>, inCode: bool, lang: string, code: seq<string>)

  const Start := Scan([], false, [], [])

  /** One line through the scanner. */
  function Feed(st: Scan, line: string): Scan
  {
    if IsFence(line) then
      if st.inCode then Scan(st.out + [FenceHeader(st.lang)] + BodyLines(st.code) + [FenceFooter], false, [], [])
      else Scan(st.out, true, TrimStartChar(line, '`'), st.code)
    else if st.inCode then Scan(st.out, true, st.lang, st.code + [line])
    else Scan(st.out + [ParseInline(line)], false, st.lang, st.code)
  }

  function FeedAll(st: Scan, lines: seq<string>): Scan
  {
    if lines == [] then st else Feed(FeedAll(st, lines[..|lines| - 1]), lines[|lines| - 1])
  }

  /** The end of input: an unclosed block is shown without its footer. */
  function Finish(st: Scan): seq<MdLine>
  {
    if st.inCode then st.out + [FenceHeader(st.lang)] + BodyLines(st.code) else st.out
  }

  /** `parse_markdown` as a function. */
  function RenderMarkdown(text: string): seq<MdLine>
  {
    Finish(FeedAll(Start, Lines(text)))
  }

  /** The lines shown for a code block: its header and each buffered line. */
  method EmitBlock(lines: seq<MdLine>, lang: string, code: seq<string>) returns (r: seq<MdLine>)
    ensures r == lines + [FenceHeader(lang)] + BodyLines(code)
  {
    r := lines + [FenceHeader(lang)];
    var j := 0;
    while j < |code|
      invariant 0 <= j <= |code|
      invariant r == lines + [FenceHeader(lang)] + BodyLines(code[..j])
    {
      assert BodyLines(code[..j + 1]) == BodyLines(code[..j]) + [[Span("  │ " + code[j], CodeBody)]];
      r := r + [[Span("  │ " + code[j], CodeBody)]];
      j := j + 1;
    }
    assert code[..j] == code;
  }

  /** `parse_markdown`: one pass over the lines with an open-block flag, its language and
      its buffered lines. */
  method ParseMarkdown(text: string) returns (lines: seq<MdLine>)
    ensures lines == RenderMarkdown(text)
  {
    var input := Lines(text);
    lines := [];
    var inCodeBlock := false;
    var codeLang: string := [];
    var codeLines: seq<string> := [];
    var i := 0;
    while i < |input|
      invariant 0 <= i <= |input|
      invariant Scan(lines, inCodeBlock, codeLang, codeLines) == FeedAll(Start, input[..i])
    {
      var line := input[i];
      FeedAllNext(Start, input, i);
      i := i + 1;
      if "```" <= line {
        if inCodeBlock {
          lines := EmitBlock(lines, codeLang, codeLines);
          lines := lines + [FenceFooter];
          codeLines := [];
          codeLang := [];
          inCodeBlock := false;
        } else {
          inCodeBlock := true;
          codeLang := TrimStartChar(line, '`');
        }
      } else if inCodeBlock {
        codeLines := codeLines + [line];
      } else {
        lines := lines + [ParseInline(line)];
      }
    }
    assert input[..|input|] == input;
    if inCodeBlock {
      lines := EmitBlock(lines, codeLang, codeLines);
    }
  }

  lemma FeedAllNext(st: Scan, lines: seq<string>, i: nat)
    requires i < |lines|
    ensures FeedAll(st, lines[..i + 1]) == Feed(FeedAll(st, lines[..i]), lines[i])
  {
    assert lines[..i + 1][..i] == lines[..i];
  }

  lemma {:induction false} FeedAllAppend(st: Scan, a: seq<string>, b: seq<string>)
    ensures FeedAll(st, a + b) == FeedAll(FeedAll(st, a), b)
    decreases |b|
  {
    if b == [] {
      assert a + b == a;
    } else {
      FeedAllAppend(st, a, b[..|b| - 1]);
      assert (a + b)[..|a + b| - 1] == a + b[..|b| - 1];
    }
  }

  /** The inline parse of each line. */
  function InlineAll(lines: seq<string>): (r: seq<MdLine>)
    ensures |r| == |lines|
    ensures forall i :: 0 <= i < |lines| ==> r[i] == ParseInline(lines[i])
  {
    seq(|lines|, i requires 0 <= i < |lines| => ParseInline(lines[i]))
  }

  /** Outside a block, lines without fences give exactly one output line each: their
      inline parse. */
  lemma {:induction false} NoFenceLinePerLine(st: Scan, lines: seq<string>)
    requires !st.inCode
    requires forall i :: 0 <= i < |lines| ==> !IsFence(lines[i])
    ensures FeedAll(st, lines).out == st.out + InlineAll(lines)
    ensures !FeedAll(st, lines).inCode
    decreases |lines|
  {
    if lines == [] {
      assert st.out + [] == st.out;
    } else {
      var init := lines[..|lines| - 1];
      NoFenceLinePerLine(st, init);
      assert st.out + InlineAll(lines) == (st.out + InlineAll(init)) + [ParseInline(lines[|lines| - 1])];
    }
  }

  /** Markdown without fence lines renders one line per line of text. */
  lemma NoFenceText(text: string)
    requires forall i :: 0 <= i < |Lines(text)| ==> !IsFence(Lines(text)[i])
    ensures |RenderMarkdown(text)| == |Lines(text)|
    ensures forall i :: 0 <= i < |Lines(text)| ==> RenderMarkdown(text)[i] == ParseInline(Lines(text)[i])
  {
    NoFenceLinePerLine(Start, Lines(text));
  }

  /** Lines inside an open block are buffered verbatim, not parsed. */
  lemma {:induction false} BodyBuffered(st: Scan, body: seq<string>)
    requires st.inCode
    requires forall i :: 0 <= i < |body| ==> !IsFence(body[i])
    ensures FeedAll(st, body) == Scan(st.out, true, st.lang, st.code + body)
    decreases |body|
  {
    if body == [] {
      assert st.code + body == st.code;
    } else {
      var init := body[..|body| - 1];
      BodyBuffered(st, init);
      assert st.code + body == (st.code + init) + [body[|body| - 1]];
    }
  }

  lemma FeedOne(st: Scan, line: string)
    ensures FeedAll(st, [line]) == Feed(st, line)
  {
    assert [line][..0] == [];
  }

  /** An opening fence and lines without fences leave a block open with those lines. */
  lemma OpenThenBody(st: Scan, open: string, body: seq<string>)
    requires !st.inCode && st.code == []
    requires IsFence(open)
    requires forall i :: 0 <= i < |body| ==> !IsFence(body[i])
    ensures FeedAll(st, [open] + body) == Scan(st.out, true, TrimStartChar(open, '`'), body)
  {
    var entered := Feed(st, open);
    assert entered == Scan(st.out, true, TrimStartChar(open, '`'), []);
    FeedOne(st, open);
    FeedAllAppend(st, [open], body);
    BodyBuffered(entered, body);
    assert [] + body == body;
  }

  /** A closed block: the opening fence's language after its backticks, the header, every
      body line prefixed and unparsed, then the footer; the fence lines themselves are
      never shown. */
  lemma ClosedBlock(st: Scan, open: string, body: seq<string>, close: string)
    requires !st.inCode && st.code == []
    requires IsFence(open) && IsFence(close)
    requires forall i :: 0 <= i < |body| ==> !IsFence(body[i])
    ensures FeedAll(st, [open] + body + [close]) ==
      Scan(st.out + [FenceHeader(TrimStartChar(open, '`'))] + BodyLines(body) + [FenceFooter], false, [], [])
  {
    OpenThenBody(st, open, body);
    FeedAllAppend(st, [open] + body, [close]);
    FeedOne(FeedAll(st, [open] + body), close);
  }

  /** An unclosed block at the end of input shows its header and body but no footer. */
  lemma UnclosedBlock(st: Scan, open: string, body: seq<string>)
    requires !st.inCode && st.code == []
    requires IsFence(open)
    requires forall i :: 0 <= i < |body| ==> !IsFence(body[i])
    ensures Finish(FeedAll(st, [open] + body)) ==
      st.out + [FenceHeader(TrimStartChar(open, '`'))] + BodyLines(body)
  {
    OpenThenBody(st, open, body);
  }
}
