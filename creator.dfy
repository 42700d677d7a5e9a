/**
 * The creator routes (server/routes/creator.js): the resume roast, the mood
 * quote card and the fest-poster prompt. None of them keeps state. The quote
 * card's four regular expressions are modelled by `Capture`, a scanner that
 * does what `/LABEL:\s*(.+)/` and `?.[1]?.trim()` do together.
 * `encodeURIComponent` is a parameter, `encode`: the model says where its
 * output goes, not what it is.
 */
module CreatorRoute {
  import opened Wrappers
  import opened Text
  import opened ErrorHandler
  import opened Gemini
  import Prompts

  const ResumeTextMissing := "resumeText is required"
  const MoodMissing := "mood is required"

  // ---------------------------------------------------------------- resume roast

  /** POST `/roast`. */
  function Roast(oracle: Oracle, resumeText: Field): Response<string> {
    if !Truthy(resumeText) then Failure(400, ResumeTextMissing)
    else Answer(Content(oracle, Prompts.ResumeRoastPrompt(resumeText.value), ""))
  }

  /**
   * A missing or empty resume is refused with 400; otherwise the roast is
   * exactly what the model returned for the roast prompt, or the error.
   */
  lemma RoastAnswers(oracle: Oracle, resumeText: Field)
    ensures !Truthy(resumeText) ==> Roast(oracle, resumeText) == Failure(400, ResumeTextMissing)
    ensures Truthy(resumeText) ==>
      var c := Content(oracle, Prompts.ResumeRoastPrompt(resumeText.value), "");
      (Roast(oracle, resumeText).Success? <==> c.Returned?)
      && (c.Returned? ==> Roast(oracle, resumeText).value == c.text)
  {
  }

  // ---------------------------------------------------------------- quote card

  const DefaultAuthor := "Anonymous Campus Legend"
  const DefaultPlaylist := "Lo-fi study beats"
  const DefaultAction := "Take 3 deep breaths 🌬️"

  /** What `encodeURIComponent` is applied to for the image seed, after the mood. */
  const SeedSuffix := " motivational aesthetic college student"

  /** The body of a successful quote request. */
  datatype QuoteCard = QuoteCard(quote: string, author: string, playlist: string, action: string, imageSeed: string)

  /**
   * The group of `text.match(/LABEL:\s*(.+)/)?.[1]`. The match starts at
   * the first occurrence of the label; the greedy `\s*` skips whitespace,
   * line breaks included, and `(.+)` takes the rest of the line the first
   * other character is on. When only whitespace follows the label, the
   * backtracking match captures whitespace or fails, and a later occurrence
   * cannot exist; after trimming both read as falsy, which is `None` here.
   */
  function Capture(s: string, key: string): Field {
    var first := IndexFrom(s, key, 0);
    if first.None? then None
    else
      var j := SkipSpaces(s, first.value + |key|);
      if j == |s| then None else Some(s[j..LineEnd(s, j)])
  }

  /** `?.trim()` on a capture. */
  function Trimmed(c: Field): Field {
    if c.None? then None else Some(Trim(c.value))
  }

  /** A capture is one non-empty line that starts with a character other than whitespace. */
  lemma CaptureIsLine(s: string, key: string)
    ensures var c := Capture(s, key);
      c.Some? ==> c.value != [] && !IsSpace(c.value[0]) && forall k :: 0 <= k < |c.value| ==> !IsLineTerminator(c.value[k])
  {
  }

  /** A trimmed capture is never empty, so a label with text after it always beats the fallback. */
  lemma TrimmedCaptureFilled(s: string, key: string)
    ensures Trimmed(Capture(s, key)).Some? ==> Truthy(Trimmed(Capture(s, key)))
  {
    var c := Capture(s, key);
    if c.Some? {
      CaptureIsLine(s, key);
      TrimEmptyIff(c.value);
    }
  }

  /**
   * The capture, by positions: the label first occurs at `p`, whitespace
   * runs up to `j`, and the line from the non-space character at `j` ends at `e`.
   */
  lemma CaptureAt(s: string, key: string, p: nat, j: nat, e: nat)
    requires OccursAt(s, key, p) && forall k :: 0 <= k < p ==> !OccursAt(s, key, k)
    requires p + |key| <= j < e <= |s| && !IsSpace(s[j])
    requires forall k :: p + |key| <= k < j ==> IsSpace(s[k])
    requires forall k :: j <= k < e ==> !IsLineTerminator(s[k])
    requires e == |s| || IsLineTerminator(s[e])
    ensures Capture(s, key) == Some(s[j..e])
  {
    assert IndexFrom(s, key, 0) == Some(p);
    assert SkipSpaces(s, p + |key|) == j;
    assert LineEnd(s, j) == e;
  }

  /**
   * Read-back: when the label first occurs after `before`, and whitespace
   * (line breaks allowed) and then a line `value` follow it, the capture is
   * that line. The value may start on a later line than the label.
   */
  lemma CaptureReadBack(before: string, key: string, ws: string, value: string, after: string)
    requires forall k :: 0 <= k < |before| ==> !OccursAt(before + key + ws + value + after, key, k)
    requires forall k :: 0 <= k < |ws| ==> IsSpace(ws[k])
    requires value != [] && !IsSpace(value[0])
    requires forall k :: 0 <= k < |value| ==> !IsLineTerminator(value[k])
    requires after == [] || IsLineTerminator(after[0])
    ensures Capture(before + key + ws + value + after, key) == Some(value)
  {
    var s := before + key + ws + value + after;
    var p := |before|;
    var j := p + |key| + |ws|;
    var e := j + |value|;
    assert s[p..p + |key|] == key;
    assert s[p + |key|..j] == ws;
    assert s[j..e] == value;
    assert e == |s| || s[e] == after[0];
    CaptureAt(s, key, p, j, e);
  }

  /** Without the label there is nothing to capture. */
  lemma CaptureAbsent(s: string, key: string)
    requires !Contains(s, key)
    ensures Capture(s, key) == None
  {
    ContainsIff(s, key);
  }

  /** A label followed by nothing but whitespace captures nothing. */
  lemma CaptureBlank(before: string, key: string, ws: string)
    requires forall k :: 0 <= k < |before| ==> !OccursAt(before + key + ws, key, k)
    requires forall k :: 0 <= k < |ws| ==> IsSpace(ws[k])
    ensures Capture(before + key + ws, key) == None
  {
    var s := before + key + ws;
    var p := |before|;
    assert s[p..p + |key|] == key;
    assert OccursAt(s, key, p);
    assert IndexFrom(s, key, 0) == Some(p);
    assert s[p + |key|..] == ws;
    assert SkipSpaces(s, p + |key|) == |s|;
  }

  /** The four fields of the card, each its capture or its fallback; the whole reply stands in for the quote. */
  function ParseQuoteCard(text: string, imageSeed: string): QuoteCard {
    QuoteCard(
      OrElse(Trimmed(Capture(text, Prompts.QuoteLabel)), text),
      OrElse(Trimmed(Capture(text, Prompts.AuthorLabel)), DefaultAuthor),
      OrElse(Trimmed(Capture(text, Prompts.PlaylistLabel)), DefaultPlaylist),
      OrElse(Trimmed(Capture(text, Prompts.ActionLabel)), DefaultAction),
      imageSeed)
  }

  /** A reply without a label falls back for that field: to the whole reply for the quote, to a fixed text otherwise. */
  lemma QuoteCardFallbacks(text: string, imageSeed: string)
    ensures var card := ParseQuoteCard(text, imageSeed);
      && (!Contains(text, Prompts.QuoteLabel) ==> card.quote == text)
      && (!Contains(text, Prompts.AuthorLabel) ==> card.author == DefaultAuthor)
      && (!Contains(text, Prompts.PlaylistLabel) ==> card.playlist == DefaultPlaylist)
      && (!Contains(text, Prompts.ActionLabel) ==> card.action == DefaultAction)
  {
    if !Contains(text, Prompts.QuoteLabel) { CaptureAbsent(text, Prompts.QuoteLabel); }
    if !Contains(text, Prompts.AuthorLabel) { CaptureAbsent(text, Prompts.AuthorLabel); }
    if !Contains(text, Prompts.PlaylistLabel) { CaptureAbsent(text, Prompts.PlaylistLabel); }
    if !Contains(text, Prompts.ActionLabel) { CaptureAbsent(text, Prompts.ActionLabel); }
  }

  /** Every field of a card is filled in; only an empty reply can give an empty quote. */
  lemma QuoteCardFilled(text: string, imageSeed: string)
    ensures var card := ParseQuoteCard(text, imageSeed);
      && (text != [] ==> card.quote != [])
      && card.author != [] && card.playlist != [] && card.action != []
  {
    TrimmedCaptureFilled(text, Prompts.QuoteLabel);
    TrimmedCaptureFilled(text, Prompts.AuthorLabel);
    TrimmedCaptureFilled(text, Prompts.PlaylistLabel);
    TrimmedCaptureFilled(text, Prompts.ActionLabel);
  }

  /** A reply in the requested layout, its quote line first, gives that line as the quote. */
  lemma QuoteReadBack(value: string, rest: string, imageSeed: string)
    requires value != [] && !IsSpace(value[0])
    requires forall k :: 0 <= k < |value| ==> !IsLineTerminator(value[k])
    requires rest == [] || IsLineTerminator(rest[0])
    ensures ParseQuoteCard(Prompts.QuoteLabel + " " + value + rest, imageSeed).quote == Trim(value)
  {
    var s := Prompts.QuoteLabel + " " + value + rest;
    CaptureReadBack([], Prompts.QuoteLabel, " ", value, rest);
    assert [] + Prompts.QuoteLabel == Prompts.QuoteLabel;
  }

  /** POST `/quote`. */
  function Quote(oracle: Oracle, encode: string -> string, mood: Field): Response<QuoteCard> {
    if !Truthy(mood) then Failure(400, MoodMissing)
    else
      var c := Content(oracle, Prompts.QuoteCardPrompt(mood.value), "");
      if c.Threw? then FromError(c.error)
      else Success(ParseQuoteCard(c.text, encode(mood.value + SeedSuffix)))
  }

  /**
   * A missing or empty mood is refused with 400; otherwise the card is read
   * from what the model returned for the quote prompt, and the image seed
   * is the encoded mood with the fixed suffix, whatever the model said.
   */
  lemma QuoteAnswers(oracle: Oracle, encode: string -> string, mood: Field)
    ensures !Truthy(mood) ==> Quote(oracle, encode, mood) == Failure(400, MoodMissing)
    ensures Truthy(mood) ==>
      var c := Content(oracle, Prompts.QuoteCardPrompt(mood.value), "");
      (Quote(oracle, encode, mood).Success? <==> c.Returned?)
      && (c.Returned? ==> Quote(oracle, encode, mood).value == ParseQuoteCard(c.text, encode(mood.value + SeedSuffix)))
      && (Quote(oracle, encode, mood).Success? ==> Quote(oracle, encode, mood).value.imageSeed == encode(mood.value + SeedSuffix))
  {
  }

  // ---------------------------------------------------------------- poster prompt

  const PosterIntro :=
    "Generate a detailed, vivid image generation prompt for a college fest poster."
  const FestLine := "\n    Fest Name: "
  const ThemeLine := "\n    Theme: "
  const ColorsLine := "\n    Preferred Colors: "
  const DefaultColors := "vibrant, energetic"
  const PosterInstructions :=
    "\n    \n    " +
    "The prompt should describe: composition, lighting, mood, style, visual elements.\n    " +
    "Make it suitable for Pollinations.ai image generation.\n    " +
    "Return ONLY the image prompt, nothing else. Under 200 characters."

  /** The parts of the poster request; absent names and themes print as `undefined`. */
  function PosterPromptParts(festName: Field, theme: Field, colors: Field): seq<string> {
    [PosterIntro, FestLine, Show(festName), ThemeLine, Show(theme), ColorsLine, OrElse(colors, DefaultColors), PosterInstructions]
  }

  function PosterPrompt(festName: Field, theme: Field, colors: Field): string {
    Concat(PosterPromptParts(festName, theme, colors))
  }

  /**
   * The poster request shows the fest name and the theme on their lines
   * (`undefined` when absent), and the colours or, when they are missing or
   * empty, the default palette.
   */
  lemma PosterPromptShowsFields(festName: Field, theme: Field, colors: Field)
    ensures var p := PosterPrompt(festName, theme, colors);
      && Contains(p, FestLine + Show(festName))
      && Contains(p, ThemeLine + Show(theme))
      && Contains(p, ColorsLine + OrElse(colors, DefaultColors))
      && (!Truthy(colors) ==> Contains(p, ColorsLine + DefaultColors))
      && (festName.None? ==> Contains(p, FestLine + "undefined"))
  {
    var parts := PosterPromptParts(festName, theme, colors);
    ConcatContainsPair(parts, 1);
    ConcatContainsPair(parts, 3);
    ConcatContainsPair(parts, 5);
  }

  /** Leaving the colours out asks for the same poster as naming the default palette. */
  lemma PosterDefaultColors(festName: Field, theme: Field, colors: Field)
    requires !Truthy(colors)
    ensures PosterPrompt(festName, theme, colors) == PosterPrompt(festName, theme, Some(DefaultColors))
  {
  }

  /**
   * `trim().replace(/"/g, '')`: the trimmed reply with every double quote
   * dropped, every other character kept as often as it occurs, in order.
   */
  function CleanPrompt(reply: string): (r: string)
    ensures '"' !in r
    ensures forall x :: x in r <==> x in Trim(reply) && x != '"'
    ensures forall x :: multiset(r)[x] == if x == '"' then 0 else multiset(Trim(reply))[x]
    ensures Subsequence(r, Trim(reply))
    ensures '"' !in reply ==> r == Trim(reply)
  {
    RemoveAll(Trim(reply), '"')
  }

  const ImageBase := "https://image.pollinations.ai/prompt/"
  const ImageQuery := "?width=1024&height=768&nologo=true"

  /** The image address for an encoded prompt: the prompt is the last path segment, before a fixed query. */
  function ImageUrl(encoded: string): (u: string)
    ensures StartsWith(u, ImageBase) && EndsWith(u, ImageQuery)
    ensures |u| == |ImageBase| + |encoded| + |ImageQuery|
    ensures u[|ImageBase|..|u| - |ImageQuery|] == encoded
  {
    ImageBase + encoded + ImageQuery
  }

  /** The body of a successful poster request. */
  datatype Poster = Poster(imagePrompt: string, imageUrl: string)

  /** POST `/poster-prompt`: no field is required. */
  function PosterRequest(oracle: Oracle, encode: string -> string, festName: Field, theme: Field, colors: Field): Response<Poster> {
    var c := Content(oracle, PosterPrompt(festName, theme, colors), "");
    if c.Threw? then FromError(c.error)
    else
      var clean := CleanPrompt(c.text);
      Success(Poster(clean, ImageUrl(encode(clean))))
  }

  /**
   * The poster route always asks the model; on success the image prompt is
   * the cleaned reply, free of double quotes, and the address carries that
   * same prompt, encoded.
   */
  lemma PosterAnswers(oracle: Oracle, encode: string -> string, festName: Field, theme: Field, colors: Field)
    ensures var c := Content(oracle, PosterPrompt(festName, theme, colors), "");
      var r := PosterRequest(oracle, encode, festName, theme, colors);
      && (r.Success? <==> c.Returned?)
      && (r.Success? ==>
            && r.value.imagePrompt == CleanPrompt(c.text)
            && '"' !in r.value.imagePrompt
            && StartsWith(r.value.imageUrl, ImageBase)
            && r.value.imageUrl[|ImageBase|..|r.value.imageUrl| - |ImageQuery|] == encode(r.value.imagePrompt))
  {
  }
}
