/**
 * The two pure helpers of the BrainSpace page (client/src/pages/BrainSpace.jsx):
 * `extractSections`, which picks the mind-map branches out of the model's
 * plan, and the mind-map centre, which shortens the idea to 40 characters.
 * The regular expressions are hand-written scanners over the line.
 */
module BrainSpace {
  import opened Text

  /** At most this many lines become branches. */
  const MaxSections := 8

  const CheckMark: char := '✅'
  const Bullet: char := '•'

  /** `[•\-\*]`. */
  predicate IsBulletChar(c: char) {
    c == Bullet || c == '-' || c == '*'
  }

  /** `[•\-\*\d\.]`: the characters the cleaning step strips one of. */
  predicate IsMarkerChar(c: char) {
    IsBulletChar(c) || IsDigit(c) || c == '.'
  }

  /** `/^[•\-\*]\s/`. */
  predicate StartsWithBullet(line: string) {
    |line| >= 2 && IsBulletChar(line[0]) && IsSpace(line[1])
  }

  /** `/^\d+\./`. */
  predicate StartsNumbered(line: string) {
    var e := DigitsEnd(line, 0);
    0 < e < |line| && line[e] == '.'
  }

  /** The filter: a non-blank line with a check mark, a bulleted line, or a numbered one. */
  predicate Keep(line: string) {
    (Trim(line) != "" && CheckMark in line) || StartsWithBullet(line) || StartsNumbered(line)
  }

  /** A blank line is never kept: it holds no check mark that counts, and it starts with no marker. */
  lemma BlankLinesNeverKept(line: string)
    requires Trim(line) == ""
    ensures !Keep(line)
  {
    TrimEmptyIff(line);
    if line != [] {
      assert IsSpace(line[0]) && !IsDigit(line[0]);
    }
  }

  /** The lines the filter keeps, each as often as it occurs, in order. */
  function Kept(lines: seq<string>): (r: seq<string>)
    ensures forall l :: l in r <==> l in lines && Keep(l)
    ensures forall l :: multiset(r)[l] == if Keep(l) then multiset(lines)[l] else 0
    ensures Subsequence(r, lines)
  {
    if lines == [] then []
    else
      assert lines == [lines[0]] + lines[1..];
      var rest := Kept(lines[1..]);
      if Keep(lines[0]) then
        assert ([lines[0]] + rest)[1..] == rest;
        [lines[0]] + rest
      else rest
  }

  // The cleaning step: one leading marker character and the whitespace after
  // it are replaced by nothing, then the ends are trimmed.
  function Clean(line: string): string {
    var rest := if line != [] && IsMarkerChar(line[0]) then line[SkipSpaces(line, 1)..] else line;
    Trim(rest)
  }

  /** `map(clean)`. */
  function Cleaned(lines: seq<string>): (r: seq<string>)
    ensures |r| == |lines| && forall i :: 0 <= i < |lines| ==> r[i] == Clean(lines[i])
  {
    if lines == [] then [] else [Clean(lines[0])] + Cleaned(lines[1..])
  }

  /** `filter(Boolean)`: every non-empty item, as often as it occurs, in order. */
  function NonEmpty(items: seq<string>): (r: seq<string>)
    ensures forall s :: s in r <==> s in items && s != ""
    ensures forall s :: multiset(r)[s] == if s == "" then 0 else multiset(items)[s]
    ensures |r| <= |items|
    ensures Subsequence(r, items)
  {
    if items == [] then []
    else
      assert items == [items[0]] + items[1..];
      var rest := NonEmpty(items[1..]);
      if items[0] != "" then
        assert ([items[0]] + rest)[1..] == rest;
        [items[0]] + rest
      else rest
  }

  /** The kept lines that may become branches: the first eight. */
  function FirstSections(kept: seq<string>): (r: seq<string>)
    ensures |r| <= MaxSections && |r| <= |kept| && r == kept[..|r|]
    ensures |kept| >= MaxSections ==> |r| == MaxSections
    ensures |kept| < MaxSections ==> r == kept
  {
    kept[..if |kept| < MaxSections then |kept| else MaxSections]
  }

  /** `text.split('\n').filter(keep).slice(0, 8).map(clean).filter(Boolean)`. */
  function ExtractSections(text: string): seq<string> {
    NonEmpty(Cleaned(FirstSections(Kept(Split(text, '\n')))))
  }

  // ---------------------------------------------------------------- properties

  /** Whitespace already skipped at the front does not change where the trimmed text starts. */
  lemma {:induction false} TrimStartSkipsSpaces(s: string, k: nat)
    requires k <= |s| && forall i :: 0 <= i < k ==> IsSpace(s[i])
    ensures TrimStart(s[k..]) == TrimStart(s)
  {
    if k > 0 {
      assert TrimStart(s) == TrimStart(s[1..]) by {
        assert s != [] && IsSpace(s[0]);
      }
      assert s[1..][k - 1..] == s[k..];
      TrimStartSkipsSpaces(s[1..], k - 1);
    }
  }

  /** Trimming ignores whitespace already skipped at the front. */
  lemma TrimSkipsSpaces(s: string, k: nat)
    requires k <= |s| && forall i :: 0 <= i < k ==> IsSpace(s[i])
    ensures Trim(s[k..]) == Trim(s)
  {
    TrimStartSkipsSpaces(s, k);
  }

  /**
   * Cleaning strips exactly one marker character: what is left is the rest
   * of the line, trimmed, so "12. x" becomes "2. x". A line without a marker
   * is only trimmed.
   */
  lemma CleanStripsOneMarker(line: string)
    ensures line != [] && IsMarkerChar(line[0]) ==> Clean(line) == Trim(line[1..])
    ensures line == [] || !IsMarkerChar(line[0]) ==> Clean(line) == Trim(line)
  {
    if line != [] && IsMarkerChar(line[0]) {
      var j := SkipSpaces(line, 1);
      TrimSkipsSpaces(line[1..], j - 1);
      assert line[1..][j - 1..] == line[j..];
    }
  }

  /** A number with two or more digits keeps all but its first digit. */
  lemma CleanKeepsLaterDigits(d1: char, d2: char, rest: string)
    requires IsDigit(d1) && IsDigit(d2)
    ensures Clean([d1, d2] + rest) == Trim([d2] + rest)
  {
    CleanStripsOneMarker([d1, d2] + rest);
    assert ([d1, d2] + rest)[1..] == [d2] + rest;
  }

  /** Cleaning a prefix gives the prefix of the cleaned lines. */
  lemma {:induction false} CleanedPrefix(lines: seq<string>, n: nat)
    requires n <= |lines|
    ensures Cleaned(lines[..n]) == Cleaned(lines)[..n]
  {
    var a := Cleaned(lines[..n]);
    forall i | 0 <= i < n
      ensures a[i] == Cleaned(lines)[i]
    {
      assert lines[..n][i] == lines[i];
    }
    AgreeingPrefix(a, Cleaned(lines));
  }

  /** A sequence that agrees with `b` at each of its positions is a prefix of `b`. */
  lemma AgreeingPrefix<T>(a: seq<T>, b: seq<T>)
    requires |a| <= |b| && forall i :: 0 <= i < |a| ==> a[i] == b[i]
    ensures a == b[..|a|]
  {
  }

  /**
   * At most 8 branches, none empty, each trimmed, and in the order of the
   * kept lines they come from: the result is a subsequence of the kept lines,
   * cleaned.
   */
  lemma ExtractSectionsShape(text: string)
    ensures var r := ExtractSections(text);
      && |r| <= MaxSections
      && (forall s :: s in r ==> s != "" && Trim(s) == s)
      && Subsequence(r, Cleaned(Kept(Split(text, '\n'))))
  {
    var kept := Kept(Split(text, '\n'));
    var first := FirstSections(kept);
    var n := |first|;
    var r := ExtractSections(text);
    forall s | s in r ensures Trim(s) == s {
      var i :| 0 <= i < |first| && Cleaned(first)[i] == s;
      CleanTrimmed(first[i]);
    }
    CleanedPrefix(kept, n);
    PrefixIsSubsequence(Cleaned(kept), n);
    SubsequenceTrans(r, Cleaned(kept[..n]), Cleaned(kept));
  }

  /** A cleaned line is trimmed. */
  lemma CleanTrimmed(line: string)
    ensures Trim(Clean(line)) == Clean(line)
  {
    var rest := if line != [] && IsMarkerChar(line[0]) then line[SkipSpaces(line, 1)..] else line;
    TrimIdempotent(rest);
  }

  /** When the first eight kept lines all clean to something, they are exactly the branches. */
  lemma ExtractSectionsComplete(text: string)
    requires forall l :: l in FirstSections(Kept(Split(text, '\n'))) ==> Clean(l) != ""
    ensures ExtractSections(text) == Cleaned(FirstSections(Kept(Split(text, '\n'))))
  {
    var first := FirstSections(Kept(Split(text, '\n')));
    var cleaned := Cleaned(first);
    forall i | 0 <= i < |cleaned| ensures cleaned[i] != "" {
      assert first[i] in first;
    }
    NonEmptyKeepsFilled(cleaned);
  }

  /** Filtering items that are all non-empty changes nothing. */
  lemma {:induction false} NonEmptyKeepsFilled(items: seq<string>)
    requires forall i :: 0 <= i < |items| ==> items[i] != ""
    ensures NonEmpty(items) == items
  {
    if items != [] {
      NonEmptyKeepsFilled(items[1..]);
    }
  }

  // ---------------------------------------------------------------- the mind-map centre

  /** Shown characters of the idea. */
  const CentreWidth := 40

  /** `idea.slice(0, 40)` then `'...'` when the idea is longer than 40. */
  function Centre(idea: string): string {
    if |idea| > CentreWidth then idea[..CentreWidth] + "..." else idea
  }

  /**
   * The centre begins with the idea's first 40 characters (all of it when
   * shorter), is never longer than 43, and is the whole idea exactly when the
   * idea fits or already ends, at character 41, in the three dots.
   */
  lemma CentreShortens(idea: string)
    ensures var c := Centre(idea);
      && |c| <= CentreWidth + 3
      && StartsWith(c, idea[..if |idea| < CentreWidth then |idea| else CentreWidth])
      && (c == idea <==> |idea| <= CentreWidth || idea[CentreWidth..] == "...")
      && (|idea| > CentreWidth ==> EndsWith(c, "..."))
  {
    if |idea| > CentreWidth {
      assert |Centre(idea)| == CentreWidth + 3;
    }
  }
}
