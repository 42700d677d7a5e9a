/**
 * The friendly "busy" text that both the error middleware and the retry
 * wrapper send. It is written in short pieces so that the verifier can look
 * at every character of each piece cheaply; the lemmas collect the character
 * facts the middleware's substring tests need.
 */
module FriendlyText {
  /** The text before the first full stop. */
  const Head := "AI is a bit " + "busy right now"

  /** The text after the first full stop. */
  const Tail := " Please wait a few" + " seconds and try" + " again! ⏳"

  /** 'AI is a bit busy right now. Please wait a few seconds and try again! ⏳' */
  const Busy := Head + "." + Tail

  /** None of '4', 'q', 'T', '_' occurs in `s`. */
  predicate LacksMarkerStarts(s: string) {
    '4' !in s && 'q' !in s && 'T' !in s && '_' !in s
  }

  lemma ConcatLacks(a: string, b: string)
    requires LacksMarkerStarts(a) && LacksMarkerStarts(b)
    ensures LacksMarkerStarts(a + b)
  {
  }

  lemma HeadStartLacks()
    ensures LacksMarkerStarts("AI is a bit ")
  {
  }

  lemma HeadEndLacks()
    ensures LacksMarkerStarts("busy right now")
  {
  }

  lemma TailStartLacks()
    ensures LacksMarkerStarts(" Please wait a few")
  {
  }

  lemma TailMiddleLacks()
    ensures LacksMarkerStarts(" seconds and try")
  {
  }

  lemma TailEndLacks()
    ensures LacksMarkerStarts(" again! ⏳")
  {
  }

  /** None of the first characters of the rate-limit and key markers occurs in the text. */
  lemma LacksMarkerChars()
    ensures '4' !in Busy && 'q' !in Busy && 'T' !in Busy && '_' !in Busy
  {
    HeadStartLacks();
    HeadEndLacks();
    TailStartLacks();
    TailMiddleLacks();
    TailEndLacks();
    ConcatLacks("AI is a bit ", "busy right now");
    ConcatLacks(Head, ".");
    ConcatLacks(" Please wait a few", " seconds and try");
    ConcatLacks(" Please wait a few" + " seconds and try", " again! ⏳");
    ConcatLacks(Head + ".", Tail);
  }

  /** "not found" needs an 'f' and a 'u': the head has no 'f', the tail no 'u'. */
  lemma HeadTailChars()
    ensures 'f' !in Head && 'u' !in Tail && '.' !in "not found"
  {
  }
}
