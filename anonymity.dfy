/** The anonymity classifier `anongroup` (app.py:51-59): it turns whatever the
    `anonymous` field of a review holds into the label "true" or "false". */
module Anonymity {
  import opened Json

  /** Lower-casing of one character, over the ASCII letters. */
  function LowerChar(c: char): char
  {
    if 'A' <= c <= 'Z' then (c as int + 32) as char else c
  }

  /** `str.lower()`, over ASCII: every letter A-Z becomes its lower-case
      form, every other character stays as it is. */
  function Lower(s: string): (r: string)
    ensures |r| == |s|
    ensures forall i :: 0 <= i < |s| ==> r[i] == LowerChar(s[i])
  {
    if s == [] then [] else [LowerChar(s[0])] + Lower(s[1..])
  }

  /** The strings that spell "anon" in any mix of upper and lower case:
      "anon", "Anon", "ANON", "aNoN", ... (sixteen spellings in all). */
  predicate SpellsAnon(s: string)
  {
    && |s| == 4
    && (s[0] == 'a' || s[0] == 'A')
    && (s[1] == 'n' || s[1] == 'N')
    && (s[2] == 'o' || s[2] == 'O')
    && (s[3] == 'n' || s[3] == 'N')
  }

  /** Comparing the lower-cased string with "anon" accepts exactly the
      case variants of "anon". */
  lemma LowerIsAnon(s: string)
    ensures Lower(s) == "anon" <==> SpellsAnon(s)
  {
  }

  /** `anongroup`: a string is "true" when it lower-cases to "anon", a boolean
      gives its own value, and every other value (null, a number, an array,
      an object) gives "false". */
  function Classify(author: Value): (group: string)
    ensures group == "true" || group == "false"
    ensures group == "true" <==> (author.JStr? && SpellsAnon(author.s)) || author == JBool(true)
  {
    match author
    case JStr(s) =>
      LowerIsAnon(s);
      if Lower(s) == "anon" then "true" else "false"
    case JBool(b) =>
      if b then "true" else "false"
    case _ =>
      "false"
  }

  /** Sample labels: three spellings of "anon", a name, both booleans, null,
      a number and the default string "false". */
  lemma ClassifyExamples()
    ensures Classify(JStr("Anon")) == "true"
    ensures Classify(JStr("ANON")) == "true"
    ensures Classify(JStr("anon")) == "true"
    ensures Classify(JStr("Bob")) == "false"
    ensures Classify(JBool(true)) == "true"
    ensures Classify(JBool(false)) == "false"
    ensures Classify(JNull) == "false"
    ensures Classify(JNum(1.0)) == "false"
    ensures Classify(JStr("false")) == "false"
  {
  }
}
