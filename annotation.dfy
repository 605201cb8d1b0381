/**
 * The annotated sentence consumed by the unknown finder: an ordered sequence of
 * tokens, each with its 1-based position, surface word, lemma and part-of-speech
 * tag, plus the raw text of the sentence.  Case-insensitive comparison is
 * modelled on ASCII letters.
 */
module Annotation {

  datatype Token = Token(index: int, word: string, lemmaForm: string, pos: string)

  datatype Sentence = Sentence(raw: string, tokens: seq<Token>)

  /** The annotator's guarantee: positions are 1-based and contiguous. */
  predicate WellFormed(s: Sentence)
  {
    forall k :: 0 <= k < |s.tokens| ==> s.tokens[k].index == k + 1
  }

  function LowerChar(c: char): char
  {
    if 'A' <= c <= 'Z' then (c as int + 32) as char else c
  }

  /** `String.toLowerCase`, restricted to ASCII letters. */
  function Lower(s: string): (r: string)
    ensures |r| == |s|
  {
    if s == [] then [] else [LowerChar(s[0])] + Lower(s[1..])
  }

  /** `String.equalsIgnoreCase`. */
  predicate EqualsIgnoreCase(a: string, b: string)
  {
    |a| == |b| && (a == [] || (LowerChar(a[0]) == LowerChar(b[0]) && EqualsIgnoreCase(a[1..], b[1..])))
  }

  /** `String.contains`: `pattern` occurs somewhere in `text`. */
  predicate Contains(text: string, pattern: string)
  {
    StartsWith(text, pattern) || (|pattern| < |text| && Contains(text[1..], pattern))
  }

  /** `pattern` occurs in `text` starting at offset `i`. */
  predicate OccursAt(text: string, pattern: string, i: int)
  {
    0 <= i && i + |pattern| <= |text| && text[i..i + |pattern|] == pattern
  }

  /** `Contains` finds exactly the occurrences of the pattern at some offset. */
  lemma {:induction false} ContainsOccurs(text: string, pattern: string)
    ensures Contains(text, pattern) <==> exists i :: OccursAt(text, pattern, i)
    decreases |text|
  {
    if StartsWith(text, pattern) {
      assert OccursAt(text, pattern, 0);
    } else if |pattern| < |text| {
      ContainsOccurs(text[1..], pattern);
      if i :| OccursAt(text[1..], pattern, i) {
        assert text[1..][i..i + |pattern|] == text[i + 1..i + 1 + |pattern|];
        assert OccursAt(text, pattern, i + 1);
      }
      if i :| OccursAt(text, pattern, i) {
        assert i != 0;
        assert text[1..][i - 1..i - 1 + |pattern|] == text[i..i + |pattern|];
        assert OccursAt(text[1..], pattern, i - 1);
      }
    } else {
      if i :| OccursAt(text, pattern, i) {
        assert false;
      }
    }
  }

  /** `String.startsWith`. */
  predicate StartsWith(text: string, prefix: string)
  {
    |prefix| <= |text| && text[..|prefix|] == prefix
  }

  /** A lemma of the verbs "be", "has" or "have", compared ignoring case. */
  predicate IsPossessiveLemma(l: string)
  {
    EqualsIgnoreCase(l, "be") || EqualsIgnoreCase(l, "has") || EqualsIgnoreCase(l, "have")
  }

  /** `AnnotatedSentence.hasToken`: a token exists at 1-based position `i`. */
  predicate HasToken(s: Sentence, i: int)
  {
    1 <= i <= |s.tokens|
  }

  function LemmaAt(s: Sentence, i: int): string
    requires HasToken(s, i)
  {
    s.tokens[i - 1].lemmaForm
  }

  function PosAt(s: Sentence, i: int): string
    requires HasToken(s, i)
  {
    s.tokens[i - 1].pos
  }

  /** The positions of a token list, in order. */
  function Indices(ts: seq<Token>): (r: seq<int>)
    ensures |r| == |ts|
    ensures forall k :: 0 <= k < |ts| ==> r[k] == ts[k].index
  {
    if ts == [] then [] else [ts[0].index] + Indices(ts[1..])
  }

  lemma IndicesSnoc(ts: seq<Token>, t: Token)
    ensures Indices(ts + [t]) == Indices(ts) + [t.index]
  {
  }

  /** The set of positions held by an anchor list. */
  function AnchorSet(ids: seq<int>): (r: set<int>)
    ensures forall x :: x in r <==> x in ids
  {
    set x | x in ids
  }
}
