/**
 * Invariants of the whole quantity list built by the unknown finder: the
 * list only grows at its end, sentence ids never decrease along it, every
 * part-of link points to an earlier quantity, and after a run that does not
 * stop every added quantity has a type and the full relation bundle.
 */
module UnknownInvariants {
  import opened Wrappers
  import opened Annotation
  import opened Collaborators
  import opened Problem
  import opened UnknownSpec
  import opened UnknownProperties

  /** Every part-of link names an earlier quantity. */
  ghost predicate PointsBack(qs: seq<Quantity>)
  {
    forall i :: 0 <= i < |qs| && qs[i].partOf.Some? ==> 0 <= qs[i].partOf.value < i
  }

  /** Sentence ids never decrease along the list. */
  ghost predicate IdsOrdered(qs: seq<Quantity>)
  {
    forall i, i' :: 0 <= i < i' < |qs| ==> qs[i].sentenceId <= qs[i'].sentenceId
  }

  /** A quantity with a type and exactly the keys of the relation menu. */
  ghost predicate Complete(q: Quantity)
  {
    q.qtype.Some? && forall r :: r in q.context <==> r in Vocabulary
  }

  /**
   * `after` extends `before` by quantities of sentence `sId` whose part-of
   * links point back; with `complete`, each of them is also complete.
   */
  ghost predicate Tail(before: seq<Quantity>, after: seq<Quantity>, sId: int, complete: bool)
  {
    && |before| <= |after| && after[..|before|] == before
    && forall i :: |before| <= i < |after| ==>
         && after[i].sentenceId == sId
         && (after[i].partOf.Some? ==> 0 <= after[i].partOf.value < i)
         && (complete ==> Complete(after[i]))
  }

  lemma TailTrans(a: seq<Quantity>, b: seq<Quantity>, c: seq<Quantity>, sId: int, complete: bool)
    requires Tail(a, b, sId, complete) && Tail(b, c, sId, complete)
    ensures Tail(a, c, sId, complete)
  {
    assert c[..|a|] == b[..|a|];
  }

  /** One numeral: one quantity of this sentence, linked backwards, complete unless the step stops. */
  lemma ConstantStepTail(o: Collaborators, ss: seq<Sentence>, sId: int, s: Sentence, k: nat,
                         qs: seq<Quantity>, prev: Option<seq<Token>>)
    requires WellFormed(s) && k < |s.tokens|
    ensures var r := ConstantStep(o, ss, sId, s, k, qs, prev);
      Tail(qs, r.quantities, sId, r.failure.None?)
  {
    var r := ConstantStep(o, ss, sId, s, k, qs, prev);
    var anchors := ConstantAnchors(o, s, k, prev);
    ConstantStepAppends(o, ss, sId, s, k, qs, prev);
    ContextKeys(o, s, o.findAssociatedWord(anchors, s, "vb"), anchors, r.quantities[|qs|].context);
    ConstantPartOf(o, ss, sId, s, k, qs, prev);
    ConstantTypeFallback(o, ss, sId, s, k, qs, prev);
    SingleTail(qs, r.quantities, sId, r.failure.None?);
  }

  lemma ContextKeys(o: Collaborators, s: Sentence, verb: set<int>, typeIds: seq<int>, c: map<string, set<int>>)
    requires ChainedContext(o, s, verb, typeIds, c)
    ensures forall r :: r in c <==> r in Vocabulary
  {
  }

  /** A list grown by one quantity that meets the conditions of a tail. */
  lemma SingleTail(qs: seq<Quantity>, after: seq<Quantity>, sId: int, complete: bool)
    requires |after| == |qs| + 1 && after[..|qs|] == qs
    requires after[|qs|].sentenceId == sId
    requires after[|qs|].partOf.Some? ==> 0 <= after[|qs|].partOf.value < |qs|
    requires complete ==> Complete(after[|qs|])
    ensures Tail(qs, after, sId, complete)
  {
  }

  lemma {:induction false} ConstantsFromTail(o: Collaborators, ss: seq<Sentence>, sId: int, s: Sentence, k: nat,
                                             qs: seq<Quantity>, prev: Option<seq<Token>>)
    requires WellFormed(s) && k <= |s.tokens|
    ensures var r := ConstantsFrom(o, ss, sId, s, k, qs, prev);
      Tail(qs, r.quantities, sId, r.failure.None?)
    decreases |s.tokens| - k
  {
    if k == |s.tokens| {
      assert qs[..|qs|] == qs;
    } else if !EqualsIgnoreCase(s.tokens[k].pos, "cd") {
      ConstantsFromTail(o, ss, sId, s, k + 1, qs, prev);
    } else {
      var r1 := ConstantStep(o, ss, sId, s, k, qs, prev);
      ConstantStepTail(o, ss, sId, s, k, qs, prev);
      if r1.failure.None? {
        var r := ConstantsFrom(o, ss, sId, s, k + 1, r1.quantities, r1.prevType);
        ConstantsFromTail(o, ss, sId, s, k + 1, r1.quantities, r1.prevType);
        TailTrans(qs, r1.quantities, r.quantities, sId, r.failure.None?);
      }
    }
  }

  /** The question step adds at most one quantity of its sentence, with no part-of link, complete unless it stops. */
  lemma QuestionStepTail(o: Collaborators, sId: int, s: Sentence, qs: seq<Quantity>, prev: Option<seq<Token>>)
    ensures var r := QuestionStep(o, sId, s, qs, prev);
      && Tail(qs, r.quantities, sId, r.failure.None?)
      && |r.quantities| <= |qs| + 1
      && (|r.quantities| == |qs| + 1 ==> !r.quantities[|qs|].isPart && r.quantities[|qs|].partOf.None?)
  {
    var r := QuestionStep(o, sId, s, qs, prev);
    var c := CueFrom(o, s.tokens, 0, NoCue);
    if !HasCueWord(s) || c.target.None? {
      assert r.quantities == qs && qs[..|qs|] == qs;
    } else {
      UnknownAtTargetTail(o, sId, s, c, qs, prev);
    }
  }

  lemma UnknownAtTargetTail(o: Collaborators, sId: int, s: Sentence, c: Cue, qs: seq<Quantity>, prev: Option<seq<Token>>)
    requires c.target.Some?
    ensures var r := UnknownAtTarget(o, sId, s, c, qs, prev);
      && Tail(qs, r.quantities, sId, r.failure.None?)
      && |r.quantities| == |qs| + 1 && !r.quantities[|qs|].isPart && r.quantities[|qs|].partOf.None?
  {
    var r := UnknownAtTarget(o, sId, s, c, qs, prev);
    var localType := o.findType(c.target.value, s, prev);
    if r.failure.None? {
      var anchors := UnknownAnchors(c, localType);
      var verb := o.findAssociatedWordForQuestion(anchors, s, "vb");
      QuestionRelationChains(o, s, verb, anchors);
      ContextKeys(o, s, verb, anchors, UnknownContext(o, s, anchors));
    }
    SingleTail(qs, r.quantities, sId, r.failure.None?);
  }

  /** One sentence adds only quantities of its own id, linked backwards. */
  lemma SentenceStepTail(o: Collaborators, ss: seq<Sentence>, j: nat, qs: seq<Quantity>, prev: Option<seq<Token>>)
    requires j < |ss| && WellFormed(ss[j])
    ensures var r := SentenceStep(o, ss, j, qs, prev);
      Tail(qs, r.quantities, j + 1, r.failure.None?)
  {
    var r1 := ConstantsFrom(o, ss, j + 1, ss[j], 0, qs, prev);
    ConstantsFromTail(o, ss, j + 1, ss[j], 0, qs, prev);
    if r1.failure.None? && IsAQuestion(ss[j]) {
      var r := QuestionStep(o, j + 1, ss[j], r1.quantities, r1.prevType);
      QuestionStepTail(o, j + 1, ss[j], r1.quantities, r1.prevType);
      TailTrans(qs, r1.quantities, r.quantities, j + 1, r.failure.None?);
    }
  }

  /** The invariants of a list built from sentences 1 .. `j`. */
  ghost predicate Inv(qs: seq<Quantity>, j: int)
  {
    PointsBack(qs) && IdsOrdered(qs) && forall i :: 0 <= i < |qs| ==> qs[i].sentenceId <= j
  }

  /**
   * `fin` extends `qs` keeping the invariants, with the added quantities from
   * sentences `lo .. hi`, and complete when `ok`.
   */
  ghost predicate Grown(qs: seq<Quantity>, fin: seq<Quantity>, lo: int, hi: int, ok: bool)
  {
    && |qs| <= |fin| && fin[..|qs|] == qs && Inv(fin, hi)
    && (forall i :: |qs| <= i < |fin| ==> lo <= fin[i].sentenceId <= hi)
    && (ok ==> forall i :: |qs| <= i < |fin| ==> Complete(fin[i]))
  }

  /** The list keeps its invariants as sentences `j+1 ..` are processed. */
  lemma {:induction false} ProblemFromInvariants(o: Collaborators, ss: seq<Sentence>, j: nat,
                                                 qs: seq<Quantity>, prev: Option<seq<Token>>)
    requires AllWellFormed(ss) && j <= |ss| && Inv(qs, j)
    ensures var r := ProblemFrom(o, ss, j, qs, prev);
      Grown(qs, r.quantities, j + 1, |ss|, r.failure.None?)
    decreases |ss| - j
  {
    if j == |ss| {
      assert qs[..|qs|] == qs;
    } else {
      var r1 := SentenceStep(o, ss, j, qs, prev);
      SentenceStepTail(o, ss, j, qs, prev);
      TailGrown(qs, r1.quantities, j, |ss|, r1.failure.None?);
      if r1.failure.None? {
        var r := ProblemFrom(o, ss, j + 1, r1.quantities, r1.prevType);
        ProblemFromInvariants(o, ss, j + 1, r1.quantities, r1.prevType);
        GrownTrans(qs, r1.quantities, r.quantities, j + 1, |ss|, r.failure.None?);
      }
    }
  }

  /** A sentence tail keeps the list ordered and linked backwards. */
  lemma TailGrown(qs: seq<Quantity>, after: seq<Quantity>, j: nat, hi: int, complete: bool)
    requires Inv(qs, j) && j + 1 <= hi
    requires Tail(qs, after, j + 1, complete)
    ensures Grown(qs, after, j + 1, hi, complete) && Inv(after, j + 1)
  {
    assert forall i :: 0 <= i < |qs| ==> after[i] == qs[i];
  }

  /** Two extensions in a row, the first complete, the second from later sentences. */
  lemma GrownTrans(qs: seq<Quantity>, mid: seq<Quantity>, fin: seq<Quantity>, lo: int, hi: int, ok: bool)
    requires Grown(qs, mid, lo, hi, true) && Grown(mid, fin, lo + 1, hi, ok)
    ensures Grown(qs, fin, lo, hi, ok)
  {
    assert fin[..|qs|] == mid[..|qs|];
    forall i | |qs| <= i < |mid|
      ensures fin[i] == mid[i]
    {
      assert fin[..|mid|][i] == fin[i];
    }
  }

  /**
   * `findUnknowns` on a fresh problem: every quantity belongs to one of the
   * problem's sentences, in sentence order, every part-of link points to an
   * earlier quantity, and when nothing stops the run all of them are complete.
   */
  lemma FindUnknownsInvariants(o: Collaborators, ss: seq<Sentence>)
    requires AllWellFormed(ss)
    ensures var r := FindUnknowns(o, ss, []);
      && PointsBack(r.quantities) && IdsOrdered(r.quantities)
      && (forall i :: 0 <= i < |r.quantities| ==> 1 <= r.quantities[i].sentenceId <= |ss|)
      && (r.failure.None? ==> forall i :: 0 <= i < |r.quantities| ==> Complete(r.quantities[i]))
  {
    ProblemFromInvariants(o, ss, 0, [], None);
    var r := FindUnknowns(o, ss, []);
    assert Grown([], r.quantities, 1, |ss|, r.failure.None?);
  }
}
