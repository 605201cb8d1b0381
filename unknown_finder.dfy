/**
 * `UnknownFinder`: the scan that registers every numeral of a problem as a
 * constant quantity and the target of every question as an unknown, giving each
 * a type and a context bundle.  Each method is proved to compute what the
 * corresponding function of `UnknownSpec` describes.
 */
module UnknownFinder {
  import opened Wrappers
  import opened Annotation
  import opened Collaborators
  import opened Problem
  import opened UnknownSpec

  class UnknownFinder {
    /** The type detector, the associated-word finder and the part-of-speech predicates. */
    const collaborators: Collaborators

    constructor (collaborators: Collaborators)
      ensures this.collaborators == collaborators
    {
      this.collaborators := collaborators;
    }

    /** Appends the positions of `ts` to the anchor list `ids`. */
    static method AddIndices(ids: seq<int>, ts: seq<Token>) returns (r: seq<int>)
      ensures r == ids + Indices(ts)
    {
      r := ids;
      var m := 0;
      while m < |ts|
        invariant 0 <= m <= |ts|
        invariant r == ids + Indices(ts[..m])
      {
        assert ts[..m + 1] == ts[..m] + [ts[m]];
        IndicesSnoc(ts[..m], ts[m]);
        r := r + [ts[m].index];
        m := m + 1;
      }
      assert ts[..m] == ts;
    }

    /** The object search of the first fallback, over sentences `1 .. sId`. */
    method FirstObject(ss: seq<Sentence>, sId: int, right: int) returns (t: seq<Token>)
      ensures t == FirstObj(collaborators, ss, 0, sId, right)
    {
      t := [];
      var snid := 1;
      var k := 0;
      while k < |ss|
        invariant 0 <= k <= |ss| && snid == k + 1
        invariant t == [] && FirstObj(collaborators, ss, 0, sId, right) == FirstObj(collaborators, ss, k, sId, right)
        decreases |ss| - k
      {
        if snid > sId {
          break;
        }
        var bound := -1;
        if snid == sId {
          bound := right;
        }
        t := collaborators.findObj(ss[k], bound);
        if t != [] {
          break;
        }
        snid := snid + 1;
        k := k + 1;
      }
    }

    /**
     * The object search as the source writes it: `snid` stays at 1, so every
     * sentence is searched, each bounded by `right` exactly when `sId` is 1.
     */
    method FirstObjectAsWritten(ss: seq<Sentence>, sId: int, right: int) returns (t: seq<Token>)
      ensures t == FirstObjAsWritten(collaborators, ss, 0, sId, right)
    {
      t := [];
      var snid := 1;
      var k := 0;
      while k < |ss|
        invariant 0 <= k <= |ss| && snid == 1
        invariant t == [] && FirstObjAsWritten(collaborators, ss, 0, sId, right) == FirstObjAsWritten(collaborators, ss, k, sId, right)
        decreases |ss| - k
      {
        if snid > sId {
          break;
        }
        var bound := -1;
        if snid == sId {
          bound := right;
        }
        t := collaborators.findObj(ss[k], bound);
        if t != [] {
          break;
        }
        k := k + 1;
      }
    }

    /** The "of" fallback: the first type among `qs` holding the lemma of a position `start .. size-1`. */
    static method TypeAfterOfScan(s: Sentence, start: int, qs: seq<Quantity>) returns (found: Option<seq<Token>>)
      requires start >= 1
      ensures found == TypeAfterOf(s, start, qs)
    {
      found := None;
      var added := false;
      var i := start;
      while i < |s.tokens|
        invariant start <= i
        invariant !added && found.None? && TypeAfterOf(s, start, qs) == TypeAfterOf(s, i, qs)
        decreases |s.tokens| - i
      {
        var l := LemmaAt(s, i);
        var j := 0;
        while j < |qs|
          invariant 0 <= j <= |qs|
          invariant !added && found.None? && TypeWithLemma(qs, 0, l) == TypeWithLemma(qs, j, l)
          decreases |qs| - j
        {
          if qs[j].qtype.Some? {
            var ts := qs[j].qtype.value;
            var m := 0;
            while m < |ts|
              invariant 0 <= m <= |ts|
              invariant !added && forall m' :: 0 <= m' < m ==> !EqualsIgnoreCase(ts[m'].lemmaForm, l)
              decreases |ts| - m
            {
              if EqualsIgnoreCase(ts[m].lemmaForm, l) {
                found := Some(ts);
                added := true;
                break;
              }
              m := m + 1;
            }
            if added {
              break;
            }
          }
          j := j + 1;
        }
        if added {
          break;
        }
        i := i + 1;
      }
    }

    /** The relation queries of lines 70-93 (and 258-284) for one quantity. */
    method QueryRelations(s: Sentence, verb: set<int>, typeIds: seq<int>) returns (rel: Relations)
      ensures rel == FindRelations(collaborators, s, verb, typeIds)
    {
      var w := collaborators.findAssociatedWordWithRel;
      var anchors := AnchorSet(typeIds);
      var nsubj := w(verb, anchors, s, "nsubj");
      var iobj := w(verb, anchors, s, "iobj");
      var prepOf := w(verb, anchors, s, "prep_of");
      var prepTo := w(verb, anchors, s, "prep_to");
      var nmod := w(verb, anchors, s, "nmod");
      var dobj := w(verb, anchors, s, "dobj");
      var tmod := w(verb, anchors, s, "tmod");
      var amod := w(verb, anchors, s, "amod");
      var xcomp := w(verb, anchors, s, "xcomp");
      var dep := w(verb, anchors, s, "dep");
      var union := anchors + prepOf;
      var prepIn := w(verb, union, s, "prep_in");
      var ccomp := w(verb, anchors, s, "ccomp");
      union := anchors + ccomp;
      var advmod := w(verb, union, s, "advmod");
      var prepInAmod := w({}, prepIn, s, "amod");
      rel := Relations(nsubj, iobj, prepOf, prepTo, nmod, dobj, tmod, amod, xcomp, dep,
                       prepIn, ccomp, advmod, prepInAmod);
    }

    /** The fifteen `setContext` calls of the constant branch, lines 95-109. */
    static method SetConstantContext(p: ProblemRepresentation, i: nat, verb: set<int>, rel: Relations)
      requires i < |p.quantities| && p.quantities[i].context == map[]
      modifies p
      ensures p.quantities == old(p.quantities)[i := old(p.quantities)[i].(context := ConstantContext(verb, rel))]
    {
      p.SetContext(i, "verb", verb);
      p.SetContext(i, "amod", rel.amod);
      p.SetContext(i, "nsubj", rel.nsubj);
      p.SetContext(i, "tmod", rel.tmod);
      p.SetContext(i, "iobj", rel.iobj);
      p.SetContext(i, "dobj", rel.dobj);
      p.SetContext(i, "prep_of", rel.prepOf);
      p.SetContext(i, "prep_in", rel.prepIn);
      p.SetContext(i, "prep_to", rel.prepTo);
      p.SetContext(i, "ccomp", rel.ccomp);
      p.SetContext(i, "advmod", rel.advmod);
      p.SetContext(i, "nmod", rel.nmod);
      p.SetContext(i, "prep_in_amod", rel.prepInAmod);
      p.SetContext(i, "xcomp", rel.xcomp);
      p.SetContext(i, "dep", rel.dep);
    }

    /** The fifteen `setContext` calls of the question branch, lines 285-299. */
    static method SetQuestionContext(p: ProblemRepresentation, i: nat, verb: set<int>, rel: Relations)
      requires i < |p.quantities| && p.quantities[i].context == map[]
      modifies p
      ensures p.quantities == old(p.quantities)[i := old(p.quantities)[i].(context := QuestionContext(verb, rel))]
    {
      p.SetContext(i, "verb", verb);
      p.SetContext(i, "nsubj", rel.nsubj);
      p.SetContext(i, "amod", rel.amod);
      p.SetContext(i, "iobj", rel.iobj);
      p.SetContext(i, "prep_of", rel.prepOf);
      p.SetContext(i, "prep_in", rel.prepIn);
      p.SetContext(i, "prep_to", rel.prepTo);
      p.SetContext(i, "ccomp", rel.ccomp);
      p.SetContext(i, "advmod", rel.advmod);
      p.SetContext(i, "nmod", rel.nmod);
      p.SetContext(i, "dobj", rel.dobj);
      p.SetContext(i, "tmod", rel.tmod);
      p.SetContext(i, "prep_in_amod", rel.prepInAmod);
      p.SetContext(i, "xcomp", rel.xcomp);
      p.SetContext(i, "dep", rel.dep);
    }

    /** The part-of cue of lines 111-128 on the two tokens after position `idx`. */
    method FindPartCue(s: Sentence, idx: int) returns (isPart: bool)
      ensures isPart == PartCue(collaborators, s, idx)
    {
      isPart := false;
      if HasToken(s, idx + 1) && HasToken(s, idx + 2) {
        var lemma1 := LemmaAt(s, idx + 1);
        var lemma2 := LemmaAt(s, idx + 2);
        if collaborators.isVerb(PosAt(s, idx + 1)) || collaborators.isVerb(PosAt(s, idx + 2)) {
          if IsPossessiveLemma(lemma1) {
            isPart := true;
          }
          if IsPossessiveLemma(lemma2) {
            isPart := true;
          }
        }
        if EqualsIgnoreCase(lemma1, "of") && EqualsIgnoreCase(lemma2, "they") {
          isPart := true;
        }
      }
    }

    /** Lines 52-138: appends the constant for offset `k` with its context and part-of link. */
    method PrepareConstant(p: ProblemRepresentation, sId: int, s: Sentence, k: nat, prevType: Option<seq<Token>>)
      returns (i: nat)
      requires k < |s.tokens|
      modifies p
      ensures i == |old(p.quantities)|
      ensures p.quantities == old(p.quantities) + [PendingConstant(collaborators, sId, s, k, i + 1, prevType)]
    {
      ghost var q0 := p.quantities;
      i := AddConstantWithContext(p, sId, s, k, prevType);
      ghost var c := NewConstant(s.tokens[k].word, sId, s.tokens[k].index).(
        context := ConstantBundle(collaborators, s, ConstantAnchors(collaborators, s, k, prevType)));
      LinkPart(p, i, s, s.tokens[k].index);
      ghost var link := PartLink(collaborators, s, s.tokens[k].index, i + 1);
      ReplaceLast(q0, c, c.(isPart := link.Some?, partOf := link));
    }

    /** Lines 52-109: appends the constant for offset `k` with its context bundle. */
    method AddConstantWithContext(p: ProblemRepresentation, sId: int, s: Sentence, k: nat, prevType: Option<seq<Token>>)
      returns (i: nat)
      requires k < |s.tokens|
      modifies p
      ensures i == |old(p.quantities)|
      ensures p.quantities == old(p.quantities) + [NewConstant(s.tokens[k].word, sId, s.tokens[k].index).(
        context := ConstantBundle(collaborators, s, ConstantAnchors(collaborators, s, k, prevType)))]
    {
      ghost var q0 := p.quantities;
      var token := s.tokens[k];
      i := p.AddConstantQuantity(token.word, sId, token.index);
      ghost var c := NewConstant(token.word, sId, token.index);
      var localType := collaborators.findType(token, s, prevType);
      var typeIds := AddIndices([token.index], localType);
      AttachConstantContext(p, i, s, typeIds);
      ReplaceLast(q0, c, c.(context := ConstantBundle(collaborators, s, typeIds)));
    }

    /** Lines 68-109: the verb search and relation queries of a constant, stored as its context. */
    method AttachConstantContext(p: ProblemRepresentation, i: nat, s: Sentence, typeIds: seq<int>)
      requires i < |p.quantities| && p.quantities[i].context == map[]
      modifies p
      ensures p.quantities == old(p.quantities)[i := old(p.quantities)[i].(context := ConstantBundle(collaborators, s, typeIds))]
    {
      var verb := collaborators.findAssociatedWord(typeIds, s, "vb");
      var rel := QueryRelations(s, verb, typeIds);
      SetConstantContext(p, i, verb, rel);
    }

    /** Lines 111-138: links the newest quantity `i` to the one before it when the part-of cue follows `idx`. */
    method LinkPart(p: ProblemRepresentation, i: nat, s: Sentence, idx: int)
      requires i + 1 == |p.quantities| && !p.quantities[i].isPart && p.quantities[i].partOf.None?
      modifies p
      ensures var link := PartLink(collaborators, s, idx, |old(p.quantities)|);
        p.quantities == old(p.quantities)[i := old(p.quantities)[i].(isPart := link.Some?, partOf := link)]
    {
      var isPart := FindPartCue(s, idx);
      if isPart && p.NumberOfQuantities() >= 2 {
        var id := p.NumberOfQuantities();
        p.SetPartOf(i, id - 2);
      } else {
        assert p.quantities[i].(isPart := false, partOf := None) == p.quantities[i];
      }
    }

    method ResolveConstantType(p: ProblemRepresentation, sId: int, s: Sentence, k: nat, prevType: Option<seq<Token>>)
      returns (t: Option<seq<Token>>)
      requires WellFormed(s) && k < |s.tokens|
      ensures t == ConstantType(collaborators, p.sentences, sId, s, k, p.quantities, prevType)
    {
      var token := s.tokens[k];
      var localType := collaborators.findType(token, s, prevType);
      t := Some(localType);
      if localType == [] {
        if prevType.None? {
          var found := FirstObject(p.sentences, sId, token.index);
          t := Some(found);
        } else if p.NumberOfQuantities() > 1 {
          if !HasToken(s, token.index + 1) {
            return None;
          }
          if EqualsIgnoreCase(LemmaAt(s, token.index + 1), "of") {
            var found := TypeAfterOfScan(s, token.index + 2, p.quantities);
            t := Some(found.GetOr(prevType.value));
          } else {
            t := prevType;
          }
        } else {
          t := prevType;
        }
      }
    }

    /** Registers the numeral at offset `k` of sentence `sId`: lines 52-185 of the source. */
    method AddConstant(p: ProblemRepresentation, sId: int, s: Sentence, k: nat, prevType: Option<seq<Token>>)
      returns (nextType: Option<seq<Token>>, failure: Option<Failure>)
      requires WellFormed(s) && k < |s.tokens|
      modifies p
      ensures var r := ConstantStep(collaborators, p.sentences, sId, s, k, old(p.quantities), prevType);
              p.quantities == r.quantities && nextType == r.prevType && failure == r.failure
    {
      var i := PrepareConstant(p, sId, s, k, prevType);
      var t := ResolveConstantType(p, sId, s, k, prevType);
      if t.None? {
        return prevType, Some(LemmaPastEnd(sId, s.tokens[k].index));
      }
      p.SetType(i, t.value);
      nextType, failure := t, None;
    }
      /** The question-cue scan of lines 212-234. */
    method ScanQuestionCue(toks: seq<Token>) returns (c: Cue)
      ensures c == CueFrom(collaborators, toks, 0, NoCue)
    {
      var o := collaborators;
      var how, many, much, what := false, false, false, false;
      var q: Option<Token> := None;
      var targetToken: Option<Token> := None;
      var i := 0;
      while i < |toks|
        invariant 0 <= i <= |toks|
        invariant CueFrom(o, toks, 0, NoCue) == CueFrom(o, toks, i, Cue(how, many, much, what, q, targetToken))
        decreases |toks| - i
      {
        var token := toks[i];
        if how && many {
          if o.isNoun(token.pos) || StartsWith(Lower(token.pos), "jj") {
            break;
          }
        } else if how && much {
          break;
        } else if EqualsIgnoreCase(token.lemmaForm, "how") {
          how := true;
          q := Some(token);
        } else if EqualsIgnoreCase(token.lemmaForm, "many") {
          many := true;
        } else if how && !EqualsIgnoreCase(token.lemmaForm, "many") {
          much := true;
        } else if EqualsIgnoreCase(token.lemmaForm, "what") {
          what := true;
          q := Some(token);
        } else if what {
          break;
        }
        targetToken := Some(token);
        i := i + 1;
      }
      c := Cue(how, many, much, what, q, targetToken);
    }

    /** Lines 256-299: the verb search and relation queries of an unknown, stored as its context. */
    method AttachUnknownContext(p: ProblemRepresentation, i: nat, s: Sentence, typeIds: seq<int>)
      requires i < |p.quantities| && p.quantities[i].context == map[]
      modifies p
      ensures p.quantities == old(p.quantities)[i := old(p.quantities)[i].(context := UnknownContext(collaborators, s, typeIds))]
    {
      var verb := collaborators.findAssociatedWordForQuestion(typeIds, s, "vb");
      var rel := QueryRelations(s, verb, typeIds);
      SetQuestionContext(p, i, verb, rel);
    }

    /** Lines 243-247: the anchors of the unknown's relation bundle. */
    static method UnknownTypeIds(c: Cue, localType: seq<Token>) returns (typeIds: seq<int>)
      requires c.question.Some? && c.target.Some?
      ensures typeIds == UnknownAnchors(c, localType)
    {
      typeIds := [c.question.value.index];
      if c.how {
        typeIds := typeIds + [c.target.value.index - 1];
      }
      typeIds := AddIndices(typeIds, localType);
    }

    /** Lines 249-299: the final type of the unknown at `i`, then its context bundle. */
    method FinishUnknown(p: ProblemRepresentation, i: nat, t: seq<Token>, s: Sentence, typeIds: seq<int>)
      requires i < |p.quantities| && p.quantities[i].context == map[]
      modifies p
      ensures p.quantities == old(p.quantities)[i := old(p.quantities)[i].(qtype := Some(t), context := UnknownContext(collaborators, s, typeIds))]
    {
      p.SetType(i, t);
      AttachUnknownContext(p, i, s, typeIds);
    }

    /** Lines 236-299: records the unknown at the target of cue `c`. */
    method RecordUnknown(p: ProblemRepresentation, sId: int, s: Sentence, c: Cue, prevType: Option<seq<Token>>)
      returns (nextType: Option<seq<Token>>, failure: Option<Failure>)
      requires c.target.Some?
      modifies p
      ensures var r := UnknownAtTarget(collaborators, sId, s, c, old(p.quantities), prevType);
              p.quantities == r.quantities && nextType == r.prevType && failure == r.failure
    {
      var o := collaborators;
      ghost var q0 := p.quantities;
      var targetToken := c.target.value;
      var i := p.AddUnknown(sId, targetToken.index);
      ghost var u := NewUnknown(sId, targetToken.index);
      var localType := o.findType(targetToken, s, prevType);
      p.SetType(i, localType);
      ReplaceLast(q0, u, u.(qtype := Some(localType)));
      if c.question.None? {
        return prevType, Some(NoQuestionWord(sId));
      }
      var typeIds := UnknownTypeIds(c, localType);
      var t := localType;
      if localType == [] {
        if prevType.None? {
          return prevType, Some(NoPreviousType(sId));
        }
        t := prevType.value;
      }
      FinishUnknown(p, i, t, s, typeIds);
      ReplaceLast(q0, u.(qtype := Some(localType)), u.(qtype := Some(t), context := UnknownContext(o, s, typeIds)));
      nextType, failure := Some(t), None;
    }


    /** Registers the unknown of question sentence `sId`: lines 192-303 of the source. */
    method AddQuestionUnknown(p: ProblemRepresentation, sId: int, s: Sentence, prevType: Option<seq<Token>>)
      returns (nextType: Option<seq<Token>>, failure: Option<Failure>)
      modifies p
      ensures var r := QuestionStep(collaborators, sId, s, old(p.quantities), prevType);
              p.quantities == r.quantities && nextType == r.prevType && failure == r.failure
    {
      if !HasCueWord(s) {
        return prevType, Some(NoCueWord(sId));
      }
      var c := ScanQuestionCue(s.tokens);
      if c.target.None? {
        return prevType, Some(NoTarget(sId));
      }
      nextType, failure := RecordUnknown(p, sId, s, c, prevType);
    }

    /** The numeral scan of sentence `sId`, lines 43-190: a constant for every numeral, left to right. */
    method AddConstants(p: ProblemRepresentation, sId: int, s: Sentence, prevType: Option<seq<Token>>)
      returns (nextType: Option<seq<Token>>, failure: Option<Failure>)
      requires WellFormed(s)
      modifies p
      ensures var r := ConstantsFrom(collaborators, p.sentences, sId, s, 0, old(p.quantities), prevType);
              p.quantities == r.quantities && nextType == r.prevType && failure == r.failure
    {
      var o := collaborators;
      nextType := prevType;
      var k := 0;
      while k < |s.tokens|
        invariant 0 <= k <= |s.tokens|
        invariant ConstantsFrom(o, p.sentences, sId, s, 0, old(p.quantities), prevType)
               == ConstantsFrom(o, p.sentences, sId, s, k, p.quantities, nextType)
        decreases |s.tokens| - k
      {
        ghost var q, t := p.quantities, nextType;
        if EqualsIgnoreCase(s.tokens[k].pos, "cd") {
          var f;
          nextType, f := AddConstant(p, sId, s, k, nextType);
          if f.Some? {
            assert ConstantsFrom(o, p.sentences, sId, s, k, q, t) == ConstantStep(o, p.sentences, sId, s, k, q, t);
            return nextType, f;
          }
          assert ConstantsFrom(o, p.sentences, sId, s, k, q, t) == ConstantsFrom(o, p.sentences, sId, s, k + 1, p.quantities, nextType);
        } else {
          assert ConstantsFrom(o, p.sentences, sId, s, k, q, t) == ConstantsFrom(o, p.sentences, sId, s, k + 1, q, t);
        }
        k := k + 1;
      }
      failure := None;
    }

    /** One sentence of `findUnknowns`: its numerals, then its unknown if it is a question. */
    method AddSentence(p: ProblemRepresentation, j: nat, prevType: Option<seq<Token>>)
      returns (nextType: Option<seq<Token>>, failure: Option<Failure>)
      requires j < |p.sentences| && WellFormed(p.sentences[j])
      modifies p
      ensures var r := SentenceStep(collaborators, p.sentences, j, old(p.quantities), prevType);
              p.quantities == r.quantities && nextType == r.prevType && failure == r.failure
    {
      var s := p.sentences[j];
      var isQuestion := IsAQuestion(s);
      nextType, failure := AddConstants(p, j + 1, s, prevType);
      if failure.Some? {
        return;
      }
      if isQuestion {
        nextType, failure := AddQuestionUnknown(p, j + 1, s, nextType);
      }
    }

    /** `findUnknowns`: the sentences in order, carrying the previously resolved type. */
    method FindUnknowns(p: ProblemRepresentation) returns (failure: Option<Failure>)
      requires AllWellFormed(p.sentences)
      modifies p
      ensures var r := UnknownSpec.FindUnknowns(collaborators, p.sentences, old(p.quantities));
              p.quantities == r.quantities && failure == r.failure
    {
      var prevType: Option<seq<Token>> := None;
      var j := 0;
      while j < |p.sentences|
        invariant 0 <= j <= |p.sentences|
        invariant UnknownSpec.FindUnknowns(collaborators, p.sentences, old(p.quantities))
               == ProblemFrom(collaborators, p.sentences, j, p.quantities, prevType)
        decreases |p.sentences| - j
      {
        var f;
        prevType, f := AddSentence(p, j, prevType);
        if f.Some? {
          return f;
        }
        j := j + 1;
      }
      failure := None;
    }
  }
}
