/**
 * Properties of the unknown finder, proved of `UnknownSpec` (and so, through
 * the postconditions of `UnknownFinder`, of the imperative scan).
 */
module UnknownProperties {
  import opened Wrappers
  import opened Annotation
  import opened Collaborators
  import opened Problem
  import opened UnknownSpec

  /** `isAQuestion`: a sentence is a question exactly when its raw text has a '?' somewhere. */
  lemma IsAQuestionMeaning(s: Sentence)
    ensures IsAQuestion(s) <==> exists k :: 0 <= k < |s.raw| && s.raw[k] == '?'
  {
    ContainsOccurs(s.raw, "?");
    if k :| 0 <= k < |s.raw| && s.raw[k] == '?' {
      assert OccursAt(s.raw, "?", k);
    }
    if k :| OccursAt(s.raw, "?", k) {
      assert s.raw[k..k + 1][0] == s.raw[k];
    }
  }

  /**
   * A context bundle as the relation menu defines it: exactly the fifteen keys,
   * "verb" holding the verbs, the direct relations queried from the verbs and
   * the anchors, and the three chained relations queried from earlier results.
   */
  ghost predicate ChainedContext(o: Collaborators, s: Sentence, verb: set<int>, typeIds: seq<int>, c: map<string, set<int>>)
  {
    var w := o.findAssociatedWordWithRel;
    var anchors := AnchorSet(typeIds);
    && (forall r :: r in c <==> r in Vocabulary)
    && "verb" in c && c["verb"] == verb
    && (forall r :: r in DirectRelations ==> r in c && c[r] == w(verb, anchors, s, r))
    && "prep_of" in c && "prep_in" in c && "ccomp" in c && "advmod" in c && "prep_in_amod" in c
    && c["prep_in"] == w(verb, anchors + c["prep_of"], s, "prep_in")
    && c["advmod"] == w(verb, anchors + c["ccomp"], s, "advmod")
    && c["prep_in_amod"] == w({}, c["prep_in"], s, "amod")
  }

  /** Both branches build the same bundle, whatever order they set its keys in. */
  lemma SameBundleBothBranches(verb: set<int>, r: Relations)
    ensures ConstantContext(verb, r) == QuestionContext(verb, r)
  {
  }

  /** The keys of a bundle are exactly the fifteen names of the vocabulary. */
  lemma BundleKeys(verb: set<int>, r: Relations)
    ensures forall k :: k in ConstantContext(verb, r) <==> k in Vocabulary
  {
    var c := ConstantContext(verb, r);
    assert c.Keys == {"verb", "amod", "nsubj", "tmod", "iobj", "dobj", "prep_of",
      "prep_in", "prep_to", "ccomp", "advmod", "nmod", "prep_in_amod", "xcomp", "dep"};
  }

  /** Every direct relation of a bundle holds the set its query found. */
  lemma DirectEntries(verb: set<int>, r: Relations)
    ensures var c := ConstantContext(verb, r);
      && c["amod"] == r.amod && c["nsubj"] == r.nsubj && c["tmod"] == r.tmod && c["iobj"] == r.iobj
      && c["dobj"] == r.dobj && c["prep_of"] == r.prepOf && c["prep_to"] == r.prepTo && c["ccomp"] == r.ccomp
      && c["nmod"] == r.nmod && c["xcomp"] == r.xcomp && c["dep"] == r.dep && c["verb"] == verb
      && c["prep_in"] == r.prepIn && c["advmod"] == r.advmod && c["prep_in_amod"] == r.prepInAmod
  {
    LateEntries(verb, r);
    MiddleEntries(verb, r);
    EarlyEntries(verb, r);
  }

  /** The last five keys set on a constant. */
  lemma LateEntries(verb: set<int>, r: Relations)
    ensures var c := ConstantContext(verb, r);
      && c["advmod"] == r.advmod && c["nmod"] == r.nmod && c["prep_in_amod"] == r.prepInAmod
      && c["xcomp"] == r.xcomp && c["dep"] == r.dep
  {
  }

  /** The five keys set on a constant before those. */
  lemma MiddleEntries(verb: set<int>, r: Relations)
    ensures var c := ConstantContext(verb, r);
      && c["dobj"] == r.dobj && c["prep_of"] == r.prepOf && c["prep_in"] == r.prepIn
      && c["prep_to"] == r.prepTo && c["ccomp"] == r.ccomp
  {
  }

  /** The first five keys set on a constant. */
  lemma EarlyEntries(verb: set<int>, r: Relations)
    ensures var c := ConstantContext(verb, r);
      && c["verb"] == verb && c["amod"] == r.amod && c["nsubj"] == r.nsubj
      && c["tmod"] == r.tmod && c["iobj"] == r.iobj
  {
  }

  /** The direct relations of a bundle hold what their queries from the verbs and the anchors return. */
  lemma DirectChains(o: Collaborators, s: Sentence, verb: set<int>, typeIds: seq<int>)
    ensures var c := ConstantContext(verb, FindRelations(o, s, verb, typeIds));
      forall r :: r in DirectRelations ==> r in c && c[r] == o.findAssociatedWordWithRel(verb, AnchorSet(typeIds), s, r)
  {
    var rel := FindRelations(o, s, verb, typeIds);
    var c := ConstantContext(verb, rel);
    DirectEntries(verb, rel);
    forall r | r in DirectRelations
      ensures r in c && c[r] == o.findAssociatedWordWithRel(verb, AnchorSet(typeIds), s, r)
    {
    }
  }

  /** The chained relations of a bundle hold what their queries from earlier results return. */
  lemma IndirectChains(o: Collaborators, s: Sentence, verb: set<int>, typeIds: seq<int>)
    ensures var c := ConstantContext(verb, FindRelations(o, s, verb, typeIds));
      var w := o.findAssociatedWordWithRel;
      && c["verb"] == verb
      && c["prep_in"] == w(verb, AnchorSet(typeIds) + c["prep_of"], s, "prep_in")
      && c["advmod"] == w(verb, AnchorSet(typeIds) + c["ccomp"], s, "advmod")
      && c["prep_in_amod"] == w({}, c["prep_in"], s, "amod")
  {
    DirectEntries(verb, FindRelations(o, s, verb, typeIds));
  }

  /** The bundle built from the relation queries is a chained context with all fifteen keys. */
  lemma RelationChains(o: Collaborators, s: Sentence, verb: set<int>, typeIds: seq<int>)
    ensures ChainedContext(o, s, verb, typeIds, ConstantContext(verb, FindRelations(o, s, verb, typeIds)))
  {
    var c := ConstantContext(verb, FindRelations(o, s, verb, typeIds));
    BundleKeys(verb, FindRelations(o, s, verb, typeIds));
    DirectChains(o, s, verb, typeIds);
    IndirectChains(o, s, verb, typeIds);
    Assemble(o, s, verb, typeIds, c);
  }

  lemma Assemble(o: Collaborators, s: Sentence, verb: set<int>, typeIds: seq<int>, c: map<string, set<int>>)
    requires forall r :: r in c <==> r in Vocabulary
    requires forall r :: r in DirectRelations ==> r in c && c[r] == o.findAssociatedWordWithRel(verb, AnchorSet(typeIds), s, r)
    requires "verb" in c && c["verb"] == verb
    requires "prep_of" in c && "prep_in" in c && "ccomp" in c && "advmod" in c && "prep_in_amod" in c
    requires c["prep_in"] == o.findAssociatedWordWithRel(verb, AnchorSet(typeIds) + c["prep_of"], s, "prep_in")
    requires c["advmod"] == o.findAssociatedWordWithRel(verb, AnchorSet(typeIds) + c["ccomp"], s, "advmod")
    requires c["prep_in_amod"] == o.findAssociatedWordWithRel({}, c["prep_in"], s, "amod")
    ensures ChainedContext(o, s, verb, typeIds, c)
  {
  }

  /** The same holds of the bundle of an unknown. */
  lemma QuestionRelationChains(o: Collaborators, s: Sentence, verb: set<int>, typeIds: seq<int>)
    ensures ChainedContext(o, s, verb, typeIds, QuestionContext(verb, FindRelations(o, s, verb, typeIds)))
  {
    RelationChains(o, s, verb, typeIds);
    SameBundleBothBranches(verb, FindRelations(o, s, verb, typeIds));
  }
  /**
   * A numeral appends exactly one constant, at its own position, whose context
   * is the chained bundle of its anchors: the numeral followed by its locally
   * found type, whatever type the fallback later assigns.
   */
  lemma ConstantStepAppends(o: Collaborators, ss: seq<Sentence>, sId: int, s: Sentence, k: nat,
                            qs: seq<Quantity>, prev: Option<seq<Token>>)
    requires WellFormed(s) && k < |s.tokens|
    ensures var r := ConstantStep(o, ss, sId, s, k, qs, prev);
      && |r.quantities| == |qs| + 1 && r.quantities[..|qs|] == qs
      && var q := r.quantities[|qs|];
      && !q.isUnknown && q.sentenceId == sId && q.position == k + 1 && q.value == s.tokens[k].word
      && var anchors := ConstantAnchors(o, s, k, prev);
      && anchors[0] == k + 1 && anchors[1..] == Indices(o.findType(s.tokens[k], s, prev))
      && ChainedContext(o, s, o.findAssociatedWord(anchors, s, "vb"), anchors, q.context)
  {
    var anchors := ConstantAnchors(o, s, k, prev);
    var verb := o.findAssociatedWord(anchors, s, "vb");
    RelationChains(o, s, verb, anchors);
  }

  /** A numeral appends one constant of its sentence at its position. */
  lemma ConstantStepShape(o: Collaborators, ss: seq<Sentence>, sId: int, s: Sentence, k: nat,
                          qs: seq<Quantity>, prev: Option<seq<Token>>)
    requires WellFormed(s) && k < |s.tokens|
    ensures var r := ConstantStep(o, ss, sId, s, k, qs, prev);
      && |r.quantities| == |qs| + 1 && r.quantities[..|qs|] == qs
      && !r.quantities[|qs|].isUnknown && r.quantities[|qs|].sentenceId == sId && r.quantities[|qs|].position == k + 1
  {
  }

  /**
   * The part-of link: a constant is marked exactly when the cue on the two
   * following tokens holds and some quantity precedes it, and it is then linked
   * to the quantity immediately before it in the list.
   */
  lemma ConstantPartOf(o: Collaborators, ss: seq<Sentence>, sId: int, s: Sentence, k: nat,
                       qs: seq<Quantity>, prev: Option<seq<Token>>)
    requires WellFormed(s) && k < |s.tokens|
    ensures var q := ConstantStep(o, ss, sId, s, k, qs, prev).quantities[|qs|];
      && (q.isPart <==> PartCue(o, s, k + 1) && |qs| >= 1)
      && (q.isPart ==> q.partOf == Some(|qs| - 1))
      && (!q.isPart ==> q.partOf.None?)
  {
  }

  /** The cue itself: both following tokens exist, and a verb with "be"/"has"/"have" or the lemmas "of", "they". */
  lemma PartCueMeaning(o: Collaborators, s: Sentence, k: nat)
    requires WellFormed(s) && k < |s.tokens|
    ensures PartCue(o, s, k + 1) <==>
      && k + 2 < |s.tokens|
      && var t1, t2 := s.tokens[k + 1], s.tokens[k + 2];
      || ((o.isVerb(t1.pos) || o.isVerb(t2.pos)) && (IsPossessiveLemma(t1.lemmaForm) || IsPossessiveLemma(t2.lemmaForm)))
      || (EqualsIgnoreCase(t1.lemmaForm, "of") && EqualsIgnoreCase(t2.lemmaForm, "they"))
  {
  }

  /** Quantity `j` has a type holding the lemma at position `m`. */
  predicate TypeMatches(s: Sentence, m: int, qs: seq<Quantity>, j: int)
    requires HasToken(s, m) && 0 <= j < |qs|
  {
    qs[j].qtype.Some? && HasLemma(qs[j].qtype.value, LemmaAt(s, m))
  }

  /** The type search over quantities returns the first quantity from `j0` whose type holds `l`. */
  lemma {:induction false} TypeWithLemmaIsFirst(qs: seq<Quantity>, j0: nat, l: string)
    ensures var r := TypeWithLemma(qs, j0, l);
      && (r.None? <==> forall j :: j0 <= j < |qs| ==> !(qs[j].qtype.Some? && HasLemma(qs[j].qtype.value, l)))
      && (r.Some? ==> (exists j :: j0 <= j < |qs| && qs[j].qtype == r && HasLemma(r.value, l)
                         && forall j' :: j0 <= j' < j ==> !(qs[j'].qtype.Some? && HasLemma(qs[j'].qtype.value, l))))
    decreases |qs| - j0
  {
    if j0 < |qs| {
      TypeWithLemmaIsFirst(qs, j0 + 1, l);
      if !(qs[j0].qtype.Some? && HasLemma(qs[j0].qtype.value, l)) {
        var r := TypeWithLemma(qs, j0 + 1, l);
        if r.Some? {
          var j :| j0 + 1 <= j < |qs| && qs[j].qtype == r && HasLemma(r.value, l)
                   && forall j' :: j0 + 1 <= j' < j ==> !(qs[j'].qtype.Some? && HasLemma(qs[j'].qtype.value, l));
          assert forall j' :: j0 <= j' < j ==> !(qs[j'].qtype.Some? && HasLemma(qs[j'].qtype.value, l));
        }
      }
    }
  }

  /**
   * The "of" fallback adopts the type of the first match: the first position
   * from `i` (before the last token) whose lemma some typed quantity's type
   * holds, and at that position the first such quantity.
   */
  lemma {:induction false} TypeAfterOfIsFirst(s: Sentence, i: int, qs: seq<Quantity>)
    requires i >= 1
    ensures var r := TypeAfterOf(s, i, qs);
      && (r.None? <==> forall m, j :: i <= m < |s.tokens| && 0 <= j < |qs| ==> !TypeMatches(s, m, qs, j))
      && (r.Some? ==>
            exists m, j ::
              && i <= m < |s.tokens| && 0 <= j < |qs| && TypeMatches(s, m, qs, j) && qs[j].qtype == r
              && (forall m', j' :: i <= m' < m && 0 <= j' < |qs| ==> !TypeMatches(s, m', qs, j'))
              && (forall j' :: 0 <= j' < j ==> !TypeMatches(s, m, qs, j')))
    decreases |s.tokens| - i
  {
    if i < |s.tokens| {
      var l := LemmaAt(s, i);
      TypeWithLemmaIsFirst(qs, 0, l);
      TypeAfterOfIsFirst(s, i + 1, qs);
      var here := TypeWithLemma(qs, 0, l);
      if here.Some? {
        var j :| 0 <= j < |qs| && qs[j].qtype == here && HasLemma(here.value, l)
                 && forall j' :: 0 <= j' < j ==> !(qs[j'].qtype.Some? && HasLemma(qs[j'].qtype.value, l));
        assert TypeMatches(s, i, qs, j);
      } else {
        var r := TypeAfterOf(s, i + 1, qs);
        if r.Some? {
          var m, j :| i + 1 <= m < |s.tokens| && 0 <= j < |qs| && TypeMatches(s, m, qs, j) && qs[j].qtype == r
            && (forall m', j' :: i + 1 <= m' < m && 0 <= j' < |qs| ==> !TypeMatches(s, m', qs, j'))
            && (forall j' :: 0 <= j' < j ==> !TypeMatches(s, m, qs, j'));
          assert forall m', j' :: i <= m' < m && 0 <= j' < |qs| ==> !TypeMatches(s, m', qs, j');
        }
      }
    }
  }

  /**
   * The three-way type fallback, in priority order, and the failure of reading
   * the lemma after a numeral in the last position.  After a numeral the
   * carried type is that numeral's final type.
   */
  lemma ConstantTypeFallback(o: Collaborators, ss: seq<Sentence>, sId: int, s: Sentence, k: nat,
                             qs: seq<Quantity>, prev: Option<seq<Token>>)
    requires WellFormed(s) && k < |s.tokens|
    ensures var r := ConstantStep(o, ss, sId, s, k, qs, prev);
      var q := r.quantities[|qs|];
      var localType := o.findType(s.tokens[k], s, prev);
      && (r.failure.Some? <==> localType == [] && prev.Some? && |qs| >= 1 && k + 1 == |s.tokens|)
      && (r.failure.Some? ==> r.failure == Some(LemmaPastEnd(sId, k + 1)) && q.qtype.None? && r.prevType == prev)
      && (r.failure.None? ==> q.qtype.Some? && r.prevType == q.qtype)
      && (localType != [] ==> q.qtype == Some(localType))
      && (localType == [] && prev.None? ==> q.qtype == Some(FirstObj(o, ss, 0, sId, k + 1)))
      && (localType == [] && prev.Some? && |qs| == 0 ==> q.qtype == prev)
      && (localType == [] && prev.Some? && |qs| >= 1 && k + 1 < |s.tokens| ==>
            var afterOf := TypeAfterOf(s, k + 3, qs + [PendingConstant(o, sId, s, k, |qs| + 1, prev)]);
            q.qtype == if EqualsIgnoreCase(s.tokens[k + 1].lemmaForm, "of") && afterOf.Some? then afterOf else prev)
  {
  }

  /** The positions of the numerals (part-of-speech "cd", ignoring case) among `toks[k..]`, in order. */
  function NumeralPositions(toks: seq<Token>, k: nat): seq<int>
    decreases |toks| - k
  {
    if k >= |toks| then []
    else (if EqualsIgnoreCase(toks[k].pos, "cd") then [toks[k].index] else []) + NumeralPositions(toks, k + 1)
  }

  /**
   * The numeral scan appends constants of sentence `sId` at the numeral
   * positions, left to right: all of them when it succeeds, a prefix of them
   * when it stops.  What was in the list before is untouched.
   */
  lemma {:induction false} NumeralsAppended(o: Collaborators, ss: seq<Sentence>, sId: int, s: Sentence, k: nat,
                                            qs: seq<Quantity>, prev: Option<seq<Token>>)
    requires WellFormed(s) && k <= |s.tokens|
    ensures var r := ConstantsFrom(o, ss, sId, s, k, qs, prev);
      AppendedAt(qs, r.quantities, sId, NumeralPositions(s.tokens, k))
      && (r.failure.None? ==> |r.quantities| == |qs| + |NumeralPositions(s.tokens, k)|)
    decreases |s.tokens| - k, 1
  {
    if k == |s.tokens| {
      assert ConstantsFrom(o, ss, sId, s, k, qs, prev).quantities == qs == qs[..|qs|];
    } else if !EqualsIgnoreCase(s.tokens[k].pos, "cd") {
      assert ConstantsFrom(o, ss, sId, s, k, qs, prev) == ConstantsFrom(o, ss, sId, s, k + 1, qs, prev);
      assert NumeralPositions(s.tokens, k) == NumeralPositions(s.tokens, k + 1);
      NumeralsAppended(o, ss, sId, s, k + 1, qs, prev);
    } else {
      NumeralAppended(o, ss, sId, s, k, qs, prev);
    }
  }

  /** The case of `NumeralsAppended` where the token at `k` is a numeral. */
  lemma {:induction false} NumeralAppended(o: Collaborators, ss: seq<Sentence>, sId: int, s: Sentence, k: nat,
                                           qs: seq<Quantity>, prev: Option<seq<Token>>)
    requires WellFormed(s) && k < |s.tokens| && EqualsIgnoreCase(s.tokens[k].pos, "cd")
    ensures var r := ConstantsFrom(o, ss, sId, s, k, qs, prev);
      AppendedAt(qs, r.quantities, sId, NumeralPositions(s.tokens, k))
      && (r.failure.None? ==> |r.quantities| == |qs| + |NumeralPositions(s.tokens, k)|)
    decreases |s.tokens| - k, 0
  {
    var ps' := NumeralPositions(s.tokens, k + 1);
    assert NumeralPositions(s.tokens, k) == [k + 1] + ps';
    var r1 := ConstantStep(o, ss, sId, s, k, qs, prev);
    ConstantStepShape(o, ss, sId, s, k, qs, prev);
    if r1.failure.None? {
      var r := ConstantsFrom(o, ss, sId, s, k + 1, r1.quantities, r1.prevType);
      assert ConstantsFrom(o, ss, sId, s, k, qs, prev) == r;
      NumeralsAppended(o, ss, sId, s, k + 1, r1.quantities, r1.prevType);
      AppendedExtend(qs, r1.quantities, r.quantities, sId, k + 1, ps');
    } else {
      assert ConstantsFrom(o, ss, sId, s, k, qs, prev) == r1;
      assert r1.quantities[..|r1.quantities|] == r1.quantities;
      AppendedExtend(qs, r1.quantities, r1.quantities, sId, k + 1, ps');
    }
  }

  /** `after` is `before` followed by constants of sentence `sId` at a prefix of the positions `ps`. */
  ghost predicate AppendedAt(before: seq<Quantity>, after: seq<Quantity>, sId: int, ps: seq<int>)
  {
    && |before| <= |after| <= |before| + |ps| && after[..|before|] == before
    && forall i :: |before| <= i < |after| ==>
         !after[i].isUnknown && after[i].sentenceId == sId && after[i].position == ps[i - |before|]
  }

  lemma AppendedExtend(qs: seq<Quantity>, q1: seq<Quantity>, rq: seq<Quantity>, sId: int, pos: int, ps': seq<int>)
    requires |q1| == |qs| + 1 && q1[..|qs|] == qs
    requires !q1[|qs|].isUnknown && q1[|qs|].sentenceId == sId && q1[|qs|].position == pos
    requires AppendedAt(q1, rq, sId, ps')
    ensures AppendedAt(qs, rq, sId, [pos] + ps')
  {
    assert rq[..|qs|] == q1[..|qs|];
    assert rq[|qs|] == q1[|qs|];
  }

  /** A token whose lemma is none of the cue words "how", "many", "what". */
  predicate NoCueLemma(t: Token)
  {
    !EqualsIgnoreCase(t.lemmaForm, "how") && !EqualsIgnoreCase(t.lemmaForm, "many") && !EqualsIgnoreCase(t.lemmaForm, "what")
  }

  /** The scan state after visiting `toks[..j]` when none of them is a cue word. */
  function Visited(toks: seq<Token>, j: nat): Cue
    requires j <= |toks|
  {
    NoCue.(target := if j == 0 then None else Some(toks[j - 1]))
  }

  /** Tokens before the first cue word only move the target along. */
  lemma {:induction false} CuePrefix(o: Collaborators, toks: seq<Token>, i: nat, j: nat)
    requires i <= j <= |toks|
    requires forall m :: i <= m < j ==> NoCueLemma(toks[m])
    ensures CueFrom(o, toks, i, Visited(toks, i)) == CueFrom(o, toks, j, Visited(toks, j))
    decreases j - i
  {
    if i < j {
      assert CueStep(o, Visited(toks, i), toks[i]) == Some(Visited(toks, i + 1));
      CuePrefix(o, toks, i + 1, j);
    }
  }

  /** "how" then "many": the scan stops at the next noun, so the target is the "many" token. */
  lemma HowManyCue(o: Collaborators, toks: seq<Token>, j: nat)
    requires j + 2 < |toks|
    requires forall m :: 0 <= m < j ==> NoCueLemma(toks[m])
    requires EqualsIgnoreCase(toks[j].lemmaForm, "how") && EqualsIgnoreCase(toks[j + 1].lemmaForm, "many")
    requires o.isNoun(toks[j + 2].pos)
    ensures var c := CueFrom(o, toks, 0, NoCue);
      c.how && c.many && c.question == Some(toks[j]) && c.target == Some(toks[j + 1])
  {
    CuePrefix(o, toks, 0, j);
    var c1 := Visited(toks, j).(how := true, question := Some(toks[j]), target := Some(toks[j]));
    assert CueStep(o, Visited(toks, j), toks[j]) == Some(c1);
    var c2 := c1.(many := true, target := Some(toks[j + 1]));
    assert CueStep(o, c1, toks[j + 1]) == Some(c2);
    assert CueStep(o, c2, toks[j + 2]) == None;
    assert CueFrom(o, toks, j, Visited(toks, j)) == CueFrom(o, toks, j + 1, c1) == CueFrom(o, toks, j + 2, c2) == c2;
  }

  /** "how" then another word: "much" is set and the scan stops at the token after, the target. */
  lemma HowMuchCue(o: Collaborators, toks: seq<Token>, j: nat)
    requires j + 1 < |toks|
    requires forall m :: 0 <= m < j ==> NoCueLemma(toks[m])
    requires EqualsIgnoreCase(toks[j].lemmaForm, "how")
    requires !EqualsIgnoreCase(toks[j + 1].lemmaForm, "how") && !EqualsIgnoreCase(toks[j + 1].lemmaForm, "many")
    ensures var c := CueFrom(o, toks, 0, NoCue);
      c.how && c.much && !c.many && c.question == Some(toks[j]) && c.target == Some(toks[j + 1])
  {
    CuePrefix(o, toks, 0, j);
    var c1 := Visited(toks, j).(how := true, question := Some(toks[j]), target := Some(toks[j]));
    assert CueStep(o, Visited(toks, j), toks[j]) == Some(c1);
    var c2 := c1.(much := true, target := Some(toks[j + 1]));
    assert CueStep(o, c1, toks[j + 1]) == Some(c2);
    if j + 2 < |toks| {
      assert CueStep(o, c2, toks[j + 2]) == None;
    }
    assert CueFrom(o, toks, j, Visited(toks, j)) == CueFrom(o, toks, j + 1, c1) == CueFrom(o, toks, j + 2, c2) == c2;
  }

  /** "what" followed by an ordinary word: the scan stops there, leaving "what" as the target. */
  lemma WhatCue(o: Collaborators, toks: seq<Token>, j: nat)
    requires j + 1 < |toks|
    requires forall m :: 0 <= m < j ==> NoCueLemma(toks[m])
    requires EqualsIgnoreCase(toks[j].lemmaForm, "what") && NoCueLemma(toks[j + 1])
    ensures var c := CueFrom(o, toks, 0, NoCue);
      c.what && !c.how && c.question == Some(toks[j]) && c.target == Some(toks[j])
  {
    CuePrefix(o, toks, 0, j);
    var c1 := Visited(toks, j).(what := true, question := Some(toks[j]), target := Some(toks[j]));
    assert CueStep(o, Visited(toks, j), toks[j]) == Some(c1);
    assert CueStep(o, c1, toks[j + 1]) == None;
  }

  /** The offset at which the question-cue scan breaks, or the length if it never does. */
  function CueStop(o: Collaborators, toks: seq<Token>, i: nat, c: Cue): nat
    requires i <= |toks|
    decreases |toks| - i
  {
    if i == |toks| then i
    else match CueStep(o, c, toks[i])
      case None => i
      case Some(c') => CueStop(o, toks, i + 1, c')
  }

  /** Every visited token becomes the target, so the target is the last one visited. */
  lemma {:induction false} TargetIsLastVisitedFrom(o: Collaborators, toks: seq<Token>, i: nat, c: Cue)
    requires 1 <= i <= |toks| && c.target == Some(toks[i - 1])
    ensures i <= CueStop(o, toks, i, c) <= |toks|
    ensures CueFrom(o, toks, i, c).target == Some(toks[CueStop(o, toks, i, c) - 1])
    decreases |toks| - i
  {
    if i < |toks| {
      match CueStep(o, c, toks[i])
      case None =>
      case Some(c') =>
        TargetIsLastVisitedFrom(o, toks, i + 1, c');
    }
  }

  /**
   * The target of the scan is the last token visited before it breaks, or the
   * final token if it never breaks; there is none only for an empty sentence.
   */
  lemma TargetIsLastVisited(o: Collaborators, toks: seq<Token>)
    ensures var c := CueFrom(o, toks, 0, NoCue);
      && (c.target.None? <==> toks == [])
      && (toks != [] ==> 1 <= CueStop(o, toks, 0, NoCue) <= |toks|
                         && c.target == Some(toks[CueStop(o, toks, 0, NoCue) - 1]))
  {
    if toks != [] {
      var c1 := CueStep(o, NoCue, toks[0]);
      assert c1.Some? && c1.value.target == Some(toks[0]);
      TargetIsLastVisitedFrom(o, toks, 1, c1.value);
    }
  }

  /** Without a "how" or "what" lemma the scan finds no question word. */
  lemma {:induction false} NoQuestionWordFrom(o: Collaborators, toks: seq<Token>, i: nat, c: Cue)
    requires i <= |toks| && c.question.None?
    requires forall m :: i <= m < |toks| ==>
      !EqualsIgnoreCase(toks[m].lemmaForm, "how") && !EqualsIgnoreCase(toks[m].lemmaForm, "what")
    ensures CueFrom(o, toks, i, c).question.None?
    decreases |toks| - i
  {
    if i < |toks| {
      match CueStep(o, c, toks[i])
      case None =>
      case Some(c') =>
        NoQuestionWordFrom(o, toks, i + 1, c');
    }
  }

  /**
   * The question step: without a cue word or a target nothing is added; else
   * one unknown is appended at the target, and when a question word and some
   * type exist it carries the local type (or the inherited one) and the chained
   * context of its anchors, and that type is passed on.
   */
  lemma QuestionStepOutcome(o: Collaborators, sId: int, s: Sentence, qs: seq<Quantity>, prev: Option<seq<Token>>)
    ensures var r := QuestionStep(o, sId, s, qs, prev);
      var c := CueFrom(o, s.tokens, 0, NoCue);
      && (!HasCueWord(s) ==> r == Run(qs, prev, Some(NoCueWord(sId))))
      && (HasCueWord(s) && s.tokens == [] ==> r == Run(qs, prev, Some(NoTarget(sId))))
      && (HasCueWord(s) && s.tokens != [] ==>
            && c.target.Some?
            && |r.quantities| == |qs| + 1 && r.quantities[..|qs|] == qs
            && var u := r.quantities[|qs|];
            && var localType := o.findType(c.target.value, s, prev);
            && u.isUnknown && u.sentenceId == sId && u.position == c.target.value.index
            && !u.isPart && u.partOf.None?
            && (c.question.None? ==> r.failure == Some(NoQuestionWord(sId)) && r.prevType == prev)
            && (c.question.Some? && localType == [] && prev.None? ==>
                  r.failure == Some(NoPreviousType(sId)) && r.prevType == prev)
            && (c.question.Some? && (localType != [] || prev.Some?) ==>
                  && r.failure.None?
                  && u.qtype == r.prevType == Some(if localType == [] then prev.value else localType)
                  && var anchors := UnknownAnchors(c, localType);
                  && anchors[0] == c.question.value.index
                  && ChainedContext(o, s, o.findAssociatedWordForQuestion(anchors, s, "vb"), anchors, u.context)))
  {
    var c := CueFrom(o, s.tokens, 0, NoCue);
    TargetIsLastVisited(o, s.tokens);
    if HasCueWord(s) && s.tokens != [] && c.question.Some? {
      var localType := o.findType(c.target.value, s, prev);
      var anchors := UnknownAnchors(c, localType);
      QuestionRelationChains(o, s, o.findAssociatedWordForQuestion(anchors, s, "vb"), anchors);
    }
  }

  /** The object search in sentence `k+1`, bounded only in sentence `sId`. */
  function ObjAt(o: Collaborators, ss: seq<Sentence>, k: nat, sId: int, right: int): seq<Token>
    requires k < |ss|
  {
    o.findObj(ss[k], if k + 1 == sId then right else -1)
  }

  lemma {:induction false} FirstObjFrom(o: Collaborators, ss: seq<Sentence>, k: nat, sId: int, right: int)
    requires k <= |ss|
    ensures var r := FirstObj(o, ss, k, sId, right);
      && (r == [] <==> forall m :: k <= m < |ss| && m < sId ==> ObjAt(o, ss, m, sId, right) == [])
      && (r != [] ==> exists m :: k <= m < |ss| && m < sId && r == ObjAt(o, ss, m, sId, right)
                                 && forall m' :: k <= m' < m ==> ObjAt(o, ss, m', sId, right) == [])
    decreases |ss| - k
  {
    if k < |ss| && k < sId {
      if ObjAt(o, ss, k, sId, right) == [] {
        FirstObjFrom(o, ss, k + 1, sId, right);
      }
    }
  }

  /**
   * The object search, as corrected, returns the first non-empty object among
   * sentences 1 .. `sId` (the last one bounded by `right`), or nothing when
   * none of them has one.
   */
  lemma FirstObjIsFirstNonEmpty(o: Collaborators, ss: seq<Sentence>, sId: int, right: int)
    ensures var r := FirstObj(o, ss, 0, sId, right);
      && (r == [] <==> forall m :: 0 <= m < |ss| && m < sId ==> ObjAt(o, ss, m, sId, right) == [])
      && (r != [] ==> exists m :: 0 <= m < |ss| && m < sId && r == ObjAt(o, ss, m, sId, right)
                                 && forall m' :: 0 <= m' < m ==> ObjAt(o, ss, m', sId, right) == [])
  {
    FirstObjFrom(o, ss, 0, sId, right);
  }

  /** The corrected search never looks past sentence `sId`. */
  lemma {:induction false} FirstObjOnlyEarlier(o: Collaborators, ss: seq<Sentence>, ss': seq<Sentence>, k: nat, sId: nat, right: int)
    requires sId <= |ss| && sId <= |ss'| && ss[..sId] == ss'[..sId]
    ensures FirstObj(o, ss, k, sId, right) == FirstObj(o, ss', k, sId, right)
    decreases |ss| - k
  {
    if k < |ss| && k + 1 <= sId {
      assert ss[k] == ss[..sId][k] == ss'[k];
      FirstObjOnlyEarlier(o, ss, ss', k + 1, sId, right);
    }
  }

  /** Collaborators with no local type, whose object search returns a sentence that opens with a plural noun. */
  const ObjProbe: Collaborators := Collaborators(
    (t: Token, s: Sentence, p: Option<seq<Token>>) => [],
    (s: Sentence, right: int) => if |s.tokens| > 0 && s.tokens[0].pos == "nns" then s.tokens else [],
    (ids: seq<int>, s: Sentence, r: string) => {}, (ids: seq<int>, s: Sentence, r: string) => {},
    (v: set<int>, a: set<int>, s: Sentence, r: string) => {},
    (pos: string) => false, (pos: string) => false)

  /**
   * The source's search, with its counter stuck at 1, lets a later sentence
   * supply the type of a numeral in the first one.  The numeral "3" of
   * sentence 1, which has no object, gets the object of sentence 2 when that
   * sentence is appended; the corrected search, which the numeral step uses,
   * leaves its type empty.
   */
  lemma FirstObjAsWrittenLooksAhead()
    ensures var s1 := Sentence("3", [Token(1, "3", "3", "cd")]);
      var t := Token(1, "apples", "apple", "nns");
      var s2 := Sentence("apples", [t]);
      && FirstObjAsWritten(ObjProbe, [s1], 0, 1, 1) == []
      && FirstObjAsWritten(ObjProbe, [s1, s2], 0, 1, 1) == [t]
      && FirstObj(ObjProbe, [s1, s2], 0, 1, 1) == []
      && ConstantStep(ObjProbe, [s1, s2], 1, s1, 0, [], None).quantities[0].qtype == Some([])
  {
    var s1 := Sentence("3", [Token(1, "3", "3", "cd")]);
    var t := Token(1, "apples", "apple", "nns");
    var s2 := Sentence("apples", [t]);
    assert FirstObjAsWritten(ObjProbe, [s1, s2], 1, 1, 1) == [t];
    assert FirstObj(ObjProbe, [s1, s2], 0, 1, 1) == [];
    assert WellFormed(s1);
  }
}
