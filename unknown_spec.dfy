/**
 * The behaviour of `UnknownFinder.findUnknowns` as functions: a fold over the
 * problem's sentences that carries the quantity list and the previously
 * resolved type.  A run that would throw in the source stops with a `failure`
 * and keeps the quantity list exactly as the source leaves it at that point.
 */
module UnknownSpec {
  import opened Wrappers
  import opened Annotation
  import opened Collaborators
  import opened Problem

  /** The fifteen context keys every created quantity receives. */
  const Vocabulary: seq<string> := ["verb", "amod", "nsubj", "tmod", "iobj", "dobj", "prep_of",
    "prep_in", "prep_to", "ccomp", "advmod", "nmod", "prep_in_amod", "xcomp", "dep"]

  /** The relations queried directly from the verbs and the anchors. */
  const DirectRelations: seq<string> := ["amod", "nsubj", "tmod", "iobj", "dobj", "prep_of",
    "prep_to", "ccomp", "nmod", "xcomp", "dep"]

  /** Why a run stops where the source throws. */
  datatype Failure =
    | LemmaPastEnd(sentenceId: int, position: int)  // lemma read after the last token
    | NoCueWord(sentenceId: int)                     // question text has neither "how" nor "what"
    | NoTarget(sentenceId: int)                      // question with no tokens
    | NoQuestionWord(sentenceId: int)                // no token has lemma "how" or "what"
    | NoPreviousType(sentenceId: int)                // untyped unknown and no type seen so far

  /** The quantity list, the type carried to the next quantity, and how the run ended. */
  datatype Run = Run(quantities: seq<Quantity>, prevType: Option<seq<Token>>, failure: Option<Failure>)

  /** The sets found for one quantity, one per relation query. */
  datatype Relations = Relations(
    nsubj: set<int>, iobj: set<int>, prepOf: set<int>, prepTo: set<int>, nmod: set<int>,
    dobj: set<int>, tmod: set<int>, amod: set<int>, xcomp: set<int>, dep: set<int>,
    prepIn: set<int>, ccomp: set<int>, advmod: set<int>, prepInAmod: set<int>)

  /** `isAQuestion`. */
  predicate IsAQuestion(s: Sentence)
  {
    Contains(s.raw, "?")
  }

  /**
   * The relation queries for one quantity: most from the verbs and the anchors,
   * "prep_in" from the anchors and the "prep_of" results, "advmod" from the
   * anchors and the "ccomp" results, and "prep_in_amod" as "amod" from no verb
   * and the "prep_in" results alone.
   */
  function FindRelations(o: Collaborators, s: Sentence, verb: set<int>, typeIds: seq<int>): Relations
  {
    var w := o.findAssociatedWordWithRel;
    var anchors := AnchorSet(typeIds);
    var prepOf := w(verb, anchors, s, "prep_of");
    var prepIn := w(verb, anchors + prepOf, s, "prep_in");
    var ccomp := w(verb, anchors, s, "ccomp");
    Relations(
      w(verb, anchors, s, "nsubj"), w(verb, anchors, s, "iobj"), prepOf, w(verb, anchors, s, "prep_to"),
      w(verb, anchors, s, "nmod"), w(verb, anchors, s, "dobj"), w(verb, anchors, s, "tmod"),
      w(verb, anchors, s, "amod"), w(verb, anchors, s, "xcomp"), w(verb, anchors, s, "dep"),
      prepIn, ccomp, w(verb, anchors + ccomp, s, "advmod"), w({}, prepIn, s, "amod"))
  }

  /** The context of a constant, keys set in the order of the constant branch. */
  function ConstantContext(verb: set<int>, r: Relations): map<string, set<int>>
  {
    map[]["verb" := verb]["amod" := r.amod]["nsubj" := r.nsubj]["tmod" := r.tmod]["iobj" := r.iobj]
      ["dobj" := r.dobj]["prep_of" := r.prepOf]["prep_in" := r.prepIn]["prep_to" := r.prepTo]
      ["ccomp" := r.ccomp]["advmod" := r.advmod]["nmod" := r.nmod]["prep_in_amod" := r.prepInAmod]
      ["xcomp" := r.xcomp]["dep" := r.dep]
  }

  /** The context of an unknown, keys set in the order of the question branch. */
  function QuestionContext(verb: set<int>, r: Relations): map<string, set<int>>
  {
    map[]["verb" := verb]["nsubj" := r.nsubj]["amod" := r.amod]["iobj" := r.iobj]["prep_of" := r.prepOf]
      ["prep_in" := r.prepIn]["prep_to" := r.prepTo]["ccomp" := r.ccomp]["advmod" := r.advmod]
      ["nmod" := r.nmod]["dobj" := r.dobj]["tmod" := r.tmod]["prep_in_amod" := r.prepInAmod]
      ["xcomp" := r.xcomp]["dep" := r.dep]
  }

  /** The positional part-of cue on the two tokens after position `idx`. */
  predicate PartCue(o: Collaborators, s: Sentence, idx: int)
  {
    HasToken(s, idx + 1) && HasToken(s, idx + 2) &&
    var l1, l2 := LemmaAt(s, idx + 1), LemmaAt(s, idx + 2);
    ((o.isVerb(PosAt(s, idx + 1)) || o.isVerb(PosAt(s, idx + 2))) && (IsPossessiveLemma(l1) || IsPossessiveLemma(l2)))
    || (EqualsIgnoreCase(l1, "of") && EqualsIgnoreCase(l2, "they"))
  }

  /** The link recorded for a new constant once the list holds `count` quantities. */
  function PartLink(o: Collaborators, s: Sentence, idx: int, count: nat): Option<nat>
  {
    if PartCue(o, s, idx) && count >= 2 then Some(count - 2) else None
  }

  /**
   * The first non-empty object found in sentences `k+1 .. sId`; only sentence
   * `sId` is bounded, to the left of position `right`.
   */
  function FirstObj(o: Collaborators, ss: seq<Sentence>, k: nat, sId: int, right: int): seq<Token>
    decreases |ss| - k
  {
    if k >= |ss| || k + 1 > sId then []
    else
      var t := o.findObj(ss[k], if k + 1 == sId then right else -1);
      if t != [] then t else FirstObj(o, ss, k + 1, sId, right)
  }

  /**
   * The object search as the source writes it: its sentence counter stays at 1,
   * so every sentence of the problem is searched, each bounded by `right`
   * exactly when `sId` is 1.
   */
  function FirstObjAsWritten(o: Collaborators, ss: seq<Sentence>, k: nat, sId: int, right: int): seq<Token>
    decreases |ss| - k
  {
    if k >= |ss| || 1 > sId then []
    else
      var t := o.findObj(ss[k], if 1 == sId then right else -1);
      if t != [] then t else FirstObjAsWritten(o, ss, k + 1, sId, right)
  }

  /** Some token of `ts` has lemma `l`, ignoring case. */
  predicate HasLemma(ts: seq<Token>, l: string)
  {
    exists k :: 0 <= k < |ts| && EqualsIgnoreCase(ts[k].lemmaForm, l)
  }

  /** The type of the first quantity from `j` on that has a type holding lemma `l`. */
  function TypeWithLemma(qs: seq<Quantity>, j: nat, l: string): Option<seq<Token>>
    decreases |qs| - j
  {
    if j >= |qs| then None
    else if qs[j].qtype.Some? && HasLemma(qs[j].qtype.value, l) then qs[j].qtype
    else TypeWithLemma(qs, j + 1, l)
  }

  /** The "of" fallback: positions `i .. size-1` are tried in order against all quantities. */
  function TypeAfterOf(s: Sentence, i: int, qs: seq<Quantity>): Option<seq<Token>>
    requires i >= 1
    decreases |s.tokens| - i
  {
    if i >= |s.tokens| then None
    else match TypeWithLemma(qs, 0, LemmaAt(s, i))
      case Some(t) => Some(t)
      case None => TypeAfterOf(s, i + 1, qs)
  }

  /** The anchors of the numeral at offset `k`: its own position, then those of its locally found type. */
  function ConstantAnchors(o: Collaborators, s: Sentence, k: nat, prev: Option<seq<Token>>): seq<int>
    requires k < |s.tokens|
  {
    [s.tokens[k].index] + Indices(o.findType(s.tokens[k], s, prev))
  }

  /**
   * The constant registered for the numeral at offset `k` once its context and
   * part-of link are set and before its type is (lines 52-138), when the list
   * then holds `count` quantities.
   */
  function PendingConstant(o: Collaborators, sId: int, s: Sentence, k: nat, count: nat, prev: Option<seq<Token>>): Quantity
    requires k < |s.tokens|
  {
    var tok := s.tokens[k];
    var link := PartLink(o, s, tok.index, count);
    NewConstant(tok.word, sId, tok.index).(
      context := ConstantBundle(o, s, ConstantAnchors(o, s, k, prev)),
      isPart := link.Some?, partOf := link)
  }

  /** The context bundle of a constant with anchors `typeIds` (lines 68-109). */
  function ConstantBundle(o: Collaborators, s: Sentence, typeIds: seq<int>): map<string, set<int>>
  {
    var verb := o.findAssociatedWord(typeIds, s, "vb");
    ConstantContext(verb, FindRelations(o, s, verb, typeIds))
  }

  /**
   * The type of the numeral at offset `k` (lines 140-183), where `qs` already
   * ends with its pending quantity; `None` where the source reads a lemma past
   * the last token.
   */
  function ConstantType(o: Collaborators, ss: seq<Sentence>, sId: int, s: Sentence, k: nat,
                        qs: seq<Quantity>, prev: Option<seq<Token>>): Option<seq<Token>>
    requires WellFormed(s) && k < |s.tokens|
  {
    var tok := s.tokens[k];
    var localType := o.findType(tok, s, prev);
    if localType != [] then Some(localType)
    else if prev.None? then Some(FirstObj(o, ss, 0, sId, tok.index))
    else if |qs| <= 1 then prev
    else if !HasToken(s, tok.index + 1) then None
    else if EqualsIgnoreCase(LemmaAt(s, tok.index + 1), "of") then Some(TypeAfterOf(s, tok.index + 2, qs).GetOr(prev.value))
    else prev
  }

  /** One numeral, the token at offset `k`: lines 52-185 of the source. */
  function ConstantStep(o: Collaborators, ss: seq<Sentence>, sId: int, s: Sentence, k: nat,
                        qs: seq<Quantity>, prev: Option<seq<Token>>): Run
    requires WellFormed(s) && k < |s.tokens|
  {
    var q := PendingConstant(o, sId, s, k, |qs| + 1, prev);
    match ConstantType(o, ss, sId, s, k, qs + [q], prev)
    case Some(t) => Run(qs + [q.(qtype := Some(t))], Some(t), None)
    case None => Run(qs + [q], prev, Some(LemmaPastEnd(sId, s.tokens[k].index)))
  }

  /** The numeral scan over the tokens from offset `k` on. */
  function ConstantsFrom(o: Collaborators, ss: seq<Sentence>, sId: int, s: Sentence, k: nat,
                         qs: seq<Quantity>, prev: Option<seq<Token>>): Run
    requires WellFormed(s) && k <= |s.tokens|
    decreases |s.tokens| - k
  {
    if k == |s.tokens| then Run(qs, prev, None)
    else if !EqualsIgnoreCase(s.tokens[k].pos, "cd") then ConstantsFrom(o, ss, sId, s, k + 1, qs, prev)
    else
      var r := ConstantStep(o, ss, sId, s, k, qs, prev);
      if r.failure.Some? then r else ConstantsFrom(o, ss, sId, s, k + 1, r.quantities, r.prevType)
  }

  /** The flags of the question-cue scan, the question word and the last token visited. */
  datatype Cue = Cue(how: bool, many: bool, much: bool, what: bool,
                     question: Option<Token>, target: Option<Token>)

  const NoCue := Cue(false, false, false, false, None, None)

  /** The cue for token `t` given the flags so far; `None` where the scan breaks. */
  function CueStep(o: Collaborators, c: Cue, t: Token): Option<Cue>
  {
    if c.how && c.many then
      if o.isNoun(t.pos) || StartsWith(Lower(t.pos), "jj") then None else Some(c.(target := Some(t)))
    else if c.how && c.much then None
    else if EqualsIgnoreCase(t.lemmaForm, "how") then Some(c.(how := true, question := Some(t), target := Some(t)))
    else if EqualsIgnoreCase(t.lemmaForm, "many") then Some(c.(many := true, target := Some(t)))
    else if c.how && !EqualsIgnoreCase(t.lemmaForm, "many") then Some(c.(much := true, target := Some(t)))
    else if EqualsIgnoreCase(t.lemmaForm, "what") then Some(c.(what := true, question := Some(t), target := Some(t)))
    else if c.what then None
    else Some(c.(target := Some(t)))
  }

  /** The question-cue scan over the tokens from offset `i` on. */
  function CueFrom(o: Collaborators, toks: seq<Token>, i: nat, c: Cue): Cue
    requires i <= |toks|
    decreases |toks| - i
  {
    if i == |toks| then c
    else match CueStep(o, c, toks[i])
      case None => c
      case Some(c') => CueFrom(o, toks, i + 1, c')
  }

  /** The anchors of the unknown: the question word, the token before the target after "how", the local type. */
  function UnknownAnchors(c: Cue, localType: seq<Token>): seq<int>
    requires c.question.Some? && c.target.Some?
  {
    [c.question.value.index] + (if c.how then [c.target.value.index - 1] else []) + Indices(localType)
  }

  /** The unknown recorded at the target of cue `c` (lines 236-299). */
  function UnknownAtTarget(o: Collaborators, sId: int, s: Sentence, c: Cue, qs: seq<Quantity>, prev: Option<seq<Token>>): Run
    requires c.target.Some?
  {
    var t := c.target.value;
    var localType := o.findType(t, s, prev);
    var u := NewUnknown(sId, t.index).(qtype := Some(localType));
    if c.question.None? then Run(qs + [u], prev, Some(NoQuestionWord(sId)))
    else if localType == [] && prev.None? then Run(qs + [u], prev, Some(NoPreviousType(sId)))
    else
      var finalType := if localType == [] then prev.value else localType;
      var ctx := UnknownContext(o, s, UnknownAnchors(c, localType));
      Run(qs + [u.(qtype := Some(finalType), context := ctx)], Some(finalType), None)
  }

  /** The context bundle of an unknown with anchors `typeIds` (lines 256-299). */
  function UnknownContext(o: Collaborators, s: Sentence, typeIds: seq<int>): map<string, set<int>>
  {
    var verb := o.findAssociatedWordForQuestion(typeIds, s, "vb");
    QuestionContext(verb, FindRelations(o, s, verb, typeIds))
  }

  /** The raw text, lowercased, mentions "how" or "what" (lines 207-208). */
  predicate HasCueWord(s: Sentence)
  {
    var text := Lower(s.raw);
    Contains(text, "how") || Contains(text, "what")
  }

  /** The unknown of a question sentence: lines 192-303 of the source. */
  function QuestionStep(o: Collaborators, sId: int, s: Sentence, qs: seq<Quantity>, prev: Option<seq<Token>>): Run
  {
    if !HasCueWord(s) then Run(qs, prev, Some(NoCueWord(sId)))
    else
      var c := CueFrom(o, s.tokens, 0, NoCue);
      if c.target.None? then Run(qs, prev, Some(NoTarget(sId)))
      else UnknownAtTarget(o, sId, s, c, qs, prev)
  }

  /** Sentence `j+1`: its numerals, then its unknown if it is a question. */
  function SentenceStep(o: Collaborators, ss: seq<Sentence>, j: nat, qs: seq<Quantity>, prev: Option<seq<Token>>): Run
    requires j < |ss| && WellFormed(ss[j])
  {
    var r := ConstantsFrom(o, ss, j + 1, ss[j], 0, qs, prev);
    if r.failure.Some? || !IsAQuestion(ss[j]) then r
    else QuestionStep(o, j + 1, ss[j], r.quantities, r.prevType)
  }

  predicate AllWellFormed(ss: seq<Sentence>)
  {
    forall j :: 0 <= j < |ss| ==> WellFormed(ss[j])
  }

  /** The sentences from offset `j` on. */
  function ProblemFrom(o: Collaborators, ss: seq<Sentence>, j: nat, qs: seq<Quantity>, prev: Option<seq<Token>>): Run
    requires AllWellFormed(ss) && j <= |ss|
    decreases |ss| - j
  {
    if j == |ss| then Run(qs, prev, None)
    else
      var r := SentenceStep(o, ss, j, qs, prev);
      if r.failure.Some? then r else ProblemFrom(o, ss, j + 1, r.quantities, r.prevType)
  }

  /** `findUnknowns` on a problem whose list already holds `qs`. */
  function FindUnknowns(o: Collaborators, ss: seq<Sentence>, qs: seq<Quantity>): Run
    requires AllWellFormed(ss)
  {
    ProblemFrom(o, ss, 0, qs, None)
  }
}
