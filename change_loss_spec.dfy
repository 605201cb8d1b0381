/**
 * The loss-cue feature of a change concept as a function of its inputs: the
 * two features written into the feature map, and the pairwise features it
 * reads back from it.
 */
module ChangeLossSpec {
  import opened Annotation

  /** What the feature reads of a quantity of the sample. */
  datatype LossQuantity = LossQuantity(
    uniqueId: string,
    isUnknown: bool,
    verbLemmas: seq<string>,
    isDefault: bool,
    value: real)

  /** The world hypothesised for a sample: a change (start, end, losses) or some other concept. */
  datatype Concept =
    | Change(start: LossQuantity, end: LossQuantity, losses: seq<LossQuantity>)
    | OtherConcept

  const CueKey: string := "f_change_losscue"
  const MistypedKey: string := "f_mistyped_loss"

  /** The id of the pair (end, loss) under which the pairwise features are stored. */
  function PairId(end: LossQuantity, q: LossQuantity): string
  {
    end.uniqueId + q.uniqueId
  }

  function SubjMatchKey(id: string): string { "f_subjmatch" + id }
  function SameTypeKey(id: string): string { "f_sameType" + id }

  /** Some verb lemma is "be", "has" or "have", ignoring case. */
  predicate HasPossessiveVerb(lemmas: seq<string>)
  {
    exists k :: 0 <= k < |lemmas| && IsPossessiveLemma(lemmas[k])
  }

  /** The summed lexicon polarity of the verb lemmas, added left to right. */
  function Polarity(lexicon: string -> real, lemmas: seq<string>): real
  {
    if lemmas == [] then 0.0 else Polarity(lexicon, lemmas[..|lemmas| - 1]) + lexicon(lemmas[|lemmas| - 1])
  }

  /** How one loss quantity ends the scan, or lets it go on. */
  datatype Verdict =
    | Veto            // a possessive verb: leave the features as they are
    | Settle(cue: real) // the unknown of a three-quantity sample with a known start
    | Missing         // a pairwise feature is absent: unboxing it fails
    | Mistyped        // the pair does not share a type
    | Contradicts     // the verb polarity disagrees with the subject match
    | Pass

  /** The verdict on loss `q` of a change from `start` to `end`, reading pairwise features from `m`. */
  function Judge(lexicon: string -> real, m: map<string, real>, count: int,
                 start: LossQuantity, end: LossQuantity, q: LossQuantity): Verdict
  {
    if HasPossessiveVerb(q.verbLemmas) then Veto
    else if q.isUnknown && count == 3 && !start.isDefault then
      Settle(if start.value < end.value then 0.0 else 1.0)
    else
      var id := PairId(end, q);
      if SubjMatchKey(id) !in m || SameTypeKey(id) !in m then Missing
      else
        var subjMatch := m[SubjMatchKey(id)];
        var typeMatch := m[SameTypeKey(id)];
        var polarity := Polarity(lexicon, q.verbLemmas);
        if typeMatch < 0.5 then Mistyped
        else if (polarity < -0.5 && subjMatch < 0.5) || (polarity > 0.5 && subjMatch > 0.5) then Contradicts
        else Pass
  }

  /** The features and whether the call failed on a missing pairwise feature. */
  datatype Outcome = Outcome(features: map<string, real>, failed: bool)

  /** The effect of the verdict that ends the scan. */
  function Apply(m: map<string, real>, v: Verdict): Outcome
  {
    match v
    case Settle(cue) => Outcome(m[CueKey := cue], false)
    case Missing => Outcome(m, true)
    case Mistyped => Outcome(m[MistypedKey := 1.0], false)
    case _ => Outcome(m, false)
  }

  /** The scan over the losses from offset `i` on, with `m` the feature map. */
  function LossesFrom(lexicon: string -> real, m: map<string, real>, count: int,
                      start: LossQuantity, end: LossQuantity, losses: seq<LossQuantity>, i: nat): (r: Outcome)
    requires i <= |losses|
    ensures m.Keys <= r.features.Keys
    decreases |losses| - i
  {
    if i == |losses| then Outcome(if |losses| > 0 then m[CueKey := 1.0] else m, false)
    else
      var v := Judge(lexicon, m, count, start, end, losses[i]);
      if v == Pass then LossesFrom(lexicon, m, count, start, end, losses, i + 1) else Apply(m, v)
  }

  /** Both features reset to 0.0. */
  function Reset(m: map<string, real>): map<string, real>
  {
    m[CueKey := 0.0][MistypedKey := 0.0]
  }

  /** `addFeatures` for a sample of `count` quantities whose world is `world`. */
  function AddFeatures(lexicon: string -> real, count: int, world: Concept, m: map<string, real>): (r: Outcome)
    ensures CueKey in r.features && MistypedKey in r.features
  {
    match world
    case OtherConcept => Outcome(Reset(m), false)
    case Change(start, end, losses) => LossesFrom(lexicon, Reset(m), count, start, end, losses, 0)
  }
}
