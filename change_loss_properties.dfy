/**
 * Properties of the loss-cue feature, proved of `ChangeLossSpec` and so,
 * through its postcondition, of `ChangeLossQueue.AddFeatures`.
 */
module ChangeLossProperties {
  import opened Annotation
  import opened ChangeLossSpec

  /** The pairwise feature keys never collide with the two features written here. */
  lemma PairKeysDistinct(id: string)
    ensures SubjMatchKey(id) != CueKey && SubjMatchKey(id) != MistypedKey
    ensures SameTypeKey(id) != CueKey && SameTypeKey(id) != MistypedKey
  {
    assert SubjMatchKey(id)[2] == 's' && SameTypeKey(id)[2] == 's' && SameTypeKey(id)[3] == 'a';
    assert CueKey[2] == 'c' && MistypedKey[2] == 'm';
  }

  /** Resetting the two features does not change what a loss's verdict reads. */
  lemma JudgeReadsCaller(lexicon: string -> real, m: map<string, real>, count: int,
                         start: LossQuantity, end: LossQuantity, q: LossQuantity)
    ensures Judge(lexicon, Reset(m), count, start, end, q) == Judge(lexicon, m, count, start, end, q)
  {
    PairKeysDistinct(PairId(end, q));
  }

  /** The offset of the first loss from `i` on that does not pass, or the number of losses. */
  function FirstStop(lexicon: string -> real, m: map<string, real>, count: int,
                     start: LossQuantity, end: LossQuantity, losses: seq<LossQuantity>, i: nat): (f: nat)
    requires i <= |losses|
    ensures i <= f <= |losses|
    ensures forall k :: i <= k < f ==> Judge(lexicon, m, count, start, end, losses[k]) == Pass
    ensures f < |losses| ==> Judge(lexicon, m, count, start, end, losses[f]) != Pass
    decreases |losses| - i
  {
    if i == |losses| || Judge(lexicon, m, count, start, end, losses[i]) != Pass then i
    else FirstStop(lexicon, m, count, start, end, losses, i + 1)
  }

  /**
   * The scan ends at the first loss that does not pass, with that loss's
   * verdict; if every loss passes, the cue is set when there was at least one.
   */
  lemma {:induction false} ScanEndsAtFirstStop(lexicon: string -> real, m: map<string, real>, count: int,
                                               start: LossQuantity, end: LossQuantity, losses: seq<LossQuantity>, i: nat)
    requires i <= |losses|
    ensures var f := FirstStop(lexicon, m, count, start, end, losses, i);
      LossesFrom(lexicon, Reset(m), count, start, end, losses, i) ==
        if f == |losses| then Outcome(if |losses| > 0 then Reset(m)[CueKey := 1.0] else Reset(m), false)
        else Apply(Reset(m), Judge(lexicon, m, count, start, end, losses[f]))
    decreases |losses| - i
  {
    if i < |losses| {
      JudgeReadsCaller(lexicon, m, count, start, end, losses[i]);
      if Judge(lexicon, m, count, start, end, losses[i]) == Pass {
        ScanEndsAtFirstStop(lexicon, m, count, start, end, losses, i + 1);
      }
    }
  }

  /** The outcome for a change concept, by the first loss that does not pass. */
  function ChangeOutcome(lexicon: string -> real, m: map<string, real>, count: int,
                         start: LossQuantity, end: LossQuantity, losses: seq<LossQuantity>): Outcome
  {
    var f := FirstStop(lexicon, m, count, start, end, losses, 0);
    if f == |losses| then Outcome(if |losses| > 0 then Reset(m)[CueKey := 1.0] else Reset(m), false)
    else Apply(Reset(m), Judge(lexicon, m, count, start, end, losses[f]))
  }

  lemma AddFeaturesOnChange(lexicon: string -> real, count: int, world: Concept, m: map<string, real>)
    requires world.Change?
    ensures AddFeatures(lexicon, count, world, m) == ChangeOutcome(lexicon, m, count, world.start, world.end, world.losses)
  {
    ScanEndsAtFirstStop(lexicon, m, count, world.start, world.end, world.losses, 0);
  }

  /**
   * Both features are present afterwards, each 0.0 or 1.0, and no other key
   * of the map is added, removed or changed.
   */
  lemma FeaturesAndFrame(lexicon: string -> real, count: int, world: Concept, m: map<string, real>)
    ensures var r := AddFeatures(lexicon, count, world, m).features;
      && CueKey in r && MistypedKey in r
      && (r[CueKey] == 0.0 || r[CueKey] == 1.0) && (r[MistypedKey] == 0.0 || r[MistypedKey] == 1.0)
      && r - {CueKey, MistypedKey} == m - {CueKey, MistypedKey}
  {
    if world.Change? {
      AddFeaturesOnChange(lexicon, count, world, m);
    }
  }

  /** No change concept, or no losses: both features stay 0.0. */
  lemma NoLossesNoCue(lexicon: string -> real, count: int, world: Concept, m: map<string, real>)
    requires world.OtherConcept? || world.losses == []
    ensures var r := AddFeatures(lexicon, count, world, m);
      && !r.failed && r.features == Reset(m)
      && r.features[CueKey] == 0.0 && r.features[MistypedKey] == 0.0
  {
    if world.Change? {
      AddFeaturesOnChange(lexicon, count, world, m);
    }
  }

  /**
   * The cue is 1.0 exactly when every loss passes all checks (and there is
   * one), or when the first loss that does not pass is the unknown of a
   * three-quantity sample whose known start is not below its end.
   */
  lemma CueFeature(lexicon: string -> real, count: int, world: Concept, m: map<string, real>)
    ensures var r := AddFeatures(lexicon, count, world, m);
      r.features[CueKey] == 1.0 <==>
        && world.Change?
        && var f := FirstStop(lexicon, m, count, world.start, world.end, world.losses, 0);
        || (f == |world.losses| && |world.losses| > 0)
        || (f < |world.losses| && Judge(lexicon, m, count, world.start, world.end, world.losses[f]) == Settle(1.0))
  {
    if world.Change? {
      AddFeaturesOnChange(lexicon, count, world, m);
      PairKeysDistinct("");
    }
  }

  /** The first loss that does not pass, vetoed or contradicted, leaves both features at 0.0. */
  lemma VetoKeepsReset(lexicon: string -> real, count: int, world: Concept, m: map<string, real>)
    requires world.Change?
    requires var f := FirstStop(lexicon, m, count, world.start, world.end, world.losses, 0);
      f < |world.losses| && Judge(lexicon, m, count, world.start, world.end, world.losses[f]) in {Veto, Contradicts}
    ensures AddFeatures(lexicon, count, world, m) == Outcome(Reset(m), false)
  {
    AddFeaturesOnChange(lexicon, count, world, m);
  }

  /** A possessive verb on the first loss vetoes the cue, whatever follows. */
  lemma PossessiveVeto(lexicon: string -> real, count: int, world: Concept, m: map<string, real>)
    requires world.Change? && |world.losses| > 0 && HasPossessiveVerb(world.losses[0].verbLemmas)
    ensures var r := AddFeatures(lexicon, count, world, m);
      !r.failed && r.features[CueKey] == 0.0 && r.features[MistypedKey] == 0.0
  {
    AddFeaturesOnChange(lexicon, count, world, m);
  }

  /** The mistyped feature is 1.0 exactly when the first loss that does not pass has a type mismatch. */
  lemma MistypedFeature(lexicon: string -> real, count: int, world: Concept, m: map<string, real>)
    ensures var r := AddFeatures(lexicon, count, world, m);
      r.features[MistypedKey] == 1.0 <==>
        && world.Change?
        && var f := FirstStop(lexicon, m, count, world.start, world.end, world.losses, 0);
        && f < |world.losses|
        && Judge(lexicon, m, count, world.start, world.end, world.losses[f]) == Mistyped
  {
    if world.Change? {
      AddFeaturesOnChange(lexicon, count, world, m);
      PairKeysDistinct("");
    }
  }

  /** The two features are never both 1.0. */
  lemma NeverBoth(lexicon: string -> real, count: int, world: Concept, m: map<string, real>)
    ensures var r := AddFeatures(lexicon, count, world, m);
      !(r.features[CueKey] == 1.0 && r.features[MistypedKey] == 1.0)
  {
    CueFeature(lexicon, count, world, m);
    MistypedFeature(lexicon, count, world, m);
  }

  /** The call fails exactly when the first loss that does not pass lacks a pairwise feature. */
  lemma FailsOnMissingPair(lexicon: string -> real, count: int, world: Concept, m: map<string, real>)
    ensures var r := AddFeatures(lexicon, count, world, m);
      r.failed <==>
        && world.Change?
        && var f := FirstStop(lexicon, m, count, world.start, world.end, world.losses, 0);
        && f < |world.losses|
        && Judge(lexicon, m, count, world.start, world.end, world.losses[f]) == Missing
  {
    if world.Change? {
      AddFeaturesOnChange(lexicon, count, world, m);
    }
  }

  /** With both pairwise features stored for every loss, the call does not fail. */
  lemma PairsPresentNoFailure(lexicon: string -> real, count: int, world: Concept, m: map<string, real>)
    requires world.Change?
    requires forall k :: 0 <= k < |world.losses| ==>
      SubjMatchKey(PairId(world.end, world.losses[k])) in m && SameTypeKey(PairId(world.end, world.losses[k])) in m
    ensures !AddFeatures(lexicon, count, world, m).failed
  {
    FailsOnMissingPair(lexicon, count, world, m);
  }

  /**
   * The unknown of a three-quantity sample with a known start settles the
   * cue: 1.0 when the start is not below the end, else 0.0.
   */
  lemma UnknownSettles(lexicon: string -> real, count: int, world: Concept, m: map<string, real>)
    requires world.Change? && |world.losses| > 0
    requires var q := world.losses[0];
      !HasPossessiveVerb(q.verbLemmas) && q.isUnknown && count == 3 && !world.start.isDefault
    ensures var r := AddFeatures(lexicon, count, world, m);
      && !r.failed && r.features[MistypedKey] == 0.0
      && (r.features[CueKey] == 1.0 <==> world.start.value >= world.end.value)
  {
    AddFeaturesOnChange(lexicon, count, world, m);
    PairKeysDistinct("");
  }
}
