/**
 * The loss-cue feature extractor: it resets its two features in the caller's
 * feature map, then walks the losses of a change concept and leaves through
 * one of several early returns.
 */
module ChangeLossQueue {
  import opened Annotation
  import opened ChangeLossSpec

  /** The caller's feature map, updated in place. */
  class FeatureMap {
    var entries: map<string, real>

    constructor(entries: map<string, real>)
      ensures this.entries == entries
    {
      this.entries := entries;
    }

    method Put(key: string, value: real)
      modifies this
      ensures entries == old(entries)[key := value]
    {
      entries := entries[key := value];
    }
  }

  class ChangeLossQueue {
    const fName: string := CueKey
    const fName1: string := MistypedKey

    constructor()
    {
    }

    /** The summed polarity of the verb lemmas; `vetoed` when one of them is possessive. */
    static method VerbPolarity(lexicon: string -> real, verbs: seq<string>) returns (polarity: real, vetoed: bool)
      ensures vetoed == HasPossessiveVerb(verbs)
      ensures !vetoed ==> polarity == Polarity(lexicon, verbs)
    {
      polarity := 0.0;
      var j := 0;
      while j < |verbs|
        invariant 0 <= j <= |verbs|
        invariant polarity == Polarity(lexicon, verbs[..j])
        invariant forall k :: 0 <= k < j ==> !IsPossessiveLemma(verbs[k])
      {
        if IsPossessiveLemma(verbs[j]) {
          return polarity, true;
        }
        assert verbs[..j + 1][..j] == verbs[..j];
        polarity := polarity + lexicon(verbs[j]);
        j := j + 1;
      }
      assert verbs[..j] == verbs;
      vetoed := false;
    }

    /**
     * The body of the loss loop (lines 40-74) on loss `q` of a change from
     * `start` to `end`; `stop` when it returns from `addFeatures`.
     */
    method VisitLoss(lexicon: string -> real, count: int, start: LossQuantity, end: LossQuantity,
                     q: LossQuantity, featureMap: FeatureMap)
      returns (stop: bool, failed: bool)
      modifies featureMap
      ensures var v := Judge(lexicon, old(featureMap.entries), count, start, end, q);
        && stop == (v != Pass)
        && (stop ==> featureMap.entries == Apply(old(featureMap.entries), v).features
                     && failed == Apply(old(featureMap.entries), v).failed)
        && (!stop ==> featureMap.entries == old(featureMap.entries) && !failed)
    {
      stop, failed := true, false;
      var polarity, vetoed := VerbPolarity(lexicon, q.verbLemmas);
      if vetoed {
        return;
      }
      if q.isUnknown {
        if count == 3 && !start.isDefault {
          if start.value < end.value {
            featureMap.Put(fName, 0.0);
            return;
          } else {
            featureMap.Put(fName, 1.0);
            return;
          }
        }
      }
      var id := end.uniqueId + q.uniqueId;
      if SubjMatchKey(id) !in featureMap.entries || SameTypeKey(id) !in featureMap.entries {
        failed := true;
        return;
      }
      var subjMatch := featureMap.entries[SubjMatchKey(id)];
      var typeMatch := featureMap.entries[SameTypeKey(id)];
      if typeMatch < 0.5 {
        featureMap.Put(fName1, 1.0);
      }
      if typeMatch < 0.5 || (polarity < -0.5 && subjMatch < 0.5) || (polarity > 0.5 && subjMatch > 0.5) {
        return;
      }
      stop := false;
    }

    /**
     * The loss loop of `addFeatures` (lines 36-79) on a feature map whose two
     * features are already reset: the first loss that is not a pass decides,
     * and when every loss passes the loss cue is set.
     */
    method ScanLosses(lexicon: string -> real, count: int, start: LossQuantity, end: LossQuantity,
                      losses: seq<LossQuantity>, featureMap: FeatureMap)
      returns (failed: bool)
      modifies featureMap
      ensures var r := LossesFrom(lexicon, old(featureMap.entries), count, start, end, losses, 0);
        featureMap.entries == r.features && failed == r.failed
    {
      ghost var m0 := featureMap.entries;
      failed := false;
      var lossCue := false;
      var i := 0;
      while i < |losses|
        invariant 0 <= i <= |losses|
        invariant featureMap.entries == m0
        invariant lossCue == (i > 0) && !failed
        invariant LossesFrom(lexicon, m0, count, start, end, losses, 0)
               == LossesFrom(lexicon, m0, count, start, end, losses, i)
      {
        lossCue := true;
        var stop;
        stop, failed := VisitLoss(lexicon, count, start, end, losses[i], featureMap);
        if stop {
          return;
        }
        i := i + 1;
      }
      if lossCue {
        featureMap.Put(fName, 1.0);
      }
    }

    /**
     * `addFeatures`: `count` is the number of quantities of the sample and
     * `world` its hypothesised concept; `failed` reports the failure to unbox
     * a pairwise feature that is not in the map.
     */
    method AddFeatures(lexicon: string -> real, count: int, world: Concept, featureMap: FeatureMap)
      returns (failed: bool)
      modifies featureMap
      ensures var r := ChangeLossSpec.AddFeatures(lexicon, count, world, old(featureMap.entries));
        featureMap.entries == r.features && failed == r.failed
    {
      featureMap.Put(fName, 0.0);
      featureMap.Put(fName1, 0.0);
      failed := false;
      if world.Change? {
        failed := ScanLosses(lexicon, count, world.start, world.end, world.losses, featureMap);
      }
    }
  }
}
