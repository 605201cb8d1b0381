# MathStudent unknown finder and loss-cue feature, in Dafny

This project models two parts of MathStudent, a system that reads arithmetic
word problems and builds a structured representation of their quantities.

**The unknown finder** (`UnknownFinder.findUnknowns`) walks the annotated
sentences of a problem. For every numeral (a token tagged `cd`) it
appends a constant quantity to the problem's quantity list and gives it:

- a type, which is the locally detected noun phrase or one of three fallbacks;
- a context bundle of fifteen dependency relations, found by chained queries
  to the associated-word finder;
- an optional part-of link to an earlier quantity.

For every question sentence (one whose raw text contains `?`) it finds the
target of a "how many / how much / what" cue. It then appends one unknown
quantity, with its own type and context bundle.

**The loss-cue feature** (`ChangeLossQueue.addFeatures`) resets the two
features `f_change_losscue` and `f_mistyped_loss` in a feature map. It then
walks the losses of a change concept and leaves through an early return: a
possessive-verb veto, an unknown short-circuit, or thresholds on pairwise
features already stored in the map.

Each core is modelled three times over:

- **A specification.** `UnknownSpec` and `ChangeLossSpec` are pure functions.
  They follow the source's branches, error cases and constants, with one
  exception: the object search of the numeral type fallback is the corrected
  one described under Findings.
- **An imperative model.** `UnknownFinder` and `ChangeLossQueue` are classes
  whose methods hold the source's loops, flags, breaks and early returns. Each
  `ensures` states that the method's result or new state is its specification
  function's value.
- **Properties.** `UnknownProperties`, `UnknownInvariants` and
  `ChangeLossProperties` hold lemmas about the specification functions.

The other modules:

- `Annotation`: tokens, sentences, and the ASCII `equalsIgnoreCase`,
  `toLowerCase` and `contains`.
- `Problem`: the quantity record, and `ProblemRepresentation` as a class with
  an append-only list.
- `Collaborators`: the type detector, the associated-word finder and the POS
  helper as uninterpreted functions. Every property holds for any
  implementation of them that depends on its anchors only as a set.

The Java exceptions the finder can raise are modelled as a `failure` in the
`Run` record, with the quantity list kept as Java leaves it at the throw:

- a `NullPointerException` when a question has no cue word, no target, no
  question word, or no type to inherit;
- an out-of-range `getLemma` when a numeral is the last token.

The loss-cue feature reports a missing pairwise feature (an unboxing failure)
as `failed`.

The part-of link goes to `quantities[count-2]` with `count` taken after the
append, which is the quantity immediately before the new one. The part-of
cue fires for a verb and a possessive lemma on either of the two following
tokens; one token need not be both.

## Model

| member | source | states |
|---|---|---|
| Annotation.ContainsOccurs | src/main/java/nlp/app/math/app/UnknownFinder.java:207-208 | `String.contains` as modelled holds exactly when the pattern occurs at some offset of the text |
| UnknownProperties.IsAQuestionMeaning | src/main/java/nlp/app/math/app/UnknownFinder.java:307-311 | a sentence is a question if and only if some character of its raw text is `?` |
| Problem.ProblemRepresentation.NumberOfQuantities | src/main/java/nlp/app/math/app/UnknownFinder.java:130-131 | the quantity count is the length of the quantity list |
| Problem.ProblemRepresentation.AddConstantQuantity | src/main/java/nlp/app/math/app/UnknownFinder.java:52 | appends one untyped, unmarked constant with the word, sentence id and position, and returns its index; the earlier quantities are unchanged |
| Problem.ProblemRepresentation.AddUnknown | src/main/java/nlp/app/math/app/UnknownFinder.java:236 | appends one untyped unknown at the sentence id and position, and returns its index |
| Problem.ProblemRepresentation.SetContext | src/main/java/nlp/app/math/app/UnknownFinder.java:95 | sets one context key of one quantity; every other quantity and key is unchanged |
| Problem.ProblemRepresentation.SetPartOf | src/main/java/nlp/app/math/app/UnknownFinder.java:134-135 | marks one quantity as a part and links it to the index given; nothing else changes |
| Problem.ProblemRepresentation.SetType | src/main/java/nlp/app/math/app/UnknownFinder.java:184 | sets the type of one quantity; nothing else changes |
| UnknownFinder.UnknownFinder.AddIndices | src/main/java/nlp/app/math/app/UnknownFinder.java:63-66 | the anchor loop yields the given ids followed by the positions of the type tokens, in order |
| UnknownFinder.UnknownFinder.FirstObject | src/main/java/nlp/app/math/app/UnknownFinder.java:141-153 | the sentence loop, with its counter advanced as evidently intended (the source never advances it), returns the corrected object search `FirstObj` (see Findings) |
| UnknownFinder.UnknownFinder.FirstObjectAsWritten | src/main/java/nlp/app/math/app/UnknownFinder.java:141-152 | the sentence loop as written, its counter never advanced, returns `FirstObjAsWritten`: every sentence is searched, bounded by the position only when `sId` is 1 |
| UnknownFinder.UnknownFinder.TypeAfterOfScan | src/main/java/nlp/app/math/app/UnknownFinder.java:157-174 | the three nested loops with the `added` flag return `TypeAfterOf`: the type of the first quantity matching the first matching position, or none |
| UnknownFinder.UnknownFinder.QueryRelations | src/main/java/nlp/app/math/app/UnknownFinder.java:68-93 | the fourteen relation queries return `FindRelations`, including the prep_in, advmod and prep_in_amod chains |
| UnknownFinder.UnknownFinder.SetConstantContext | src/main/java/nlp/app/math/app/UnknownFinder.java:95-109 | the fifteen `setContext` calls leave the constant's context equal to the bundle `ConstantContext`; no other quantity changes |
| UnknownFinder.UnknownFinder.SetQuestionContext | src/main/java/nlp/app/math/app/UnknownFinder.java:285-299 | the fifteen `setContext` calls leave the unknown's context equal to `QuestionContext`; no other quantity changes |
| UnknownFinder.UnknownFinder.FindPartCue | src/main/java/nlp/app/math/app/UnknownFinder.java:111-128 | the flag computed on the two following tokens is the part-of cue `PartCue` |
| UnknownFinder.UnknownFinder.AttachConstantContext | src/main/java/nlp/app/math/app/UnknownFinder.java:68-109 | the constant's context becomes `ConstantBundle` of its anchors: the verbs found from them and the chained relation queries; no other quantity changes |
| UnknownFinder.UnknownFinder.LinkPart | src/main/java/nlp/app/math/app/UnknownFinder.java:111-138 | the newest constant is marked and linked to `quantities[count-2]` exactly when the part-of cue fires and the list holds at least two quantities; otherwise nothing changes |
| UnknownFinder.UnknownFinder.AddConstantWithContext | src/main/java/nlp/app/math/app/UnknownFinder.java:52-109 | appends one constant with the numeral's word, sentence id and position, and the context bundle of its anchors; the earlier quantities are unchanged |
| UnknownFinder.UnknownFinder.PrepareConstant | src/main/java/nlp/app/math/app/UnknownFinder.java:52-138 | appends exactly the constant `PendingConstant`: its context from its anchors, and its part-of link to `quantities[count-2]` when the cue fires and count is at least 2 |
| UnknownFinder.UnknownFinder.ResolveConstantType | src/main/java/nlp/app/math/app/UnknownFinder.java:140-183 | the fallback branches yield `ConstantType`, with `None` where `getLemma` reads past the sentence |
| UnknownFinder.UnknownFinder.AddConstant | src/main/java/nlp/app/math/app/UnknownFinder.java:52-185 | the new list, the carried `prevType` and the failure are those of `ConstantStep` |
| UnknownFinder.UnknownFinder.AddConstants | src/main/java/nlp/app/math/app/UnknownFinder.java:43-190 | the token loop over one sentence computes the numeral scan `ConstantsFrom`, stopping at the first failing numeral |
| UnknownFinder.UnknownFinder.ScanQuestionCue | src/main/java/nlp/app/math/app/UnknownFinder.java:200-234 | the cue loop with its four flags and `break`s yields the scan `CueFrom` |
| UnknownFinder.UnknownFinder.UnknownTypeIds | src/main/java/nlp/app/math/app/UnknownFinder.java:243-247 | the unknown's anchors are the question word, the token before the target after "how", then the positions of the local type |
| UnknownFinder.UnknownFinder.FinishUnknown | src/main/java/nlp/app/math/app/UnknownFinder.java:249-299 | the unknown gets its final type and the context `UnknownContext` of its anchors; no other quantity changes |
| UnknownFinder.UnknownFinder.AttachUnknownContext | src/main/java/nlp/app/math/app/UnknownFinder.java:256-299 | the unknown's context becomes `UnknownContext` of its anchors; no other quantity changes |
| UnknownFinder.UnknownFinder.RecordUnknown | src/main/java/nlp/app/math/app/UnknownFinder.java:236-299 | the new list, type and failure are those of `UnknownAtTarget`, including the failures on a missing question word or a missing inherited type |
| UnknownFinder.UnknownFinder.AddQuestionUnknown | src/main/java/nlp/app/math/app/UnknownFinder.java:192-303 | the new list, type and failure are those of `QuestionStep` |
| UnknownFinder.UnknownFinder.AddSentence | src/main/java/nlp/app/math/app/UnknownFinder.java:36-303 | the token loop followed by the question step computes `SentenceStep` |
| UnknownFinder.UnknownFinder.FindUnknowns | src/main/java/nlp/app/math/app/UnknownFinder.java:33-305 | `findUnknowns` leaves the problem's quantity list, and reports the failure, of the specification `FindUnknowns` |
| UnknownProperties.SameBundleBothBranches | src/main/java/nlp/app/math/app/UnknownFinder.java:285-299 | the constant branch and the question branch store the same bundle for the same relations |
| UnknownProperties.BundleKeys | src/main/java/nlp/app/math/app/UnknownFinder.java:95-109 | a bundle holds exactly the fifteen relation names |
| UnknownProperties.DirectChains | src/main/java/nlp/app/math/app/UnknownFinder.java:70-109 | every direct relation of the stored bundle holds the query from the verbs and the anchors |
| UnknownProperties.IndirectChains | src/main/java/nlp/app/math/app/UnknownFinder.java:81-93 | prep_in is queried with anchors plus prep_of, advmod with anchors plus ccomp, and prep_in_amod as amod with no verb and prep_in as anchors |
| UnknownProperties.RelationChains | src/main/java/nlp/app/math/app/UnknownFinder.java:68-109 | a constant's stored bundle is the chained context of its anchors |
| UnknownProperties.QuestionRelationChains | src/main/java/nlp/app/math/app/UnknownFinder.java:256-299 | an unknown's stored bundle is the chained context of its anchors, with the same chains |
| UnknownProperties.ConstantStepAppends | src/main/java/nlp/app/math/app/UnknownFinder.java:52-109 | a numeral appends one constant at its own position. Its anchors are the numeral followed by the locally found type only, never a fallback type, and its context is the chained bundle of those anchors |
| UnknownProperties.ConstantStepShape | src/main/java/nlp/app/math/app/UnknownFinder.java:52 | one numeral grows the list by exactly one constant of its sentence and position, keeping the prefix |
| UnknownProperties.ConstantPartOf | src/main/java/nlp/app/math/app/UnknownFinder.java:130-138 | a constant is marked as a part if and only if the cue fires and a quantity precedes it, and then it links to the immediately preceding quantity |
| UnknownProperties.PartCueMeaning | src/main/java/nlp/app/math/app/UnknownFinder.java:111-128 | the cue fires if and only if both following tokens exist and either one is a verb and one has lemma be/has/have, or the lemmas are "of", "they" |
| UnknownProperties.TypeWithLemmaIsFirst | src/main/java/nlp/app/math/app/UnknownFinder.java:159-170 | the quantity search returns the type of the first typed quantity holding the lemma, and none when no quantity does |
| UnknownProperties.TypeAfterOfIsFirst | src/main/java/nlp/app/math/app/UnknownFinder.java:156-174 | the "of" scan returns a match for the first position that has any match, and none when no position does |
| UnknownProperties.ConstantTypeFallback | src/main/java/nlp/app/math/app/UnknownFinder.java:140-185 | the fallback priority: local type first; else the object search when nothing is inherited; else the inherited type for the first quantity; else the "of" scan or the inherited type. The step fails exactly when a lemma past the end is read, and otherwise `prevType` becomes the quantity's final type |
| UnknownProperties.NumeralsAppended | src/main/java/nlp/app/math/app/UnknownFinder.java:43-52 | the numeral scan appends constants of the sentence at the `cd` positions, left to right: all of them on success, a prefix when it stops |
| UnknownProperties.NumeralAppended | src/main/java/nlp/app/math/app/UnknownFinder.java:45-52 | the same, from a token that is a numeral |
| UnknownProperties.CuePrefix | src/main/java/nlp/app/math/app/UnknownFinder.java:212-233 | tokens before the first cue word only move the target |
| UnknownProperties.HowManyCue | src/main/java/nlp/app/math/app/UnknownFinder.java:213-223 | for "how many" followed by a noun, the question word is "how" and the target is the "many" token |
| UnknownProperties.HowMuchCue | src/main/java/nlp/app/math/app/UnknownFinder.java:218-226 | "how" followed by another word sets `much`, and the scan stops with that word as the target |
| UnknownProperties.WhatCue | src/main/java/nlp/app/math/app/UnknownFinder.java:227-233 | "what" followed by an ordinary word leaves "what" as both the question word and the target |
| UnknownProperties.TargetIsLastVisited | src/main/java/nlp/app/math/app/UnknownFinder.java:212-234 | the target is the last token visited before the break, or the final token; there is none only for an empty sentence |
| UnknownProperties.NoQuestionWordFrom | src/main/java/nlp/app/math/app/UnknownFinder.java:220-229 | without a "how" or "what" lemma the scan finds no question word |
| UnknownProperties.QuestionStepOutcome | src/main/java/nlp/app/math/app/UnknownFinder.java:207-299 | no cue word or no target: failure, with the list unchanged. Otherwise one unknown is appended at the target. With a question word and some type, it gets the local or inherited type, anchors built from the local type only, and the chained bundle; that type is passed on. The error cases are given as they arise |
| UnknownProperties.FirstObjIsFirstNonEmpty | src/main/java/nlp/app/math/app/UnknownFinder.java:141-153 | the corrected search returns the first non-empty object among sentences 1..sId, and nothing if there is none |
| UnknownProperties.FirstObjOnlyEarlier | src/main/java/nlp/app/math/app/UnknownFinder.java:143-148 | the corrected search depends only on sentences 1..sId |
| UnknownProperties.FirstObjAsWrittenLooksAhead | src/main/java/nlp/app/math/app/UnknownFinder.java:141-152 | as written, a numeral "3" in sentence 1, which has no object, gets the object of an appended sentence 2; the corrected search, and the numeral step that uses it, leave the type empty |
| UnknownInvariants.ConstantStepTail | src/main/java/nlp/app/math/app/UnknownFinder.java:52-138 | one numeral adds a quantity of its sentence whose part-of link points back; on success it is typed and has all fifteen keys |
| UnknownInvariants.ConstantsFromTail | src/main/java/nlp/app/math/app/UnknownFinder.java:43-189 | the numeral scan adds only such quantities |
| UnknownInvariants.QuestionStepTail | src/main/java/nlp/app/math/app/UnknownFinder.java:236-299 | the question step adds at most one quantity, of its sentence and with no part-of link; on success it is typed and has all fifteen keys |
| UnknownInvariants.SentenceStepTail | src/main/java/nlp/app/math/app/UnknownFinder.java:36-303 | a sentence adds only quantities of its own id, after the existing ones |
| UnknownInvariants.ProblemFromInvariants | src/main/java/nlp/app/math/app/UnknownFinder.java:36-304 | the list only grows at its end, sentence ids never decrease, part-of links point backwards, and on success every added quantity is complete |
| UnknownInvariants.FindUnknownsInvariants | src/main/java/nlp/app/math/app/UnknownFinder.java:33-305 | on a fresh problem every quantity belongs to one of its sentences, in sentence order, with part-of links to earlier quantities, and all are complete when no exception is raised |
| ChangeLossQueue.FeatureMap.Put | src/main/java/nlp/app/math/core/features/ChangeLossQueue.java:28 | `put` maps the key to the value and leaves every other key alone |
| ChangeLossQueue.ChangeLossQueue.VerbPolarity | src/main/java/nlp/app/math/core/features/ChangeLossQueue.java:42-52 | the verb loop vetoes exactly when some lemma is be/has/have, and otherwise sums the lexicon polarities |
| ChangeLossQueue.ChangeLossQueue.VisitLoss | src/main/java/nlp/app/math/core/features/ChangeLossQueue.java:41-74 | one pass of the loss loop returns from `addFeatures` exactly when the verdict `Judge` is not a pass, and then leaves the map and failure of that verdict; a pass changes nothing |
| ChangeLossQueue.ChangeLossQueue.ScanLosses | src/main/java/nlp/app/math/core/features/ChangeLossQueue.java:36-79 | the loss loop leaves the map, and reports the failure, of the scan `LossesFrom` |
| ChangeLossQueue.ChangeLossQueue.AddFeatures | src/main/java/nlp/app/math/core/features/ChangeLossQueue.java:26-83 | the method leaves the map, and reports the failure, of the specification `AddFeatures` |
| ChangeLossSpec.AddFeatures | src/main/java/nlp/app/math/core/features/ChangeLossQueue.java:28-29 | both features are present after the call |
| ChangeLossProperties.PairKeysDistinct | src/main/java/nlp/app/math/core/features/ChangeLossQueue.java:66-68 | the pairwise feature keys never coincide with the two features written |
| ChangeLossProperties.JudgeReadsCaller | src/main/java/nlp/app/math/core/features/ChangeLossQueue.java:66-68 | the pairwise features read are the caller's, whatever the reset wrote |
| ChangeLossProperties.FirstStop | src/main/java/nlp/app/math/core/features/ChangeLossQueue.java:39-75 | the first loss that fails a check: every loss before it passes, and it does not |
| ChangeLossProperties.ScanEndsAtFirstStop | src/main/java/nlp/app/math/core/features/ChangeLossQueue.java:39-79 | the loop ends with the verdict of the first loss that does not pass; if all pass, the cue is set when there was at least one loss |
| ChangeLossProperties.AddFeaturesOnChange | src/main/java/nlp/app/math/core/features/ChangeLossQueue.java:35-80 | for a change concept the outcome is decided by its first non-passing loss |
| ChangeLossProperties.FeaturesAndFrame | src/main/java/nlp/app/math/core/features/ChangeLossQueue.java:28-79 | both features are present, each 0.0 or 1.0, and no other key of the map is added, removed or changed |
| ChangeLossProperties.NoLossesNoCue | src/main/java/nlp/app/math/core/features/ChangeLossQueue.java:35-79 | a non-change concept, or no losses, leaves both features at 0.0 |
| ChangeLossProperties.CueFeature | src/main/java/nlp/app/math/core/features/ChangeLossQueue.java:54-79 | the cue is 1.0 if and only if all losses pass and there is one, or the first non-passing loss settles it with a start not below the end |
| ChangeLossProperties.VetoKeepsReset | src/main/java/nlp/app/math/core/features/ChangeLossQueue.java:44-74 | a veto or a polarity contradiction leaves both features at 0.0 |
| ChangeLossProperties.PossessiveVeto | src/main/java/nlp/app/math/core/features/ChangeLossQueue.java:42-49 | a possessive verb on the first loss leaves both features at 0.0, whatever follows |
| ChangeLossProperties.MistypedFeature | src/main/java/nlp/app/math/core/features/ChangeLossQueue.java:69-74 | the mistyped feature is 1.0 if and only if the first non-passing loss has a type mismatch |
| ChangeLossProperties.NeverBoth | src/main/java/nlp/app/math/core/features/ChangeLossQueue.java:57-78 | the two features are never both 1.0 |
| ChangeLossProperties.FailsOnMissingPair | src/main/java/nlp/app/math/core/features/ChangeLossQueue.java:66-68 | the call fails if and only if the first non-passing loss lacks a pairwise feature |
| ChangeLossProperties.PairsPresentNoFailure | src/main/java/nlp/app/math/core/features/ChangeLossQueue.java:66-68 | with both pairwise features stored for every loss, the call does not fail |
| ChangeLossProperties.UnknownSettles | src/main/java/nlp/app/math/core/features/ChangeLossQueue.java:54-63 | an unknown first loss of a three-quantity sample with a known start sets the cue to 1.0 exactly when start is at least end, and leaves the mistyped feature at 0.0 |

## Left out

- Case folding: `toLowerCase` and `equalsIgnoreCase` are modelled on ASCII letters only; the rest of Unicode case mapping is not modelled.
- The bodies of `TypeDetecter`, `AssociatedWordFinder` and `POSUtil` are not part of this model. They are uninterpreted functions, so every property holds for any implementation of them.
- `VerbPolarityHelper` is not part of this model. The polarity lexicon is a function parameter.
- Anchor order: the anchors of the chained queries are built from a `HashSet`, whose iteration order is unspecified. The relation query therefore takes its anchors as a set.
- `Quantity.setContext` is modelled as a plain map update. Whatever it does with the sentence argument is not part of this model.
- `setPart(true)` and `setPartOf(q)` are merged into one update, `SetPartOf`. The link is the index of `q` in the list, not an object reference.
- Aliasing of the type lists shared through `prevType`, `type` and `quantity.getType()` is not modelled; types are values. `addAll` on the unknown's type is modelled by its result, the inherited type.
- `WellFormed` (token positions are 1-based and contiguous) is the annotator's guarantee that `token.index()` and `getLemma(i)` rely on. It is a precondition of the finder's methods.
- `double` is modelled as `real`; only the thresholds 0.5 and -0.5 and one `<` comparison matter.
- Quantity values, unique ids and the `isDefault` flag of `ChangeConcept` and `MathSample` are inputs of the loss-cue feature, read from a `LossQuantity` record. `MathSample.getWorld(y)` is the `world` parameter, and `getQuantities().size()` is the `count` parameter.
- The `rep` and `aggregatefeatureMap` parameters of `addFeatures` are not used by it, and are left out.
- The debug print for `y == 268`, the constructor's `debug` flag and the commented-out prints are not modelled.
- UnknownSpec.ConstantType, UnknownFinder.UnknownFinder.ResolveConstantType, UnknownFinder.UnknownFinder.FirstObject and everything built on them (AddConstant, AddConstants, AddSentence, FindUnknowns and their specification functions) use the corrected object search, not the search the source runs. The source's search is modelled by FirstObjAsWritten and FirstObjectAsWritten only (see Findings).
- The "of" scan visits 1-based positions `idx+2 .. size-1`, so it never looks at the last token. The model keeps this as written.

## Findings

| source | as written | input that shows it | evidently intended | confidence | as-written member | corrected member |
|---|---|---|---|---|---|---|
| src/main/java/nlp/app/math/app/UnknownFinder.java:142-152 | the sentence counter `snid` is never incremented. The search therefore runs over every sentence of the problem, bounded by the token position exactly when `sId` is 1 | two sentences; the numeral is in sentence 1, which has no object; sentence 2 has one. The search returns sentence 2's object | search sentences 1..sId only, bounding only sentence `sId` by the token position | high (not executed) | UnknownSpec.FirstObjAsWritten, UnknownFinder.UnknownFinder.FirstObjectAsWritten, UnknownProperties.FirstObjAsWrittenLooksAhead | UnknownSpec.FirstObj, UnknownProperties.FirstObjIsFirstNonEmpty |
