/**
 * The collaborators of the unknown finder whose code is not part of this model:
 * the type detector, the associated-word finder and the part-of-speech
 * predicates.  Each is an arbitrary total function; every property proved
 * about the unknown finder holds for every choice of them.
 */
module Collaborators {
  import opened Wrappers
  import opened Annotation

  datatype Collaborators = Collaborators(
    /** `TypeDetecter.findType(token, sentence, prevType)`. */
    findType: (Token, Sentence, Option<seq<Token>>) -> seq<Token>,
    /** `TypeDetecter.findObj(sentence, right)`; `right == -1` means unbounded. */
    findObj: (Sentence, int) -> seq<Token>,
    /** `AssociatedWordFinder.findAssociatedWord(anchors, sentence, pos)`. */
    findAssociatedWord: (seq<int>, Sentence, string) -> set<int>,
    /** `AssociatedWordFinder.findAssociatedWordForQuestion(anchors, sentence, pos)`. */
    findAssociatedWordForQuestion: (seq<int>, Sentence, string) -> set<int>,
    /** `AssociatedWordFinder.findAssociatedWordWithRel(verbs, anchors, sentence, relation)`. */
    findAssociatedWordWithRel: (set<int>, set<int>, Sentence, string) -> set<int>,
    /** `POSUtil.isVerb`. */
    isVerb: string -> bool,
    /** `POSUtil.isNoun`. */
    isNoun: string -> bool)
}
