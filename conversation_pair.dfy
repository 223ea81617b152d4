/**
 * The rule that maps two user ids to the one conversation row they share:
 * the row stores the smaller id (under JavaScript string `<`) as `user1_id`.
 */
module ConversationPair {
  import opened JsString

  /** The `(user1_id, user2_id)` key under which a conversation is looked up or created. */
  datatype Pair = Pair(user1_id: string, user2_id: string)

  /** Orders the ids of the current user and of the selected contact. */
  function CanonicalPair(current: string, selected: string): (p: Pair)
    ensures (p.user1_id == current && p.user2_id == selected)
         || (p.user1_id == selected && p.user2_id == current)
    ensures !Less(p.user2_id, p.user1_id)
  {
    var user1_id := if Less(current, selected) then current else selected;
    var user2_id := if Less(current, selected) then selected else current;
    LessAsymmetric(current, selected);
    LessTotal(current, selected);
    Pair(user1_id, user2_id)
  }

  /** The pair does not depend on which of the two users is the current one. */
  lemma CanonicalPairSymmetric(a: string, b: string)
    ensures CanonicalPair(a, b) == CanonicalPair(b, a)
  {
    LessTotal(a, b);
    LessAsymmetric(a, b);
  }

  /** Two users share a key exactly when they are the same two users. */
  lemma CanonicalPairInjective(a: string, b: string, c: string, d: string)
    ensures CanonicalPair(a, b) == CanonicalPair(c, d) <==> (a == c && b == d) || (a == d && b == c)
  {
    CanonicalPairSymmetric(a, b);
    CanonicalPairSymmetric(c, d);
  }
}
