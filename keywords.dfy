/**
 * The detectors' keyword tables: the multilingual labels of sponsored posts, of the
 * "Follow" action and of the "Suggested for you" banner. They are constants and the
 * matching they feed is trimmed exact equality.
 */
module Keywords {
  import opened Strings

  const SPONSORED_KEYWORDS: seq<string> := [
    "Sponsored", "광고", "Publicidad", "Gesponsert", "Sponsorisé", "Patrocinado", "広告", "贊助", "赞助"
  ]

  const FOLLOW_BUTTON_KEYWORDS: seq<string> := [
    "Follow", "팔로우", "Seguir", "Folgen", "Suivre", "フォローする", "追蹤", "关注", "Segui"
  ]

  const SUGGESTED_TEXT_KEYWORDS: seq<string> := [
    "Suggested for you", "Recommended for you", "회원님을 위한 추천", "Sugerido para ti",
    "Empfohlen für dich", "Suggéré pour vous"
  ]

  /** A keyword a trimmed-equality match can reach: non-empty and its own trim. */
  predicate Reachable(k: string) {
    k != [] && Trim(k) == k
  }

  predicate AllReachable(table: seq<string>) {
    forall i :: 0 <= i < |table| ==> Reachable(table[i])
  }

  predicate Distinct(table: seq<string>) {
    forall i, j :: 0 <= i < j < |table| ==> table[i] != table[j]
  }

  predicate Disjoint(t1: seq<string>, t2: seq<string>) {
    forall i, j :: 0 <= i < |t1| && 0 <= j < |t2| ==> t1[i] != t2[j]
  }

  lemma TableSizes()
    ensures |SPONSORED_KEYWORDS| == 9 && SPONSORED_KEYWORDS[0] == "Sponsored"
    ensures |FOLLOW_BUTTON_KEYWORDS| == 9 && FOLLOW_BUTTON_KEYWORDS[0] == "Follow"
    ensures |SUGGESTED_TEXT_KEYWORDS| == 6 && SUGGESTED_TEXT_KEYWORDS[0] == "Suggested for you"
    ensures Distinct(SPONSORED_KEYWORDS) && Distinct(FOLLOW_BUTTON_KEYWORDS) && Distinct(SUGGESTED_TEXT_KEYWORDS)
  {
  }

  /** A keyword with no white space at either end and at least one character is reachable. */
  lemma TrimmedIsReachable(k: string)
    requires k != [] && !IsWhiteSpace(k[0]) && !IsWhiteSpace(k[|k| - 1])
    ensures Reachable(k)
  {
    TrimFixedIff(k);
  }

  lemma TableReachable(table: seq<string>)
    requires forall i :: 0 <= i < |table| ==> table[i] != [] && !IsWhiteSpace(table[i][0]) && !IsWhiteSpace(table[i][|table[i]| - 1])
    ensures AllReachable(table)
  {
    forall i | 0 <= i < |table| ensures Reachable(table[i]) {
      TrimmedIsReachable(table[i]);
    }
  }

  /** Every keyword of every table is non-empty and equal to its own trim, so each can match. */
  lemma KeywordsReachable()
    ensures AllReachable(SPONSORED_KEYWORDS)
    ensures AllReachable(FOLLOW_BUTTON_KEYWORDS)
    ensures AllReachable(SUGGESTED_TEXT_KEYWORDS)
  {
    TableReachable(SPONSORED_KEYWORDS);
    TableReachable(FOLLOW_BUTTON_KEYWORDS);
    TableReachable(SUGGESTED_TEXT_KEYWORDS);
  }

  /** No label belongs to two categories. */
  lemma TablesDisjoint()
    ensures Disjoint(SPONSORED_KEYWORDS, FOLLOW_BUTTON_KEYWORDS)
    ensures Disjoint(SPONSORED_KEYWORDS, SUGGESTED_TEXT_KEYWORDS)
    ensures Disjoint(FOLLOW_BUTTON_KEYWORDS, SUGGESTED_TEXT_KEYWORDS)
  {
  }
}
