/** The order in which a team's matches are played. */
module Schedule {
  import opened Collections
  import opened Model

  /** ORDER BY starts_at, id. */
  predicate NotAfter(matches: map<int, Match>, a: int, b: int) {
    && a in matches && b in matches
    && (|| matches[a].startsAt < matches[b].startsAt
        || (matches[a].startsAt == matches[b].startsAt && a <= b))
  }

  /** Any non-empty set of matches has a first one in the query's order. */
  lemma {:induction false} FirstExists(matches: map<int, Match>, candidates: set<int>)
    requires candidates != {} && candidates <= matches.Keys
    ensures exists m | m in candidates :: forall b | b in candidates :: NotAfter(matches, m, b)
    decreases candidates
  {
    var a := Pick(candidates);
    if candidates == {a} {
      assert NotAfter(matches, a, a);
    } else {
      var rest := candidates - {a};
      FirstExists(matches, rest);
      var m :| m in rest && forall b | b in rest :: NotAfter(matches, m, b);
      var least := if NotAfter(matches, a, m) then a else m;
      forall b | b in candidates ensures NotAfter(matches, least, b) {
        if b != a {
          assert b in rest && NotAfter(matches, m, b);
        }
      }
    }
  }
}
