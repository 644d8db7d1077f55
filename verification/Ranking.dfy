/**
  How a cycle ranks scored candidates and which one it may attempt: the best by score, the
  deterministic one on a tie, and never one flagged for a review nobody can route.
 */
module Ranking {
  import opened Wrappers
  import opened Json
  import opened Candidates

  /** A simulated candidate; no score when its simulation or scoring failed. */
  datatype Scored = Scored(candidate: Candidate, score: Option<real>)

  /** Strictly higher by score; a candidate without a score is below every other. */
  predicate Beats(a: Scored, b: Scored) {
    a.score.Some? && (b.score.None? || a.score.value > b.score.value)
  }

  function SourceRank(s: Scored): int { if s.candidate.source.Deterministic? then 0 else 1 }

  /** `_rank_key`, compared: score downwards, deterministic first, then the payload's text. */
  predicate RankLeq(show: Payload -> string, a: Scored, b: Scored) {
    || Beats(a, b)
    || (!Beats(b, a) && SourceRank(a) < SourceRank(b))
    || (!Beats(b, a) && SourceRank(a) == SourceRank(b) && Leq(show(a.candidate.payload), show(b.candidate.payload)))
  }

  lemma RankTotal(show: Payload -> string, a: Scored, b: Scored)
    ensures RankLeq(show, a, b) || RankLeq(show, b, a)
  {
    LeqTotal(show(a.candidate.payload), show(b.candidate.payload));
  }

  lemma RankTransitive(show: Payload -> string, a: Scored, b: Scored, c: Scored)
    requires RankLeq(show, a, b) && RankLeq(show, b, c)
    ensures RankLeq(show, a, c)
  {
    if Leq(show(a.candidate.payload), show(b.candidate.payload))
        && Leq(show(b.candidate.payload), show(c.candidate.payload)) {
      LeqTransitive(show(a.candidate.payload), show(b.candidate.payload), show(c.candidate.payload));
    }
  }

  /** Into a ranked list, behind everything it does not strictly precede. */
  function Place(show: Payload -> string, ranked: seq<Scored>, s: Scored): seq<Scored> {
    if ranked == [] then [s]
    else if RankLeq(show, ranked[|ranked| - 1], s) then ranked + [s]
    else Place(show, ranked[..|ranked| - 1], s) + [ranked[|ranked| - 1]]
  }

  /** The stable sort by rank. */
  function Ranked(show: Payload -> string, list: seq<Scored>): seq<Scored> {
    if list == [] then [] else Place(show, Ranked(show, list[..|list| - 1]), list[|list| - 1])
  }

  predicate InRank(show: Payload -> string, list: seq<Scored>) {
    forall i, j | 0 <= i < j < |list| :: RankLeq(show, list[i], list[j])
  }

  lemma {:induction false} PlaceKeepsRank(show: Payload -> string, ranked: seq<Scored>, s: Scored)
    requires InRank(show, ranked)
    ensures InRank(show, Place(show, ranked, s))
    ensures multiset(Place(show, ranked, s)) == multiset(ranked) + multiset{s}
  {
    hide RankLeq;
    if ranked != [] {
      var front, last := ranked[..|ranked| - 1], ranked[|ranked| - 1];
      assert ranked == front + [last];
      if RankLeq(show, last, s) {
        forall i | 0 <= i < |ranked| ensures RankLeq(show, ranked[i], s) {
          if i < |front| { RankTransitive(show, ranked[i], last, s); }
        }
      } else {
        RankTotal(show, last, s);
        PlaceKeepsRank(show, front, s);
        var placed := Place(show, front, s);
        forall i | 0 <= i < |placed| ensures RankLeq(show, placed[i], last) {
          assert placed[i] in multiset(placed);
          if placed[i] != s {
            assert placed[i] in front;
            var k :| 0 <= k < |front| && front[k] == placed[i];
            assert ranked[k] == placed[i];
          }
        }
      }
    }
  }

  lemma {:induction false} RankedIsASort(show: Payload -> string, list: seq<Scored>)
    ensures InRank(show, Ranked(show, list)) && multiset(Ranked(show, list)) == multiset(list)
  {
    hide Place, InRank;
    if list != [] {
      var front := list[..|list| - 1];
      RankedIsASort(show, front);
      PlaceKeepsRank(show, Ranked(show, front), list[|list| - 1]);
      assert list == front + [list[|list| - 1]];
    } else {
      EmptyIsRanked(show);
    }
  }

  lemma EmptyIsRanked(show: Payload -> string)
    ensures InRank(show, [])
  {
  }

  // ---------------------------------------------------------------- the choice

  predicate IsViable(s: Scored, minScore: real) { s.score.Some? && s.score.value > minScore }

  /** May be attempted at all, given whether a forced review can be routed. */
  predicate Eligible(s: Scored, minScore: real, reviewSupported: bool) {
    IsViable(s, minScore) && (reviewSupported || !s.candidate.review)
  }

  function Viable(list: seq<Scored>, minScore: real): seq<Scored> {
    if list == [] then []
    else (if IsViable(list[0], minScore) then [list[0]] else []) + Viable(list[1..], minScore)
  }

  function Unflagged(list: seq<Scored>): seq<Scored> {
    if list == [] then []
    else (if list[0].candidate.review then [] else [list[0]]) + Unflagged(list[1..])
  }

  datatype Choice = NothingPays | OnlyFlagged | Best(chosen: Scored)

  /** From the scored candidates to the one a cycle would attempt. */
  function Choose(show: Payload -> string, list: seq<Scored>, minScore: real, reviewSupported: bool): Choice {
    var viable := Viable(Ranked(show, list), minScore);
    if viable == [] then NothingPays
    else if reviewSupported then Best(viable[0])
    else if Unflagged(viable) == [] then OnlyFlagged
    else Best(Unflagged(viable)[0])
  }

  lemma {:induction false} FirstViable(list: seq<Scored>, minScore: real)
    ensures Viable(list, minScore) == [] <==> forall i | 0 <= i < |list| :: !IsViable(list[i], minScore)
    ensures Viable(list, minScore) != [] ==>
              exists i | 0 <= i < |list| :: list[i] == Viable(list, minScore)[0] && IsViable(list[i], minScore)
                                            && forall j | 0 <= j < i :: !IsViable(list[j], minScore)
  {
    if list != [] && !IsViable(list[0], minScore) {
      FirstViable(list[1..], minScore);
      assert forall i | 0 < i < |list| :: list[i] == list[1..][i - 1];
      if Viable(list, minScore) != [] {
        var i :| 0 <= i < |list[1..]| && list[1..][i] == Viable(list, minScore)[0] && IsViable(list[1..][i], minScore)
                 && forall j | 0 <= j < i :: !IsViable(list[1..][j], minScore);
        assert forall j | 0 <= j < i + 1 :: !IsViable(list[j], minScore) by {
          forall j | 0 <= j < i + 1 ensures !IsViable(list[j], minScore) {
            if j > 0 { assert list[j] == list[1..][j - 1]; }
          }
        }
        assert list[i + 1] == Viable(list, minScore)[0];
      }
    }
  }

  lemma {:induction false} FirstEligible(list: seq<Scored>, minScore: real)
    ensures Unflagged(Viable(list, minScore)) == []
            <==> forall i | 0 <= i < |list| :: !Eligible(list[i], minScore, false)
    ensures Unflagged(Viable(list, minScore)) != [] ==>
              exists i | 0 <= i < |list| ::
                list[i] == Unflagged(Viable(list, minScore))[0] && Eligible(list[i], minScore, false)
                                            && forall j | 0 <= j < i :: !Eligible(list[j], minScore, false)
  {
    if list != [] {
      var rest := list[1..];
      FirstEligible(rest, minScore);
      assert forall i | 0 < i < |list| :: list[i] == rest[i - 1];
      assert Viable(list, minScore)[|Viable(list, minScore)| - |Viable(rest, minScore)|..] == Viable(rest, minScore);
      if Eligible(list[0], minScore, false) {
        assert list[0] == Unflagged(Viable(list, minScore))[0];
      } else {
        assert Unflagged(Viable(list, minScore)) == Unflagged(Viable(rest, minScore));
        if Unflagged(Viable(rest, minScore)) != [] {
          var i :| 0 <= i < |rest| && rest[i] == Unflagged(Viable(rest, minScore))[0]
              && Eligible(rest[i], minScore, false)
                   && forall j | 0 <= j < i :: !Eligible(rest[j], minScore, false);
          forall j | 0 <= j < i + 1 ensures !Eligible(list[j], minScore, false) {
            if j > 0 { assert list[j] == rest[j - 1]; }
          }
          assert list[i + 1] == Unflagged(Viable(list, minScore))[0];
        }
      }
    }
  }

  predicate FirstEligibleAt(list: seq<Scored>, minScore: real, reviewSupported: bool, k: nat) {
    k < |list| && Eligible(list[k], minScore, reviewSupported)
    && forall j | 0 <= j < k :: !Eligible(list[j], minScore, reviewSupported)
  }

  lemma ChoiceIsFirst(show: Payload -> string, list: seq<Scored>, minScore: real, reviewSupported: bool)
    ensures var choice, ranked := Choose(show, list, minScore, reviewSupported), Ranked(show, list);
            if choice.Best?
            then exists k: nat :: FirstEligibleAt(ranked, minScore, reviewSupported, k) && ranked[k] == choice.chosen
            else forall s | s in ranked :: !Eligible(s, minScore, reviewSupported)
  {
    var choice, ranked := Choose(show, list, minScore, reviewSupported), Ranked(show, list);
    FirstViable(ranked, minScore);
    FirstEligible(ranked, minScore);
    if choice.Best? {
      if reviewSupported {
        var k :| 0 <= k < |ranked| && ranked[k] == choice.chosen && IsViable(ranked[k], minScore)
                 && forall j | 0 <= j < k :: !IsViable(ranked[j], minScore);
        assert FirstEligibleAt(ranked, minScore, reviewSupported, k);
      } else {
        var k :| 0 <= k < |ranked| && ranked[k] == choice.chosen && Eligible(ranked[k], minScore, false)
                 && forall j | 0 <= j < k :: !Eligible(ranked[j], minScore, false);
        assert FirstEligibleAt(ranked, minScore, reviewSupported, k);
      }
    }
  }

  lemma FirstRanksFirst(show: Payload -> string, ranked: seq<Scored>, minScore: real, reviewSupported: bool, k: nat,
                        s: Scored)
    requires InRank(show, ranked) && FirstEligibleAt(ranked, minScore, reviewSupported, k)
    requires s in ranked && Eligible(s, minScore, reviewSupported)
    ensures s == ranked[k] || RankLeq(show, ranked[k], s)
  {
    var j :| 0 <= j < |ranked| && ranked[j] == s;
    assert j >= k;
  }

  /** The chosen candidate is eligible and ranks before every other eligible one. */
  lemma ChosenRanksFirst(show: Payload -> string, list: seq<Scored>, minScore: real, reviewSupported: bool)
    ensures Choose(show, list, minScore, reviewSupported).Best?
            <==> exists s :: s in list && Eligible(s, minScore, reviewSupported)
    ensures Choose(show, list, minScore, reviewSupported).Best? ==>
              var best := Choose(show, list, minScore, reviewSupported).chosen;
              && best in list && Eligible(best, minScore, reviewSupported)
              && forall s | s in list && Eligible(s, minScore, reviewSupported) :: s == best || RankLeq(show, best, s)
  {
    var ranked := Ranked(show, list);
    RankedIsASort(show, list);
    SameMembers(ranked, list);
    ChoiceIsFirst(show, list, minScore, reviewSupported);
    hide Choose, Ranked, RankLeq, Eligible, InRank;
    if Choose(show, list, minScore, reviewSupported).Best? {
      var k: nat :| FirstEligibleAt(ranked, minScore, reviewSupported, k)
               && ranked[k] == Choose(show, list, minScore, reviewSupported).chosen;
      assert ranked[k] in ranked;
      forall s | s in list && Eligible(s, minScore, reviewSupported)
        ensures s == ranked[k] || RankLeq(show, ranked[k], s)
      {
        FirstRanksFirst(show, ranked, minScore, reviewSupported, k, s);
      }
    }
  }

  lemma SameMembers(a: seq<Scored>, b: seq<Scored>)
    requires multiset(a) == multiset(b)
    ensures forall s :: s in a <==> s in b
  {
    forall s ensures s in a <==> s in b {
      assert s in a <==> s in multiset(a);
      assert s in b <==> s in multiset(b);
    }
  }

  // ---------------------------------------------------------------- the choice, by position

  /** The eligible candidate that ranks before all others; of those that rank alike, the one given first. */
  predicate IsBest(show: Payload -> string, list: seq<Scored>, minScore: real, reviewSupported: bool, k: nat)
    requires k < |list|
  {
    && Eligible(list[k], minScore, reviewSupported)
    && forall j | 0 <= j < |list| && Eligible(list[j], minScore, reviewSupported) ::
         RankLeq(show, list[k], list[j]) && (j < k ==> !RankLeq(show, list[j], list[k]))
  }

  lemma OneIsBest(show: Payload -> string, list: seq<Scored>, minScore: real, reviewSupported: bool, k: nat, n: nat)
    requires k < |list| && IsBest(show, list, minScore, reviewSupported, k)
    requires n < |list| && IsBest(show, list, minScore, reviewSupported, n)
    ensures k == n
  {
    hide RankLeq, Eligible;
    assert k <= n;
  }

  function FirstOf(list: seq<Scored>, minScore: real, reviewSupported: bool): Option<Scored> {
    if list == [] then None
    else
      match FirstOf(list[..|list| - 1], minScore, reviewSupported)
      case Some(first) => Some(first)
      case None =>
        if Eligible(list[|list| - 1], minScore, reviewSupported) then Some(list[|list| - 1]) else None
  }

  lemma {:induction false} FirstIsThere(list: seq<Scored>, minScore: real, reviewSupported: bool)
    ensures var first := FirstOf(list, minScore, reviewSupported);
            first.Some? ==> first.value in list && Eligible(first.value, minScore, reviewSupported)
  {
    if list != [] { FirstIsThere(list[..|list| - 1], minScore, reviewSupported); }
  }

  lemma {:induction false} FirstOfAt(list: seq<Scored>, minScore: real, reviewSupported: bool, k: nat)
    requires FirstEligibleAt(list, minScore, reviewSupported, k)
    ensures FirstOf(list, minScore, reviewSupported) == Some(list[k])
  {
    hide Eligible;
    var front := list[..|list| - 1];
    if k < |front| {
      FirstOfAt(front, minScore, reviewSupported, k);
    } else {
      NoneEligible(front, minScore, reviewSupported);
    }
  }

  lemma {:induction false} NoneEligible(list: seq<Scored>, minScore: real, reviewSupported: bool)
    requires forall j | 0 <= j < |list| :: !Eligible(list[j], minScore, reviewSupported)
    ensures FirstOf(list, minScore, reviewSupported) == None
  {
    hide Eligible;
    if list != [] { NoneEligible(list[..|list| - 1], minScore, reviewSupported); }
  }

  /** The first eligible candidate once one more is placed. */
  function Better(show: Payload -> string, first: Option<Scored>, s: Scored, minScore: real,
                  reviewSupported: bool): Option<Scored> {
    if !Eligible(s, minScore, reviewSupported) then first
    else if first.Some? && RankLeq(show, first.value, s) then first
    else Some(s)
  }

  lemma FirstOfMore(list: seq<Scored>, s: Scored, minScore: real, reviewSupported: bool)
    ensures FirstOf(list + [s], minScore, reviewSupported)
         == if FirstOf(list, minScore, reviewSupported).Some? then FirstOf(list, minScore, reviewSupported)
            else if Eligible(s, minScore, reviewSupported) then Some(s) else None
  {
    hide Eligible;
    assert (list + [s])[..|list|] == list;
  }

  lemma FirstComesBefore(show: Payload -> string, ranked: seq<Scored>, s: Scored, minScore: real, reviewSupported: bool)
    requires ranked != [] && InRank(show, ranked) && RankLeq(show, ranked[|ranked| - 1], s)
    ensures var first := FirstOf(ranked, minScore, reviewSupported); first.Some? ==> RankLeq(show, first.value, s)
  {
    FirstIsThere(ranked, minScore, reviewSupported);
    hide RankLeq, Eligible, FirstOf;
    var first := FirstOf(ranked, minScore, reviewSupported);
    if first.Some? {
      var k :| 0 <= k < |ranked| && ranked[k] == first.value;
      if k < |ranked| - 1 { RankTransitive(show, ranked[k], ranked[|ranked| - 1], s); }
    }
  }

  lemma {:induction false} PlaceFirst(show: Payload -> string, ranked: seq<Scored>, s: Scored, minScore: real,
                                      reviewSupported: bool)
    requires InRank(show, ranked)
    ensures FirstOf(Place(show, ranked, s), minScore, reviewSupported)
         == Better(show, FirstOf(ranked, minScore, reviewSupported), s, minScore, reviewSupported)
  {
    hide RankLeq, Eligible, FirstOf, InRank;
    if ranked == [] {
      FirstOfMore([], s, minScore, reviewSupported);
      NoneEligible([], minScore, reviewSupported);
      assert [] + [s] == [s];
    } else {
      var front, last := ranked[..|ranked| - 1], ranked[|ranked| - 1];
      FirstOfMore(front, last, minScore, reviewSupported);
      assert front + [last] == ranked;
      if RankLeq(show, last, s) {
        FirstOfMore(ranked, s, minScore, reviewSupported);
        FirstComesBefore(show, ranked, s, minScore, reviewSupported);
      } else {
        FrontInRank(show, ranked);
        PlaceFirst(show, front, s, minScore, reviewSupported);
        FirstOfMore(Place(show, front, s), last, minScore, reviewSupported);
      }
    }
  }

  lemma FrontInRank(show: Payload -> string, ranked: seq<Scored>)
    requires ranked != [] && InRank(show, ranked)
    ensures InRank(show, ranked[..|ranked| - 1])
  {
    hide RankLeq;
  }

  lemma {:induction false} FirstIsBest(show: Payload -> string, list: seq<Scored>, minScore: real,
                                       reviewSupported: bool)
    ensures match FirstOf(Ranked(show, list), minScore, reviewSupported)
            case None => forall j | 0 <= j < |list| :: !Eligible(list[j], minScore, reviewSupported)
            case Some(first) =>
              exists k | 0 <= k < |list| :: IsBest(show, list, minScore, reviewSupported, k) && list[k] == first
  {
    hide Place, RankLeq, Eligible, IsBest, InRank;
    if list != [] {
      var front, last := list[..|list| - 1], list[|list| - 1];
      FirstIsBest(show, front, minScore, reviewSupported);
      RankedIsASort(show, front);
      PlaceFirst(show, Ranked(show, front), last, minScore, reviewSupported);
      var first := FirstOf(Ranked(show, front), minScore, reviewSupported);
      if first.Some? {
        var k :| 0 <= k < |front| && IsBest(show, front, minScore, reviewSupported, k) && front[k] == first.value;
        OneMoreCandidate(show, front, last, minScore, reviewSupported, k);
      } else {
        OnlyCandidate(show, front, last, minScore, reviewSupported);
      }
      assert list == front + [last];
    }
  }

  lemma OneMoreCandidate(show: Payload -> string, front: seq<Scored>, last: Scored, minScore: real,
                         reviewSupported: bool, k: nat)
    requires k < |front| && IsBest(show, front, minScore, reviewSupported, k)
    ensures var list := front + [last];
            IsBest(show, list, minScore, reviewSupported,
                   if Eligible(last, minScore, reviewSupported) && !RankLeq(show, front[k], last) then |front| else k)
  {
    hide RankLeq, Eligible;
    if Eligible(last, minScore, reviewSupported) && !RankLeq(show, front[k], last) {
      RankTotal(show, front[k], last);
      forall j | 0 <= j < |front| && Eligible(front[j], minScore, reviewSupported)
        ensures RankLeq(show, last, front[j]) && !RankLeq(show, front[j], last)
      {
        RankTransitive(show, last, front[k], front[j]);
        if RankLeq(show, front[j], last) { RankTransitive(show, front[k], front[j], last); }
      }
      RankTotal(show, last, last);
    }
  }

  lemma OnlyCandidate(show: Payload -> string, front: seq<Scored>, last: Scored, minScore: real, reviewSupported: bool)
    requires forall j | 0 <= j < |front| :: !Eligible(front[j], minScore, reviewSupported)
    ensures Eligible(last, minScore, reviewSupported)
            ==> IsBest(show, front + [last], minScore, reviewSupported, |front|)
  {
    RankTotal(show, last, last);
    hide RankLeq, Eligible;
  }

  /** What a cycle may attempt is the one best candidate, by its place in the list it was given. */
  lemma ChosenIsBest(show: Payload -> string, list: seq<Scored>, minScore: real, reviewSupported: bool)
    ensures var choice := Choose(show, list, minScore, reviewSupported);
            && (choice.Best? <==> exists k | 0 <= k < |list| :: IsBest(show, list, minScore, reviewSupported, k))
            && (forall k | 0 <= k < |list| && IsBest(show, list, minScore, reviewSupported, k) ::
                  choice == Best(list[k]))
  {
    var choice, ranked := Choose(show, list, minScore, reviewSupported), Ranked(show, list);
    ChoiceIsFirst(show, list, minScore, reviewSupported);
    FirstIsBest(show, list, minScore, reviewSupported);
    hide Choose, Ranked, Eligible, RankLeq, IsBest;
    if choice.Best? {
      var n: nat :| FirstEligibleAt(ranked, minScore, reviewSupported, n) && ranked[n] == choice.chosen;
      FirstOfAt(ranked, minScore, reviewSupported, n);
    } else {
      NoneEligible(ranked, minScore, reviewSupported);
      NoneIsBest(show, list, minScore, reviewSupported);
    }
    forall k | 0 <= k < |list| && IsBest(show, list, minScore, reviewSupported, k)
      ensures choice == Best(list[k])
    {
      var n :| 0 <= n < |list| && IsBest(show, list, minScore, reviewSupported, n) && Best(list[n]) == choice;
      OneIsBest(show, list, minScore, reviewSupported, k, n);
    }
  }

  lemma NoneIsBest(show: Payload -> string, list: seq<Scored>, minScore: real, reviewSupported: bool)
    requires forall j | 0 <= j < |list| :: !Eligible(list[j], minScore, reviewSupported)
    ensures !exists k | 0 <= k < |list| :: IsBest(show, list, minScore, reviewSupported, k)
  {
  }

  /**
    What a cycle attempts has the highest score of all eligible candidates, and a model's
    candidate is only chosen when it scores strictly above every deterministic one.
   */
  lemma ChosenHasTheHighestScore(show: Payload -> string, list: seq<Scored>, minScore: real, reviewSupported: bool,
                                 s: Scored)
    requires s in list && Eligible(s, minScore, reviewSupported)
    requires Choose(show, list, minScore, reviewSupported).Best?
    ensures var best := Choose(show, list, minScore, reviewSupported).chosen;
            && best.score.Some? && best.score.value >= s.score.value
            && (s.candidate.source.Deterministic? && best.candidate.source.Llm? ==> best.score.value > s.score.value)
            && (s.candidate.source == best.candidate.source && best.score == s.score ==>
                  Leq(show(best.candidate.payload), show(s.candidate.payload)))
  {
    ChosenRanksFirst(show, list, minScore, reviewSupported);
    LeqTotal(show(s.candidate.payload), show(s.candidate.payload));
  }

  /** While a forced review cannot be routed, no candidate of a model is ever attempted. */
  lemma ModelsNeverAct(show: Payload -> string, list: seq<Scored>, minScore: real)
    requires forall s | s in list && s.candidate.source.Llm? :: s.candidate.review
    ensures var choice := Choose(show, list, minScore, false);
            && (choice.Best? ==> choice.chosen.candidate.source.Deterministic?)
            && (choice.OnlyFlagged? ==> forall s | s in list && IsViable(s, minScore) :: s.candidate.review)
  {
    ChosenRanksFirst(show, list, minScore, false);
    hide Choose;
  }
}
