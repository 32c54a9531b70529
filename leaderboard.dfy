/**
 * The leaderboard screen (app/leaderboard.tsx): the stored entries in
 * order, each with its position label (a medal for the first three, the
 * one-based position otherwise) and the top-three styling, and the empty
 * state when there are none. Date formatting and pull-to-refresh are not
 * part of this model.
 */
module Leaderboard {
  import opened Text

  datatype Entry = Entry(id: string, name: string, score: int, date: string)

  const GOLD: string := "\U{1F947}"
  const SILVER: string := "\U{1F948}"
  const BRONZE: string := "\U{1F949}"

  /** A label made of one medal. */
  predicate IsMedal(shown: string) {
    shown == GOLD || shown == SILVER || shown == BRONZE
  }

  /** getMedalEmoji */
  function MedalLabel(position: nat): (shown: string)
    ensures position < 3 <==> IsMedal(shown)
    ensures position >= 3 ==> |shown| >= 2 && AllDigits(shown[..|shown| - 1]) && shown[|shown| - 1] == '.'
  {
    if position == 0 then GOLD
    else if position == 1 then SILVER
    else if position == 2 then BRONZE
    else NatText(position + 1) + "."
  }

  /** Reading a numbered label back gives the one-based position. */
  lemma NumberedLabelValue(position: nat)
    requires position >= 3
    ensures DigitsValue(MedalLabel(position)[..|MedalLabel(position)| - 1]) == position + 1
  {
    var t := NatText(position + 1);
    assert MedalLabel(position)[..|MedalLabel(position)| - 1] == t;
    DigitsValueOfNatText(position + 1);
  }

  /** Distinct positions get distinct labels. */
  lemma LabelsDistinct(p: nat, q: nat)
    requires MedalLabel(p) == MedalLabel(q)
    ensures p == q
  {
    if p >= 3 && q >= 3 {
      NumberedLabelValue(p);
      NumberedLabelValue(q);
    }
  }

  /** One rendered entry card. */
  datatype Row = Row(key: string, position: string, topThree: bool, name: string, score: int)

  /** What the scroll view shows: the cards in stored order, and whether the empty state appears. */
  datatype View = View(rows: seq<Row>, emptyState: bool)

  function Render(list: seq<Entry>): (v: View)
    ensures |v.rows| == |list|
    ensures forall i :: 0 <= i < |list| ==>
      v.rows[i] == Row(list[i].id, MedalLabel(i), i < 3, list[i].name, list[i].score)
  {
    View(seq(|list|, i requires 0 <= i < |list| => Row(list[i].id, MedalLabel(i), i < 3, list[i].name, list[i].score)),
         |list| == 0)
  }

  /** The top-three styling goes to exactly the entries labelled with a medal. */
  lemma TopThreeAreMedalled(list: seq<Entry>, i: int)
    requires 0 <= i < |list|
    ensures Render(list).rows[i].topThree <==> IsMedal(Render(list).rows[i].position)
  {
  }

  /** The empty state appears exactly when no card does. */
  lemma EmptyStateIffNoCards(list: seq<Entry>)
    ensures Render(list).emptyState <==> Render(list).rows == []
  {
  }

  /** The number of entries scoring above x: one less than the rank of a score x. */
  function CountAbove(list: seq<Entry>, x: int): (n: nat)
    ensures n <= |list|
  {
    if list == [] then 0 else (if list[0].score > x then 1 else 0) + CountAbove(list[1..], x)
  }

  predicate StrictlyDecreasing(list: seq<Entry>) {
    forall i, j :: 0 <= i < j < |list| ==> list[i].score > list[j].score
  }

  predicate DistinctIds(list: seq<Entry>) {
    forall i, j :: 0 <= i < j < |list| ==> list[i].id != list[j].id
  }

  /** No entry scores above a score at least as high as all of them. */
  lemma {:induction false} NoneAbove(list: seq<Entry>, x: int)
    requires forall i :: 0 <= i < |list| ==> list[i].score <= x
    ensures CountAbove(list, x) == 0
  {
    if list != [] {
      NoneAbove(list[1..], x);
    }
  }

  /**
   * Without any sorting, the display position is the rank when the stored
   * scores strictly decrease: exactly i entries score above the i-th.
   */
  lemma {:induction false} PositionIsRank(list: seq<Entry>, i: int)
    requires StrictlyDecreasing(list) && 0 <= i < |list|
    ensures CountAbove(list, list[i].score) == i
  {
    if i == 0 {
      NoneAbove(list[1..], list[0].score);
    } else {
      assert list[1..][i - 1] == list[i];
      PositionIsRank(list[1..], i - 1);
    }
  }

  /** The initial leaderboard. */
  const SEED: seq<Entry> := [
    Entry("1", "María García", 150, "2025-10-08"),
    Entry("2", "Juan Pérez", 140, "2025-10-07"),
    Entry("3", "Ana López", 130, "2025-10-06"),
    Entry("4", "Carlos Ruiz", 120, "2025-10-05"),
    Entry("5", "Laura Martínez", 110, "2025-10-04"),
    Entry("6", "Pedro Sánchez", 100, "2025-10-03"),
    Entry("7", "Sofía Torres", 90, "2025-10-02"),
    Entry("8", "Diego Ramírez", 80, "2025-10-01")
  ]

  /** The seed's ids are "1" to "8" and its scores fall by ten from 150. */
  lemma SeedFields()
    ensures |SEED| == 8
    ensures forall i :: 0 <= i < |SEED| ==> SEED[i].id == [('1' as int + i) as char]
    ensures forall i :: 0 <= i < |SEED| ==> SEED[i].score == 150 - 10 * i
  {
  }

  /** The seed has distinct ids and strictly decreasing scores, so each position is its rank. */
  lemma SeedIsRanked()
    ensures DistinctIds(SEED) && StrictlyDecreasing(SEED)
    ensures forall i :: 0 <= i < |SEED| ==> CountAbove(SEED, SEED[i].score) == i
  {
    SeedFields();
    assert DistinctIds(SEED) by {
      forall i, j | 0 <= i < j < |SEED|
        ensures SEED[i].id != SEED[j].id
      {
        assert SEED[i].id[0] != SEED[j].id[0];
      }
    }
    forall i | 0 <= i < |SEED|
      ensures CountAbove(SEED, SEED[i].score) == i
    {
      PositionIsRank(SEED, i);
    }
  }
}
