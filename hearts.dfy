/**
 * The lives display (components/Hearts.tsx): three hearts, each active or
 * faded according to the player's remaining lives. The pulse and fade
 * animations are not part of this model.
 */
module Hearts {
  /** The heart numbers the row maps over. */
  const HEART_NUMBERS: seq<int> := [1, 2, 3]

  /** Whether each heart of the row is active, first heart first. */
  function Hearts(lives: int): (active: seq<bool>)
    ensures |active| == |HEART_NUMBERS| == 3
    ensures forall k :: 0 <= k < |active| ==> (active[k] <==> k + 1 <= lives)
  {
    seq(|HEART_NUMBERS|, k requires 0 <= k < |HEART_NUMBERS| => HEART_NUMBERS[k] <= lives)
  }

  /** The number of true entries: none exactly when all are false, all exactly when all are true. */
  function CountActive(s: seq<bool>): (n: nat)
    ensures n <= |s|
    ensures n == 0 <==> forall i :: 0 <= i < |s| ==> !s[i]
    ensures n == |s| <==> forall i :: 0 <= i < |s| ==> s[i]
  {
    if s == [] then 0 else (if s[0] then 1 else 0) + CountActive(s[1..])
  }

  function Clamp(lives: int): (n: nat)
    ensures n <= 3
    ensures 0 <= lives <= 3 ==> n == lives
  {
    if lives <= 0 then 0 else if lives >= 3 then 3 else lives
  }

  /** An active heart has only active hearts before it. */
  lemma ActiveHeartsFormPrefix(lives: int, i: int, j: int)
    requires 0 <= i < j < 3 && Hearts(lives)[j]
    ensures Hearts(lives)[i]
  {
  }

  /** The row shows min(max(lives, 0), 3) active hearts. */
  lemma ActiveCount(lives: int)
    ensures CountActive(Hearts(lives)) == Clamp(lives)
    ensures lives <= 0 ==> CountActive(Hearts(lives)) == 0
    ensures lives >= 3 ==> CountActive(Hearts(lives)) == 3
  {
    var h := Hearts(lives);
    assert h == [1 <= lives, 2 <= lives, 3 <= lives];
    assert h[1..] == [2 <= lives, 3 <= lives];
    assert h[1..][1..] == [3 <= lives];
    assert h[1..][1..][1..] == [];
    var a, b, c := 1 <= lives, 2 <= lives, 3 <= lives;
    assert CountActive([c]) == (if c then 1 else 0) + CountActive([]);
    assert CountActive([b, c]) == (if b then 1 else 0) + CountActive([c]);
    assert CountActive(h) == (if a then 1 else 0) + CountActive([b, c]);
  }

  /** The active hearts are exactly the first Clamp(lives) of the row. */
  lemma ActiveIsFirstClamp(lives: int, k: int)
    requires 0 <= k < 3
    ensures Hearts(lives)[k] <==> k < Clamp(lives)
  {
  }
}
