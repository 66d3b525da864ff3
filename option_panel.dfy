/**
 * The player strip of `components/OptionPanel.tsx`: both players' cards
 * with "v/s" between them, the local player's card first.
 */
module OptionPanel {

  /** `Orientation`: the side a player sits on. */
  datatype Side = White | Black

  /** One element of the strip: a player's card (keyed by the account it shows) or the "v/s" label. */
  datatype Slot = Card(side: Side, account: string) | Versus

  /** `playerOrder` as built: white card, "v/s", black card. */
  function PlayerOrder(whiteHash: string, blackHash: string): (order: seq<Slot>)
  {
    [Card(White, whiteHash), Versus, Card(Black, blackHash)]
  }

  function Reverse<T>(s: seq<T>): (r: seq<T>)
    ensures |r| == |s|
    ensures forall i :: 0 <= i < |s| ==> r[i] == s[|s| - 1 - i]
    decreases |s|
  {
    if s == [] then [] else Reverse(s[1..]) + [s[0]]
  }

  /** What the panel renders: the order as built for White, its `reverse()` for any other side. */
  function Strip(whiteHash: string, blackHash: string, currentSide: Side): (r: seq<Slot>)
    ensures |r| == 3 && r[1] == Versus
    ensures r[0] == Card(currentSide, if currentSide == White then whiteHash else blackHash)
    ensures currentSide == White ==> r == [Card(White, whiteHash), Versus, Card(Black, blackHash)]
    ensures currentSide == Black ==> r == [Card(Black, blackHash), Versus, Card(White, whiteHash)]
  {
    var order := PlayerOrder(whiteHash, blackHash);
    if currentSide == White then order
    else
      var reversed := Reverse(order);
      assert currentSide == Black && reversed[0] == order[2] && reversed[1] == order[1] && reversed[2] == order[0];
      reversed
  }

  /** The two orientations show the same strip read in opposite directions. */
  lemma StripOrientationsMirror(whiteHash: string, blackHash: string)
    ensures Strip(whiteHash, blackHash, Black) == Reverse(Strip(whiteHash, blackHash, White))
  {
  }

  /** Each player's card appears exactly once, and the "v/s" label once, whatever the side. */
  lemma StripIsPermutation(whiteHash: string, blackHash: string, currentSide: Side)
    ensures multiset(Strip(whiteHash, blackHash, currentSide)) == multiset(PlayerOrder(whiteHash, blackHash))
    ensures multiset(Strip(whiteHash, blackHash, currentSide))[Card(White, whiteHash)] == 1
    ensures multiset(Strip(whiteHash, blackHash, currentSide))[Card(Black, blackHash)] == 1
    ensures multiset(Strip(whiteHash, blackHash, currentSide))[Versus] == 1
  {
    var r := Strip(whiteHash, blackHash, currentSide);
    assert r == [r[0], r[1], r[2]];
  }
}
