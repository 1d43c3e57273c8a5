/**
 * The Gà Rẫy restaurant accordion: `openAccordion` holds the index of the
 * one expanded item or `null`, starts at item 0, and a click on item `i`
 * sets it to `null` when `i` is the open item and to `i` otherwise.
 */
module GaRay {
  import opened Wrappers

  /** The accordion lists two restaurants. */
  const ItemCount := 2
  const InitialOpen: Option<nat> := Some(0)

  /** Item `index` is rendered expanded. */
  predicate IsOpen(open: Option<nat>, index: nat)
  {
    open == Some(index)
  }

  /** The new `openAccordion` after a click on item `index`. */
  function Toggle(open: Option<nat>, index: nat): (r: Option<nat>)
    ensures IsOpen(open, index) ==> r == None
    ensures !IsOpen(open, index) ==> IsOpen(r, index)
    ensures forall j: nat :: j != index ==> !IsOpen(r, j)
  {
    if open == Some(index) then None else Some(index)
  }

  /** Never more than one item is expanded. */
  lemma AtMostOneOpen(open: Option<nat>, i: nat, j: nat)
    requires IsOpen(open, i) && IsOpen(open, j)
    ensures i == j
  {
  }

  /** Initially exactly item 0 is expanded. */
  lemma InitiallyFirstOpen(j: nat)
    ensures IsOpen(InitialOpen, j) <==> j == 0
  {
  }

  /** From the initial state, a click on item 0 closes it and a click on the other item opens that one alone. */
  lemma FirstClickFromInitial(index: nat)
    requires index < ItemCount
    ensures Toggle(InitialOpen, index) == if index == 0 then None else Some(index)
  {
  }

  /** A second click on the same item restores the state when the first one opened or closed it. */
  lemma ToggleTwice(open: Option<nat>, index: nat)
    requires open == None || open == Some(index)
    ensures Toggle(Toggle(open, index), index) == open
  {
  }

  /** The state after a sequence of clicks, the first click applied first. */
  function Clicks(open: Option<nat>, clicks: seq<nat>): Option<nat>
    decreases |clicks|
  {
    if clicks == [] then open else Clicks(Toggle(open, clicks[0]), clicks[1..])
  }

  /** After any non-empty click sequence, the expanded item, if any, is the last one clicked. */
  lemma {:induction false} LastClickDecides(open: Option<nat>, clicks: seq<nat>)
    requires clicks != []
    ensures Clicks(open, clicks) == None || Clicks(open, clicks) == Some(clicks[|clicks| - 1])
    decreases |clicks|
  {
    if |clicks| > 1 {
      LastClickDecides(Toggle(open, clicks[0]), clicks[1..]);
    }
  }

  /** Clicking the same closed item `k` times leaves it expanded exactly when `k` is odd. */
  lemma {:induction false} RepeatedClicks(index: nat, k: nat)
    ensures Clicks(None, seq(k, _ => index)) == if k % 2 == 1 then Some(index) else None
  {
    if k > 0 {
      var rest := seq(k - 1, _ => index);
      assert seq(k, _ => index) == [index] + rest;
      assert ([index] + rest)[1..] == rest;
      if k > 1 {
        var rest2 := seq(k - 2, _ => index);
        assert rest == [index] + rest2;
        assert ([index] + rest2)[1..] == rest2;
        RepeatedClicks(index, k - 2);
      }
    }
  }
}
