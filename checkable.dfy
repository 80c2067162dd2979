/**
 * The check state shared by the prompt checkbox and the prompt switch: a click
 * flips it and runs exactly one of the two callbacks.
 */
module Checkable {

  /** Which of the two callbacks a click runs. */
  datatype CheckEvent = OnCheck | OnUncheck

  datatype ClickResult = ClickResult(checked: bool, fired: CheckEvent)

  /** `_click`: an unchecked box becomes checked and runs `onCheck`; a checked one becomes unchecked and runs `onUncheck`. */
  function Click(checked: bool): (r: ClickResult)
    ensures r.checked == !checked
    ensures r.fired == OnCheck <==> !checked
  {
    if !checked then ClickResult(true, OnCheck) else ClickResult(false, OnUncheck)
  }

  /** The callbacks `n` successive clicks run, in order. */
  function ClickEvents(checked: bool, n: nat): seq<CheckEvent>
    decreases n
  {
    if n == 0 then [] else [Click(checked).fired] + ClickEvents(Click(checked).checked, n - 1)
  }

  /** The state after `n` successive clicks. */
  function CheckedAfter(checked: bool, n: nat): bool
    decreases n
  {
    if n == 0 then checked else CheckedAfter(Click(checked).checked, n - 1)
  }

  /** Two clicks restore the state and run `onCheck` and `onUncheck` once each. */
  lemma TwoClicksRestore(checked: bool)
    ensures CheckedAfter(checked, 2) == checked
    ensures multiset(ClickEvents(checked, 2)) == multiset{OnCheck, OnUncheck}
  {
  }

  /**
   * Any run of clicks alternates the callbacks, starting with the one the initial
   * state calls for, and leaves the state flipped exactly when the run is odd.
   */
  lemma {:induction false} ClicksAlternate(checked: bool, n: nat)
    ensures |ClickEvents(checked, n)| == n
    ensures forall i :: 0 <= i < n ==>
      ClickEvents(checked, n)[i] == (if (i % 2 == 0) == checked then OnUncheck else OnCheck)
    ensures CheckedAfter(checked, n) == (if n % 2 == 0 then checked else !checked)
    decreases n
  {
    if n > 0 {
      ClicksAlternate(!checked, n - 1);
      var rest := ClickEvents(!checked, n - 1);
      assert ClickEvents(checked, n) == [Click(checked).fired] + rest;
      forall i | 0 <= i < n
        ensures ClickEvents(checked, n)[i] == (if (i % 2 == 0) == checked then OnUncheck else OnCheck)
      {
        if i > 0 {
          assert ClickEvents(checked, n)[i] == rest[i - 1];
        }
      }
    }
  }
}
