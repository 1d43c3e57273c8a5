/**
 * The two modal dialogs of the page: the Gỏi Cá Trích video modal and the
 * Ghẹ Hàm Ninh crab-tips modal. Each section keeps one boolean flag. A
 * button outside the modal sets it to true; inside the modal a backdrop
 * element sets it to false when clicked, the dialog box stops the click
 * from propagating, and the close button inside the box sets it to false.
 */
module Modals {

  /** A click handler on the path from the clicked element up to the backdrop. */
  datatype Handler = SetOpen(value: bool) | StopPropagation

  /** The element the user clicks. */
  datatype Target = OpenButton | CloseButton | DialogBox | Backdrop

  /** Bubbles a click through `path`: each handler runs in turn until one stops propagation. */
  function Bubble(open: bool, path: seq<Handler>): bool
    decreases |path|
  {
    if path == [] then open
    else match path[0]
      case StopPropagation => open
      case SetOpen(v) => Bubble(v, path[1..])
  }

  /** The handlers met from the clicked element outward, in order. */
  function HandlersOf(target: Target): seq<Handler>
  {
    match target
    case OpenButton => [SetOpen(true)]
    case CloseButton => [SetOpen(false), StopPropagation, SetOpen(false)]
    case DialogBox => [StopPropagation, SetOpen(false)]
    case Backdrop => [SetOpen(false)]
  }

  /** The modal flag after a click on `target`. */
  function Click(open: bool, target: Target): bool
  {
    Bubble(open, HandlersOf(target))
  }

  /** A `SetOpen` handler sets the flag and lets the click bubble on. */
  lemma BubbleSetter(open: bool, v: bool, rest: seq<Handler>)
    ensures Bubble(open, [SetOpen(v)] + rest) == Bubble(v, rest)
  {
    assert ([SetOpen(v)] + rest)[1..] == rest;
  }

  /**
   * The open button opens the modal, the close button and the backdrop
   * close it, and a click inside the dialog box leaves it as it was.
   */
  lemma ClickEffect(open: bool, target: Target)
    ensures target == OpenButton ==> Click(open, target)
    ensures target == CloseButton || target == Backdrop ==> !Click(open, target)
    ensures target == DialogBox ==> Click(open, target) == open
  {
    match target
    case OpenButton => BubbleSetter(open, true, []);
    case Backdrop => BubbleSetter(open, false, []);
    case CloseButton => BubbleSetter(open, false, [StopPropagation, SetOpen(false)]);
    case DialogBox =>
  }

  /** Handlers past the first `StopPropagation` never run. */
  lemma {:induction false} StopHidesOuterHandlers(open: bool, inner: seq<Handler>, outer: seq<Handler>)
    requires StopPropagation !in inner
    ensures Bubble(open, inner + [StopPropagation] + outer) == Bubble(open, inner)
    decreases |inner|
  {
    if inner != [] {
      assert (inner + [StopPropagation] + outer)[0] == inner[0];
      assert (inner + [StopPropagation] + outer)[1..] == inner[1..] + [StopPropagation] + outer;
      match inner[0]
      case SetOpen(v) => StopHidesOuterHandlers(v, inner[1..], outer);
    } else {
      assert (inner + [StopPropagation] + outer)[0] == StopPropagation;
    }
  }

  /** Without a `StopPropagation`, the last `SetOpen` on the path decides the flag. */
  lemma {:induction false} LastSetterWins(open: bool, path: seq<Handler>, v: bool)
    requires StopPropagation !in path
    ensures Bubble(open, path + [SetOpen(v)]) == v
    decreases |path|
  {
    if path != [] {
      assert (path + [SetOpen(v)])[1..] == path[1..] + [SetOpen(v)];
      match path[0]
      case SetOpen(w) => LastSetterWins(w, path[1..], v);
    }
  }

  /** The flag after a sequence of clicks. */
  function Clicks(open: bool, targets: seq<Target>): bool
    decreases |targets|
  {
    if targets == [] then open else Clicks(Click(open, targets[0]), targets[1..])
  }

  /** Clicks inside the dialog box leave an open modal open. */
  lemma {:induction false} DialogClicksKeepOpen(targets: seq<Target>)
    requires forall k :: 0 <= k < |targets| ==> targets[k] == DialogBox
    ensures Clicks(true, targets)
  {
    if targets != [] {
      DialogClicksKeepOpen(targets[1..]);
    }
  }

  /** After any clicks, the modal is open exactly when the last click that was not on the dialog box hit the open button. */
  lemma {:induction false} LastDecisiveClick(open: bool, targets: seq<Target>)
    ensures Clicks(open, targets) == LastDecision(open, targets)
    decreases |targets|
  {
    if targets != [] {
      LastDecisiveClick(Click(open, targets[0]), targets[1..]);
      LastDecisionOfTail(open, targets);
    }
  }

  /** Reference definition: scan from the end for the last click outside the dialog box. */
  function LastDecision(open: bool, targets: seq<Target>): bool
  {
    if targets == [] then open
    else if targets[|targets| - 1] == DialogBox then LastDecision(open, targets[..|targets| - 1])
    else targets[|targets| - 1] == OpenButton
  }

  lemma {:induction false} LastDecisionOfTail(open: bool, targets: seq<Target>)
    requires targets != []
    ensures LastDecision(Click(open, targets[0]), targets[1..]) == LastDecision(open, targets)
  {
    ClickEffect(open, targets[0]);
    var n := |targets|;
    if n > 1 {
      var tail := targets[1..];
      assert tail[..|tail| - 1] == targets[..n - 1][1..];
      if targets[n - 1] == DialogBox {
        LastDecisionOfTail(open, targets[..n - 1]);
      }
    } else {
      assert targets[..n - 1] == [];
    }
  }
}
