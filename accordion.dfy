/**
 * The FAQ accordion: each answer panel is shown or hidden through its
 * `max-height`. A click on a question closes every other answer and then
 * toggles the answer its `data-target` names.
 */
module FaqAccordion {

  /**
   * A panel's `max-height` as the page reads it back: never set (the empty
   * string), or a pixel length. The browser reads the `'0'` the handler
   * writes back as `0px`, so both closing and a zero content height give `Px(0)`.
   */
  datatype MaxHeight = Unset | Px(n: nat)

  /** The handler's test for an open panel: a non-empty value other than `0px`. */
  predicate ReadsOpen(m: MaxHeight) {
    m.Px? && m.n != 0
  }

  /**
   * What a question's `data-target` resolves to: no element, the answer
   * panel at index `i`, or some element that is not an answer panel.
   */
  datatype Target = Missing | Panel(i: nat) | Elsewhere

  /** The new height of the clicked panel: an open one closes, a closed one opens to its content. */
  function Toggled(m: MaxHeight, scrollHeight: nat): (r: MaxHeight)
    ensures ReadsOpen(m) ==> r == Px(0)
    ensures !ReadsOpen(m) ==> r == Px(scrollHeight) && (ReadsOpen(r) <==> scrollHeight != 0)
  {
    if ReadsOpen(m) then Px(0) else Px(scrollHeight)
  }

  /**
   * The panels after one click: with no target nothing happens; otherwise
   * every panel but the target is set to `0` and the target is toggled.
   * `scrollHeight` is the target's content height at the time of the click.
   */
  function Clicked(panels: seq<MaxHeight>, target: Target, scrollHeight: nat): (r: seq<MaxHeight>)
    ensures |r| == |panels|
  {
    match target
    case Missing => panels
    case Elsewhere => seq(|panels|, _ => Px(0))
    case Panel(t) =>
      seq(|panels|, k requires 0 <= k < |panels| =>
        if k == t then Toggled(panels[k], scrollHeight) else Px(0))
  }

  /** Number of panels that read as open. */
  function OpenCount(panels: seq<MaxHeight>): (c: nat)
    ensures c <= |panels|
  {
    if panels == [] then 0
    else (if ReadsOpen(panels[0]) then 1 else 0) + OpenCount(panels[1..])
  }

  /** When every panel but possibly `t` is closed, at most that one panel is open. */
  lemma {:induction false} OnlyOneCanBeOpen(panels: seq<MaxHeight>, t: nat)
    requires forall k :: 0 <= k < |panels| && k != t ==> !ReadsOpen(panels[k])
    ensures OpenCount(panels) == if t < |panels| && ReadsOpen(panels[t]) then 1 else 0
  {
    if panels != [] {
      if t == 0 {
        NoneOpen(panels[1..]);
      } else {
        OnlyOneCanBeOpen(panels[1..], t - 1);
      }
    }
  }

  /** A sequence of closed panels counts no open one. */
  lemma {:induction false} NoneOpen(panels: seq<MaxHeight>)
    requires forall k :: 0 <= k < |panels| ==> !ReadsOpen(panels[k])
    ensures OpenCount(panels) == 0
  {
    if panels != [] {
      NoneOpen(panels[1..]);
    }
  }

  /** After a click whose target exists, every panel other than the target holds `0`. */
  lemma ClickClosesOthers(panels: seq<MaxHeight>, target: Target, scrollHeight: nat, k: nat)
    requires target != Missing && k < |panels|
    requires target.Panel? ==> k != target.i
    ensures Clicked(panels, target, scrollHeight)[k] == Px(0)
  {
  }

  /**
   * After a click whose target exists at most one panel is open, whatever
   * the panels were before; and exactly one is open iff the target is a
   * panel that was closed and has content.
   */
  lemma AtMostOneOpenAfterClick(panels: seq<MaxHeight>, target: Target, scrollHeight: nat)
    requires target != Missing
    ensures OpenCount(Clicked(panels, target, scrollHeight)) <= 1
    ensures OpenCount(Clicked(panels, target, scrollHeight)) == 1 <==>
      target.Panel? && target.i < |panels| && !ReadsOpen(panels[target.i]) && scrollHeight != 0
  {
    var r := Clicked(panels, target, scrollHeight);
    if target.Panel? {
      OnlyOneCanBeOpen(r, target.i);
    } else {
      NoneOpen(r);
    }
  }

  /** A click never opens a second panel: "at most one open" is an invariant of the page. */
  lemma ClickKeepsAtMostOneOpen(panels: seq<MaxHeight>, target: Target, scrollHeight: nat)
    requires OpenCount(panels) <= 1
    ensures OpenCount(Clicked(panels, target, scrollHeight)) <= 1
  {
    if target != Missing {
      AtMostOneOpenAfterClick(panels, target, scrollHeight);
    }
  }

  /** Clicking an open panel closes it, and then no panel is open. */
  lemma ClickOnOpenCloses(panels: seq<MaxHeight>, t: nat, scrollHeight: nat)
    requires t < |panels| && ReadsOpen(panels[t])
    ensures Clicked(panels, Panel(t), scrollHeight)[t] == Px(0)
    ensures OpenCount(Clicked(panels, Panel(t), scrollHeight)) == 0
  {
    AtMostOneOpenAfterClick(panels, Panel(t), scrollHeight);
  }

  /** Clicking a closed panel, never set or set to `0`, sets it to its content height. */
  lemma ClickOnClosedOpens(panels: seq<MaxHeight>, t: nat, scrollHeight: nat)
    requires t < |panels| && (panels[t] == Unset || panels[t] == Px(0))
    ensures Clicked(panels, Panel(t), scrollHeight)[t] == Px(scrollHeight)
  {
  }

  /** Opening a closed answer and clicking its question again leaves every panel closed. */
  lemma ClickTwiceClosesAll(panels: seq<MaxHeight>, t: nat, scrollHeight: nat)
    requires t < |panels| && !ReadsOpen(panels[t])
    ensures OpenCount(Clicked(Clicked(panels, Panel(t), scrollHeight), Panel(t), scrollHeight)) == 0
  {
    var once := Clicked(panels, Panel(t), scrollHeight);
    if scrollHeight != 0 {
      ClickOnOpenCloses(once, t, scrollHeight);
    } else {
      AtMostOneOpenAfterClick(once, Panel(t), scrollHeight);
    }
  }

  /** A click whose `data-target` names no element leaves every panel as it was. */
  lemma MissingTargetChangesNothing(panels: seq<MaxHeight>, scrollHeight: nat)
    ensures Clicked(panels, Missing, scrollHeight) == panels
  {
  }

  /**
   * The click handler, run on the page's answer panels in place: the loop
   * over all answers writes `0` to each one that is not the target, then the
   * target (when it is one of them) is toggled.
   */
  method Click(panels: array<MaxHeight>, target: Target, scrollHeight: nat)
    modifies panels
    ensures panels[..] == Clicked(old(panels[..]), target, scrollHeight)
  {
    if target == Missing {
      return;
    }
    var k := 0;
    while k < panels.Length
      invariant 0 <= k <= panels.Length
      invariant forall j :: 0 <= j < k ==>
        panels[j] == if target == Panel(j) then old(panels[j]) else Px(0)
      invariant forall j :: k <= j < panels.Length ==> panels[j] == old(panels[j])
    {
      if target != Panel(k) {
        panels[k] := Px(0);
      }
      k := k + 1;
    }
    if target.Panel? && target.i < panels.Length {
      var t := target.i;
      if ReadsOpen(panels[t]) {
        panels[t] := Px(0);
      } else {
        panels[t] := Px(scrollHeight);
      }
    }
  }
}
