/** The focus cursor of `useFocus`: an optional index into a list of `n`
    items, moved forwards and backwards with wrap-around, set from outside by
    index, and cleared. Two variants exist: the one in `src/keybinding.ts`
    ignores an invalid index and never looks at the focus again when the
    list changes; the one in `src/useFocus.ts` clears the focus on an
    invalid index and heals a focus that the list no longer reaches. */
module FocusCursor {
  import opened Common

  datatype Direction = Next | Prev

  /** The argument of the exposed setter: a direction, a number, or nothing. */
  datatype Request = Step(dir: Direction) | Index(i: int) | Clear

  datatype Variant =
    | Lenient     // src/keybinding.ts
    | SelfHealing // src/useFocus.ts

  /** `move(action)`: the focus `setFocus` receives. */
  function Moved(dir: Direction, focus: Option<nat>, n: nat): (r: Option<nat>)
    ensures r.None? <==> n == 0
    ensures n > 0 && dir == Next ==> r.value < n
    ensures n > 0 && dir == Prev && (focus.None? || focus.value <= n) ==> r.value < n
    ensures n > 0 && focus.None? ==> r.value == (if dir == Next then 0 else n - 1)
  {
    if n == 0 then None
    else match dir
      case Next => if focus.None? || focus.value + 1 > n - 1 then Some(0) else Some(focus.value + 1)
      case Prev => if focus.None? || focus.value - 1 < 0 then Some(n - 1) else Some(focus.value - 1)
  }

  /** An index the numeric setter refuses. */
  predicate Invalid(i: int, n: nat) {
    i < 0 || i > n || n == 0
  }

  /** `externalSetFocus(actionOrIndex)`: the focus after the call. */
  function SetFocus(variant: Variant, req: Request, focus: Option<nat>, n: nat): (r: Option<nat>)
    ensures req.Step? ==> r == Moved(req.dir, focus, n)
    ensures req.Index? && !Invalid(req.i, n) ==> r == Some(req.i)
    ensures req.Index? && Invalid(req.i, n) ==> r == (if variant == Lenient then focus else None)
    ensures req.Clear? ==> r.None?
  {
    match req
    case Step(d) => Moved(d, focus, n)
    case Index(i) =>
      if Invalid(i, n) then (if variant == Lenient then focus else None)
      else Some(i)
    case Clear => None
  }

  /** The items-change effect of `src/useFocus.ts`. */
  function Heal(focus: Option<nat>, n: nat): (r: Option<nat>)
    ensures r.None? <==> focus.None? || focus.value >= n
    ensures r.Some? ==> r == focus
  {
    if focus.Some? && focus.value >= n then None else focus
  }

  /** `k` moves in the same direction. */
  function Moves(dir: Direction, focus: Option<nat>, n: nat, k: nat): Option<nat> {
    if k == 0 then focus else Moved(dir, Moves(dir, focus, n, k - 1), n)
  }

  // ---------------------------------------------------------------------
  // Cyclic navigation
  // ---------------------------------------------------------------------

  lemma PrevUndoesNext(i: nat, n: nat)
    requires i < n
    ensures Moved(Prev, Moved(Next, Some(i), n), n) == Some(i)
  {
  }

  lemma NextUndoesPrev(i: nat, n: nat)
    requires i < n
    ensures Moved(Next, Moved(Prev, Some(i), n), n) == Some(i)
  {
  }

  /** Moves in one direction compose. */
  lemma {:induction false} MovesAdd(dir: Direction, focus: Option<nat>, n: nat, a: nat, b: nat)
    ensures Moves(dir, focus, n, a + b) == Moves(dir, Moves(dir, focus, n, a), n, b)
  {
    if b > 0 {
      MovesAdd(dir, focus, n, a, b - 1);
    }
  }

  /** Forward moves that do not reach the end count up. */
  lemma {:induction false} ForwardWithin(i: nat, n: nat, k: nat)
    requires i + k < n
    ensures Moves(Next, Some(i), n, k) == Some(i + k)
  {
    if k > 0 {
      ForwardWithin(i, n, k - 1);
    }
  }

  /** Backward moves that do not pass the start count down. */
  lemma {:induction false} BackwardWithin(i: nat, n: nat, k: nat)
    requires k <= i < n
    ensures Moves(Prev, Some(i), n, k) == Some(i - k)
  {
    if k > 0 {
      BackwardWithin(i, n, k - 1);
    }
  }

  /** `n` steps in either direction come back to where they started. */
  lemma FullCircle(dir: Direction, i: nat, n: nat)
    requires i < n
    ensures Moves(dir, Some(i), n, n) == Some(i)
  {
    if dir == Next {
      NextCircle(i, n);
    } else {
      PrevCircle(i, n);
    }
  }

  /** Up to the last item, over the end to 0, then up to `i` again. */
  lemma NextCircle(i: nat, n: nat)
    requires i < n
    ensures Moves(Next, Some(i), n, n) == Some(i)
  {
    ForwardWithin(i, n, n - 1 - i);
    MovesAdd(Next, Some(i), n, n - 1 - i, 1);
    ForwardWithin(0, n, i);
    MovesAdd(Next, Some(i), n, n - i, i);
  }

  /** Down to 0, over the start to `n - 1`, then down to `i` again. */
  lemma PrevCircle(i: nat, n: nat)
    requires i < n
    ensures Moves(Prev, Some(i), n, n) == Some(i)
  {
    BackwardWithin(i, n, i);
    MovesAdd(Prev, Some(i), n, i, 1);
    BackwardWithin(n - 1, n, n - 1 - i);
    MovesAdd(Prev, Some(i), n, i + 1, n - 1 - i);
  }

  // ---------------------------------------------------------------------
  // How far the focus can stray
  // ---------------------------------------------------------------------

  /** The focus is absent or at most `n`: the index `n` itself is accepted
      by the numeric setter. */
  predicate Bounded(focus: Option<nat>, n: nat) {
    focus.None? || focus.value <= n
  }

  /** With the self-healing variant every operation keeps the focus bounded,
      so a move always lands inside the list. */
  lemma SelfHealingStaysBounded(req: Request, focus: Option<nat>, n: nat, n': nat)
    requires Bounded(focus, n)
    ensures Bounded(SetFocus(SelfHealing, req, focus, n), n)
    ensures Bounded(Heal(focus, n'), n')
    ensures n > 0 && req.Step? ==> SetFocus(SelfHealing, req, focus, n).value < n
  {
  }

  /** Without the heal, a list that shrinks under the focus leaves it out of
      range, and a backward move from there stays out of range. */
  lemma LenientStaleFocus()
    ensures Moved(Prev, Some(5), 3) == Some(4)
    ensures SetFocus(Lenient, Step(Prev), Some(5), 3).value >= 3
  {
  }

  // ---------------------------------------------------------------------
  // The hook's state
  // ---------------------------------------------------------------------

  /** The `focus` state cell and the current length of `items`. */
  class Cursor {
    const variant: Variant
    var items: nat
    var focus: Option<nat>

    constructor (variant: Variant, items: nat)
      ensures this.variant == variant && this.items == items && focus.None?
    {
      this.variant := variant;
      this.items := items;
      focus := None;
    }

    /** `move(action)`. */
    method Move(dir: Direction)
      modifies this`focus
      ensures focus == Moved(dir, old(focus), items)
    {
      if items == 0 {
        focus := None;
        return;
      }
      match dir
      case Next =>
        if focus.None? || focus.value + 1 > items - 1 {
          focus := Some(0);
        } else {
          focus := Some(focus.value + 1);
        }
      case Prev =>
        if focus.None? || focus.value - 1 < 0 {
          focus := Some(items - 1);
        } else {
          focus := Some(focus.value - 1);
        }
    }

    /** `externalSetFocus(actionOrIndex)`. */
    method ExternalSetFocus(req: Request)
      modifies this`focus
      ensures focus == SetFocus(variant, req, old(focus), items)
    {
      match req
      case Step(d) =>
        Move(d);
      case Index(i) =>
        if Invalid(i, items) {
          if variant == SelfHealing {
            focus := None;
          }
        } else {
          focus := Some(i);
        }
      case Clear =>
        focus := None;
    }

    /** A render with a new `items` array. Only the self-healing variant has
        an effect on it. */
    method ItemsChanged(n: nat)
      modifies this`items, this`focus
      ensures items == n
      ensures focus == if variant == SelfHealing then Heal(old(focus), n) else old(focus)
    {
      items := n;
      if variant == SelfHealing && focus.Some? && focus.value >= items {
        focus := None;
      }
    }
  }
}
