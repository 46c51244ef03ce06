/** The project lightbox of the about section
    (`src/components/about-section.tsx`): a card click opens the lightbox on
    that card, the previous and next buttons (and the arrow keys) step
    through the cards with wrap-around, and closing clears the selection. */
module Lightbox {
  import opened Text

  /** The number of project cards (`infographics.length`). */
  const CardCount: nat := 8

  datatype Direction = Prev | Next

  /** `(i + 1) % n`: the next card, wrapping from the last to the first. */
  function NextIndex(i: nat, n: nat): (j: nat)
    requires i < n
    ensures j < n
    ensures i + 1 < n ==> j == i + 1
    ensures i + 1 == n ==> j == 0
  {
    (i + 1) % n
  }

  /** `(i - 1 + n) % n`: the previous card, wrapping from the first to the
      last. The operand is never negative, so JavaScript's `%` and Dafny's
      agree. */
  function PrevIndex(i: nat, n: nat): (j: nat)
    requires i < n
    ensures j < n
    ensures 0 < i ==> j == i - 1
    ensures i == 0 ==> j == n - 1
  {
    (i - 1 + n) % n
  }

  function Step(i: nat, n: nat, d: Direction): (j: nat)
    requires i < n
    ensures j < n
  {
    match d
    case Prev => PrevIndex(i, n)
    case Next => NextIndex(i, n)
  }

  /** Next then previous, or previous then next, returns to the card one
      started from. */
  lemma StepsUndo(i: nat, n: nat)
    requires i < n
    ensures PrevIndex(NextIndex(i, n), n) == i
    ensures NextIndex(PrevIndex(i, n), n) == i
  {
  }

  /** `k` presses of a button from card `i`. */
  function Steps(i: nat, n: nat, d: Direction, k: nat): (j: nat)
    requires i < n
    ensures j < n
    decreases k
  {
    if k == 0 then i else Step(Steps(i, n, d, k - 1), n, d)
  }

  /** `k` presses of next reach card `(i + k) mod n`, and `k` presses of
      previous card `(i - k) mod n`. */
  lemma {:induction false} StepsModulo(i: nat, n: nat, k: nat)
    requires i < n
    ensures Steps(i, n, Next, k) == (i + k) % n
    ensures Steps(i, n, Prev, k) == (i - k) % n
    decreases k
  {
    if k > 0 {
      StepsModulo(i, n, k - 1);
      ModuloSucc(i + (k - 1), n);
      ModuloPred(i - (k - 1), n);
    }
  }

  // ---------------------------------------------------------------------
  // the selection
  // ---------------------------------------------------------------------

  /** The section's state (`selectedImageIndex`, `isLightboxOpen`). */
  datatype Selection = Selection(index: Option<nat>, open: bool)

  const NoSelection := Selection(None, false)

  /** The lightbox is open exactly when a card is selected, and the
      selected card exists. */
  predicate Inv(s: Selection, n: nat) {
    (s.open <==> s.index.Some?) && (s.index.Some? ==> s.index.value < n)
  }

  /** `handleCardClick(index)`: select the card and open the lightbox. */
  function CardClicked(s: Selection, index: nat): Selection {
    Selection(Some(index), true)
  }

  /** `handleLightboxClose`: closed, nothing selected. */
  function Closed(s: Selection): Selection {
    Selection(None, false)
  }

  /** `handleNavigate(direction)`: nothing happens without a selection;
      otherwise the selected index steps with wrap-around. */
  function Navigated(s: Selection, d: Direction, n: nat): Selection
    requires Inv(s, n)
  {
    if s.index.None? then s else s.(index := Some(Step(s.index.value, n, d)))
  }

  /** Navigating without a selection changes nothing; with one it keeps the
      lightbox open on an existing card, the one before or after. */
  lemma NavigateSpec(s: Selection, d: Direction, n: nat)
    requires Inv(s, n)
    ensures s.index.None? ==> Navigated(s, d, n) == s
    ensures Inv(Navigated(s, d, n), n)
    ensures s.index.Some? ==> Navigated(s, d, n).open
    ensures s.index.Some? && d == Next ==> Navigated(s, d, n).index == Some(NextIndex(s.index.value, n))
    ensures s.index.Some? && d == Prev ==> Navigated(s, d, n).index == Some(PrevIndex(s.index.value, n))
  {
  }

  /** A click on an existing card opens the lightbox on it; closing clears
      the selection; both keep the invariant. */
  lemma ClickAndCloseSpec(s: Selection, index: nat, n: nat)
    requires index < n
    ensures Inv(CardClicked(s, index), n) && CardClicked(s, index).index == Some(index)
    ensures Inv(Closed(s), n) && !Closed(s).open && Closed(s).index.None?
  {
  }

  /** Navigating away and back leaves the selection as it was. */
  lemma NavigateUndo(s: Selection, n: nat)
    requires Inv(s, n)
    ensures Navigated(Navigated(s, Next, n), Prev, n) == s
    ensures Navigated(Navigated(s, Prev, n), Next, n) == s
  {
    NavigateSpec(s, Next, n);
    NavigateSpec(s, Prev, n);
    if s.index.Some? {
      StepsUndo(s.index.value, n);
    }
  }

  /** The about section's lightbox state, updated by its handlers. */
  class AboutLightbox {
    var selectedImageIndex: Option<nat>
    var isLightboxOpen: bool

    function State(): Selection
      reads this
    {
      Selection(selectedImageIndex, isLightboxOpen)
    }

    ghost predicate Valid()
      reads this
    {
      Inv(State(), CardCount)
    }

    constructor ()
      ensures Valid() && State() == NoSelection
    {
      selectedImageIndex := None;
      isLightboxOpen := false;
    }

    /** `handleCardClick(index)`, from the card at `index`. */
    method HandleCardClick(index: nat)
      requires Valid() && index < CardCount
      modifies this
      ensures Valid() && State() == CardClicked(old(State()), index)
    {
      selectedImageIndex := Some(index);
      isLightboxOpen := true;
    }

    /** `handleLightboxClose`. */
    method HandleLightboxClose()
      requires Valid()
      modifies this
      ensures Valid() && State() == Closed(old(State()))
    {
      isLightboxOpen := false;
      selectedImageIndex := None;
    }

    /** `handleNavigate(direction)`. */
    method HandleNavigate(d: Direction)
      requires Valid()
      modifies this
      ensures Valid() && State() == Navigated(old(State()), d, CardCount)
    {
      if selectedImageIndex.None? {
        return;
      }
      var i := selectedImageIndex.value;
      var newIndex := if d == Prev then (i - 1 + CardCount) % CardCount else (i + 1) % CardCount;
      selectedImageIndex := Some(newIndex);
    }
  }

  // ---------------------------------------------------------------------
  // modular arithmetic
  // ---------------------------------------------------------------------

  /** The remainder is the only one in [0, n): `a == q * n + r` fixes
      `a % n` as `r`. */
  lemma ModuloUnique(a: int, n: nat, q: int, r: int)
    requires 0 < n && 0 <= r < n && a == q * n + r
    ensures a % n == r
  {
    var q', r' := a / n, a % n;
    assert (q - q') * n == r' - r;
    if q - q' >= 1 {
      assert (q - q') * n >= n by { MulAtLeast(q - q', n); }
    } else if q - q' <= -1 {
      assert (q' - q) * n >= n by { MulAtLeast(q' - q, n); }
    }
  }

  lemma MulAtLeast(c: int, n: nat)
    requires c >= 1
    ensures c * n >= n
  {
  }

  lemma ModuloSucc(x: int, n: nat)
    requires 0 < n
    ensures (x % n + 1) % n == (x + 1) % n
  {
    var q, r := x / n, x % n;
    assert x == q * n + r;
    if r + 1 < n {
      ModuloUnique(x + 1, n, q, r + 1);
    } else {
      ModuloUnique(x + 1, n, q + 1, 0);
    }
  }

  lemma ModuloPred(x: int, n: nat)
    requires 0 < n
    ensures (x % n - 1 + n) % n == (x - 1) % n
  {
    var q, r := x / n, x % n;
    assert x == q * n + r;
    if 0 < r {
      ModuloUnique(x - 1, n, q, r - 1);
      ModuloUnique(r - 1 + n, n, 1, r - 1);
    } else {
      ModuloUnique(x - 1, n, q - 1, n - 1);
      ModuloUnique(n - 1, n, 0, n - 1);
    }
  }
}
