/**
 * The reviews slider: one index `idx` that moves round a ring of `total`
 * review cards, driven by the next and previous buttons, an auto-scroll
 * timer, hover (which pauses and resumes that timer) and window resizes
 * (which only redraw the current card).
 */
module ReviewSlider {

  /** Card shown after a "next" click or an auto-scroll tick: `(idx + 1) % total`. */
  function NextIndex(idx: nat, total: nat): (r: nat)
    requires total > 0
    ensures r < total
    ensures idx < total ==> r == if idx == total - 1 then 0 else idx + 1
  {
    (idx + 1) % total
  }

  /**
   * Card shown after a "previous" click: `(idx - 1 + total) % total`.
   * The dividend is never negative (idx >= 0, total >= 1), so the
   * truncating `%` of the page script and Dafny's Euclidean `%` agree.
   */
  function PrevIndex(idx: nat, total: nat): (r: nat)
    requires total > 0
    ensures r < total
    ensures idx < total ==> r == if idx == 0 then total - 1 else idx - 1
  {
    (idx - 1 + total) % total
  }

  /** "Previous" undoes "next". */
  lemma PrevUndoesNext(idx: nat, total: nat)
    requires 0 < total && idx < total
    ensures PrevIndex(NextIndex(idx, total), total) == idx
  {
  }

  /** "Next" undoes "previous". */
  lemma NextUndoesPrev(idx: nat, total: nat)
    requires 0 < total && idx < total
    ensures NextIndex(PrevIndex(idx, total), total) == idx
  {
  }

  /** The card after `k` forward steps (next clicks or auto-scroll ticks in any mix). */
  function Advance(idx: nat, k: nat, total: nat): (r: nat)
    requires total > 0
    ensures idx < total ==> r < total
  {
    if k == 0 then idx else NextIndex(Advance(idx, k - 1, total), total)
  }

  /** The card after `k` "previous" clicks. */
  function Retreat(idx: nat, k: nat, total: nat): (r: nat)
    requires total > 0
    ensures idx < total ==> r < total
    decreases k
  {
    if k == 0 then idx else Retreat(PrevIndex(idx, total), k - 1, total)
  }

  /** One more step forward adds one modulo `total`. */
  lemma ModSucc(n: nat, total: nat)
    requires total > 0
    ensures (n + 1) % total == NextIndex(n % total, total)
  {
    var q, r := n / total, n % total;
    assert n == q * total + r;
    if r + 1 < total {
      assert n + 1 == q * total + (r + 1);
      ModUnique(n + 1, q, r + 1, total);
    } else {
      assert n + 1 == (q + 1) * total;
      ModUnique(n + 1, q + 1, 0, total);
    }
  }

  /** The remainder of `q * m + r` by `m` is `r` when `0 <= r < m`. */
  lemma ModUnique(a: nat, q: nat, r: nat, m: nat)
    requires 0 <= r < m && a == q * m + r
    ensures a % m == r
  {
    var q', r' := a / m, a % m;
    assert a == q' * m + r';
    if q' < q {
      MulStep(q - q', q', m);
      assert false;
    } else if q' > q {
      MulStep(q' - q, q, m);
      assert false;
    }
  }

  /** `(b + d) * m` exceeds `b * m` by at least `m` once `d >= 1`. */
  lemma MulStep(d: nat, b: nat, m: nat)
    requires d >= 1
    ensures (b + d) * m >= b * m + m
  {
  }

  /** `k` forward steps from a valid card land on `(idx + k) % total`. */
  lemma {:induction false} AdvanceIsModular(idx: nat, k: nat, total: nat)
    requires 0 < total && idx < total
    ensures Advance(idx, k, total) == (idx + k) % total
  {
    if k == 0 {
      ModUnique(idx, 0, idx, total);
    } else {
      AdvanceIsModular(idx, k - 1, total);
      ModSucc(idx + k - 1, total);
    }
  }

  /** `total` forward steps bring the slider back to the card it started on. */
  lemma AdvanceFullCycle(idx: nat, total: nat)
    requires 0 < total && idx < total
    ensures Advance(idx, total, total) == idx
  {
    AdvanceIsModular(idx, total, total);
    ModUnique(idx + total, 1, idx, total);
  }

  /** `k` "previous" clicks undo `k` forward steps. */
  lemma {:induction false} RetreatUndoesAdvance(idx: nat, k: nat, total: nat)
    requires 0 < total && idx < total
    ensures Retreat(Advance(idx, k, total), k, total) == idx
  {
    if k > 0 {
      var before := Advance(idx, k - 1, total);
      PrevUndoesNext(before, total);
      assert Retreat(Advance(idx, k, total), k, total) == Retreat(before, k - 1, total);
      RetreatUndoesAdvance(idx, k - 1, total);
    }
  }

  /**
   * The slider's state: the current card `idx` over a fixed number of
   * cards, and whether the auto-scroll interval is running. `Next`, `Prev`,
   * `AutoTick` and `Resize` return the card they redraw.
   */
  class Slider {
    const total: nat
    var idx: nat
    var autoScrolling: bool

    ghost predicate Valid()
      reads this
    {
      0 < total && idx < total
    }

    /** Mounting: start on card 0 with the auto-scroll interval running. */
    constructor (total: nat)
      requires total > 0
      ensures Valid()
      ensures this.total == total && idx == 0 && autoScrolling
    {
      this.total := total;
      idx := 0;
      autoScrolling := true;
    }

    /** Click on the "next" button. */
    method Next() returns (shown: nat)
      requires Valid()
      modifies this`idx
      ensures Valid()
      ensures idx == NextIndex(old(idx), total) && shown == idx
      ensures autoScrolling == old(autoScrolling)
    {
      idx := NextIndex(idx, total);
      shown := idx;
    }

    /** Click on the "previous" button. */
    method Prev() returns (shown: nat)
      requires Valid()
      modifies this`idx
      ensures Valid()
      ensures idx == PrevIndex(old(idx), total) && shown == idx
      ensures autoScrolling == old(autoScrolling)
    {
      idx := PrevIndex(idx, total);
      shown := idx;
    }

    /** One firing of the auto-scroll interval; it only fires while the interval runs. */
    method AutoTick() returns (shown: nat)
      requires Valid() && autoScrolling
      modifies this`idx
      ensures Valid()
      ensures idx == NextIndex(old(idx), total) && shown == idx
      ensures autoScrolling
    {
      idx := NextIndex(idx, total);
      shown := idx;
    }

    /** The pointer enters (`entering`) or leaves the slider: pause or resume auto-scroll. */
    method Hover(entering: bool)
      requires Valid()
      modifies this`autoScrolling
      ensures Valid()
      ensures autoScrolling == !entering
      ensures idx == old(idx)
    {
      autoScrolling := !entering;
    }

    /** A window resize redraws the current card and changes nothing. */
    method Resize() returns (shown: nat)
      requires Valid()
      ensures shown == idx && shown < total
    {
      shown := idx;
    }
  }
}
