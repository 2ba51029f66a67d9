/**
 * The trading-card carousel of the account view: one card at a time on a
 * narrow screen, up to three side by side otherwise. Arrows step the current
 * index with wrap-around, dots jump to a page, and each card's access code
 * can be shown or hidden on its own.
 */
module Carousel {

  /** `Math.min(3, cards.length)`: the cards side by side on a wide screen. */
  function CardsPerView(n: nat): (r: nat)
    ensures r <= 3 && r <= n
    ensures r == 3 || r == n
  {
    if n < 3 then n else 3
  }

  /** `Math.max(0, cards.length - cardsPerView)`: the last index at which a
      full view of cards is still shown. The `max` never applies, since at
      most `cards.length` cards are shown side by side. */
  function MaxIndex(n: nat): (r: nat)
    ensures r + CardsPerView(n) == n
  {
    n - CardsPerView(n)
  }

  /** `nextSlide`: `(prev + 1) % cards.length`. */
  function NextIndex(i: nat, n: nat): (r: nat)
    requires n > 0
    ensures r < n
  {
    (i + 1) % n
  }

  /** `prevSlide`: `(prev - 1 + cards.length) % cards.length`. */
  function PrevIndex(i: nat, n: nat): (r: nat)
    requires n > 0
    ensures r < n
  {
    (i - 1 + n) % n
  }

  /** Inside the deck, the next index is one further or wraps to the first
      card, and the previous one is one back or wraps to the last card. */
  lemma StepsWrap(i: nat, n: nat)
    requires i < n
    ensures NextIndex(i, n) == (if i == n - 1 then 0 else i + 1)
    ensures PrevIndex(i, n) == (if i == 0 then n - 1 else i - 1)
  {
    ModOfOneWrap(i + 1, n);
    ModOfOneWrap(i - 1 + n, n);
  }

  /** Between 0 and `2n`, taking the remainder by `n` subtracts `n` at most once. */
  lemma ModOfOneWrap(x: int, n: nat)
    requires 0 <= x < 2 * n
    ensures x % n == (if x < n then x else x - n)
  {
    var q, r := x / n, x % n;
    assert x == q * n + r && 0 <= r < n;
    if x < n {
      assert q * n < n;
      assert q == 0;
    } else {
      assert n <= q * n < 2 * n;
      assert q == 1;
    }
  }

  /** Going forward then back, or back then forward, returns to the same card. */
  lemma StepsAreInverse(i: nat, n: nat)
    requires i < n
    ensures PrevIndex(NextIndex(i, n), n) == i
    ensures NextIndex(PrevIndex(i, n), n) == i
  {
    StepsWrap(i, n);
    StepsWrap(NextIndex(i, n), n);
    StepsWrap(PrevIndex(i, n), n);
  }

  /** Wide-screen arrows appear only when there are more cards than fit. */
  function ArrowsShown(n: nat): (r: bool)
    ensures r <==> n > 3
  {
    n > CardsPerView(n)
  }

  /** The wide-screen back arrow is disabled on the first card. */
  predicate PrevDisabled(i: nat) {
    i == 0
  }

  /** The wide-screen forward arrow is disabled from `maxIndex` on. */
  predicate NextDisabled(i: nat, n: nat) {
    i >= MaxIndex(n)
  }

  /** On a wide screen the enabled arrows keep the index between 0 and
      `maxIndex`: neither of them wraps around. */
  lemma ArrowsStayInWindow(i: nat, n: nat)
    requires ArrowsShown(n) && i <= MaxIndex(n)
    ensures !PrevDisabled(i) ==> PrevIndex(i, n) == i - 1
    ensures !NextDisabled(i, n) ==> NextIndex(i, n) == i + 1 && NextIndex(i, n) <= MaxIndex(n)
  {
    StepsWrap(i, n);
  }

  /** `Math.ceil(cards.length / cardsPerView)`: the number of dots. */
  function DotCount(n: nat): (r: nat)
    requires n > 0
    ensures (r - 1) * CardsPerView(n) < n <= r * CardsPerView(n)
  {
    var c := CardsPerView(n);
    var r := (n + c - 1) / c;
    assert (n + c - 1) == r * c + (n + c - 1) % c;
    r
  }

  /** `Math.floor(currentIndex / cardsPerView)`: the dot shown as active. */
  function ActiveDot(i: nat, n: nat): (r: nat)
    requires n > 0
    ensures r * CardsPerView(n) <= i < (r + 1) * CardsPerView(n)
  {
    var c := CardsPerView(n);
    var r := i / c;
    assert i == r * c + i % c;
    r
  }

  /** Clicking dot `k` moves to `k * cardsPerView`. */
  function DotTarget(k: nat, n: nat): nat {
    k * CardsPerView(n)
  }

  /** Every card of the deck lights one of the dots, and clicking a dot lands
      on a card that lights that same dot. */
  lemma DotsCoverDeck(i: nat, k: nat, n: nat)
    requires n > 0 && i < n && k < DotCount(n)
    ensures ActiveDot(i, n) < DotCount(n)
    ensures DotTarget(k, n) < n
    ensures ActiveDot(DotTarget(k, n), n) == k
  {
    var c := CardsPerView(n);
    var d := DotCount(n);
    var a := ActiveDot(i, n);
    MultiplyMonotone(d, a, c);
    MultiplyMonotone(k, d - 1, c);
    var b := ActiveDot(DotTarget(k, n), n);
    MultiplyMonotone(b + 1, k, c);
    MultiplyMonotone(k + 1, b, c);
  }

  lemma MultiplyMonotone(a: nat, b: nat, c: nat)
    ensures a <= b ==> a * c <= b * c
  {
  }

  /** The last dot can move past `maxIndex`: with four cards it moves to the
      fourth card, beyond the last full view, which starts at the second. */
  lemma LastDotPassesMaxIndex()
    ensures DotCount(4) == 2 && DotTarget(1, 4) == 3 && MaxIndex(4) == 1
    ensures NextDisabled(DotTarget(1, 4), 4)
  {
    assert CardsPerView(4) == 3;
  }

  /** `showPassword[index]`: an entry never toggled is `undefined`, so hidden. */
  predicate Shown(m: map<int, bool>, i: int) {
    i in m && m[i]
  }

  /** `togglePasswordVisibility`: `{...prev, [index]: !prev[index]}`. */
  function Toggled(m: map<int, bool>, i: int): (r: map<int, bool>)
    ensures r.Keys == m.Keys + {i}
  {
    m[i := !Shown(m, i)]
  }

  /** A toggle flips the visibility of its own card and of no other. */
  lemma ToggleFlipsOnlyItsCard(m: map<int, bool>, i: int, j: int)
    ensures Shown(Toggled(m, i), j) == (if j == i then !Shown(m, i) else Shown(m, j))
  {
  }

  /** Toggling a card twice restores what every card shows. */
  lemma ToggleTwiceRestores(m: map<int, bool>, i: int, j: int)
    ensures Shown(Toggled(Toggled(m, i), i), j) == Shown(m, j)
  {
    ToggleFlipsOnlyItsCard(m, i, j);
    ToggleFlipsOnlyItsCard(Toggled(m, i), i, j);
  }

  /** The view's state over a deck of `n` cards. */
  class View {
    const n: nat
    var currentIndex: nat
    var showPassword: map<int, bool>
    var isMobile: bool

    constructor(n: nat)
      ensures this.n == n && currentIndex == 0 && showPassword == map[] && !isMobile
      ensures Valid()
    {
      this.n := n;
      currentIndex := 0;
      showPassword := map[];
      isMobile := false;
    }

    /** The index always names a card of a non-empty deck. */
    predicate Valid()
      reads this
    {
      n == 0 || currentIndex < n
    }

    /** The wide layout is used for more than one card on a screen at least
        768 pixels wide; otherwise cards are shown one at a time. */
    predicate Wide()
      reads this
    {
      !isMobile && n > 1
    }

    /** `checkMobile`, run on mount and on every resize. */
    method Resize(width: int)
      modifies this`isMobile
      ensures isMobile <==> width < 768
    {
      isMobile := width < 768;
    }

    /** The forward arrow. */
    method NextSlide()
      requires Valid() && n > 0
      modifies this`currentIndex
      ensures Valid()
      ensures currentIndex == NextIndex(old(currentIndex), n)
    {
      currentIndex := (currentIndex + 1) % n;
    }

    /** The back arrow. */
    method PrevSlide()
      requires Valid() && n > 0
      modifies this`currentIndex
      ensures Valid()
      ensures currentIndex == PrevIndex(old(currentIndex), n)
    {
      currentIndex := (currentIndex - 1 + n) % n;
    }

    /** A dot click: on the wide layout dot `k` moves to the first card of
        page `k`; on the narrow layout dot `k` is card `k`. The wide layout
        draws dots only when the deck is longer than one view. */
    method ClickDot(k: nat)
      requires Valid()
      requires Wide() ==> n > CardsPerView(n) && k < DotCount(n)
      requires !Wide() ==> k < n
      modifies this`currentIndex
      ensures Valid()
      ensures currentIndex == if Wide() then DotTarget(k, n) else k
    {
      if Wide() {
        DotsCoverDeck(0, k, n);
        currentIndex := k * CardsPerView(n);
      } else {
        currentIndex := k;
      }
    }

    /** The eye button of card `i`. */
    method TogglePasswordVisibility(i: int)
      modifies this`showPassword
      ensures showPassword == Toggled(old(showPassword), i)
    {
      showPassword := showPassword[i := !(i in showPassword && showPassword[i])];
    }
  }
}
