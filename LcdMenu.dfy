/**
 * A rotating LCD menu: a number of titles, the index of the title shown and
 * the index of the title chosen for execution, all three `unsigned char`.
 * Shifting moves the shown index round the menu; deciding copies it into
 * the execution index.
 *
 * The titles and the functions behind them are left out: showing a title
 * and calling the chosen function are I/O.
 */
module LcdMenu {
  import opened Numeric

  /** 2^8: the fields are `unsigned char`. */
  const U8: int := 256

  /** LCD_LEFT and LCD_RIGHT: the shifts the menu is meant to be moved by. */
  const MenuLeft: int := -1
  const MenuRight: int := 1

  /**
   * The new shown index of lcdmenuShift: `display + (numTitles + shift)`
   * computed on `int`, its C remainder by `numTitles`, stored back into an
   * `unsigned char`.
   */
  function ShiftedIndex(display: int, numTitles: int, shift: int): (r: int)
    requires numTitles > 0
    ensures 0 <= r < U8
  {
    Rem(display + (numTitles + shift), numTitles) % U8
  }

  /**
   * While the sum is not negative, the new index is in the menu and is the
   * old index moved by `shift` round a circle of `numTitles` positions.
   */
  lemma ShiftStaysInMenu(display: int, numTitles: int, shift: int)
    requires 0 < numTitles < U8
    requires display + numTitles + shift >= 0
    ensures ShiftedIndex(display, numTitles, shift) < numTitles
    ensures ShiftedIndex(display, numTitles, shift) == (display + shift) % numTitles
  {
    var sum := display + numTitles + shift;
    var r := Rem(sum, numTitles);
    assert r == sum % numTitles;
    assert 0 <= r < numTitles;
    assert r % U8 == r;
    AddModulus(display + shift, numTitles);
  }

  /** Adding the modulus does not change a remainder. */
  lemma AddModulus(a: int, n: int)
    requires n > 0
    ensures (a + n) % n == a % n
  {
    var q, r := a / n, a % n;
    assert a == q * n + r;
    assert a + n == (q + 1) * n + r;
    DivisionUnique(a + n, n, q + 1, r);
  }

  /** When the sum is `q * numTitles + r` with `q >= 0` and `r` below `numTitles`, the new index is `r`. */
  lemma ShiftedIndexIs(display: int, numTitles: int, shift: int, q: int, r: int)
    requires 0 < numTitles < U8 && q >= 0 && 0 <= r < numTitles
    requires display + numTitles + shift == q * numTitles + r
    ensures ShiftedIndex(display, numTitles, shift) == r
  {
    DivisionUnique(display + numTitles + shift, numTitles, q, r);
  }

  /** LCD_RIGHT then LCD_LEFT comes back to the title shown before. */
  lemma RightThenLeft(display: int, numTitles: int)
    requires 0 < numTitles < U8 && 0 <= display < numTitles
    ensures ShiftedIndex(ShiftedIndex(display, numTitles, MenuRight), numTitles, MenuLeft) == display
  {
    var n := numTitles;
    if display == n - 1 {
      ShiftedIndexIs(display, n, MenuRight, 2, 0);
      ShiftedIndexIs(0, n, MenuLeft, 0, n - 1);
    } else {
      ShiftedIndexIs(display, n, MenuRight, 1, display + 1);
      ShiftedIndexIs(display + 1, n, MenuLeft, 1, display);
    }
  }

  /** LCD_LEFT then LCD_RIGHT comes back to the title shown before. */
  lemma LeftThenRight(display: int, numTitles: int)
    requires 0 < numTitles < U8 && 0 <= display < numTitles
    ensures ShiftedIndex(ShiftedIndex(display, numTitles, MenuLeft), numTitles, MenuRight) == display
  {
    var n := numTitles;
    if display == 0 {
      ShiftedIndexIs(display, n, MenuLeft, 0, n - 1);
      ShiftedIndexIs(n - 1, n, MenuRight, 2, 0);
    } else {
      ShiftedIndexIs(display, n, MenuLeft, 1, display - 1);
      ShiftedIndexIs(display - 1, n, MenuRight, 1, display);
    }
  }

  /** A shift by the number of titles (which a `signed char` can carry up to 127) goes all the way round. */
  lemma FullTurn(display: int, numTitles: int)
    requires 0 < numTitles <= 127 && 0 <= display < numTitles
    ensures ShiftedIndex(display, numTitles, numTitles) == display
  {
    ShiftedIndexIs(display, numTitles, numTitles, 2, display);
  }

  /**
   * A shift below the documented range, one that makes the sum negative,
   * leaves the menu: the negative remainder wraps to near 255, as
   * `ShiftedIndex(0, 3, -5) == 254` shows.
   */
  lemma ShiftBelowRangeLeavesMenu(display: int, numTitles: int, shift: int)
    requires 0 < numTitles <= 128
    requires display + numTitles + shift < 0
    requires (-(display + numTitles + shift)) % numTitles != 0
    ensures numTitles <= U8 - numTitles < ShiftedIndex(display, numTitles, shift)
    ensures ShiftedIndex(0, 3, -5) == 254
  {
  }

  /** LCDMenu: the number of titles and the indices of the shown and chosen titles. */
  class Menu {
    var numTitles: int
    var display: int
    var execute: int

    /** Every field fits an `unsigned char`. */
    predicate Valid()
      reads this
    {
      0 <= numTitles < U8 && 0 <= display < U8 && 0 <= execute < U8
    }

    /** lcdmenuCreate: the count is stored into an `unsigned char`; both indices start at the first title. */
    constructor Create(count: int)
      ensures Valid()
      ensures numTitles == count % U8 && display == 0 && execute == 0
    {
      numTitles := count % U8;
      display := 0;
      execute := 0;
    }

    /** lcdmenuShift: moves the shown index; the count and the chosen index stay as they were. */
    method Shift(shift: int)
      requires Valid() && numTitles > 0
      requires -128 <= shift <= 127
      modifies this
      ensures Valid()
      ensures numTitles == old(numTitles) && execute == old(execute)
      ensures display == ShiftedIndex(old(display), numTitles, shift)
    {
      display := Rem(display + (numTitles + shift), numTitles) % U8;
    }

    /** lcdmenuDecide: the shown title becomes the chosen one; nothing else changes. */
    method Decide()
      requires Valid()
      modifies this
      ensures Valid()
      ensures execute == old(display)
      ensures numTitles == old(numTitles) && display == old(display)
    {
      execute := display;
    }
  }
}
