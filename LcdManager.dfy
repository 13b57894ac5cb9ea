/**
 * The LCD manager: two tables of eight "cycle texts", one per LCD line,
 * and a background task that every 1750 ms moves on to the next entry of
 * each table and prints the entry's text centred on its line.
 *
 * A text is identified by its `GetText` function pointer, modelled as an
 * optional number (NULL is `None`); what the function returns is not part
 * of the model.  The lock guarding the tables is an input to add and
 * replace (whether it was obtained); the task ignores the lock's outcome,
 * as the source does.  One iteration of the task's endless loop is
 * modelled, with the clock reading as an input.
 */
module LcdManager {
  import opened Numeric
  import opened LcdFunctions

  /** NUM_CYCLE_TEXT_DISPLAYS: the number of slots per line. */
  const Slots: int := 8

  /** How long each entry stays up, in milliseconds. */
  const CycleMillis: int := 1750

  datatype Option<T> = None | Some(value: T)

  /** DisplayText: the text's function pointer and a justification (which the task never uses). */
  datatype DisplayText = DisplayText(getText: Option<nat>, justification: Justification)

  /** A slot of static storage before anything is written: NULL pointer, first justification. */
  const EmptySlot: DisplayText := DisplayText(None, Left)

  /**
   * The index where the free-slot scan of addCycleText stops: the first
   * slot whose pointer is NULL, or the length when every slot is taken.
   */
  function FirstFree(slots: seq<DisplayText>): (r: nat)
    ensures r <= |slots|
    ensures forall k :: 0 <= k < r ==> slots[k].getText.Some?
    ensures r < |slots| ==> slots[r].getText.None?
  {
    if |slots| == 0 || slots[0].getText.None? then 0 else 1 + FirstFree(slots[1..])
  }

  /** Any index with the two properties of the scan's stopping point is FirstFree. */
  lemma FirstFreeUnique(slots: seq<DisplayText>, r: nat)
    requires r <= |slots|
    requires forall k :: 0 <= k < r ==> slots[k].getText.Some?
    requires r < |slots| ==> slots[r].getText.None?
    ensures FirstFree(slots) == r
  {
  }

  /** The slot addCycleText writes: the first free one, capped at the last slot. */
  function AddIndex(slots: seq<DisplayText>): (r: int)
    requires |slots| == Slots
    ensures 0 <= r < Slots
    ensures r < FirstFree(slots) ==> r == Slots - 1
  {
    if FirstFree(slots) > Slots - 1 then Slots - 1 else FirstFree(slots)
  }

  /** A line's table after addCycleText. */
  function Added(slots: seq<DisplayText>, text: DisplayText): seq<DisplayText>
    requires |slots| == Slots
  {
    slots[AddIndex(slots) := text]
  }

  /** Every taken slot comes before every free one. */
  predicate Packed(slots: seq<DisplayText>)
  {
    forall a, b :: 0 <= a < b < |slots| && slots[a].getText.None? ==> slots[b].getText.None?
  }

  /**
   * Adding texts to a table that only addCycleText has filled keeps it
   * packed: a text goes into the first free slot, and the number of taken
   * slots grows by one.
   */
  lemma AddKeepsPacked(slots: seq<DisplayText>, text: DisplayText)
    requires |slots| == Slots && Packed(slots) && FirstFree(slots) < Slots
    requires text.getText.Some?
    ensures Packed(Added(slots, text))
    ensures FirstFree(Added(slots, text)) == FirstFree(slots) + 1
    ensures Added(slots, text)[..FirstFree(slots)] == slots[..FirstFree(slots)]
  {
    var f := FirstFree(slots);
    var after := Added(slots, text);
    assert forall k :: f < k < Slots ==> after[k] == slots[k] && slots[k].getText.None?;
    FirstFreeUnique(after, f + 1);
  }

  /** With every slot taken, addCycleText overwrites the last slot and keeps the other seven. */
  lemma AddToFullReplacesLast(slots: seq<DisplayText>, text: DisplayText)
    requires |slots| == Slots && FirstFree(slots) == Slots
    ensures Added(slots, text) == slots[..Slots - 1] + [text]
  {
  }

  /** What one line of the task prints in one iteration. */
  datatype Shown =
    | Blank             // the slot is empty: nothing is printed and the index moves on
    | Shows(text: nat)  // the text of this function pointer is printed centred
    | CallsNull         // the pointer to be called is NULL

  /** The state the task keeps between iterations and what it printed. */
  datatype Rotation = Rotation(i: int, j: int, lastCycle: int, line1: Shown, line2: Shown)

  /** An index the task wraps to 0 once it reaches the number of slots. */
  function Wrap(x: int): (r: int)
    ensures x < Slots ==> r == x
    ensures x >= Slots ==> r == 0
  {
    if x >= Slots then 0 else x
  }

  /** Line 1 of an iteration: the text of slot `k`, or nothing and the index moved on. */
  function LineOne(slots: seq<DisplayText>, k: int): (Shown, int)
    requires |slots| == Slots && 0 <= k < Slots
  {
    match slots[k].getText
    case Some(t) => (Shows(t), k)
    case None => (Blank, k + 1)
  }

  /** Line 2 of an iteration: slot `k` is tested, but slot 2 is the one printed. */
  function LineTwo(slots: seq<DisplayText>, k: int): (Shown, int)
    requires |slots| == Slots && 0 <= k < Slots
  {
    match slots[k].getText
    case Some(_) => (if slots[2].getText.Some? then Shows(slots[2].getText.value) else CallsNull, k)
    case None => (Blank, k + 1)
  }

  /**
   * One iteration of lcdManagerTask: when 1750 ms have passed (on the
   * 32-bit clock) the time is noted and both indices advance; each index is
   * wrapped before it is used; line 1 prints its slot's text or, for an
   * empty slot, moves on; line 2 tests slot `j` but prints slot 2.
   */
  function Rotate(line1: seq<DisplayText>, line2: seq<DisplayText>, i: int, j: int, lastCycle: int, now: int): (r: Rotation)
    requires |line1| == Slots && |line2| == Slots && 0 <= i && 0 <= j
    ensures 0 <= r.i <= Slots && 0 <= r.j <= Slots
  {
    var due := Elapsed32(now, lastCycle) >= CycleMillis;
    var last := if due then now else lastCycle;
    var i1 := Wrap(if due then i + 1 else i);
    var j1 := Wrap(if due then j + 1 else j);
    var (line1Shown, i2) := LineOne(line1, i1);
    var (line2Shown, j2) := LineTwo(line2, j1);
    Rotation(i2, j2, last, line1Shown, line2Shown)
  }

  /**
   * Line 2 never shows anything but slot 2: whenever its tested slot is
   * taken, slot 2's text is printed (or a NULL pointer is called).
   */
  lemma LineTwoShowsSlotTwo(line1: seq<DisplayText>, line2: seq<DisplayText>, i: int, j: int, lastCycle: int, now: int)
    requires |line1| == Slots && |line2| == Slots && 0 <= i && 0 <= j
    ensures var r := Rotate(line1, line2, i, j, lastCycle, now);
      r.line2 != Blank ==> r.line2 == (if line2[2].getText.Some? then Shows(line2[2].getText.value) else CallsNull)
    ensures var r := Rotate(line1, line2, i, j, lastCycle, now);
      r.line2 == CallsNull <==> line2[2].getText.None? && r.line2 != Blank
  {
  }

  /**
   * With all eight line-1 slots taken the task walks round them: each
   * 1750 ms it moves on to the next slot (after slot 7, slot 0), and in
   * between it keeps printing the same one.
   */
  lemma FullLineCycles(line1: seq<DisplayText>, line2: seq<DisplayText>, i: int, j: int, lastCycle: int, now: int)
    requires |line1| == Slots && |line2| == Slots && 0 <= i < Slots && 0 <= j
    requires forall k :: 0 <= k < Slots ==> line1[k].getText.Some?
    ensures var r := Rotate(line1, line2, i, j, lastCycle, now);
      var next := if Elapsed32(now, lastCycle) >= CycleMillis then (i + 1) % Slots else i;
      r.i == next && r.line1 == Shows(line1[next].getText.value)
  {
  }

  /**
   * An empty line-1 slot prints nothing and moves the index on, so empty
   * slots are skipped one per iteration rather than held for 1750 ms.
   */
  lemma EmptySlotSkipped(line1: seq<DisplayText>, line2: seq<DisplayText>, i: int, j: int, lastCycle: int, now: int)
    requires |line1| == Slots && |line2| == Slots && 0 <= i < Slots && 0 <= j
    requires Elapsed32(now, lastCycle) < CycleMillis && line1[i].getText.None?
    ensures var r := Rotate(line1, line2, i, j, lastCycle, now);
      r.line1 == Blank && r.i == i + 1 && r.lastCycle == lastCycle
  {
  }

  /** The two cycle-text tables and the task's counters. */
  class CycleTexts {
    var line1: array<DisplayText>
    var line2: array<DisplayText>
    var i: int
    var j: int
    var lastCycle: int

    predicate Valid()
      reads this
    {
      line1.Length == Slots && line2.Length == Slots && line1 != line2
      && 0 <= i <= Slots && 0 <= j <= Slots && 0 <= lastCycle < U32
    }

    /** Static storage: every slot empty, both indices and the last cycle time 0. */
    constructor ()
      ensures Valid() && fresh(line1) && fresh(line2)
      ensures line1[..] == seq(Slots, _ => EmptySlot) && line2[..] == seq(Slots, _ => EmptySlot)
      ensures i == 0 && j == 0 && lastCycle == 0
    {
      line1 := new DisplayText[Slots](_ => EmptySlot);
      line2 := new DisplayText[Slots](_ => EmptySlot);
      i, j, lastCycle := 0, 0, 0;
    }

    /**
     * addCycleText: a line outside 0 to 2, a lock not obtained or line 0
     * (which reaches the switch's empty default) changes nothing; line 1 or
     * 2 gets `text` in its first free slot, capped at slot 7.  The scan is
     * not bounded by the table: with every slot taken it reads slot 8,
     * past the end, which is reported as `overread` instead of performed.
     */
    method AddCycleText(text: DisplayText, line: int, lockTaken: bool) returns (overread: bool)
      requires Valid()
      modifies line1, line2
      ensures line == 1 && lockTaken ==> line1[..] == Added(old(line1[..]), text) && overread == (FirstFree(old(line1[..])) == Slots)
      ensures line == 2 && lockTaken ==> line2[..] == Added(old(line2[..]), text) && overread == (FirstFree(old(line2[..])) == Slots)
      ensures line != 1 ==> line1[..] == old(line1[..])
      ensures line != 2 ==> line2[..] == old(line2[..])
      ensures !lockTaken ==> line1[..] == old(line1[..]) && line2[..] == old(line2[..]) && !overread
      ensures line != 1 && line != 2 ==> !overread
    {
      overread := false;
      if line < 0 || line > 2 {
        return;
      }
      if !lockTaken {
        return;
      }
      if line == 1 {
        overread := AddToLine(line1, text);
      } else if line == 2 {
        overread := AddToLine(line2, text);
      }
    }

    /** The scan and write addCycleText performs on one line's table. */
    static method AddToLine(slots: array<DisplayText>, text: DisplayText) returns (overread: bool)
      requires slots.Length == Slots
      modifies slots
      ensures slots[..] == Added(old(slots[..]), text)
      ensures overread <==> FirstFree(old(slots[..])) == Slots
    {
      var k := 0;
      while k < Slots && slots[k].getText.Some?
        invariant 0 <= k <= Slots
        invariant forall m :: 0 <= m < k ==> slots[m].getText.Some?
      {
        k := k + 1;
      }
      FirstFreeUnique(slots[..], k);
      overread := k == Slots;
      if k > Slots - 1 {
        k := Slots - 1;
      }
      slots[k] := text;
    }

    /**
     * replaceCycleText: a position outside 0 to 7, a line outside 0 to 2,
     * a lock not obtained or line 0 changes nothing; otherwise exactly slot
     * `pos` of the chosen line becomes `text`.
     */
    method ReplaceCycleText(text: DisplayText, line: int, pos: int, lockTaken: bool)
      requires Valid()
      modifies line1, line2
      ensures lockTaken && line == 1 && 0 <= pos < Slots ==> line1[..] == old(line1[..])[pos := text]
      ensures lockTaken && line == 2 && 0 <= pos < Slots ==> line2[..] == old(line2[..])[pos := text]
      ensures !(lockTaken && line == 1 && 0 <= pos < Slots) ==> line1[..] == old(line1[..])
      ensures !(lockTaken && line == 2 && 0 <= pos < Slots) ==> line2[..] == old(line2[..])
    {
      if pos < 0 || pos >= Slots {
        return;
      }
      if line < 0 || line > 2 {
        return;
      }
      if !lockTaken {
        return;
      }
      if line == 1 {
        line1[pos] := text;
      } else if line == 2 {
        line2[pos] := text;
      }
    }

    /**
     * One iteration of lcdManagerTask at clock reading `now`: the counters
     * and what each line printed are those of Rotate; the tables are only
     * read.
     */
    method RotationStep(now: int) returns (shown1: Shown, shown2: Shown)
      requires Valid() && 0 <= now < U32
      modifies this
      ensures Valid() && line1 == old(line1) && line2 == old(line2)
      ensures Rotation(i, j, lastCycle, shown1, shown2)
        == Rotate(line1[..], line2[..], old(i), old(j), old(lastCycle), now)
    {
      Tick(now);
      shown1, shown2 := ShowLines();
    }

    /** The timer part of an iteration: every 1750 ms note the time and advance both indices; then wrap them. */
    method Tick(now: int)
      requires Valid() && 0 <= now < U32
      modifies this
      ensures Valid() && line1 == old(line1) && line2 == old(line2)
      ensures var due := Elapsed32(now, old(lastCycle)) >= CycleMillis;
        && lastCycle == (if due then now else old(lastCycle))
        && i == Wrap(if due then old(i) + 1 else old(i))
        && j == Wrap(if due then old(j) + 1 else old(j))
    {
      if Elapsed32(now, lastCycle) >= CycleMillis {
        lastCycle := now;
        i := i + 1;
        j := j + 1;
      }
      if i >= Slots {
        i := 0;
      }
      if j >= Slots {
        j := 0;
      }
    }

    /** The printing part of an iteration, with both indices already wrapped. */
    method ShowLines() returns (shown1: Shown, shown2: Shown)
      requires Valid() && i < Slots && j < Slots
      modifies this
      ensures Valid() && line1 == old(line1) && line2 == old(line2) && lastCycle == old(lastCycle)
      ensures (shown1, i) == LineOne(line1[..], old(i))
      ensures (shown2, j) == LineTwo(line2[..], old(j))
    {
      if line1[i].getText.Some? {
        shown1 := Shows(line1[i].getText.value);
      } else {
        shown1 := Blank;
        i := i + 1;
      }
      if line2[j].getText.Some? {
        shown2 := if line2[2].getText.Some? then Shows(line2[2].getText.value) else CallsNull;
      } else {
        shown2 := Blank;
        j := j + 1;
      }
    }
  }
}
