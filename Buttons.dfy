/**
 * Press-once buttons of the "vulcan" robot: 27 buttons (twelve on each of
 * two joysticks, three on the LCD) each keep a "was pressed" flag, so that
 * asking whether a button is a new press turns a held level into a single
 * event on its rising edge.
 *
 * What the joysticks and the LCD report is an input: the set of joystick
 * buttons held down and the set of LCD buttons held down.
 */
module Buttons {

  /** The number of buttons the flags array covers. */
  const ButtonCount: int := 27

  /** The first LCD button index; indices below it are joystick buttons. */
  const LcdLeftIndex: int := 24

  /** A button's position within its group on a joystick. */
  datatype Location = Down | Up | LeftKey | RightKey

  /** A joystick button: which joystick (1 or 2), which group (5 to 8), which position. */
  datatype JoyButton = JoyButton(joystick: int, group: int, location: Location)

  /** The three LCD buttons. */
  datatype LcdButton = LcdLeft | LcdCenter | LcdRight

  /** Where a button's level is read from. */
  datatype Source = Joystick(key: JoyButton) | Lcd(lcd: LcdButton)

  /** The group and position of the twelve buttons of one joystick, in the order of the buttons enumeration. */
  function GroupLocation(index: int): (g: (int, Location))
    requires 0 <= index < 12
    ensures 5 <= g.0 <= 8
    ensures index < 4 ==> g.0 == 5 + index / 2 && g.1 == (if index % 2 == 0 then Down else Up)
  {
    match index
    case 0 => (5, Down)
    case 1 => (5, Up)
    case 2 => (6, Down)
    case 3 => (6, Up)
    case 4 => (7, Up)
    case 5 => (7, LeftKey)
    case 6 => (7, RightKey)
    case 7 => (7, Down)
    case 8 => (8, Up)
    case 9 => (8, LeftKey)
    case 10 => (8, RightKey)
    case _ => (8, Down)
  }

  /**
   * Where buttonIsNewPress reads a button: indices 0 to 11 are joystick 1,
   * 12 to 23 the same buttons on joystick 2, and 24 to 26 the LCD buttons.
   */
  function ButtonSource(button: int): (s: Source)
    requires 0 <= button < ButtonCount
    ensures button < 12 ==> s.Joystick? && s.key.joystick == 1
    ensures 12 <= button < LcdLeftIndex ==> s.Joystick? && s.key.joystick == 2
    ensures button < LcdLeftIndex ==> s.key.group == GroupLocation(button % 12).0 && s.key.location == GroupLocation(button % 12).1
    ensures button >= LcdLeftIndex <==> s.Lcd?
    ensures button == 24 ==> s == Lcd(LcdLeft)
    ensures button == 25 ==> s == Lcd(LcdCenter)
    ensures button == 26 ==> s == Lcd(LcdRight)
  {
    if button < LcdLeftIndex then
      var joystick := if button <= 11 then 1 else 2;
      var index := if button <= 11 then button else button - 12;
      var (group, location) := GroupLocation(index);
      Joystick(JoyButton(joystick, group, location))
    else if button == LcdLeftIndex then Lcd(LcdLeft)
    else if button == LcdLeftIndex + 1 then Lcd(LcdCenter)
    else Lcd(LcdRight)
  }

  /**
   * The level of a button: a joystick button is down when it is among those
   * held; an LCD button only when it is the one LCD button held (the reading
   * is compared with that button's code as a whole).
   */
  predicate IsDown(button: int, held: set<JoyButton>, lcd: set<LcdButton>)
    requires 0 <= button < ButtonCount
  {
    match ButtonSource(button)
    case Joystick(key) => key in held
    case Lcd(b) => lcd == {b}
  }

  /** Two joystick buttons at different indices are different buttons, so one is read for each index. */
  lemma {:induction false} JoystickSourcesDistinct(a: int, b: int)
    requires 0 <= a < LcdLeftIndex && 0 <= b < LcdLeftIndex && a != b
    ensures ButtonSource(a) != ButtonSource(b)
  {
    var ia, ib := a % 12, b % 12;
    if ia == ib {
      assert (a < 12) != (b < 12);
    } else {
      assert GroupLocation(ia) != GroupLocation(ib) by {
        assert ia in {0, 1, 2, 3, 4, 5, 6, 7, 8, 9, 10, 11};
        assert ib in {0, 1, 2, 3, 4, 5, 6, 7, 8, 9, 10, 11};
      }
    }
  }

  /** The result and new flag of one check, from the flag before and the level now. */
  datatype Check = Check(isNew: bool, wasPressed: bool)

  /**
   * One check of buttonIsNewPress: a button that is up clears its flag; a
   * button that is down and was not flagged sets it and is a new press.
   */
  function CheckStep(wasPressed: bool, down: bool): (c: Check)
    ensures c.isNew ==> down
    ensures c.wasPressed == down
  {
    var flag := if !down then false else wasPressed;
    if down && !flag then Check(true, true) else Check(false, flag)
  }

  /** The results of checking a button once per level in `levels`, starting from flag `wasPressed`. */
  function Checks(wasPressed: bool, levels: seq<bool>): (r: seq<bool>)
    ensures |r| == |levels|
    decreases |levels|
  {
    if |levels| == 0 then []
    else
      var c := CheckStep(wasPressed, levels[0]);
      [c.isNew] + Checks(c.wasPressed, levels[1..])
  }

  /**
   * Checking once per cycle reports exactly the rising edges of the level:
   * a check is a new press when the button is down and was up at the
   * previous check (or, for the first check, was not flagged).
   */
  lemma {:induction false} ChecksAreRisingEdges(wasPressed: bool, levels: seq<bool>, i: int)
    requires 0 <= i < |levels|
    ensures Checks(wasPressed, levels)[i] <==> levels[i] && (if i == 0 then !wasPressed else !levels[i - 1])
    decreases i
  {
    if i > 0 {
      var c := CheckStep(wasPressed, levels[0]);
      ChecksAreRisingEdges(c.wasPressed, levels[1..], i - 1);
    }
  }

  /** A button held across two checks is a new press on the first and not on the second. */
  lemma HeldButtonFiresOnce(wasPressed: bool)
    ensures Checks(wasPressed, [true, true]) == [!wasPressed, false]
  {
    ChecksAreRisingEdges(wasPressed, [true, true], 0);
    ChecksAreRisingEdges(wasPressed, [true, true], 1);
  }

  /** The "was pressed" flags of the 27 buttons. */
  class ButtonFlags {
    var buttonPressed: array<bool>

    predicate Valid()
      reads this
    {
      buttonPressed.Length == ButtonCount
    }

    /** The flags live in static storage, so they start out all false. */
    constructor ()
      ensures Valid() && fresh(buttonPressed)
      ensures forall k :: 0 <= k < ButtonCount ==> !buttonPressed[k]
    {
      buttonPressed := new bool[ButtonCount](_ => false);
    }

    /**
     * initButtons: clears every flag.  Its loop runs to index 27 inclusive,
     * one past the end of the 27-entry array; that last write is reported
     * as `overrun` rather than performed.
     */
    method InitButtons() returns (overrun: bool)
      requires Valid()
      modifies buttonPressed
      ensures forall k :: 0 <= k < ButtonCount ==> !buttonPressed[k]
      ensures overrun
    {
      overrun := false;
      var i := 0;
      while i <= 27
        invariant 0 <= i <= 28
        invariant overrun <==> i == 28
        invariant forall k :: 0 <= k < i && k < ButtonCount ==> !buttonPressed[k]
      {
        if i < buttonPressed.Length {
          buttonPressed[i] := false;
        } else {
          overrun := true;
        }
        i := i + 1;
      }
    }

    /**
     * buttonIsNewPress: reads the button's level from its source, then
     * updates its flag by one check; only that button's flag changes.
     */
    method IsNewPress(button: int, held: set<JoyButton>, lcd: set<LcdButton>) returns (isNew: bool)
      requires Valid() && 0 <= button < ButtonCount
      modifies buttonPressed
      ensures Check(isNew, buttonPressed[button]) == CheckStep(old(buttonPressed[button]), IsDown(button, held, lcd))
      ensures forall k :: 0 <= k < ButtonCount && k != button ==> buttonPressed[k] == old(buttonPressed[k])
    {
      var currentButton := false;
      var source := ButtonSource(button);
      match source {
        case Joystick(key) =>
          currentButton := key in held;
        case Lcd(b) =>
          currentButton := lcd == {b};
      }

      if !currentButton {
        buttonPressed[button] := false;
      }

      if currentButton && !buttonPressed[button] {
        buttonPressed[button] := true;
        return true;
      } else {
        return false;
      }
    }
  }
}
