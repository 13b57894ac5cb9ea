/**
 * Text layout on the robot's 16-column, 2-line LCD: a string of up to 16
 * characters is justified within a row; a longer one scrolls through
 * 16-character frames, the display time of each frame being taken out of
 * the requested minimum duration.
 *
 * What is printed is returned as the list of frames; the LCD, its lock and
 * the waiting are outside the model (the lock's outcome is an input).
 */
module LcdFunctions {
  import opened Numeric

  /** The number of columns of a row. */
  const Columns: int := 16

  /** How long the first scroll frame stays up, in milliseconds. */
  const FirstFrameMillis: nat := 450

  /** How long each later scroll frame is charged, in milliseconds. */
  const FrameMillis: nat := 175

  /** textJustifications, in the order of its enumeration. */
  datatype Justification = Left | Right | Centered

  /**
   * strlen: the number of characters before the first NUL of a
   * NUL-terminated buffer.
   */
  method Strlen(str: array<char>) returns (n: nat)
    requires exists k :: 0 <= k < str.Length && str[k] == '\0'
    ensures n < str.Length && str[n] == '\0'
    ensures forall k :: 0 <= k < n ==> str[k] != '\0'
  {
    n := 0;
    while str[n] != '\0'
      invariant n < str.Length
      invariant forall k :: 0 <= k < n ==> str[k] != '\0'
      invariant exists k :: n <= k < str.Length && str[k] == '\0'
      decreases str.Length - n
    {
      n := n + 1;
    }
  }

  /** subtract: `a - b` on an `unsigned long`, stopping at 0 rather than wrapping. */
  function Subtract(a: nat, b: nat): (r: nat)
    ensures r <= a
    ensures r == Max(a - b, 0)
  {
    if a > b then a - b else 0
  }

  /** The duration left after charging `frames` later scroll frames of 175 milliseconds each. */
  function Drain(duration: nat, frames: nat): nat
    decreases frames
  {
    if frames == 0 then duration else Drain(Subtract(duration, FrameMillis), frames - 1)
  }

  /** Charging frame by frame never wraps: it is the whole charge taken at once, floored at 0. */
  lemma {:induction false} DrainIsFloored(duration: nat, frames: nat)
    ensures Drain(duration, frames) == Max(duration - FrameMillis * frames, 0)
    decreases frames
  {
    if frames > 0 {
      DrainIsFloored(Subtract(duration, FrameMillis), frames - 1);
    }
  }

  function Spaces(n: nat): (s: seq<char>)
    ensures |s| == n && forall k :: 0 <= k < n ==> s[k] == ' '
  {
    seq(n, _ => ' ')
  }

  /**
   * The column where centred text starts: `(16 - len % 16) / 2`.  For a
   * string of 16 characters that is 8, not 0.
   */
  function CenterStart(len: nat): (start: int)
    ensures len < Columns ==> start == (Columns - len) / 2
    ensures len == Columns ==> start == 8
  {
    (Columns - len % Columns) / 2
  }

  /**
   * The row printed for a string of at most 16 characters: left-justified
   * text is printed as it is; right-justified and centred text are written
   * into a row of spaces.  A centred string of exactly 16 characters starts
   * at column 8, so only its first 8 characters fit in the row.
   */
  function Layout(justification: Justification, s: seq<char>): seq<char>
    requires |s| <= Columns
  {
    match justification
    case Left => s
    case Right => Spaces(Columns - |s|) + s
    case Centered =>
      var start := CenterStart(|s|);
      if |s| < Columns then Spaces(start) + s + Spaces(Columns - start - |s|)
      else Spaces(start) + s[..Columns - start]
  }

  /**
   * Justified rows are 16 columns wide and hold the text unchanged; centred
   * text shorter than the row has padding on either side differing by at
   * most one column, the extra one going to the right.
   */
  lemma JustifiedRows(s: seq<char>)
    requires |s| < Columns
    ensures |Layout(Right, s)| == Columns && Layout(Right, s)[Columns - |s|..] == s
    ensures var start := CenterStart(|s|);
      |Layout(Centered, s)| == Columns && Layout(Centered, s)[start..start + |s|] == s
      && (Columns - start - |s|) - start in {0, 1}
  {
    var start := CenterStart(|s|);
    assert (Spaces(start) + s + Spaces(Columns - start - |s|))[start..start + |s|] == s;
  }

  /**
   * The row-filling part of lcdprint_d for a string of at most 16
   * characters: a row of 16 spaces, then the text copied in at the
   * justification's start column.  The copy of a centred 16-character
   * string runs past column 15; those writes are reported as `overrun`
   * instead of performed.
   */
  method Justify(justification: Justification, s: seq<char>) returns (row: seq<char>, overrun: bool)
    requires |s| <= Columns
    ensures row == Layout(justification, s)
    ensures overrun <==> justification == Centered && |s| == Columns
  {
    var out := new char[Columns];
    for i := 0 to Columns
      invariant forall k :: 0 <= k < i ==> out[k] == ' '
    {
      out[i] := ' ';
    }
    overrun := false;
    match justification {
      case Left =>
        row := s;
      case Centered =>
        var start := CenterStart(|s|);
        var i, j := start, 0;
        while j < |s|
          invariant 0 <= j <= |s| && i == start + j
          invariant forall k :: 0 <= k < Columns ==> out[k] == if start <= k < i then s[k - start] else ' '
          invariant overrun <==> start + j > Columns
        {
          if i < Columns {
            out[i] := s[j];
          } else {
            overrun := true;
          }
          i, j := i + 1, j + 1;
        }
        row := out[..];
        if |s| < Columns {
          assert row == Spaces(start) + s + Spaces(Columns - start - |s|);
        } else {
          assert row == Spaces(start) + s[..Columns - start];
        }
      case Right =>
        var i, j := Columns - |s|, 0;
        while i < Columns
          invariant Columns - |s| <= i <= Columns && j == i - (Columns - |s|)
          invariant forall k :: 0 <= k < Columns ==> out[k] == if Columns - |s| <= k < i then s[k - (Columns - |s|)] else ' '
        {
          out[i] := s[j];
          i, j := i + 1, j + 1;
        }
        row := out[..];
        assert row == Spaces(Columns - |s|) + s;
    }
  }

  /** Frame k of a left scroll: 16 characters of the NUL-terminated string, starting at k. */
  function LeftFrame(s: seq<char>, k: nat): seq<char>
    requires k + Columns <= |s| + 1
  {
    (s + ['\0'])[k..k + Columns]
  }

  /** Frame k of a right-to-left scroll: the 16 characters ending k before the end of the string. */
  function RightFrame(s: seq<char>, k: nat): seq<char>
    requires k + Columns <= |s|
  {
    s[|s| - Columns - k..|s| - k]
  }

  /**
   * The default (left) scroll of lcdprint_d: the first 16 characters, then
   * for each index from 16 up to the length inclusive, the row shifted left
   * by one with that character appended, so the last frame ends with the
   * string's NUL.
   */
  method ScrollLeft(s: seq<char>) returns (frames: seq<seq<char>>)
    requires |s| > Columns
    ensures |frames| == |s| - Columns + 2
    ensures forall k :: 0 <= k < |frames| ==> frames[k] == LeftFrame(s, k)
  {
    var str := s + ['\0'];
    var out := new char[Columns];
    for i := 0 to Columns
      invariant out[..i] == str[..i]
    {
      out[i] := str[i];
    }
    assert out[..] == out[..Columns] == LeftFrame(s, 0);
    frames := [out[..]];
    assert LeftFrames(s, 0) == [];
    for i := Columns to |s| + 1
      invariant frames == LeftFrames(s, i - Columns + 1)
      invariant out[..] == LeftFrame(s, i - Columns)
    {
      ShiftLeft(out, str[i]);
      LeftFrameNext(s, i - Columns);
      frames := frames + [out[..]];
    }
    LeftFramesAreFrames(s, |s| - Columns + 2);
  }

  /** The first n frames of a left scroll. */
  function LeftFrames(s: seq<char>, n: nat): (frames: seq<seq<char>>)
    requires n + Columns <= |s| + 2
    ensures |frames| == n
  {
    if n == 0 then [] else LeftFrames(s, n - 1) + [LeftFrame(s, n - 1)]
  }

  lemma {:induction false} LeftFramesAreFrames(s: seq<char>, n: nat)
    requires n + Columns <= |s| + 2
    ensures forall k :: 0 <= k < n ==> LeftFrames(s, n)[k] == LeftFrame(s, k)
  {
    if n > 0 {
      LeftFramesAreFrames(s, n - 1);
    }
  }

  /** The next left-scroll frame drops the first column and appends the next character. */
  lemma LeftFrameNext(s: seq<char>, k: nat)
    requires k + Columns + 1 <= |s| + 1
    ensures LeftFrame(s, k + 1) == LeftFrame(s, k)[1..] + [(s + ['\0'])[k + Columns]]
  {
  }

  /** The inner loop of the left scroll: every column takes its right-hand neighbour, and `c` goes into column 15. */
  method ShiftLeft(out: array<char>, c: char)
    requires out.Length == Columns
    modifies out
    ensures out[..] == old(out[..])[1..] + [c]
  {
    ghost var before := out[..];
    for j := 0 to Columns - 1
      invariant forall m :: 0 <= m < j ==> out[m] == before[m + 1]
      invariant forall m :: j <= m < Columns ==> out[m] == before[m]
    {
      out[j] := out[j + 1];
    }
    out[Columns - 1] := c;
    assert forall m :: 0 <= m < Columns ==> out[..][m] == (before[1..] + [c])[m];
  }

  /**
   * The right scroll of lcdprint_d: the last 16
   * characters, then for each index from `len - 16` down to 0 a "shift"
   * that copies each column from its right-hand neighbour going from
   * column 15 down, so every column but the last ends up holding the old
   * column 15, and the indexed character goes into column 15.
   */
  method ScrollRight(s: seq<char>) returns (frames: seq<seq<char>>)
    requires |s| > Columns
    ensures |frames| == |s| - Columns + 2
    ensures frames[0] == RightFrame(s, 0)
    ensures forall k :: 1 <= k < |frames| ==>
      frames[k] == SmearFrame(if k == 1 then s[|s| - 1] else s[|s| - Columns - k + 2], s[|s| - Columns - k + 1])
  {
    var out := new char[Columns];
    var first := |s| - Columns;
    for i := 0 to Columns
      invariant out[..i] == s[first..first + i]
    {
      out[i] := s[first + i];
    }
    frames := [out[..]];
    var i := first;
    while i >= 0
      invariant -1 <= i <= first
      invariant |frames| == first - i + 1
      invariant frames[0] == RightFrame(s, 0)
      invariant forall k :: 1 <= k < |frames| ==>
        frames[k] == SmearFrame(if k == 1 then s[|s| - 1] else s[first - k + 2], s[first - k + 1])
      invariant out[..] == frames[|frames| - 1]
      invariant out[Columns - 1] == s[if i == first then |s| - 1 else i + 1]
    {
      ShiftRight(out, s[i]);
      frames := frames + [out[..]];
      i := i - 1;
    }
  }

  /**
   * The inner loop of the right scroll: from column 15 down to column 1,
   * each column's left-hand neighbour is given its value, so every column
   * ends up holding the old column 15; then `c` goes into column 15.
   */
  method ShiftRight(out: array<char>, c: char)
    requires out.Length == Columns
    modifies out
    ensures out[..] == SmearFrame(old(out[Columns - 1]), c)
  {
    var last := out[Columns - 1];
    var j := Columns - 1;
    while j > 0
      invariant 0 <= j <= Columns - 1
      invariant forall m :: j <= m < Columns ==> out[m] == last
    {
      out[j - 1] := out[j];
      j := j - 1;
    }
    out[Columns - 1] := c;
    assert forall m :: 0 <= m < Columns ==> out[..][m] == SmearFrame(last, c)[m];
  }

  /** A frame of the right scroll as written: fifteen copies of one character, then the new one. */
  function SmearFrame(fill: char, next: char): (f: seq<char>)
    ensures |f| == Columns
  {
    seq(Columns - 1, _ => fill) + [next]
  }

  /**
   * The right scroll shows the string only in its first frame: every
   * later frame is fifteen copies of one character followed by another,
   * so on "ABCDEFGHIJKLMNOPQ" the second frame is fifteen Qs and a B.
   */
  lemma ScrollRightSmears()
    ensures var s := "ABCDEFGHIJKLMNOPQ";
      RightFrame(s, 0) == "BCDEFGHIJKLMNOPQ" && SmearFrame(s[|s| - 1], s[|s| - Columns]) == "QQQQQQQQQQQQQQQB"
  {
  }

  /**
   * lcdprint_d: a line other than 1 or 2, or a line whose lock is not
   * obtained, prints nothing and reports false.  Otherwise a string of at
   * most 16 characters prints one justified row and waits the whole
   * duration; a longer one scrolls (right-justified text right to left,
   * anything else left to right), the first frame charging 450 ms and each
   * later one 175 ms against the duration, and the rest is waited.  The
   * string is a C string: its characters are those before the NUL.
   */
  method Print(justification: Justification, line: int, duration: nat, s: seq<char>, lockTaken: bool)
    returns (ok: bool, frames: seq<seq<char>>, wait: nat)
    requires '\0' !in s
    ensures ok <==> (line == 1 || line == 2) && lockTaken
    ensures !ok ==> frames == [] && wait == duration
    ensures ok && |s| <= Columns ==> frames == [Layout(justification, s)] && wait == duration
    ensures ok && |s| > Columns && justification == Right ==>
      |frames| == |s| - Columns + 2 && frames[0] == RightFrame(s, 0)
      && forall k :: 1 <= k < |frames| ==>
        frames[k] == SmearFrame(if k == 1 then s[|s| - 1] else s[|s| - Columns - k + 2], s[|s| - Columns - k + 1])
    ensures ok && |s| > Columns && justification != Right ==>
      |frames| == |s| - Columns + 2 && forall k :: 0 <= k < |frames| ==> frames[k] == LeftFrame(s, k)
    ensures ok && |s| > Columns ==> wait == Drain(Subtract(duration, FirstFrameMillis), |s| - Columns + 1)
  {
    if (line == 1 && !lockTaken) || (line == 2 && !lockTaken) || (line != 1 && line != 2) {
      return false, [], duration;
    }
    ok, wait := true, duration;
    if |s| > Columns {
      match justification {
        case Right =>
          frames := ScrollRight(s);
        case _ =>
          frames := ScrollLeft(s);
      }
      wait := Subtract(wait, FirstFrameMillis);
      for k := 0 to |s| - Columns + 1
        invariant Drain(wait, |s| - Columns + 1 - k) == Drain(Subtract(duration, FirstFrameMillis), |s| - Columns + 1)
      {
        wait := Subtract(wait, FrameMillis);
      }
    } else {
      var row, _ := Justify(justification, s);
      frames := [row];
    }
  }
}
