/** A terminal screen as far as a replay needs one: lines, scrolling and the home position. */
module Screen {
  import opened Bytes

  const LINE_BREAK: seq<byte> := [13, 10]
  const CURSOR_HOME: seq<byte> := [27, 91, 72]

  /** The lines scrolled off, the lines in view, and the row of the cursor. */
  datatype Screen = Screen(above: seq<seq<byte>>, view: seq<seq<byte>>, row: nat) {
    predicate Valid() {
      row < |view|
    }
  }

  function Blanks(rows: nat): seq<seq<byte>> {
    seq(rows, _ => [])
  }

  function Blank(rows: nat): Screen {
    Screen([], Blanks(rows), 0)
  }

  /** CR LF: the next row, scrolling at the bottom. */
  function Break(s: Screen): (r: Screen)
    requires s.Valid()
    ensures r.Valid() && |r.view| == |s.view|
  {
    if s.row + 1 < |s.view| then s.(row := s.row + 1)
    else Screen(s.above + [s.view[0]], s.view[1..] + [[]], s.row)
  }

  function Put(s: Screen, text: seq<byte>): (r: Screen)
    requires s.Valid()
    ensures r.Valid() && |r.view| == |s.view|
  {
    s.(view := s.view[s.row := s.view[s.row] + text])
  }

  /** What a byte stream draws; anything but line breaks and the home position goes to the cursor's row. */
  function Draw(s: Screen, bytes: seq<byte>): Screen
    requires s.Valid()
    decreases |bytes|
  {
    if bytes == [] then s
    else if LINE_BREAK <= bytes then Draw(Break(s), bytes[2..])
    else if CURSOR_HOME <= bytes then Draw(s.(row := 0), bytes[3..])
    else Draw(Put(s, bytes[..1]), bytes[1..])
  }

  /** Text without line breaks or home positions in it. */
  predicate Plain(text: seq<byte>) {
    forall i :: 0 <= i < |text| ==> !(LINE_BREAK <= text[i..]) && !(CURSOR_HOME <= text[i..])
  }

  lemma PutTwice(s: Screen, a: seq<byte>, b: seq<byte>)
    requires s.Valid()
    ensures Put(Put(s, a), b) == Put(s, a + b)
  {
    ConcatAssociates(s.view[s.row], a, b);
  }

  lemma PutNothing(s: Screen)
    requires s.Valid()
    ensures Put(s, []) == s
  {
    assert s.view[s.row] + [] == s.view[s.row];
    assert Put(s, []).view == s.view;
  }

  /** Plain text and a line break fill the cursor's row and go to the next. */
  lemma {:induction false} DrawLine(s: Screen, text: seq<byte>, rest: seq<byte>)
    requires s.Valid() && Plain(text)
    ensures Draw(s, text + LINE_BREAK + rest) == Draw(Break(Put(s, text)), rest)
    decreases |text|
  {
    var bytes := text + LINE_BREAK + rest;
    if text == [] {
      PutNothing(s);
      assert bytes == LINE_BREAK + rest && bytes[2..] == rest;
    } else {
      StartsPlain(text, rest);
      assert bytes[..1] == text[..1] && bytes[1..] == text[1..] + LINE_BREAK + rest;
      assert forall i :: 0 <= i < |text| - 1 ==> text[1..][i..] == text[i + 1..];
      DrawLine(Put(s, text[..1]), text[1..], rest);
      PutTwice(s, text[..1], text[1..]);
      assert text[..1] + text[1..] == text;
    }
  }

  lemma StartsPlain(text: seq<byte>, rest: seq<byte>)
    requires text != [] && Plain(text)
    ensures !(LINE_BREAK <= text + LINE_BREAK + rest) && !(CURSOR_HOME <= text + LINE_BREAK + rest)
  {
    var bytes := text + LINE_BREAK + rest;
    assert text[0..] == text && bytes[|text|] == 13;
    assert forall i :: 0 <= i < |text| ==> bytes[i] == text[i];
  }

  /** Lines, each ended by a line break. */
  function Lines(lines: seq<seq<byte>>): seq<byte> {
    if lines == [] then [] else lines[0] + LINE_BREAK + Lines(lines[1..])
  }

  function Above(n: nat, rows: nat): nat
    requires rows > 0
  {
    if n < rows then 0 else n - (rows - 1)
  }

  /** The screen on which these lines were written one after the other, from the top, with the cursor below them. */
  function Shown(lines: seq<seq<byte>>, rows: nat): (s: Screen)
    requires rows > 0
    ensures s.Valid() && |s.view| == rows
  {
    var top := Above(|lines|, rows);
    var view := seq(rows, i requires 0 <= i => if top + i < |lines| then lines[top + i] else []);
    Screen(lines[..top], view, |lines| - top)
  }

  lemma ShowNext(lines: seq<seq<byte>>, text: seq<byte>, rows: nat)
    requires rows > 0
    ensures Break(Put(Shown(lines, rows), text)) == Shown(lines + [text], rows)
  {
    var s, t := Put(Shown(lines, rows), text), Shown(lines + [text], rows);
    AfterNothing(text);
    assert s.view[s.row] == text;
    if |lines| + 1 < rows {
      assert s.view == t.view;
    } else {
      assert Break(s).view == t.view;
      assert Break(s).above == t.above;
    }
  }

  lemma {:induction false} DrawLines(before: seq<seq<byte>>, lines: seq<seq<byte>>, rows: nat, rest: seq<byte>)
    requires rows > 0 && forall i :: 0 <= i < |lines| ==> Plain(lines[i])
    ensures Draw(Shown(before, rows), Lines(lines) + rest) == Draw(Shown(before + lines, rows), rest)
    decreases |lines|
  {
    hide Draw, Shown, Plain, Break, Put;
    if lines == [] {
      assert before + lines == before && Lines(lines) + rest == rest;
    } else {
      var more := Lines(lines[1..]) + rest;
      assert Lines(lines) + rest == lines[0] + LINE_BREAK + more;
      DrawLine(Shown(before, rows), lines[0], more);
      ShowNext(before, lines[0], rows);
      DrawLines(before + [lines[0]], lines[1..], rows, rest);
      assert before + [lines[0]] + lines[1..] == before + lines;
    }
  }

  /**
   * Lines, then as many line breaks as the viewport has rows, then the home position: the lines and one blank
   * line have scrolled off, the viewport is empty, and whatever follows is drawn from its top.
   */
  lemma DrawsBelow(lines: seq<seq<byte>>, rows: nat, rest: seq<byte>)
    requires rows > 0 && forall i :: 0 <= i < |lines| ==> Plain(lines[i])
    ensures Draw(Blank(rows), Lines(lines) + Lines(Blanks(rows)) + CURSOR_HOME + rest)
         == Draw(Screen(lines + [[]], Blanks(rows), 0), rest)
  {
    hide Draw, Lines;
    var blanks, tail := Blanks(rows), CURSOR_HOME + rest;
    assert Blank(rows) == Shown([], rows);
    assert Lines(lines) + Lines(blanks) + CURSOR_HOME + rest == Lines(lines) + (Lines(blanks) + tail);
    DrawLines([], lines, rows, Lines(blanks) + tail);
    assert [] + lines == lines;
    DrawLines(lines, blanks, rows, tail);
    var s := Shown(lines + blanks, rows);
    ScrolledOff(lines, rows);
    DrawHome(s, rest);
  }

  lemma DrawHome(s: Screen, rest: seq<byte>)
    requires s.Valid()
    ensures Draw(s, CURSOR_HOME + rest) == Draw(s.(row := 0), rest)
  {
    var bytes := CURSOR_HOME + rest;
    assert bytes[3..] == rest && CURSOR_HOME <= bytes && bytes[0] == 27;
  }

  lemma ScrolledOff(lines: seq<seq<byte>>, rows: nat)
    requires rows > 0
    ensures Shown(lines + Blanks(rows), rows) == Screen(lines + [[]], Blanks(rows), rows - 1)
  {
    var all, s := lines + Blanks(rows), Shown(lines + Blanks(rows), rows);
    assert all[..|lines| + 1] == lines + [[]];
    assert s.view == Blanks(rows);
  }
}
