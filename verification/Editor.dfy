/** The multi-line input box of the session pane. The box keeps a list of lines and a
    (row, column) cursor; every key is proved to act as a flat editor would, one that keeps
    a single string and one offset into it. */
module Editor {
  import opened Arithmetic

  datatype Mode = Normal | Input

  datatype Key =
    | Esc | Enter | Backspace | Left | Right | Up | Down | Home | End
    | Char(c: char)
    | OtherKey

  datatype Action =
    | NoAction
    | Submit(text: string)
    | ClosePane
    | ReturnToGlobal
    | ScrollUp(amount: nat)
    | ScrollDown(amount: nat)

  // ---------- the flat editor ----------

  /** A text and an offset between two of its characters. */
  datatype Flat = Flat(text: string, at: nat) {
    predicate Valid() {
      at <= |text|
    }
  }

  /** What the pane shows: a flat text and a mode. */
  datatype View = View(flat: Flat, mode: Mode)

  function Insert(f: Flat, s: string): (r: Flat)
    requires f.Valid()
  {
    Flat(f.text[..f.at] + s + f.text[f.at..], f.at + |s|)
  }

  function LineStart(t: string, k: nat): (s: nat)
    requires k <= |t|
    ensures s <= k
  {
    if k == 0 || t[k - 1] == '\n' then k else LineStart(t, k - 1)
  }

  function LineEnd(t: string, k: nat): (e: nat)
    requires k <= |t|
    ensures k <= e <= |t|
    ensures e == |t| || t[e] == '\n'
    decreases |t| - k
  {
    if k == |t| || t[k] == '\n' then k else LineEnd(t, k + 1)
  }

  function FlatUp(f: Flat): Flat
    requires f.Valid()
  {
    var start := LineStart(f.text, f.at);
    if start == 0 then f
    else
      var above := LineStart(f.text, start - 1);
      f.(at := above + Min(f.at - start, start - 1 - above))
  }

  function FlatDown(f: Flat): Flat
    requires f.Valid()
  {
    var end := LineEnd(f.text, f.at);
    if end == |f.text| then f
    else
      var below := end + 1;
      f.(at := below + Min(f.at - LineStart(f.text, f.at), LineEnd(f.text, below) - below))
  }

  /** The effect of one key on the flat text while the box is in Input mode. */
  function Press(f: Flat, key: Key, ctrl: bool): (r: Flat)
    requires f.Valid()
  {
    match key
    case Enter => if ctrl then Flat("", 0) else Insert(f, "\n")
    case Backspace => if f.at == 0 then f else Flat(f.text[..f.at - 1] + f.text[f.at..], f.at - 1)
    case Left => if f.at == 0 then f else f.(at := f.at - 1)
    case Right => if f.at == |f.text| then f else f.(at := f.at + 1)
    case Up => FlatUp(f)
    case Down => FlatDown(f)
    case Home => f.(at := LineStart(f.text, f.at))
    case End => f.(at := LineEnd(f.text, f.at))
    case Char(c) => if ctrl then f else Insert(f, [c])
    case Esc => f
    case OtherKey => f
  }

  function NextMode(mode: Mode, key: Key, ctrl: bool): Mode {
    if mode == Normal then (if key == Char('i') then Input else Normal)
    else if key == Esc || (key == Enter && ctrl) then Normal
    else Input
  }

  function Outcome(v: View, key: Key, ctrl: bool): Action {
    if v.mode == Input then (if key == Enter && ctrl then Submit(v.flat.text) else NoAction)
    else
      match key
      case Esc => ReturnToGlobal
      case Char(c) =>
        if c == 'q' then ClosePane
        else if c == 'j' then ScrollDown(1)
        else if c == 'k' then ScrollUp(1)
        else NoAction
      case _ => NoAction
  }

  function Handle(v: View, key: Key, ctrl: bool): View
    requires v.flat.Valid()
  {
    View(if v.mode == Input then Press(v.flat, key, ctrl) else v.flat, NextMode(v.mode, key, ctrl))
  }

  // ---------- lines ----------

  function Join(lines: seq<string>): string {
    if |lines| == 0 then ""
    else if |lines| == 1 then lines[0]
    else lines[0] + "\n" + Join(lines[1..])
  }

  /** The lines before the cursor's, each closed by a newline. */
  function Before(lines: seq<string>): string {
    if |lines| == 0 then "" else lines[0] + "\n" + Before(lines[1..])
  }

  /** The lines after the cursor's, each preceded by a newline. */
  function After(lines: seq<string>): string {
    if |lines| == 0 then "" else "\n" + lines[0] + After(lines[1..])
  }

  lemma {:induction false} BeforeSnoc(lines: seq<string>, line: string)
    ensures Before(lines + [line]) == Before(lines) + line + "\n"
  {
    if |lines| == 0 {
      assert Before([line]) == line + "\n" + Before([]);
      assert line + "\n" + "" == "" + line + "\n";
    } else {
      assert (lines + [line])[1..] == lines[1..] + [line];
      BeforeSnoc(lines[1..], line);
    }
  }

  lemma {:induction false} JoinIsAfter(lines: seq<string>)
    requires |lines| > 0
    ensures Join(lines) == lines[0] + After(lines[1..])
  {
    if |lines| > 1 {
      JoinIsAfter(lines[1..]);
    }
  }

  lemma {:induction false} JoinSplits(lines: seq<string>, row: nat)
    requires row < |lines|
    ensures Join(lines) == Before(lines[..row]) + lines[row] + After(lines[row + 1..])
  {
    if row == 0 {
      JoinIsAfter(lines);
      assert lines[..0] == [];
    } else {
      JoinSplits(lines[1..], row - 1);
      assert lines[..row][1..] == lines[1..][..row - 1];
      assert lines[1..][row..] == lines[row + 1..];
    }
  }

  /** Row r's block ends where row r + 1's begins. */
  lemma NextRow(lines: seq<string>, row: nat)
    requires row + 1 < |lines|
    ensures Before(lines[..row + 1]) == Before(lines[..row]) + lines[row] + "\n"
  {
    assert lines[..row + 1] == lines[..row] + [lines[row]];
    BeforeSnoc(lines[..row], lines[row]);
  }

  predicate InBounds(lines: seq<string>, row: nat, col: nat) {
    row < |lines| && col <= |lines[row]|
  }

  function FlatOf(lines: seq<string>, row: nat, col: nat): (f: Flat)
    requires InBounds(lines, row, col)
    ensures f.Valid()
  {
    JoinSplits(lines, row);
    Flat(Join(lines), |Before(lines[..row])| + col)
  }

  predicate NoBreak(line: string) {
    forall i :: 0 <= i < |line| ==> line[i] != '\n'
  }

  predicate Clean(lines: seq<string>) {
    forall i :: 0 <= i < |lines| ==> NoBreak(lines[i])
  }

  // ---------- each edit on lines is the edit on the flat text ----------

  lemma CutAt(x: string, y: string)
    ensures (x + y)[..|x|] == x && (x + y)[|x|..] == y
  {
  }

  lemma InsertAt(x: string, s: string, y: string)
    ensures Insert(Flat(x + y, |x|), s) == Flat(x + s + y, |x| + |s|)
  {
    CutAt(x, y);
  }

  lemma EraseAt(x: string, c: char, y: string)
    ensures Press(Flat(x + [c] + y, |x| + 1), Backspace, false) == Flat(x + y, |x|)
  {
    CutAt(x, [c] + y);
    CutAt(x + [c], y);
    assert x + [c] + y == x + ([c] + y);
  }

  /** The text of a box whose cursor row reads p + q, with the cursor between p and q. */
  lemma RowText(lines: seq<string>, row: nat, p: string, q: string)
    requires row < |lines| && lines[row] == p + q
    ensures FlatOf(lines, row, |p|) ==
            Flat((Before(lines[..row]) + p) + (q + After(lines[row + 1..])), |Before(lines[..row]) + p|)
  {
    JoinSplits(lines, row);
    var b, a := Before(lines[..row]), After(lines[row + 1..]);
    assert b + (p + q) + a == (b + p) + (q + a);
  }

  /** The same with the cursor at the start of row + 1: row's own text and break end the front. */
  lemma RowStart(lines: seq<string>, row: nat)
    requires row + 1 < |lines|
    ensures var front := Before(lines[..row]) + lines[row];
            FlatOf(lines, row + 1, 0) == Flat(front + "\n" + (lines[row + 1] + After(lines[row + 2..])), |front| + 1)
  {
    RowText(lines, row + 1, "", lines[row + 1]);
    NextRow(lines, row);
    assert Before(lines[..row + 1]) + "" == Before(lines[..row]) + lines[row] + "\n";
    assert "" + lines[row + 1] == lines[row + 1];
  }

  lemma SplitNeighbours(lines: seq<string>, row: nat, p: string, q: string)
    requires row < |lines|
    ensures var split := lines[..row] + [p, q] + lines[row + 1..];
            && split[..row] == lines[..row] && split[row] == p && split[row + 1] == q
            && split[row + 2..] == lines[row + 1..]
  {
  }

  lemma JoinNeighbours(lines: seq<string>, row: nat, line: string)
    requires row + 1 < |lines|
    ensures var joined := lines[..row] + [line] + lines[row + 2..];
            joined[..row] == lines[..row] && joined[row] == line && joined[row + 1..] == lines[row + 2..]
  {
  }

  lemma SameNeighbours(lines: seq<string>, row: nat, line: string)
    requires row < |lines|
    ensures lines[row := line][..row] == lines[..row]
    ensures lines[row := line][row + 1..] == lines[row + 1..]
  {
  }

  lemma EditInsideRow(lines: seq<string>, row: nat, col: nat, s: string)
    requires InBounds(lines, row, col)
    ensures var line := lines[row];
            var edited := lines[row := line[..col] + s + line[col..]];
            FlatOf(edited, row, col + |s|) == Insert(FlatOf(lines, row, col), s)
  {
    var p, q := lines[row][..col], lines[row][col..];
    var edited := lines[row := p + s + q];
    RowText(lines, row, p, q);
    RowText(edited, row, p + s, q);
    SameNeighbours(lines, row, p + s + q);
    var b, a := Before(lines[..row]), After(lines[row + 1..]);
    InsertAt(b + p, s, q + a);
    assert b + (p + s) == (b + p) + s;
  }

  lemma SplitRow(lines: seq<string>, row: nat, col: nat)
    requires InBounds(lines, row, col)
    ensures var line := lines[row];
            var split := lines[..row] + [line[..col], line[col..]] + lines[row + 1..];
            FlatOf(split, row + 1, 0) == Insert(FlatOf(lines, row, col), "\n")
  {
    var p, q := lines[row][..col], lines[row][col..];
    var split := lines[..row] + [p, q] + lines[row + 1..];
    RowText(lines, row, p, q);
    SplitNeighbours(lines, row, p, q);
    RowStart(split, row);
    InsertAt(Before(lines[..row]) + p, "\n", q + After(lines[row + 1..]));
  }

  lemma EraseInsideRow(lines: seq<string>, row: nat, col: nat)
    requires InBounds(lines, row, col) && col > 0
    ensures var line := lines[row];
            var erased := lines[row := line[..col - 1] + line[col..]];
            FlatOf(erased, row, col - 1) == Press(FlatOf(lines, row, col), Backspace, false)
  {
    var p, c, q := lines[row][..col - 1], lines[row][col - 1], lines[row][col..];
    RowText(lines, row, p + [c], q);
    RowText(lines[row := p + q], row, p, q);
    SameNeighbours(lines, row, p + q);
    var b, a := Before(lines[..row]), After(lines[row + 1..]);
    EraseAt(b + p, c, q + a);
    assert b + (p + [c]) == (b + p) + [c];
  }

  lemma JoinRows(lines: seq<string>, row: nat)
    requires row + 1 < |lines|
    ensures var joined := lines[..row] + [lines[row] + lines[row + 1]] + lines[row + 2..];
            FlatOf(joined, row, |lines[row]|) == Press(FlatOf(lines, row + 1, 0), Backspace, false)
  {
    var p, q := lines[row], lines[row + 1];
    var joined := lines[..row] + [p + q] + lines[row + 2..];
    RowStart(lines, row);
    JoinNeighbours(lines, row, p + q);
    RowText(joined, row, p, q);
    EraseAt(Before(lines[..row]) + p, '\n', q + After(lines[row + 2..]));
  }

  // ---------- line starts and ends ----------

  /** LineStart is the only offset before k with a break (or nothing) in front of it and no
      break between it and k; LineEnd likewise on the other side. */
  lemma {:induction false} LineStartAt(t: string, s: nat, k: nat)
    requires s <= k <= |t|
    requires s == 0 || t[s - 1] == '\n'
    requires forall i :: s <= i < k ==> t[i] != '\n'
    ensures LineStart(t, k) == s
    decreases k
  {
    if k > s {
      LineStartAt(t, s, k - 1);
    }
  }

  lemma {:induction false} LineEndAt(t: string, k: nat, e: nat)
    requires k <= e <= |t|
    requires e == |t| || t[e] == '\n'
    requires forall i :: k <= i < e ==> t[i] != '\n'
    ensures LineEnd(t, k) == e
    decreases e - k
  {
    if k < e {
      LineEndAt(t, k + 1, e);
    }
  }

  /** In a clean box the flat line around the cursor is the cursor's row. */
  lemma RowIsLine(lines: seq<string>, row: nat, col: nat)
    requires InBounds(lines, row, col) && Clean(lines)
    ensures var f := FlatOf(lines, row, col);
            && LineStart(f.text, f.at) == f.at - col
            && LineEnd(f.text, f.at) == f.at - col + |lines[row]|
            && (f.at - col == 0 <==> row == 0)
            && (f.at - col + |lines[row]| == |f.text| <==> row + 1 == |lines|)
  {
    var f := FlatOf(lines, row, col);
    JoinSplits(lines, row);
    var b, line, a := Before(lines[..row]), lines[row], After(lines[row + 1..]);
    assert forall i :: |b| <= i < |b| + |line| ==> f.text[i] == line[i - |b|];
    if row > 0 {
      NextRow(lines, row - 1);
    }
    assert row + 1 < |lines| ==> |a| > 0 && f.text[|b| + |line|] == '\n';
    LineStartAt(f.text, |b|, f.at);
    LineEndAt(f.text, f.at, |b| + |line|);
  }

  lemma UpIsFlatUp(lines: seq<string>, row: nat, col: nat)
    requires InBounds(lines, row, col) && Clean(lines)
    ensures row > 0 ==> FlatOf(lines, row - 1, Min(col, |lines[row - 1]|)) == FlatUp(FlatOf(lines, row, col))
    ensures row == 0 ==> FlatUp(FlatOf(lines, row, col)) == FlatOf(lines, row, col)
  {
    RowIsLine(lines, row, col);
    if row > 0 {
      NextRow(lines, row - 1);
      RowIsLine(lines, row - 1, |lines[row - 1]|);
    }
  }

  lemma DownIsFlatDown(lines: seq<string>, row: nat, col: nat)
    requires InBounds(lines, row, col) && Clean(lines)
    ensures row + 1 < |lines|
        ==> FlatOf(lines, row + 1, Min(col, |lines[row + 1]|)) == FlatDown(FlatOf(lines, row, col))
    ensures row + 1 == |lines| ==> FlatDown(FlatOf(lines, row, col)) == FlatOf(lines, row, col)
  {
    RowIsLine(lines, row, col);
    if row + 1 < |lines| {
      NextRow(lines, row);
      RowIsLine(lines, row + 1, 0);
    }
  }

  // ---------- the box ----------

  /** Keys whose flat meaning does not depend on where the lines break. */
  predicate IgnoresLines(key: Key) {
    key !in {Up, Down, Home, End}
  }

  class InputState {
    var lines: seq<string>
    var cursorRow: nat
    var cursorCol: nat
    var mode: Mode

    ghost predicate Valid()
      reads this
    {
      InBounds(lines, cursorRow, cursorCol)
    }

    ghost function Shown(): View
      requires Valid()
      reads this
    {
      View(FlatOf(lines, cursorRow, cursorCol), mode)
    }

    constructor ()
      ensures Valid() && Clean(lines)
      ensures Shown() == View(Flat("", 0), Normal)
    {
      lines := [""];
      cursorRow, cursorCol := 0, 0;
      mode := Normal;
    }

    method Reset()
      modifies this`lines, this`cursorRow, this`cursorCol
      ensures Valid() && Clean(lines)
      ensures Shown().flat == Flat("", 0)
    {
      lines := [""];
      cursorRow, cursorCol := 0, 0;
    }

    method InsertChar(c: char)
      requires Valid()
      modifies this`lines, this`cursorCol
      ensures Valid()
      ensures Shown().flat == Insert(old(Shown().flat), [c])
      ensures old(Clean(lines)) && c != '\n' ==> Clean(lines)
    {
      EditInsideRow(lines, cursorRow, cursorCol, [c]);
      var line := lines[cursorRow];
      lines := lines[cursorRow := line[..cursorCol] + [c] + line[cursorCol..]];
      cursorCol := cursorCol + 1;
    }

    method InsertNewline()
      requires Valid()
      modifies this`lines, this`cursorRow, this`cursorCol
      ensures Valid()
      ensures Shown().flat == Insert(old(Shown().flat), "\n")
      ensures old(Clean(lines)) ==> Clean(lines)
    {
      SplitRow(lines, cursorRow, cursorCol);
      var line := lines[cursorRow];
      var tail := line[cursorCol..];
      lines := lines[..cursorRow] + [line[..cursorCol], tail] + lines[cursorRow + 1..];
      cursorRow, cursorCol := cursorRow + 1, 0;
    }

    method EraseBack()
      requires Valid()
      modifies this`lines, this`cursorRow, this`cursorCol
      ensures Valid()
      ensures Shown().flat == Press(old(Shown().flat), Backspace, false)
      ensures var f := old(Shown().flat);
        Shown().flat == if f.at == 0 then f else Flat(f.text[..f.at - 1] + f.text[f.at..], f.at - 1)
      ensures old(Clean(lines)) ==> Clean(lines)
    {
      if cursorCol > 0 {
        EraseInsideRow(lines, cursorRow, cursorCol);
        var line := lines[cursorRow];
        lines := lines[cursorRow := line[..cursorCol - 1] + line[cursorCol..]];
        cursorCol := cursorCol - 1;
      } else if cursorRow > 0 {
        JoinRows(lines, cursorRow - 1);
        var line := lines[cursorRow];
        var above := lines[cursorRow - 1];
        lines := lines[..cursorRow - 1] + [above + line] + lines[cursorRow + 1..];
        cursorRow, cursorCol := cursorRow - 1, |above|;
      } else {
        assert Before(lines[..0]) == "";
      }
    }

    method MoveLeft()
      requires Valid()
      modifies this`cursorRow, this`cursorCol
      ensures Valid()
      ensures Shown().flat == Press(old(Shown().flat), Left, false)
      ensures Shown().flat.text == old(Shown().flat.text)
      ensures Shown().flat.at == if old(Shown().flat.at) == 0 then 0 else old(Shown().flat.at) - 1
    {
      if cursorCol > 0 {
        cursorCol := cursorCol - 1;
      } else if cursorRow > 0 {
        NextRow(lines, cursorRow - 1);
        cursorRow := cursorRow - 1;
        cursorCol := |lines[cursorRow]|;
      } else {
        assert Before(lines[..0]) == "";
      }
    }

    method MoveRight()
      requires Valid()
      modifies this`cursorRow, this`cursorCol
      ensures Valid()
      ensures Shown().flat == Press(old(Shown().flat), Right, false)
      ensures Shown().flat.text == old(Shown().flat.text)
      ensures Shown().flat.at == Min(old(Shown().flat.at) + 1, |old(Shown().flat.text)|)
    {
      JoinSplits(lines, cursorRow);
      if cursorCol < |lines[cursorRow]| {
        cursorCol := cursorCol + 1;
      } else if cursorRow + 1 < |lines| {
        NextRow(lines, cursorRow);
        cursorRow, cursorCol := cursorRow + 1, 0;
      }
    }

    method MoveUp()
      requires Valid()
      modifies this`cursorRow, this`cursorCol
      ensures Valid()
      ensures Clean(lines) ==> Shown().flat == FlatUp(old(Shown().flat))
    {
      if Clean(lines) {
        UpIsFlatUp(lines, cursorRow, cursorCol);
      }
      if cursorRow > 0 {
        cursorRow := cursorRow - 1;
        cursorCol := Min(cursorCol, |lines[cursorRow]|);
      }
    }

    method MoveDown()
      requires Valid()
      modifies this`cursorRow, this`cursorCol
      ensures Valid()
      ensures Clean(lines) ==> Shown().flat == FlatDown(old(Shown().flat))
    {
      if Clean(lines) {
        DownIsFlatDown(lines, cursorRow, cursorCol);
      }
      if cursorRow + 1 < |lines| {
        cursorRow := cursorRow + 1;
        cursorCol := Min(cursorCol, |lines[cursorRow]|);
      }
    }

    method HandleNormal(key: Key) returns (action: Action)
      requires mode == Normal
      modifies this`mode
      ensures mode == NextMode(Normal, key, false)
      ensures forall f: Flat :: action == Outcome(View(f, Normal), key, false)
    {
      action := NoAction;
      match key {
        case Char(c) =>
          if c == 'i' {
            mode := Input;
          } else if c == 'q' {
            action := ClosePane;
          } else if c == 'j' {
            action := ScrollDown(1);
          } else if c == 'k' {
            action := ScrollUp(1);
          }
        case Esc => action := ReturnToGlobal;
        case _ =>
      }
    }

    method HandleInput(key: Key, ctrl: bool) returns (action: Action)
      requires Valid() && mode == Input
      modifies this
      ensures Valid()
      ensures mode == NextMode(Input, key, ctrl)
      ensures action == Outcome(old(Shown()), key, ctrl)
      ensures IgnoresLines(key) || old(Clean(lines)) ==> Shown().flat == Press(old(Shown().flat), key, ctrl)
      ensures old(Clean(lines)) && key != Char('\n') ==> Clean(lines)
    {
      action := NoAction;
      match key {
        case Esc => mode := Normal;
        case Enter =>
          if ctrl {
            action := Submit(Join(lines));
            Reset();
            mode := Normal;
          } else {
            InsertNewline();
          }
        case Backspace => EraseBack();
        case Left => MoveLeft();
        case Right => MoveRight();
        case Up => MoveUp();
        case Down => MoveDown();
        case Home =>
          if Clean(lines) {
            RowIsLine(lines, cursorRow, cursorCol);
          }
          cursorCol := 0;
        case End =>
          if Clean(lines) {
            RowIsLine(lines, cursorRow, cursorCol);
          }
          cursorCol := |lines[cursorRow]|;
        case Char(c) =>
          if !ctrl {
            InsertChar(c);
          }
        case OtherKey =>
      }
    }

    /** Every key does to the shown text what the flat editor does. Up, Down, Home and End
        need rows without line breaks, which every key but a literal newline character keeps. */
    method HandleKey(key: Key, ctrl: bool) returns (action: Action)
      requires Valid()
      modifies this
      ensures Valid()
      ensures action == Outcome(old(Shown()), key, ctrl)
      ensures IgnoresLines(key) || old(Clean(lines)) ==> Shown() == Handle(old(Shown()), key, ctrl)
      ensures old(Clean(lines)) && key != Char('\n') ==> Clean(lines)
    {
      if mode == Normal {
        action := HandleNormal(key);
      } else {
        action := HandleInput(key, ctrl);
      }
    }
  }

  // ---------- what each key is for ----------

  /** The cursor keys in a box without literal breaks: Up and Down keep the column as far as
      the line allows, Home and End go to the ends of the line, Left and Right one on. */
  lemma CursorKeys(lines: seq<string>, row: nat, col: nat)
    requires InBounds(lines, row, col) && Clean(lines)
    ensures var f := FlatOf(lines, row, col);
      && Press(f, Up, false) == (if row == 0 then f else FlatOf(lines, row - 1, Min(col, |lines[row - 1]|)))
      && Press(f, Down, false) ==
           (if row + 1 == |lines| then f else FlatOf(lines, row + 1, Min(col, |lines[row + 1]|)))
      && Press(f, Home, false) == FlatOf(lines, row, 0)
      && Press(f, End, false) == FlatOf(lines, row, |lines[row]|)
      && (col > 0 ==> Press(f, Left, false) == FlatOf(lines, row, col - 1))
      && (col < |lines[row]| ==> Press(f, Right, false) == FlatOf(lines, row, col + 1))
  {
    UpIsFlatUp(lines, row, col);
    DownIsFlatDown(lines, row, col);
    RowIsLine(lines, row, col);
    JoinSplits(lines, row);
  }

  /** In a run of keys, as many steps back as forward lead back. */
  lemma {:induction false} RightsStepForward(f: Flat, n: nat)
    requires f.Valid() && f.at + n <= |f.text|
    ensures Run(View(f, Input), Repeat(Right, n)) == View(f.(at := f.at + n), Input)
  {
    if n > 0 {
      RightsStepForward(f, n - 1);
      RunSnoc(View(f, Input), Repeat(Right, n - 1), (Right, false));
    }
  }

  lemma {:induction false} LeftsStepBack(f: Flat, n: nat)
    requires f.Valid() && n <= f.at
    ensures Run(View(f, Input), Repeat(Left, n)) == View(f.(at := f.at - n), Input)
  {
    if n > 0 {
      LeftsStepBack(f, n - 1);
      RunSnoc(View(f, Input), Repeat(Left, n - 1), (Left, false));
    }
  }

  /** Outside Input mode no key edits, and inside it neither Esc nor a character with Ctrl
      does; `j` scrolls down, `k` up, `q` closes, Esc goes back
      and `i` starts typing, which Esc and Ctrl+Enter end. */
  lemma ModeKeys(v: View, key: Key, ctrl: bool)
    requires v.flat.Valid()
    ensures var action, after := Outcome(v, key, ctrl), Handle(v, key, ctrl);
      && (action.ScrollDown? <==> v.mode.Normal? && key == Char('j'))
      && (action.ScrollUp? <==> v.mode.Normal? && key == Char('k'))
      && (action.ScrollDown? || action.ScrollUp? ==> action.amount == 1)
      && (action.ClosePane? <==> v.mode.Normal? && key == Char('q'))
      && (action.ReturnToGlobal? <==> v.mode.Normal? && key.Esc?)
      && (action.Submit? <==> v.mode.Input? && key.Enter? && ctrl)
      && (v.mode.Normal? ==> after.flat == v.flat && (after.mode.Input? <==> key == Char('i')))
      && (v.mode.Input? ==> (after.mode.Normal? <==> key.Esc? || (key.Enter? && ctrl)))
      && (key.Esc? || key.OtherKey? || (key.Char? && ctrl) ==> after.flat == v.flat)
  {
  }

  // ---------- whole runs ----------

  function Run(v: View, keys: seq<(Key, bool)>): (r: View)
    requires v.flat.Valid()
    ensures r.flat.Valid()
  {
    if |keys| == 0 then v
    else
      var last := keys[|keys| - 1];
      var before := Run(v, keys[..|keys| - 1]);
      PressKeepsBounds(before.flat, last.0, last.1);
      Handle(before, last.0, last.1)
  }

  /** No key moves the cursor out of the text. */
  lemma PressKeepsBounds(f: Flat, key: Key, ctrl: bool)
    requires f.Valid()
    ensures Press(f, key, ctrl).Valid()
  {
  }

  /** The key that types a character: Enter for a line break. */
  function KeyFor(c: char): (Key, bool) {
    if c == '\n' then (Enter, false) else (Char(c), false)
  }

  function Typing(s: string): seq<(Key, bool)> {
    if |s| == 0 then [] else Typing(s[..|s| - 1]) + [KeyFor(s[|s| - 1])]
  }

  lemma RunSnoc(v: View, keys: seq<(Key, bool)>, k: (Key, bool))
    requires v.flat.Valid()
    ensures Run(v, keys + [k]) == Handle(Run(v, keys), k.0, k.1)
  {
    assert (keys + [k])[..|keys|] == keys;
  }

  lemma InsertTwice(f: Flat, s: string, t: string)
    requires f.Valid()
    ensures Insert(Insert(f, s), t) == Insert(f, s + t)
  {
    var once := Insert(f, s);
    assert once.text[..once.at] == f.text[..f.at] + s;
    assert once.text[once.at..] == f.text[f.at..];
  }

  lemma TypeOne(f: Flat, c: char)
    requires f.Valid()
    ensures Handle(View(f, Input), KeyFor(c).0, KeyFor(c).1) == View(Insert(f, [c]), Input)
  {
    assert "\n" == ['\n'];
  }

  /** Typing a text of any length inserts exactly that text at the cursor. */
  lemma {:induction false} TypingInserts(f: Flat, s: string)
    requires f.Valid()
    ensures Run(View(f, Input), Typing(s)) == View(Insert(f, s), Input)
  {
    if |s| == 0 {
      assert f.text[..f.at] + "" + f.text[f.at..] == f.text;
    } else {
      var front, last := s[..|s| - 1], s[|s| - 1];
      TypingInserts(f, front);
      RunSnoc(View(f, Input), Typing(front), KeyFor(last));
      TypeOne(Insert(f, front), last);
      InsertTwice(f, front, [last]);
      assert s == front + [last];
    }
  }

  function Repeat(key: Key, n: nat): seq<(Key, bool)> {
    if n == 0 then [] else Repeat(key, n - 1) + [(key, false)]
  }

  lemma EraseLast(f: Flat, s: string)
    requires f.Valid() && |s| > 0
    ensures Press(Insert(f, s), Backspace, false) == Insert(f, s[..|s| - 1])
  {
    var now := Insert(f, s);
    assert now.text[..now.at - 1] == f.text[..f.at] + s[..|s| - 1];
    assert now.text[now.at..] == f.text[f.at..];
  }

  lemma EraseOne(f: Flat, s: string)
    requires f.Valid() && |s| > 0
    ensures Handle(View(Insert(f, s), Input), Backspace, false) == View(Insert(f, s[..|s| - 1]), Input)
  {
    EraseLast(f, s);
  }

  /** As many Backspaces as characters were typed restore the text and the cursor. */
  lemma {:induction false} BackspacesUndoTyping(f: Flat, s: string, n: nat)
    requires f.Valid() && n <= |s|
    ensures Run(View(Insert(f, s), Input), Repeat(Backspace, n)) == View(Insert(f, s[..|s| - n]), Input)
  {
    if n == 0 {
      assert s[..|s|] == s;
    } else {
      var typed, left := View(Insert(f, s), Input), s[..|s| - (n - 1)];
      BackspacesUndoTyping(f, s, n - 1);
      RunSnoc(typed, Repeat(Backspace, n - 1), (Backspace, false));
      EraseOne(f, left);
      DropTwice(s, n);
    }
  }

  lemma DropTwice(s: string, n: nat)
    requires 0 < n <= |s|
    ensures var left := s[..|s| - (n - 1)]; |left| > 0 && left[..|left| - 1] == s[..|s| - n]
  {
  }

  /** Open the box, type any text, press Ctrl+Enter: that text is submitted, unchanged, and
      the box is empty and back in Normal mode. */
  lemma SubmitReturnsWhatWasTyped(s: string)
    ensures var ready := Run(View(Flat("", 0), Normal), [(Char('i'), false)]);
            var typed := Run(ready, Typing(s));
            && Outcome(typed, Enter, true) == Submit(s)
            && Handle(typed, Enter, true) == View(Flat("", 0), Normal)
  {
    var start := View(Flat("", 0), Normal);
    RunSnoc(start, [], (Char('i'), false));
    assert [] + [(Char('i'), false)] == [(Char('i'), false)];
    TypingInserts(Flat("", 0), s);
    assert "" + s + "" == s;
  }

  /** The flat view loses nothing: clean boxes showing the same text at the same offset are
      the same box. */
  lemma {:induction false} JoinIsInjective(a: seq<string>, b: seq<string>)
    requires |a| > 0 && |b| > 0 && Clean(a) && Clean(b)
    requires Join(a) == Join(b)
    ensures a == b
  {
    RowIsLine(a, 0, 0);
    RowIsLine(b, 0, 0);
    assert Before(a[..0]) == "" && Before(b[..0]) == "";
    JoinSplits(a, 0);
    JoinSplits(b, 0);
    assert a[0] == Join(a)[..|a[0]|] == b[0];
    if |a| > 1 {
      assert Join(a[1..]) == Join(a)[|a[0]| + 1..] == Join(b[1..]);
      JoinIsInjective(a[1..], b[1..]);
      assert a == [a[0]] + a[1..] && b == [b[0]] + b[1..];
    }
  }

  lemma {:induction false} FlatDeterminesBox(a: seq<string>, r: nat, c: nat, b: seq<string>, p: nat, q: nat)
    requires InBounds(a, r, c) && InBounds(b, p, q) && Clean(a) && Clean(b)
    requires FlatOf(a, r, c) == FlatOf(b, p, q)
    ensures a == b && r == p && c == q
  {
    JoinIsInjective(a, b);
    RowIsLine(a, r, c);
    RowIsLine(b, p, q);
    if r < p {
      RowsAdvance(a, r, p);
    } else if p < r {
      RowsAdvance(a, p, r);
    }
  }

  lemma {:induction false} RowsAdvance(lines: seq<string>, r: nat, p: nat)
    requires r < p < |lines|
    ensures |Before(lines[..r])| + |lines[r]| < |Before(lines[..p])|
    decreases p
  {
    NextRow(lines, p - 1);
    if r < p - 1 {
      RowsAdvance(lines, r, p - 1);
    }
  }
}
