/** The 20x4 character display (ui.cpp): padding of line buffers, the cache of
    the last drawn rows that lets a redraw skip unchanged rows, the whole and
    fractional parts of the x100 values the screens print, and the character
    test pattern. The display itself is modelled as the characters each row
    shows, a cursor and a count of characters written; the text that
    `snprintf` composes is an input of the drawing code. */
module Ui {
  import opened Ints
  import opened CText

  const COLS: nat := 20
  /** A line buffer: 20 characters and a NUL. */
  const LINE: nat := 21

  const BLANK_ROW: seq<char> := seq(COLS, _ => ' ')
  const BLANK_LINE: seq<char> := BLANK_ROW + [NUL]
  const BLANK_SCREEN: seq<seq<char>> := seq(4, _ => BLANK_ROW)

  /** The display: what each of its 4 rows shows, the cursor, and how many
      characters have been sent to it. */
  class Lcd {
    var rows: seq<seq<char>>
    var row: nat
    var col: nat
    var writes: nat

    ghost predicate Valid()
      reads this
    {
      |rows| == 4 && (forall r :: 0 <= r < 4 ==> |rows[r]| == COLS) && row < 4 && col <= COLS
    }

    constructor Init()
      ensures Valid() && rows == BLANK_SCREEN && row == 0 && col == 0 && writes == 0
    {
      rows, row, col, writes := BLANK_SCREEN, 0, 0, 0;
    }

    /** `lcd.clear()`: every row blank, cursor home. */
    method Clear()
      modifies this
      ensures Valid() && rows == BLANK_SCREEN && row == 0 && col == 0 && writes == old(writes)
    {
      rows, row, col := BLANK_SCREEN, 0, 0;
    }

    /** `lcd.setCursor(c, r)`. */
    method SetCursor(c: nat, r: nat)
      requires Valid() && c <= COLS && r < 4
      modifies this
      ensures Valid() && row == r && col == c && rows == old(rows) && writes == old(writes)
    {
      row, col := r, c;
    }

    /** `lcd.write(ch)`: show `ch` at the cursor and advance it. */
    method Write(ch: char)
      requires Valid() && col < COLS
      modifies this
      ensures Valid() && row == old(row) && col == old(col) + 1 && writes == old(writes) + 1
      ensures rows == old(rows[row := rows[row][col := ch]])
    {
      rows := rows[row := rows[row][col := ch]];
      col := col + 1;
      writes := writes + 1;
    }
  }

  /** The number of rows in which two screens differ. */
  function ChangedRows(a: seq<seq<char>>, b: seq<seq<char>>): (n: nat)
    requires |a| == |b|
    ensures n <= |a|
  {
    if a == [] then 0 else (if a[0] != b[0] then 1 else 0) + ChangedRows(a[1..], b[1..])
  }

  /** No row is counted exactly when the screens agree. */
  lemma {:induction false} NoChangedRowsIffSame(a: seq<seq<char>>, b: seq<seq<char>>)
    requires |a| == |b|
    ensures ChangedRows(a, b) == 0 <==> a == b
  {
    if a != [] {
      NoChangedRowsIffSame(a[1..], b[1..]);
      assert a == [a[0]] + a[1..] && b == [b[0]] + b[1..];
      if a == b {
        assert a[1..] == b[1..];
      }
    }
  }

  lemma ChangedRowsOfFour(a: seq<seq<char>>, b: seq<seq<char>>)
    requires |a| == |b| == 4
    ensures ChangedRows(a, b)
            == (if a[0] != b[0] then 1 else 0) + (if a[1] != b[1] then 1 else 0)
             + (if a[2] != b[2] then 1 else 0) + (if a[3] != b[3] then 1 else 0)
  {
    assert a[3..][1..] == [] && b[3..][1..] == [];
    assert ChangedRows(a[3..], b[3..]) == (if a[3] != b[3] then 1 else 0);
    assert a[2..][1..] == a[3..] && b[2..][1..] == b[3..];
    assert ChangedRows(a[2..], b[2..]) == (if a[2] != b[2] then 1 else 0) + ChangedRows(a[3..], b[3..]);
    assert a[1..][1..] == a[2..] && b[1..][1..] == b[2..];
    assert ChangedRows(a[1..], b[1..]) == (if a[1] != b[1] then 1 else 0) + ChangedRows(a[2..], b[2..]);
  }

  const BLANK_CACHE: seq<seq<char>> := seq(4, _ => BLANK_LINE)

  /** The cache after `drawRow` has drawn the first `n` of the line buffers
      `full` from the cache `before`: a row whose 20 characters differ
      from its cached copy takes the whole new line buffer. */
  ghost function Redrawn(before: seq<seq<char>>, full: seq<seq<char>>, n: nat): (c: seq<seq<char>>)
    requires |before| == |full| == 4 && n <= 4
    requires forall q :: 0 <= q < 4 ==> |before[q]| == LINE && |full[q]| == LINE
    ensures |c| == 4 && forall q :: 0 <= q < 4 ==> |c[q]| == LINE
    ensures forall q :: 0 <= q < 4 ==> c[q][..COLS] == if q < n then full[q][..COLS] else before[q][..COLS]
  {
    seq(4, q requires 0 <= q < 4 =>
      if q < n && before[q][..COLS] != full[q][..COLS] then full[q] else before[q])
  }

  /** The display rows after the same draws: only the rows whose line differs
      from the cached copy change, and they show the new 20 characters. */
  ghost function RedrawnRows(rows: seq<seq<char>>, before: seq<seq<char>>, full: seq<seq<char>>, n: nat)
    : (s: seq<seq<char>>)
    requires |rows| == |before| == |full| == 4 && n <= 4
    requires forall q :: 0 <= q < 4 ==> |before[q]| == LINE && |full[q]| == LINE
    ensures |s| == 4
    ensures forall q :: 0 <= q < 4 && q < n ==>
              s[q] == if before[q][..COLS] == full[q][..COLS] then rows[q] else full[q][..COLS]
    ensures forall q :: n <= q < 4 ==> s[q] == rows[q]
  {
    seq(4, q requires 0 <= q < 4 =>
      if q < n && before[q][..COLS] != full[q][..COLS] then full[q][..COLS] else rows[q])
  }

  /** What one `drawRow(r, line)` does to the cache `c`, the display rows and
      the write count: nothing when the cached row already holds the line's
      20 characters, else the line is shown, costs 20 writes and is cached. */
  ghost predicate DrawnRow(c: seq<seq<char>>, rows: seq<seq<char>>, w: nat, r: nat, line: seq<char>,
                           c': seq<seq<char>>, rows': seq<seq<char>>, w': nat)
    requires |c| == |rows| == 4 && r < 4 && |c[r]| == LINE && |line| == LINE
  {
    if c[r][..COLS] == line[..COLS] then c' == c && rows' == rows && w' == w
    else c' == c[r := line] && rows' == rows[r := line[..COLS]] && w' == w + COLS
  }

  /** How many of the first `n` rows differ between `before` and `full` in
      their first 20 characters. */
  ghost function ChangedAmong(before: seq<seq<char>>, full: seq<seq<char>>, n: nat): nat
    requires |before| == |full| == 4 && n <= 4
    requires forall q :: 0 <= q < 4 ==> |before[q]| == LINE && |full[q]| == LINE
  {
    if n == 0 then 0
    else ChangedAmong(before, full, n - 1) + (if before[n - 1][..COLS] != full[n - 1][..COLS] then 1 else 0)
  }

  lemma ChangedAmongFour(before: seq<seq<char>>, full: seq<seq<char>>)
    requires |before| == |full| == 4
    requires forall q :: 0 <= q < 4 ==> |before[q]| == LINE && |full[q]| == LINE
    ensures ChangedAmong(before, full, 4) == ChangedRows(Shown(before), Shown(full))
  {
    var d := seq(4, q requires 0 <= q < 4 => if before[q][..COLS] != full[q][..COLS] then 1 else 0);
    assert ChangedAmong(before, full, 1) == d[0];
    assert ChangedAmong(before, full, 2) == d[0] + d[1];
    assert ChangedAmong(before, full, 3) == d[0] + d[1] + d[2];
    assert ChangedAmong(before, full, 4) == d[0] + d[1] + d[2] + d[3];
    ChangedRowsOfFour(Shown(before), Shown(full));
  }

  /** From a cache that records the display, the four draws leave a cache
      that still records it, and the display shows the new lines. */
  lemma RedrawnSynced(rows: seq<seq<char>>, before: seq<seq<char>>, full: seq<seq<char>>)
    requires |rows| == |before| == |full| == 4
    requires forall q :: 0 <= q < 4 ==> |before[q]| == LINE && |full[q]| == LINE
    requires rows == Shown(before)
    ensures RedrawnRows(rows, before, full, 4) == Shown(full) == Shown(Redrawn(before, full, 4))
  {
  }

  /** `draw4` is idempotent: drawing the same four lines again, whatever the
      cache held before the first draw, leaves the cache and the display as
      they are and writes nothing. */
  lemma {:induction false} RedrawIsIdempotent(rows: seq<seq<char>>, before: seq<seq<char>>, full: seq<seq<char>>)
    requires |rows| == |before| == |full| == 4
    requires forall q :: 0 <= q < 4 ==> |before[q]| == LINE && |full[q]| == LINE
    ensures var after := Redrawn(before, full, 4);
            && Redrawn(after, full, 4) == after
            && RedrawnRows(rows, after, full, 4) == rows
            && ChangedRows(Shown(after), Shown(full)) == 0
  {
    var after := Redrawn(before, full, 4);
    assert Shown(after) == Shown(full);
    NoChangedRowsIffSame(Shown(after), Shown(full));
  }

  /** No draws yet: nothing has changed. */
  lemma RedrawnNone(rows: seq<seq<char>>, before: seq<seq<char>>, full: seq<seq<char>>)
    requires |rows| == |before| == |full| == 4
    requires forall q :: 0 <= q < 4 ==> |before[q]| == LINE && |full[q]| == LINE
    ensures Redrawn(before, full, 0) == before && RedrawnRows(rows, before, full, 0) == rows
    ensures ChangedAmong(before, full, 0) == 0
  {
  }

  /** One more `drawRow` in `Redrawn`/`RedrawnRows`: row `n` is still as
      it was before the draws, and either stays or takes the new line. */
  lemma RedrawnStep(rows: seq<seq<char>>, before: seq<seq<char>>, full: seq<seq<char>>, n: nat)
    requires |rows| == |before| == |full| == 4 && n < 4
    requires forall q :: 0 <= q < 4 ==> |before[q]| == LINE && |full[q]| == LINE
    ensures Redrawn(before, full, n)[n] == before[n]
    ensures before[n][..COLS] == full[n][..COLS] ==>
              && Redrawn(before, full, n + 1) == Redrawn(before, full, n)
              && RedrawnRows(rows, before, full, n + 1) == RedrawnRows(rows, before, full, n)
    ensures before[n][..COLS] != full[n][..COLS] ==>
              && Redrawn(before, full, n + 1) == Redrawn(before, full, n)[n := full[n]]
              && RedrawnRows(rows, before, full, n + 1) == RedrawnRows(rows, before, full, n)[n := full[n][..COLS]]
  {
  }

  /** One `drawRow` inside `draw4`: drawing line `n` from the state after
      the first `n` draws gives the state after `n + 1`, at 20 writes when
      the line differs from its cached copy and none otherwise. */
  lemma RedrawnAdvance(rows: seq<seq<char>>, before: seq<seq<char>>, full: seq<seq<char>>, n: nat, w: nat,
                       c': seq<seq<char>>, rows': seq<seq<char>>, w': nat)
    requires |rows| == |before| == |full| == 4 && n < 4
    requires forall q :: 0 <= q < 4 ==> |before[q]| == LINE && |full[q]| == LINE
    requires DrawnRow(Redrawn(before, full, n), RedrawnRows(rows, before, full, n), w, n, full[n], c', rows', w')
    ensures c' == Redrawn(before, full, n + 1) && rows' == RedrawnRows(rows, before, full, n + 1)
    ensures w' + COLS * ChangedAmong(before, full, n) == w + COLS * ChangedAmong(before, full, n + 1)
  {
    RedrawnStep(rows, before, full, n);
  }

  /** The first 20 characters of each cached line: what the cache says the
      display shows. */
  function Shown(cache: seq<seq<char>>): (rows: seq<seq<char>>)
    requires |cache| == 4 && forall q :: 0 <= q < 4 ==> |cache[q]| == LINE
    ensures |rows| == 4 && forall q :: 0 <= q < 4 ==> rows[q] == cache[q][..COLS]
  {
    [cache[0][..COLS], cache[1][..COLS], cache[2][..COLS], cache[3][..COLS]]
  }

  /** The display together with `last4`/`lastValid`, the copy of the rows last
      drawn through `drawRow`. */
  class LcdUi {
    const lcd: Lcd
    const last4: array2<char>
    var lastValid: bool

    ghost predicate Valid()
      reads this, lcd
    {
      lcd.Valid() && last4.Length0 == 4 && last4.Length1 == LINE
    }

    /** The four cached line buffers. */
    ghost function Cache(): (c: seq<seq<char>>)
      reads this, last4
      requires last4.Length0 == 4 && last4.Length1 == LINE
      ensures |c| == 4 && forall q :: 0 <= q < 4 ==> |c[q]| == LINE
    {
      seq(4, q requires 0 <= q < 4 reads last4 =>
        seq(LINE, i requires 0 <= i < LINE reads last4 => last4[q, i]))
    }

    /** What `drawRow` compares a line with: the cache, or blank rows while
        the cache is not valid yet. */
    ghost function Compared(): (c: seq<seq<char>>)
      reads this, last4
      requires last4.Length0 == 4 && last4.Length1 == LINE
      ensures |c| == 4 && forall q :: 0 <= q < 4 ==> |c[q]| == LINE
    {
      if lastValid then Cache() else BLANK_CACHE
    }

    /** The cache is valid and records what the display shows. */
    ghost predicate Synced()
      reads this, lcd, last4
      requires Valid()
    {
      lastValid && lcd.rows == Shown(Cache())
    }

    /** `uiBegin`: clear the display and fill the cache with blank rows. */
    constructor Begin()
      ensures Valid() && Synced() && fresh(lcd) && fresh(last4)
      ensures lcd.rows == BLANK_SCREEN && lcd.writes == 0 && Cache() == BLANK_CACHE
    {
      lcd := new Lcd.Init();
      last4 := new char[4, LINE];
      new;
      lcd.Clear();
      lastValid := false;
      SetLastBlank();
      BlankIsSynced();
    }

    /** `uiClear`: clear the display and fill the cache with blank rows. */
    method Clear()
      requires Valid()
      modifies this, lcd, last4
      ensures Valid() && Synced()
      ensures lcd.rows == BLANK_SCREEN && lcd.writes == old(lcd.writes) && Cache() == BLANK_CACHE
    {
      lcd.Clear();
      lastValid := false;
      SetLastBlank();
      BlankIsSynced();
    }

    lemma BlankIsSynced()
      requires Valid() && lastValid && lcd.rows == BLANK_SCREEN && Cache() == BLANK_CACHE
      ensures Synced()
    {
      forall q | 0 <= q < 4
        ensures BLANK_SCREEN[q] == BLANK_CACHE[q][..COLS]
      {
        assert BLANK_CACHE[q][..COLS] == BLANK_ROW;
      }
    }

    /** `setLastBlank`: every cached row becomes 20 spaces and a NUL. */
    method SetLastBlank()
      requires Valid()
      modifies this, last4
      ensures Valid() && lastValid && unchanged(lcd)
      ensures Cache() == BLANK_CACHE
    {
      for r := 0 to 4
        invariant forall q, k :: 0 <= q < r && 0 <= k < LINE ==> last4[q, k] == BLANK_LINE[k]
      {
        for i := 0 to COLS
          invariant forall q, k :: 0 <= q < r && 0 <= k < LINE ==> last4[q, k] == BLANK_LINE[k]
          invariant forall k :: 0 <= k < i ==> last4[r, k] == ' '
        {
          last4[r, i] := ' ';
        }
        last4[r, COLS] := NUL;
      }
      lastValid := true;
      forall q | 0 <= q < 4
        ensures Cache()[q] == BLANK_CACHE[q]
      {
        assert forall k :: 0 <= k < LINE ==> Cache()[q][k] == BLANK_CACHE[q][k];
      }
    }

    /** The `memcmp` of `drawRow`: the first 20 characters of cached row `r`
        against `line`. */
    method SameAsCached(r: nat, line: array<char>) returns (same: bool)
      requires Valid() && r < 4 && line.Length == LINE
      ensures same <==> Cache()[r][..COLS] == line[..COLS]
    {
      var i := 0;
      while i < COLS && last4[r, i] == line[i]
        invariant 0 <= i <= COLS
        invariant forall k :: 0 <= k < i ==> last4[r, k] == line[k]
      {
        i := i + 1;
      }
      same := i == COLS;
      if !same {
        assert Cache()[r][..COLS][i] != line[..COLS][i];
      }
    }

    /** The write loop of `drawRow`: the 20 characters of `line` on row `r`. */
    method WriteRow(r: nat, line: array<char>)
      requires Valid() && r < 4 && line.Length == LINE
      modifies lcd
      ensures Valid()
      ensures lcd.rows == old(lcd.rows)[r := line[..COLS]] && lcd.writes == old(lcd.writes) + COLS
    {
      lcd.SetCursor(0, r);
      for i := 0 to COLS
        invariant lcd.Valid() && lcd.row == r && lcd.col == i
        invariant lcd.writes == old(lcd.writes) + i
        invariant forall q :: 0 <= q < 4 && q != r ==> lcd.rows[q] == old(lcd.rows[q])
        invariant forall k :: 0 <= k < i ==> lcd.rows[r][k] == line[k]
      {
        lcd.Write(line[i]);
      }
      assert lcd.rows[r] == line[..COLS];
      assert lcd.rows == old(lcd.rows)[r := line[..COLS]];
    }

    /** The `memcpy` of `drawRow`: all 21 characters of `line` into row `r`
        of the cache. */
    method CopyToCache(r: nat, line: array<char>)
      requires Valid() && r < 4 && line.Length == LINE
      modifies last4
      ensures Cache() == old(Cache())[r := line[..]]
    {
      for i := 0 to LINE
        invariant forall k :: 0 <= k < i ==> last4[r, k] == line[k]
        invariant forall q, k :: 0 <= q < 4 && q != r && 0 <= k < LINE ==> last4[q, k] == old(last4[q, k])
      {
        last4[r, i] := line[i];
      }
      assert Cache()[r] == line[..];
      forall q | 0 <= q < 4 && q != r
        ensures Cache()[q] == old(Cache())[q]
      {
        assert forall k :: 0 <= k < LINE ==> Cache()[q][k] == old(Cache())[q][k];
      }
    }

    /** `drawRow`: unless the cached row already holds the line's 20
        characters, write them to the display and copy the line into the
        cache. From a synced cache, the display then shows the line and the
        cache stays synced. */
    method DrawRow(r: nat, line: array<char>)
      requires Valid() && r < 4 && line.Length == LINE
      modifies this, lcd, last4
      ensures Valid() && lastValid
      ensures DrawnRow(old(Compared()), old(lcd.rows), old(lcd.writes),
                       r, old(line[..]), Cache(), lcd.rows, lcd.writes)
      ensures old(Synced()) ==>
                Synced() && lcd.rows == old(lcd.rows)[r := line[..COLS]]
                && lcd.writes == old(lcd.writes) + (if old(lcd.rows[r]) == line[..COLS] then 0 else COLS)
    {
      if !lastValid {
        SetLastBlank();
      }
      var same := SameAsCached(r, line);
      if !same {
        WriteRow(r, line);
        CopyToCache(r, line);
      }
      assert line[..][..COLS] == line[..COLS];
      if old(Synced()) {
        SyncedAfterDraw(old(lcd.rows), old(Cache()), r, line[..]);
      }
    }

    /** Drawing a row keeps a synced cache synced. */
    static lemma SyncedAfterDraw(rows: seq<seq<char>>, cache: seq<seq<char>>, r: nat, line: seq<char>)
      requires |cache| == 4 && (forall q :: 0 <= q < 4 ==> |cache[q]| == LINE)
      requires r < 4 && |line| == LINE && rows == Shown(cache)
      ensures Shown(cache[r := line]) == rows[r := line[..COLS]]
      ensures cache[r][..COLS] == line[..COLS] ==> rows[r := line[..COLS]] == rows
    {
    }

    /** `draw4`: draw the four rows in order. Each row is compared with its
        cached copy (all blank when the cache is not yet valid): a row that
        matches is left alone, any other is written to the display and
        cached, at 20 writes a row. From a synced cache the display ends up
        showing the four lines and the cache stays synced. */
    method Draw4(l0: array<char>, l1: array<char>, l2: array<char>, l3: array<char>)
      requires Valid() && l0.Length == LINE && l1.Length == LINE && l2.Length == LINE && l3.Length == LINE
      modifies this, lcd, last4
      ensures Valid() && lastValid
      ensures var before := old(Compared());
              var full := [l0[..], l1[..], l2[..], l3[..]];
              && Cache() == Redrawn(before, full, 4)
              && lcd.rows == RedrawnRows(old(lcd.rows), before, full, 4)
              && lcd.writes == old(lcd.writes) + COLS * ChangedRows(Shown(before), Shown(full))
      ensures var lines := [l0[..COLS], l1[..COLS], l2[..COLS], l3[..COLS]];
              old(Synced()) ==>
                Synced() && lcd.rows == lines
                && lcd.writes == old(lcd.writes) + COLS * ChangedRows(old(lcd.rows), lines)
    {
      ghost var full := [l0[..], l1[..], l2[..], l3[..]];
      ghost var synced0 := Synced();
      assert Shown(full) == [l0[..COLS], l1[..COLS], l2[..COLS], l3[..COLS]];
      ghost var before, rows0 := Compared(), lcd.rows;
      DrawEach([l0, l1, l2, l3], full);
      ChangedAmongFour(before, full);
      if synced0 {
        RedrawnSynced(rows0, before, full);
      }
    }

    /** The four `drawRow` calls of `draw4`, in row order, written as a loop
        over the rows: row `r` is drawn from the line buffer `ls[r]`, whose
        contents are `full[r]`. */
    method DrawEach(ls: seq<array<char>>, ghost full: seq<seq<char>>)
      requires Valid() && |ls| == |full| == 4
      requires forall k :: 0 <= k < 4 ==> ls[k].Length == LINE && ls[k][..] == full[k]
      modifies this, lcd, last4
      ensures Valid() && lastValid
      ensures var before := old(Compared());
              && Cache() == Redrawn(before, full, 4)
              && lcd.rows == RedrawnRows(old(lcd.rows), before, full, 4)
              && lcd.writes == old(lcd.writes) + COLS * ChangedAmong(before, full, 4)
    {
      ghost var before, rows0, writes0 := Compared(), lcd.rows, lcd.writes;
      RedrawnNone(rows0, before, full);
      for r := 0 to 4
        invariant Valid() && (r > 0 ==> lastValid) && (r == 0 ==> lastValid == old(lastValid))
        invariant Compared() == Redrawn(before, full, r)
        invariant lcd.rows == RedrawnRows(rows0, before, full, r)
        invariant lcd.writes == writes0 + COLS * ChangedAmong(before, full, r)
      {
        ghost var w := lcd.writes;
        DrawRow(r, ls[r]);
        RedrawnAdvance(rows0, before, full, r, w, Cache(), lcd.rows, lcd.writes);
      }
    }

    /** `uiPrintHex2`: the two hex digits of `v` at the cursor. */
    method PrintHex2(v: u8)
      requires Valid() && lcd.col + 2 <= COLS
      modifies lcd
      ensures Valid() && lcd.row == old(lcd.row) && lcd.col == old(lcd.col) + 2
      ensures lcd.writes == old(lcd.writes) + 2
      ensures lcd.rows == old(lcd.rows[lcd.row := lcd.rows[lcd.row][lcd.col := Hex2(v)[0]][lcd.col + 1 := Hex2(v)[1]]])
    {
      lcd.Write(HEX_DIGITS[v / 16]);
      lcd.Write(HEX_DIGITS[v % 16]);
    }

    /** `uiDrawLcdTestRow`: a full row showing `base` in hex, a colon, a space
        and the 16 character codes from `base` on. */
    method DrawLcdTestRow(r: nat, base: u8)
      requires Valid() && r < 4
      modifies lcd
      ensures Valid() && lcd.rows == old(lcd.rows)[r := TestRow(base)]
      ensures lcd.writes == old(lcd.writes) + COLS
    {
      lcd.SetCursor(0, r);
      ghost var screen := lcd.rows;
      ghost var want := TestRow(base);
      PrintHex2(base);
      lcd.Write(':');
      lcd.Write(' ');
      for i := 0 to 16
        modifies lcd
        invariant lcd.Valid() && lcd.row == r && lcd.col == 4 + i
        invariant lcd.writes == old(lcd.writes) + 4 + i
        invariant forall q :: 0 <= q < 4 && q != r ==> lcd.rows[q] == screen[q]
        invariant forall k :: 0 <= k < 4 + i ==> lcd.rows[r][k] == want[k]
      {
        lcd.Write(ToU8(base + i) as char);
      }
      assert lcd.rows[r] == want;
      assert lcd.rows == screen[r := want];
    }

    /** `uiDrawLcdTest`: clear the display and show four test rows. The cache
        is left as it was. */
    method DrawLcdTest(base: u8)
      requires Valid()
      modifies lcd
      ensures Valid() && lcd.rows == TestScreen(base)
      ensures lcd.writes == old(lcd.writes) + 4 * COLS
    {
      lcd.Clear();
      DrawLcdTestRow(0, RowBase(base, 0));
      DrawLcdTestRow(1, RowBase(base, 1));
      DrawLcdTestRow(2, RowBase(base, 2));
      DrawLcdTestRow(3, RowBase(base, 3));
    }
  }

  /** `pad20`: the first 20 characters of `s` (up to its NUL), spaces after,
      and a NUL. */
  method Pad20(out: array<char>, s: string)
    requires out.Length == LINE
    modifies out
    ensures out[..] == Padded(s, COLS) + [NUL]
  {
    PadInto(out, s, COLS);
  }

  /** A padded line keeps the text of `s` up to its NUL (or 20 characters),
      and is spaces from there on. */
  lemma PaddedLine(s: string, i: nat)
    requires i < COLS
    ensures |Padded(s, COLS) + [NUL]| == LINE
    ensures (Padded(s, COLS) + [NUL])[i] == if i < StrLen(s, NUL) then s[i] else ' '
  {
    PaddedAt(s, COLS, i);
  }

  /** A fresh line buffer filled by `pad20`. */
  method NewLine(t: string) returns (line: array<char>)
    ensures fresh(line) && line.Length == LINE && line[..COLS] == Padded(t, COLS)
  {
    line := new char[LINE];
    Pad20(line, t);
    assert line[..COLS] == (Padded(t, COLS) + [NUL])[..COLS];
  }

  // ---- the x100 values on screen ----

  /** C `/` by 100 on a signed value: the quotient truncated toward zero. */
  function Quot100(a: int): int
  {
    if a >= 0 then a / 100 else -((-a) / 100)
  }

  /** C `%` by 100 on a signed value: the remainder takes the sign of `a`. */
  function Rem100(a: int): int
  {
    a - 100 * Quot100(a)
  }

  /** The Arduino `abs` macro on an `int32_t`: negation wraps at INT32_MIN. */
  function Abs32(v: i32): i32
  {
    if v > 0 then v else ToI32(-(v as int))
  }

  /** The whole part `v / 100` and the two fraction digits `abs(v) % 100`
      printed as "%ld.%02ld". */
  function SplitX100(v: i32): (r: (i32, i32))
    ensures v != INT32_MIN ==> 0 <= r.1 <= 99
    ensures v >= 0 ==> r.0 * 100 + r.1 == v
    ensures v < 0 && v != INT32_MIN ==> r.0 * 100 - r.1 == v && r.0 <= 0
    ensures v == INT32_MIN ==> r == (-21474836, -48)
  {
    (Quot100(v), Rem100(Abs32(v)))
  }

  /** Between -0.99 and -0.01 the whole part is 0, so the printed text loses
      its minus sign and reads like the positive value. */
  lemma SmallNegativeLosesSign(v: i32)
    requires -100 < v < 0
    ensures SplitX100(v) == SplitX100(-v)
  {
  }

  /** The split never rounds: whole part and fraction name `v` exactly. */
  lemma {:induction false} SplitIsExact(v: i32, w: i32)
    requires v != INT32_MIN && w != INT32_MIN && (v >= 0) == (w >= 0)
    requires SplitX100(v) == SplitX100(w)
    ensures v == w
  {
    var r := SplitX100(v);
    if v >= 0 {
      assert v == r.0 * 100 + r.1 == w;
    } else {
      assert v == r.0 * 100 - r.1 == w;
    }
  }

  // ---- hex and the character test pattern ----

  const HEX_DIGITS: seq<char> := "0123456789ABCDEF"

  /** The two hex digits of a byte, high nibble first. */
  function Hex2(v: u8): (h: seq<char>)
    ensures |h| == 2
    ensures forall k :: 0 <= k < 2 ==> '0' <= h[k] <= '9' || 'A' <= h[k] <= 'F'
  {
    [HEX_DIGITS[v / 16], HEX_DIGITS[v % 16]]
  }

  /** The value of a hex digit, -1 for any other character. */
  function HexValue(c: char): (d: int)
    ensures -1 <= d < 16
  {
    if '0' <= c <= '9' then c as int - '0' as int
    else if 'A' <= c <= 'F' then c as int - 'A' as int + 10
    else -1
  }

  lemma HexDigitValue(d: nat)
    requires d < 16
    ensures HexValue(HEX_DIGITS[d]) == d
  {
  }

  /** Reading the two digits back gives the byte. */
  lemma Hex2RoundTrip(v: u8)
    ensures HexValue(Hex2(v)[0]) * 16 + HexValue(Hex2(v)[1]) == v
  {
    HexDigitValue(v / 16);
    HexDigitValue(v % 16);
  }

  /** One test row: `base` in hex, ": ", then codes `base`..`base + 15`
      modulo 256. */
  function TestRow(base: u8): (s: seq<char>)
    ensures |s| == COLS
  {
    Hex2(base) + [':', ' '] + seq(16, i requires 0 <= i < 16 => ToU8(base + i) as char)
  }

  /** The base code of test row `k`: `(uint8_t)(base + 0x10 * k)`. */
  function RowBase(base: u8, k: nat): (b: u8)
    ensures b as int == (base + 16 * k) % 256
  {
    ToU8(base + 0x10 * k)
  }

  /** The four rows of `uiDrawLcdTest`. */
  function TestScreen(base: u8): (s: seq<seq<char>>)
    ensures |s| == 4 && forall k :: 0 <= k < 4 ==> s[k] == TestRow(RowBase(base, k))
  {
    seq(4, k requires 0 <= k < 4 => TestRow(RowBase(base, k)))
  }

  /** The code shown at column `c` of a test row: `base + c - 4`, modulo 256. */
  lemma TestRowCode(base: u8, c: nat)
    requires 4 <= c < COLS
    ensures TestRow(base)[c] == ((base + c - 4) % 256) as char
  {
    assert TestRow(base)[c] == ToU8(base + (c - 4)) as char;
  }

  lemma TestRowCodeAt(b: u8, a: nat, c: nat)
    requires 4 <= c < COLS && b as int == a % 256
    ensures TestRow(b)[c] == ((a + c - 4) % 256) as char
  {
    TestRowCode(b, c);
    ModSum(a, c - 4);
  }

  /** The test screen shows 64 consecutive character codes, wrapping at 256,
      each row labelled with its first code. */
  lemma TestScreenShowsConsecutiveCodes(base: u8)
    ensures forall k, c :: 0 <= k < 4 && 4 <= c < COLS ==>
              TestScreen(base)[k][c] == ((base + 16 * k + c - 4) % 256) as char
    ensures forall k :: 0 <= k < 4 ==> TestScreen(base)[k][..2] == Hex2(((base + 16 * k) % 256) as u8)
  {
    forall k, c | 0 <= k < 4 && 4 <= c < COLS
      ensures TestScreen(base)[k][c] == ((base + 16 * k + c - 4) % 256) as char
    {
      TestRowCodeAt(RowBase(base, k), base + 16 * k, c);
    }
  }

  lemma ModSum(a: nat, i: nat)
    ensures (a % 256 + i) % 256 == (a + i) % 256
  {
  }
}
