/**
 * The word search game: hiding words in a square of letters, finding one of them again for a hint,
 * and matching the letters a player dragged over.
 */
module WordSearchGrid {
  import opened Prelude

  const GRID_SIZE := 15
  const ATTEMPTS := 100
  const DIRECTIONS: seq<(int, int)> := [(0, 1), (1, 0), (1, 1), (1, -1), (0, -1), (-1, 0), (-1, 1), (-1, -1)]

  datatype Cell = Blank | Letter(c: char)

  datatype CellRef = CellRef(row: int, col: int)

  /** Where a word starts, and the index of its direction. */
  datatype Run = Run(row: int, col: int, dir: nat)

  predicate IsLetter(c: char) {
    'A' <= c <= 'Z'
  }

  /** All that is used of `normalizeWord`: its results are made of the letters A to Z. */
  ghost predicate IntoLetters(normalize: string -> string) {
    forall raw, i :: 0 <= i < |normalize(raw)| ==> IsLetter(normalize(raw)[i])
  }

  // ----- Straight runs of cells

  function At(run: Run, i: int): CellRef
    requires run.dir < |DIRECTIONS|
  {
    CellRef(run.row + DIRECTIONS[run.dir].0 * i, run.col + DIRECTIONS[run.dir].1 * i)
  }

  predicate OnGrid(cell: CellRef, size: nat) {
    0 <= cell.row < size && 0 <= cell.col < size
  }

  /** The run starts and ends on the grid. */
  predicate Fits(run: Run, length: nat, size: nat) {
    run.dir < |DIRECTIONS| && OnGrid(CellRef(run.row, run.col), size) && OnGrid(At(run, length - 1), size)
  }

  lemma Straight(run: Run, length: nat, size: nat, i: int)
    requires Fits(run, length, size) && 0 <= i < length
    ensures OnGrid(At(run, i), size)
  {
    var (dx, dy) := DIRECTIONS[run.dir];
    assert -1 <= dx <= 1 && -1 <= dy <= 1;
  }

  lemma NeverTwice(run: Run, i: int, j: int)
    requires run.dir < |DIRECTIONS| && i != j
    ensures At(run, i) != At(run, j)
  {
    var (dx, dy) := DIRECTIONS[run.dir];
    assert dx == 1 || dx == -1 || dy == 1 || dy == -1;
  }

  ghost predicate Covers(run: Run, length: nat, row: int, col: int) {
    run.dir < |DIRECTIONS| && exists i :: 0 <= i < length && At(run, i) == CellRef(row, col)
  }

  predicate Square(grid: array2<Cell>) {
    grid.Length0 == grid.Length1
  }

  function CellAt(grid: array2<Cell>, cell: CellRef): Cell
    requires Square(grid) && OnGrid(cell, grid.Length0)
    reads grid
  {
    grid[cell.row, cell.col]
  }

  ghost predicate Spelled(grid: array2<Cell>, word: string, run: Run)
    requires Square(grid)
    reads grid
  {
    && Fits(run, |word|, grid.Length0)
    && forall i :: 0 <= i < |word| ==> OnGrid(At(run, i), grid.Length0) && CellAt(grid, At(run, i)) == Letter(word[i])
  }

  /** Off the grid, or across a different letter. */
  ghost predicate Blocked(grid: array2<Cell>, word: string, run: Run)
    requires Square(grid)
    reads grid
  {
    Fits(run, |word|, grid.Length0) ==>
      exists i :: 0 <= i < |word| && OnGrid(At(run, i), grid.Length0)
                  && CellAt(grid, At(run, i)) != Blank && CellAt(grid, At(run, i)) != Letter(word[i])
  }

  /** Letters stay; a blank cell is filled only where `where` allows. */
  twostate predicate Grown(grid: array2<Cell>, place: (int, int) -> bool)
    requires Square(grid)
    reads grid
  {
    forall row, col :: 0 <= row < grid.Length0 && 0 <= col < grid.Length0 ==>
      grid[row, col] == old(grid[row, col]) || (old(grid[row, col]) == Blank && place(row, col))
  }

  twostate predicate Kept(grid: array2<Cell>)
    requires Square(grid)
    reads grid
  {
    forall row, col :: 0 <= row < grid.Length0 && 0 <= col < grid.Length0 && old(grid[row, col]) != Blank ==>
      grid[row, col] == old(grid[row, col])
  }

  /** What is spelled stays spelled, and what is blocked stays blocked. */
  twostate lemma GrowthKeeps(grid: array2<Cell>)
    requires Square(grid) && Kept(grid)
    ensures forall word, run :: old(Spelled(grid, word, run)) ==> Spelled(grid, word, run)
    ensures forall word, run :: old(Blocked(grid, word, run)) ==> Blocked(grid, word, run)
  {
    forall word, run | old(Blocked(grid, word, run)) ensures Blocked(grid, word, run) {
      if Fits(run, |word|, grid.Length0) {
        var i :| 0 <= i < |word| && OnGrid(At(run, i), grid.Length0)
                 && old(CellAt(grid, At(run, i))) != Blank && old(CellAt(grid, At(run, i))) != Letter(word[i]);
        assert CellAt(grid, At(run, i)) == old(CellAt(grid, At(run, i)));
      }
    }
  }

  // ----- Hiding the words

  method CanPlace(grid: array2<Cell>, word: string, run: Run) returns (fits: bool)
    requires Square(grid) && run.dir < |DIRECTIONS| && OnGrid(CellRef(run.row, run.col), grid.Length0)
    ensures fits <==> !Blocked(grid, word, run)
  {
    var last := At(run, |word| - 1);
    if last.row < 0 || last.row >= grid.Length0 { return false; }
    if last.col < 0 || last.col >= grid.Length0 { return false; }
    for i := 0 to |word|
      invariant forall k :: 0 <= k < i ==>
                  && OnGrid(At(run, k), grid.Length0)
                  && (CellAt(grid, At(run, k)) == Blank || CellAt(grid, At(run, k)) == Letter(word[k]))
    {
      Straight(run, |word|, grid.Length0, i);
      var c := CellAt(grid, At(run, i));
      if c != Blank && c != Letter(word[i]) { return false; }
    }
    return true;
  }

  method PlaceWord(grid: array2<Cell>, word: string, run: Run)
    requires Square(grid) && Fits(run, |word|, grid.Length0) && !Blocked(grid, word, run)
    modifies grid
    ensures Spelled(grid, word, run)
    ensures Grown(grid, (row, col) => Covers(run, |word|, row, col))
  {
    forall i | 0 <= i < |word| ensures OnGrid(At(run, i), grid.Length0) {
      Straight(run, |word|, grid.Length0, i);
    }
    for i := 0 to |word|
      invariant Grown(grid, (row, col) => Covers(run, |word|, row, col))
      invariant forall k :: 0 <= k < i ==> CellAt(grid, At(run, k)) == Letter(word[k])
    {
      var cell := At(run, i);
      forall k | 0 <= k < i ensures At(run, k) != cell { NeverTwice(run, k, i); }
      grid[cell.row, cell.col] := Letter(word[i]);
      assert Covers(run, |word|, cell.row, cell.col);
    }
  }

  /** The random numbers of an attempt: a start on the grid and a direction. */
  ghost predicate Draws(draw: (nat, nat) -> Run) {
    forall n, attempt :: draw(n, attempt).dir < |DIRECTIONS|
                         && OnGrid(CellRef(draw(n, attempt).row, draw(n, attempt).col), GRID_SIZE)
  }

  ghost predicate Drawn(draw: (nat, nat) -> Run, n: nat, run: Run) {
    exists attempt: nat :: attempt < ATTEMPTS && run == draw(n, attempt)
  }

  /** Up to 100 attempts at placing word number `n` of the list. */
  method TryPlace(grid: array2<Cell>, word: string, n: nat, draw: (nat, nat) -> Run)
    returns (placed: bool, ghost run: Run)
    requires grid.Length0 == grid.Length1 == GRID_SIZE && Draws(draw)
    modifies grid
    ensures placed ==> Drawn(draw, n, run)
    ensures placed ==> Spelled(grid, word, run) && Grown(grid, (row, col) => Covers(run, |word|, row, col))
    ensures !placed ==> Grown(grid, (row, col) => false)
    ensures !placed ==> forall attempt: nat :: attempt < ATTEMPTS ==> Blocked(grid, word, draw(n, attempt))
  {
    run := Run(0, 0, 0);
    for attempt := 0 to ATTEMPTS
      invariant forall row, col :: 0 <= row < GRID_SIZE && 0 <= col < GRID_SIZE ==>
                  grid[row, col] == old(grid[row, col])
      invariant forall k: nat :: k < attempt ==> Blocked(grid, word, draw(n, k))
    {
      var drawn := draw(n, attempt);
      var fits := CanPlace(grid, word, drawn);
      if fits {
        PlaceWord(grid, word, drawn);
        return true, drawn;
      }
    }
    return false, run;
  }

  /** Each word reported as placed, its place in the list, and where it is. */
  ghost predicate Hides(grid: array2<Cell>, normalize: string -> string, wordList: seq<string>, placed: seq<string>,
                        picks: seq<nat>, runs: seq<Run>)
    requires Square(grid)
    reads grid
  {
    && |placed| == |picks| == |runs|
    && (forall k :: 0 <= k < |picks| ==> picks[k] < |wordList| && placed[k] == wordList[picks[k]])
    && (forall j, k :: 0 <= j < k < |picks| ==> picks[j] < picks[k])
    && (forall k :: 0 <= k < |placed| ==> 2 <= |normalize(placed[k])| <= GRID_SIZE)
    && (forall k :: 0 <= k < |placed| ==> Spelled(grid, normalize(placed[k]), runs[k]))
  }

  /** The cell belongs to a placed word. */
  ghost predicate Written(normalize: string -> string, placed: seq<string>, runs: seq<Run>, row: int, col: int) {
    exists k :: 0 <= k < |placed| && k < |runs| && Covers(runs[k], |normalize(placed[k])|, row, col)
  }

  /** A word of a legal length was left out because none of its attempts is possible. */
  ghost predicate GivenUp(grid: array2<Cell>, word: string, w: nat, draw: (nat, nat) -> Run)
    requires Square(grid)
    reads grid
  {
    2 <= |word| <= GRID_SIZE ==> forall attempt: nat :: attempt < ATTEMPTS ==> Blocked(grid, word, draw(w, attempt))
  }

  /** What the first `n` words of the list led to. */
  ghost predicate Placed(grid: array2<Cell>, normalize: string -> string, wordList: seq<string>, n: nat,
                         draw: (nat, nat) -> Run, placed: seq<string>, picks: seq<nat>, runs: seq<Run>)
    requires Square(grid)
    reads grid
  {
    && Hides(grid, normalize, wordList, placed, picks, runs)
    && (forall k :: 0 <= k < |picks| ==> picks[k] < n)
    && (forall k :: 0 <= k < |picks| ==> Drawn(draw, picks[k], runs[k]))
    && (forall w: nat :: w < n && w < |wordList| && w !in picks ==> GivenUp(grid, normalize(wordList[w]), w, draw))
  }

  /** One more word: placed, or given up. */
  lemma NextPlaced(grid: array2<Cell>, normalize: string -> string, wordList: seq<string>, n: nat,
                   draw: (nat, nat) -> Run,
                   placed: seq<string>, picks: seq<nat>, runs: seq<Run>, run: Run)
    requires Square(grid) && Placed(grid, normalize, wordList, n, draw, placed, picks, runs) && n < |wordList|
    requires 2 <= |normalize(wordList[n])| <= GRID_SIZE
    requires Spelled(grid, normalize(wordList[n]), run) && Drawn(draw, n, run)
    ensures Placed(grid, normalize, wordList, n + 1, draw, placed + [wordList[n]], picks + [n], runs + [run])
  {
    assert (picks + [n])[|picks|] == n;
  }

  /** A letter only where a placed word put one. */
  ghost predicate OnlyWords(grid: array2<Cell>, normalize: string -> string, placed: seq<string>, runs: seq<Run>)
    requires Square(grid)
    reads grid
  {
    forall row, col :: 0 <= row < grid.Length0 && 0 <= col < grid.Length0 && grid[row, col] != Blank ==>
      IsLetter(grid[row, col].c) && Written(normalize, placed, runs, row, col)
  }

  lemma StillWritten(normalize: string -> string, placed: seq<string>, runs: seq<Run>, word: string, run: Run,
                     row: int, col: int)
    requires |placed| == |runs|
    ensures Written(normalize, placed + [word], runs + [run], row, col)
        <==> Written(normalize, placed, runs, row, col) || Covers(run, |normalize(word)|, row, col)
  {
    var placed', runs' := placed + [word], runs + [run];
    assert placed'[|placed|] == word && runs'[|runs|] == run;
    if Written(normalize, placed, runs, row, col) {
      var k :| 0 <= k < |placed| && k < |runs| && Covers(runs[k], |normalize(placed[k])|, row, col);
      assert placed'[k] == placed[k] && runs'[k] == runs[k];
    }
  }

  /** Tries to place one more word of the list, without touching the letters already there. */
  method HideWord(grid: array2<Cell>, wordList: seq<string>, n: nat, normalize: string -> string,
                  draw: (nat, nat) -> Run,
                  ghost before: seq<string>, ghost picks: seq<nat>, ghost runs: seq<Run>)
    returns (done: bool, ghost run: Run)
    requires grid.Length0 == grid.Length1 == GRID_SIZE && Draws(draw) && n < |wordList|
    requires 2 <= |normalize(wordList[n])| <= GRID_SIZE
    requires Placed(grid, normalize, wordList, n, draw, before, picks, runs)
    modifies grid
    ensures Grown(grid, (row, col) => done && Covers(run, |normalize(wordList[n])|, row, col))
    ensures done ==> Placed(grid, normalize, wordList, n + 1, draw, before + [wordList[n]], picks + [n], runs + [run])
    ensures !done ==> Placed(grid, normalize, wordList, n + 1, draw, before, picks, runs)
  {
    done, run := TryPlace(grid, normalize(wordList[n]), n, draw);
    GrowthKeeps(grid);
    forall w: nat | w < n && w !in picks ensures GivenUp(grid, normalize(wordList[w]), w, draw) {
      assert old(GivenUp(grid, normalize(wordList[w]), w, draw));
    }
    if done {
      NextPlaced(grid, normalize, wordList, n, draw, before, picks, runs, run);
    }
  }

  method HideWords(grid: array2<Cell>, wordList: seq<string>, normalize: string -> string, draw: (nat, nat) -> Run)
    returns (placed: seq<string>, ghost picks: seq<nat>, ghost runs: seq<Run>)
    requires grid.Length0 == grid.Length1 == GRID_SIZE && IntoLetters(normalize) && Draws(draw)
    requires forall row, col :: 0 <= row < GRID_SIZE && 0 <= col < GRID_SIZE ==> grid[row, col] == Blank
    modifies grid
    ensures Placed(grid, normalize, wordList, |wordList|, draw, placed, picks, runs)
    ensures OnlyWords(grid, normalize, placed, runs)
  {
    placed, picks, runs := [], [], [];
    for n := 0 to |wordList|
      invariant Placed(grid, normalize, wordList, n, draw, placed, picks, runs)
      invariant OnlyWords(grid, normalize, placed, runs)
    {
      var word := normalize(wordList[n]);
      if |word| <= 1 || |word| > GRID_SIZE { continue; }
      var done; ghost var run;
      done, run := HideWord(grid, wordList, n, normalize, draw, placed, picks, runs);
      if done {
        forall row, col { StillWritten(normalize, placed, runs, wordList[n], run, row, col); }
        placed, picks, runs := placed + [wordList[n]], picks + [n], runs + [run];
      }
    }
  }

  method GenerateGrid(wordList: seq<string>, normalize: string -> string, draw: (nat, nat) -> Run,
                      fill: (nat, nat) -> char)
    returns (grid: array2<Cell>, placed: seq<string>, ghost picks: seq<nat>, ghost runs: seq<Run>)
    requires IntoLetters(normalize) && Draws(draw) && forall i, j :: IsLetter(fill(i, j))
    ensures fresh(grid) && grid.Length0 == grid.Length1 == GRID_SIZE
    ensures forall row, col :: 0 <= row < GRID_SIZE && 0 <= col < GRID_SIZE ==>
              grid[row, col].Letter? && IsLetter(grid[row, col].c)
    ensures Placed(grid, normalize, wordList, |wordList|, draw, placed, picks, runs)
    ensures forall row: nat, col: nat :: row < GRID_SIZE && col < GRID_SIZE ==>
              Written(normalize, placed, runs, row, col) || grid[row, col] == Letter(fill(row, col))
  {
    grid := new Cell[GRID_SIZE, GRID_SIZE]((i, j) => Blank);
    placed, picks, runs := HideWords(grid, wordList, normalize, draw);
    label Hidden:
    FillBlanks(grid, fill);
    GrowthKeeps@Hidden(grid);
    forall w: nat | w < |wordList| && w !in picks ensures GivenUp(grid, normalize(wordList[w]), w, draw) {
      assert old@Hidden(GivenUp(grid, normalize(wordList[w]), w, draw));
    }
  }

  method FillBlanks(grid: array2<Cell>, fill: (nat, nat) -> char)
    requires grid.Length0 == grid.Length1 == GRID_SIZE
    modifies grid
    ensures forall row: nat, col: nat :: row < GRID_SIZE && col < GRID_SIZE ==>
              grid[row, col] == if old(grid[row, col]) == Blank then Letter(fill(row, col)) else old(grid[row, col])
  {
    for i := 0 to GRID_SIZE
      invariant forall row: nat, col: nat :: row < GRID_SIZE && col < GRID_SIZE ==>
                  grid[row, col] == if row < i && old(grid[row, col]) == Blank then Letter(fill(row, col))
                                    else old(grid[row, col])
    {
      for j := 0 to GRID_SIZE
        invariant forall row: nat, col: nat :: row < GRID_SIZE && col < GRID_SIZE ==>
                    grid[row, col] == if (row < i || (row == i && col < j)) && old(grid[row, col]) == Blank
                                      then Letter(fill(row, col)) else old(grid[row, col])
      {
        if grid[i, j] == Blank {
          grid[i, j] := Letter(fill(i, j));
        }
      }
    }
  }

  // ----- Finding a word again

  function RunCells(run: Run, length: nat): (cells: seq<CellRef>)
    requires run.dir < |DIRECTIONS|
    ensures |cells| == length
    ensures forall i :: 0 <= i < length ==> cells[i] == At(run, i)
  {
    seq(length, i requires 0 <= i => At(run, i))
  }

  /** The scan order: row, column, direction. */
  ghost predicate Before(a: Run, b: Run) {
    a.row < b.row || (a.row == b.row && (a.col < b.col || (a.col == b.col && a.dir < b.dir)))
  }

  ghost predicate NoneBefore(grid: array2<Cell>, word: string, end: Run)
    requires Square(grid)
    reads grid
  {
    forall run :: Before(run, end) ==> !Spelled(grid, word, run)
  }

  /** The first straight run spelling the word in scan order, or none because there is none anywhere. */
  method FindWordInGrid(grid: array2<Cell>, word: string) returns (cells: Option<seq<CellRef>>)
    requires Square(grid)
    ensures cells.None? <==> forall run :: !Spelled(grid, word, run)
    ensures cells.Some? ==>
              exists run: Run :: Spelled(grid, word, run) && NoneBefore(grid, word, run)
                  && cells.value == RunCells(run, |word|)
  {
    var size := grid.Length0;
    for row := 0 to size
      invariant NoneBefore(grid, word, Run(row, 0, 0))
    {
      for col := 0 to size
        invariant NoneBefore(grid, word, Run(row, col, 0))
      {
        for dir := 0 to |DIRECTIONS|
          invariant NoneBefore(grid, word, Run(row, col, dir))
        {
          var run := Run(row, col, dir);
          var last := At(run, |word| - 1);
          if last.row < 0 || last.row >= size || last.col < 0 || last.col >= size { continue; }
          forall i | 0 <= i < |word| ensures OnGrid(At(run, i), size) { Straight(run, |word|, size, i); }
          var line := RunCells(run, |word|);
          if forall i :: 0 <= i < |word| ==> grid[line[i].row, line[i].col] == Letter(word[i]) {
            assert Spelled(grid, word, run);
            return Some(line);
          }
        }
      }
    }
    return None;
  }

  // ----- Matching a selection

  function Remaining(words: seq<string>, found: seq<string>): (r: seq<string>)
    ensures forall w :: w in r <==> w in words && w !in found
    decreases |words|
  {
    if words == [] then []
    else if words[0] in found then Remaining(words[1..], found)
    else [words[0]] + Remaining(words[1..], found)
  }

  function Find(words: seq<string>, normalize: string -> string, letters: string): (r: Option<string>)
    ensures r.None? <==> forall w :: w in words ==> normalize(w) != letters
    ensures r.Some? ==> r.value in words && normalize(r.value) == letters
    decreases |words|
  {
    if words == [] then None
    else if normalize(words[0]) == letters then Some(words[0])
    else Find(words[1..], normalize, letters)
  }

  function Reversed(s: string): (r: string)
    ensures |r| == |s| && forall i :: 0 <= i < |s| ==> r[i] == s[|s| - 1 - i]
  {
    seq(|s|, i requires 0 <= i < |s| => s[|s| - 1 - i])
  }

  function MatchSelectedWord(normalize: string -> string, words: seq<string>, selected: string,
                             found: seq<string>): Option<string>
  {
    var remaining := Remaining(words, found);
    match Find(remaining, normalize, selected)
    case Some(word) => Some(word)
    case None => Find(remaining, normalize, Reversed(selected))
  }

  lemma ReversedTwice(s: string)
    ensures Reversed(Reversed(s)) == s
  {
  }

  /** A word still to find whose letters read `letters` forwards, or backwards. */
  ghost predicate Reads(normalize: string -> string, words: seq<string>, found: seq<string>, word: string,
                        letters: string)
  {
    word in words && word !in found && normalize(word) == letters
  }

  /** Place `k` holds the first word of the list still to find that reads `letters`. */
  ghost predicate FirstReads(normalize: string -> string, words: seq<string>, found: seq<string>, k: int,
                             letters: string)
  {
    && 0 <= k < |words| && Reads(normalize, words, found, words[k], letters)
    && forall j :: 0 <= j < k ==> !Reads(normalize, words, found, words[j], letters)
  }

  lemma {:induction false} FindsTheFirst(normalize: string -> string, words: seq<string>, found: seq<string>,
                                         letters: string)
    requires Find(Remaining(words, found), normalize, letters).Some?
    ensures exists k :: FirstReads(normalize, words, found, k, letters)
                        && words[k] == Find(Remaining(words, found), normalize, letters).value
    decreases |words|
  {
    if words[0] !in found && normalize(words[0]) == letters {
      assert FirstReads(normalize, words, found, 0, letters);
    } else {
      FindsTheFirst(normalize, words[1..], found, letters);
      var k :| FirstReads(normalize, words[1..], found, k, letters)
               && words[1..][k] == Find(Remaining(words[1..], found), normalize, letters).value;
      forall j | 0 <= j < k + 1 ensures !Reads(normalize, words, found, words[j], letters) {
        if j > 0 { assert words[j] == words[1..][j - 1]; }
      }
      assert FirstReads(normalize, words, found, k + 1, letters);
    }
  }

  /**
   * A selection is recognised exactly when it spells a remaining word in either direction; the word
   * is one it spells forwards whenever there is one, and the first such word of the list.
   */
  lemma MatchedExactly(normalize: string -> string, words: seq<string>, selected: string, found: seq<string>)
    ensures var m := MatchSelectedWord(normalize, words, selected, found);
            && (m.None? <==>
                  && (forall w :: !Reads(normalize, words, found, w, selected))
                  && (forall w :: !Reads(normalize, words, found, w, Reversed(selected))))
            && (m.Some? ==>
                  var letters := if exists w :: Reads(normalize, words, found, w, selected) then selected
                                 else Reversed(selected);
                  exists k :: FirstReads(normalize, words, found, k, letters) && words[k] == m.value)
  {
    var remaining := Remaining(words, found);
    forall w, letters | Reads(normalize, words, found, w, letters) ensures Find(remaining, normalize, letters).Some? {
      assert w in remaining;
    }
    var m := MatchSelectedWord(normalize, words, selected, found);
    if m.Some? {
      var letters := if Find(remaining, normalize, selected).Some? then selected else Reversed(selected);
      assert m.value in remaining && Reads(normalize, words, found, m.value, letters);
      FindsTheFirst(normalize, words, found, letters);
    }
  }

  // ----- A game can always go on

  ghost predicate Lettered(grid: array2<Cell>, cells: seq<CellRef>)
    requires Square(grid)
    reads grid
  {
    forall i :: 0 <= i < |cells| ==> OnGrid(cells[i], grid.Length0) && CellAt(grid, cells[i]).Letter?
  }

  /** The letters under a selection. */
  function Drag(grid: array2<Cell>, cells: seq<CellRef>): (letters: string)
    requires Square(grid) && Lettered(grid, cells)
    reads grid
    ensures |letters| == |cells| && forall i :: 0 <= i < |cells| ==> letters[i] == CellAt(grid, cells[i]).c
    decreases |cells|
  {
    if cells == [] then "" else [CellAt(grid, cells[0]).c] + Drag(grid, cells[1..])
  }

  lemma MatchedEitherWay(normalize: string -> string, words: seq<string>, found: seq<string>, word: string)
    requires word in words && word !in found
    ensures var m := MatchSelectedWord(normalize, words, normalize(word), found);
            m.Some? && Reads(normalize, words, found, m.value, normalize(word))
    ensures MatchSelectedWord(normalize, words, Reversed(normalize(word)), found).Some?
  {
    var letters := normalize(word);
    assert Reads(normalize, words, found, word, letters);
    ReversedTwice(letters);
    MatchedExactly(normalize, words, letters, found);
    MatchedExactly(normalize, words, Reversed(letters), found);
  }

  lemma HiddenSomewhere(grid: array2<Cell>, normalize: string -> string, wordList: seq<string>, words: seq<string>,
                        picks: seq<nat>, runs: seq<Run>, word: string)
    requires Square(grid) && Hides(grid, normalize, wordList, words, picks, runs) && word in words
    ensures exists run :: Spelled(grid, normalize(word), run)
  {
    var k :| 0 <= k < |words| && words[k] == word;
    assert Spelled(grid, normalize(words[k]), runs[k]);
  }

  lemma LettersUnder(grid: array2<Cell>, word: string, cells: seq<CellRef>)
    requires Square(grid)
    requires exists run: Run :: Spelled(grid, word, run) && cells == RunCells(run, |word|)
    ensures Lettered(grid, cells) && Drag(grid, cells) == word
  {
    var run: Run :| Spelled(grid, word, run) && cells == RunCells(run, |word|);
    forall i | 0 <= i < |word| ensures OnGrid(cells[i], grid.Length0) && CellAt(grid, cells[i]) == Letter(word[i]) {
      assert cells[i] == At(run, i);
    }
  }

  /**
   * A hint exists for every word still to find, and dragging over its cells, from either end, finds
   * a word still to find.
   */
  method ShowHint(grid: array2<Cell>, normalize: string -> string, words: seq<string>, found: seq<string>, word: string,
                  ghost wordList: seq<string>, ghost picks: seq<nat>, ghost runs: seq<Run>)
    returns (cells: seq<CellRef>)
    requires Square(grid) && Hides(grid, normalize, wordList, words, picks, runs)
    requires word in words && word !in found
    ensures Lettered(grid, cells) && Drag(grid, cells) == normalize(word)
    ensures var m := MatchSelectedWord(normalize, words, Drag(grid, cells), found);
            m.Some? && Reads(normalize, words, found, m.value, normalize(word))
    ensures MatchSelectedWord(normalize, words, Reversed(Drag(grid, cells)), found).Some?
  {
    var hint := FindWordInGrid(grid, normalize(word));
    HiddenSomewhere(grid, normalize, wordList, words, picks, runs, word);
    cells := hint.value;
    LettersUnder(grid, normalize(word), cells);
    MatchedEitherWay(normalize, words, found, word);
  }

  /** The words found after a series of selections. */
  function Play(normalize: string -> string, words: seq<string>, selections: seq<string>): (found: seq<string>)
    decreases |selections|
  {
    if selections == [] then []
    else
      var last := |selections| - 1;
      var found := Play(normalize, words, selections[..last]);
      match MatchSelectedWord(normalize, words, selections[last], found)
      case Some(word) => found + [word]
      case None => found
  }

  ghost predicate Distinct(words: seq<string>) {
    forall i, j :: 0 <= i < j < |words| ==> words[i] != words[j]
  }

  lemma {:induction false} FoundOnce(normalize: string -> string, words: seq<string>, selections: seq<string>)
    ensures var found := Play(normalize, words, selections); Distinct(found) && forall w :: w in found ==> w in words
    decreases |selections|
  {
    if selections != [] {
      var last := |selections| - 1;
      FoundOnce(normalize, words, selections[..last]);
      MatchedExactly(normalize, words, selections[last], Play(normalize, words, selections[..last]));
    }
  }

  lemma {:induction false} DistinctCount(words: seq<string>)
    ensures |set w | w in words| <= |words|
    ensures |set w | w in words| == |words| <==> Distinct(words)
    decreases |words|
  {
    if words != [] {
      var n := |words| - 1;
      var rest := words[..n];
      DistinctCount(rest);
      assert words == rest + [words[n]];
      assert (set w | w in words) == (set w | w in rest) + {words[n]};
      if words[n] in rest {
        var i :| 0 <= i < n && rest[i] == words[n];
        assert words[i] == words[n];
      }
    }
  }

  ghost predicate AllLettered(grid: array2<Cell>, drags: seq<seq<CellRef>>)
    requires Square(grid)
    reads grid
  {
    forall i :: 0 <= i < |drags| ==> Lettered(grid, drags[i])
  }

  /** What a series of drags over the grid spells. */
  function Dragged(grid: array2<Cell>, drags: seq<seq<CellRef>>): (selections: seq<string>)
    requires Square(grid) && AllLettered(grid, drags)
    reads grid
    ensures |selections| == |drags|
    decreases |drags|
  {
    if drags == [] then []
    else
      var last := |drags| - 1;
      Dragged(grid, drags[..last]) + [Drag(grid, drags[last])]
  }

  /** A hidden word still to find can be dragged over. */
  lemma NextDrag(grid: array2<Cell>, normalize: string -> string, words: seq<string>, drags: seq<seq<CellRef>>,
                 cells: seq<CellRef>, word: string)
    requires Square(grid) && AllLettered(grid, drags)
    requires Lettered(grid, cells) && Drag(grid, cells) == normalize(word)
    requires word in words && word !in Play(normalize, words, Dragged(grid, drags))
    ensures AllLettered(grid, drags + [cells])
    ensures |Play(normalize, words, Dragged(grid, drags + [cells]))|
            == |Play(normalize, words, Dragged(grid, drags))| + 1
  {
    DragMore(grid, drags, cells);
    FoundNext(normalize, words, Dragged(grid, drags), word);
  }

  lemma DragMore(grid: array2<Cell>, drags: seq<seq<CellRef>>, cells: seq<CellRef>)
    requires Square(grid) && AllLettered(grid, drags) && Lettered(grid, cells)
    ensures AllLettered(grid, drags + [cells])
    ensures Dragged(grid, drags + [cells]) == Dragged(grid, drags) + [Drag(grid, cells)]
  {
    var next := drags + [cells];
    assert next[..|drags|] == drags && next[|drags|] == cells;
  }

  lemma CellsOf(grid: array2<Cell>, normalize: string -> string, wordList: seq<string>, words: seq<string>,
                picks: seq<nat>, runs: seq<Run>, word: string)
    returns (cells: seq<CellRef>)
    requires Square(grid) && Hides(grid, normalize, wordList, words, picks, runs) && word in words
    ensures Lettered(grid, cells) && Drag(grid, cells) == normalize(word)
  {
    HiddenSomewhere(grid, normalize, wordList, words, picks, runs, word);
    var run: Run :| Spelled(grid, normalize(word), run);
    cells := RunCells(run, |normalize(word)|);
    LettersUnder(grid, normalize(word), cells);
  }

  lemma FoundNext(normalize: string -> string, words: seq<string>, selections: seq<string>, word: string)
    requires word in words && word !in Play(normalize, words, selections)
    ensures |Play(normalize, words, selections + [normalize(word)])| == |Play(normalize, words, selections)| + 1
  {
    var next := selections + [normalize(word)];
    assert next[..|selections|] == selections && next[|selections|] == normalize(word);
    MatchedEitherWay(normalize, words, Play(normalize, words, selections), word);
  }

  lemma SomeLeft(words: seq<string>, found: seq<string>)
    requires Distinct(words) && Distinct(found) && forall w :: w in found ==> w in words
    ensures |found| <= |words|
    ensures |found| < |words| ==> exists w :: w in words && w !in found
  {
    var a, b := set w | w in found, set w | w in words;
    DistinctCount(found);
    DistinctCount(words);
    SubsetSize(a, b);
    if |found| < |words| {
      assert b == a + (b - a);
      var w :| w in b - a;
      assert w in words && w !in found;
    }
  }

  lemma {:induction false} DragOn(grid: array2<Cell>, normalize: string -> string, wordList: seq<string>,
                                  words: seq<string>,
                                  picks: seq<nat>, runs: seq<Run>, drags: seq<seq<CellRef>>)
    returns (all: seq<seq<CellRef>>)
    requires Square(grid) && Hides(grid, normalize, wordList, words, picks, runs) && AllLettered(grid, drags)
    requires Distinct(words)
    ensures AllLettered(grid, all) && |Play(normalize, words, Dragged(grid, all))| == |words|
    decreases |words| - |Play(normalize, words, Dragged(grid, drags))|
  {
    var found := Play(normalize, words, Dragged(grid, drags));
    FoundOnce(normalize, words, Dragged(grid, drags));
    SomeLeft(words, found);
    if |found| == |words| { return drags; }
    var word :| word in words && word !in found;
    var cells := CellsOf(grid, normalize, wordList, words, picks, runs, word);
    NextDrag(grid, normalize, words, drags, cells, word);
    all := DragOn(grid, normalize, wordList, words, picks, runs, drags + [cells]);
  }

  /**
   * On the grid that hides them, some series of drags finds as many words as are hidden exactly when
   * no word is hidden twice.
   */
  lemma AllFoundExactly(grid: array2<Cell>, normalize: string -> string, wordList: seq<string>, words: seq<string>,
                        picks: seq<nat>, runs: seq<Run>)
    requires Square(grid) && Hides(grid, normalize, wordList, words, picks, runs)
    ensures (exists drags :: AllLettered(grid, drags) && |Play(normalize, words, Dragged(grid, drags))| == |words|)
       <==> Distinct(words)
  {
    forall drags | AllLettered(grid, drags) && |Play(normalize, words, Dragged(grid, drags))| == |words|
      ensures Distinct(words)
    {
      var found := Play(normalize, words, Dragged(grid, drags));
      FoundOnce(normalize, words, Dragged(grid, drags));
      DistinctCount(found);
      DistinctCount(words);
      SubsetSize(set w | w in found, set w | w in words);
    }
    if Distinct(words) {
      var all := DragOn(grid, normalize, wordList, words, picks, runs, []);
    }
  }
}
