/** The tic-tac-toe mode of pet_xox.js: the player is X, the computer is O,
    and the computer moves at random, by minimax, or a mix of both depending
    on the difficulty. */
module TicTacToe {
  import opened Common
  import Text

  datatype Cell = Empty | X | O

  /** The nine cells, row by row. */
  type Grid = g: seq<Cell> | |g| == 9
    witness [Empty, Empty, Empty, Empty, Empty, Empty, Empty, Empty, Empty]

  const EmptyGrid: Grid := [Empty, Empty, Empty, Empty, Empty, Empty, Empty, Empty, Empty]

  /** `checkWinner()`'s answer: null, a player, or "Draw". */
  datatype Outcome = Ongoing | Won(player: Cell) | Draw

  /** The eight winning lines, in the order `checkWinner` tries them. */
  function Line(k: nat): (r: (nat, nat, nat))
    requires k < 8
    ensures r.0 < 9 && r.1 < 9 && r.2 < 9
  {
    if k == 0 then (0, 1, 2) else if k == 1 then (3, 4, 5) else if k == 2 then (6, 7, 8)
    else if k == 3 then (0, 3, 6) else if k == 4 then (1, 4, 7) else if k == 5 then (2, 5, 8)
    else if k == 6 then (0, 4, 8) else (2, 4, 6)
  }

  /** Line `k` holds three equal marks. */
  predicate Complete(g: Grid, k: nat)
    requires k < 8
  {
    var (a, b, c) := Line(k);
    g[a] != Empty && g[a] == g[b] && g[a] == g[c]
  }

  /** Player `p` owns a complete line. */
  predicate HasLine(g: Grid, p: Cell)
  {
    exists k :: 0 <= k < 8 && Complete(g, k) && g[Line(k).0] == p
  }

  /** The owner of the first complete line at or after `k`. */
  function FirstWin(g: Grid, k: nat): (r: Option<Cell>)
    requires k <= 8
    ensures r.Some? ==> r.value != Empty
    ensures r.Some? ==> exists j :: k <= j < 8 && Complete(g, j) && g[Line(j).0] == r.value
    ensures r.None? <==> forall j :: k <= j < 8 ==> !Complete(g, j)
    decreases 8 - k
  {
    if k == 8 then None
    else if Complete(g, k) then Some(g[Line(k).0])
    else FirstWin(g, k + 1)
  }

  /** `checkWinner()`: the owner of the first complete line; otherwise a
      draw exactly when no cell is empty. */
  function CheckWinner(g: Grid): (r: Outcome)
    ensures r.Won? <==> exists k :: 0 <= k < 8 && Complete(g, k)
    ensures r.Won? ==> r.player != Empty && HasLine(g, r.player)
    ensures r == Draw <==> (!HasLine(g, X) && !HasLine(g, O) && Empty !in g)
    ensures r == Ongoing <==> (!HasLine(g, X) && !HasLine(g, O) && Empty in g)
  {
    match FirstWin(g, 0)
    case Some(p) => Won(p)
    case None => if Empty in g then Ongoing else Draw
  }

  /** A board on which only one player owns a line is won by that player,
      whatever the order of the lines. */
  lemma WinnerIsLineOwner(g: Grid, p: Cell)
    requires p != Empty && HasLine(g, p)
    requires !HasLine(g, if p == X then O else X)
    ensures CheckWinner(g) == Won(p)
  {
    var r := CheckWinner(g);
    assert r.Won?;
    assert HasLine(g, r.player);
  }

  /** Empty cells of `g`. */
  function Empties(g: seq<Cell>): (r: nat)
    ensures r <= |g|
    ensures r == 0 <==> Empty !in g
  {
    if g == [] then 0 else (if g[0] == Empty then 1 else 0) + Empties(g[1..])
  }

  /** Marks of `c` on `g`. */
  function Count(g: seq<Cell>, c: Cell): (r: nat)
    ensures r <= |g|
  {
    if g == [] then 0 else (if g[0] == c then 1 else 0) + Count(g[1..], c)
  }

  /** Writing `c` over a cell that held something else adds one `c` and
      takes one mark of the old kind away. */
  lemma {:induction false} CountUpdate(g: seq<Cell>, i: nat, c: Cell, d: Cell)
    requires i < |g|
    ensures g[i] != c && d == c ==> Count(g[i := c], d) == Count(g, d) + 1
    ensures g[i] != c && d == g[i] ==> Count(g[i := c], d) + 1 == Count(g, d)
    ensures d != c && d != g[i] ==> Count(g[i := c], d) == Count(g, d)
    decreases |g|
  {
    if i > 0 {
      assert g[i := c][1..] == g[1..][i - 1 := c];
      CountUpdate(g[1..], i - 1, c, d);
    } else {
      assert g[i := c][1..] == g[1..];
    }
  }

  /** A mark that does not occur is counted zero times. */
  lemma {:induction false} CountAbsent(g: seq<Cell>, c: Cell)
    requires c !in g
    ensures Count(g, c) == 0
    decreases |g|
  {
    if g != [] {
      assert c !in g[1..];
      CountAbsent(g[1..], c);
    }
  }

  /** Empties counts the Empty marks. */
  lemma {:induction false} EmptiesIsCount(g: seq<Cell>)
    ensures Empties(g) == Count(g, Empty)
    decreases |g|
  {
    if g != [] {
      EmptiesIsCount(g[1..]);
    }
  }

  /** Filling an empty cell leaves one empty cell fewer. */
  lemma FillOne(g: Grid, i: nat, c: Cell)
    requires i < 9 && g[i] == Empty && c != Empty
    ensures Empties(g[i := c]) + 1 == Empties(g)
  {
    EmptiesIsCount(g);
    EmptiesIsCount(g[i := c]);
    CountUpdate(g, i, c, Empty);
  }

  /** `minimax(board, depth, isMax)`: a win for O scores 10 - depth, a win
      for X scores depth - 10, a draw 0; an unfinished board scores the best
      of its continuations for the side to move (O maximises). A score
      never exceeds what a win at the current depth is worth. The search is
      only ever started on a board with an O just placed, so depth plus the
      empty cells never exceeds 9. */
  function Minimax(g: Grid, depth: nat, isMax: bool): (r: int)
    requires depth + Empties(g) <= 9
    ensures depth - 10 <= r <= 10 - depth
    ensures CheckWinner(g) == Won(O) ==> r == 10 - depth
    ensures CheckWinner(g) == Won(X) ==> r == depth - 10
    ensures CheckWinner(g) == Draw ==> r == 0
    ensures CheckWinner(g) == Ongoing ==> depth + 1 - 10 <= r <= 10 - (depth + 1)
    decreases Empties(g), 1, 0
  {
    match CheckWinner(g)
    case Won(p) => if p == O then 10 - depth else depth - 10
    case Draw => 0
    case Ongoing =>
      match BestChild(g, depth, isMax, 0, None)
      case Some(v) => v
      case None => assert false; 0
  }

  /** The loop of `minimax` over the cells `i..8`, `acc` being the best
      score so far (None for the starting infinity). */
  function BestChild(g: Grid, depth: nat, isMax: bool, i: nat, acc: Option<int>): (r: Option<int>)
    requires i <= 9 && depth + Empties(g) <= 9
    requires acc.Some? ==> depth + 1 - 10 <= acc.value <= 10 - (depth + 1)
    ensures r.Some? <==> acc.Some? || exists j :: i <= j < 9 && g[j] == Empty
    ensures r.Some? ==> depth + 1 - 10 <= r.value <= 10 - (depth + 1)
    decreases Empties(g), 0, 9 - i
  {
    if i == 9 then acc
    else if g[i] != Empty then BestChild(g, depth, isMax, i + 1, acc)
    else
      var mark := if isMax then O else X;
      FillOne(g, i, mark);
      var s := Minimax(g[i := mark], depth + 1, !isMax);
      var acc' := match acc
        case None => s
        case Some(a) => if isMax then (if s > a then s else a) else (if s < a then s else a);
      BestChild(g, depth, isMax, i + 1, Some(acc'))
  }

  /** The score `bestMove` gives to O playing cell `i`. */
  function Score(g: Grid, i: nat): (r: int)
    requires i < 9 && g[i] == Empty
    ensures -10 <= r <= 10
  {
    FillOne(g, i, O);
    Minimax(g[i := O], 0, false)
  }

  /** The loop of `bestMove` over the positions `i..`: the first position
      whose score beats every earlier one, among those allowed by `ok`;
      `best` is the position chosen so far. */
  function ArgMaxFrom(s: seq<int>, ok: seq<bool>, i: nat, best: Option<nat>): (r: Option<nat>)
    requires |ok| == |s| && i <= |s|
    requires best.Some? ==> best.value < i && ok[best.value]
    requires best.Some? ==> forall j :: 0 <= j < i && ok[j] ==> s[j] <= s[best.value]
    requires best.Some? ==> forall j :: 0 <= j < best.value && ok[j] ==> s[j] < s[best.value]
    requires best.None? ==> forall j :: 0 <= j < i ==> !ok[j]
    ensures r.Some? <==> exists j :: 0 <= j < |s| && ok[j]
    ensures r.Some? ==> r.value < |s| && ok[r.value]
    ensures r.Some? ==> forall j :: 0 <= j < |s| && ok[j] ==> s[j] <= s[r.value]
    ensures r.Some? ==> forall j :: 0 <= j < r.value && ok[j] ==> s[j] < s[r.value]
    decreases |s| - i
  {
    if i == |s| then best
    else if !ok[i] then ArgMaxFrom(s, ok, i + 1, best)
    else if best.None? || s[i] > s[best.value] then ArgMaxFrom(s, ok, i + 1, Some(i))
    else ArgMaxFrom(s, ok, i + 1, best)
  }

  /** The scores of the nine cells as `bestMove` sees them (0 for a
      taken cell, which it skips). */
  function Scores(g: Grid): (r: seq<int>)
    ensures |r| == 9
  {
    seq(9, j requires 0 <= j < 9 => if g[j] == Empty then Score(g, j) else 0)
  }

  /** Cell `m` is empty, no empty cell scores more, and every empty cell
      before it scores less. */
  predicate IsBestCell(g: Grid, sc: seq<int>, m: nat)
    requires |sc| == 9
  {
    && m < 9 && g[m] == Empty
    && (forall j :: 0 <= j < 9 && g[j] == Empty ==> sc[j] <= sc[m])
    && (forall j :: 0 <= j < m && g[j] == Empty ==> sc[j] < sc[m])
  }

  /** `bestMove()`: O takes the first empty cell with the highest score;
      on a full board nothing happens. */
  function BestMove(g: Grid): (r: Grid)
    ensures Empty !in g ==> r == g
    ensures Empty in g ==> exists m: nat :: IsBestCell(g, Scores(g), m) && r == g[m := O]
  {
    PlaceBest(g, Scores(g))
  }

  /** The choice `bestMove` makes given the scores `sc` of the cells. */
  function PlaceBest(g: Grid, sc: seq<int>): (r: Grid)
    requires |sc| == 9
    ensures Empty !in g ==> r == g
    ensures Empty in g ==> exists m: nat :: IsBestCell(g, sc, m) && r == g[m := O]
  {
    var ok := seq(9, j requires 0 <= j < 9 => g[j] == Empty);
    assert forall j :: 0 <= j < 9 ==> (ok[j] <==> g[j] == Empty);
    match ArgMaxFrom(sc, ok, 0, None)
    case None =>
      assert forall j :: 0 <= j < 9 ==> g[j] != Empty by {
        forall j | 0 <= j < 9 ensures g[j] != Empty {
          assert !ok[j];
        }
      }
      g
    case Some(m) =>
      assert IsBestCell(g, sc, m);
      g[m := O]
  }

  /** The hard computer never misses an immediate win: if O can complete
      a line with one move, `bestMove` completes one. */
  lemma BestMoveTakesWin(g: Grid, m: nat)
    requires m < 9 && g[m] == Empty && CheckWinner(g[m := O]) == Won(O)
    ensures CheckWinner(BestMove(g)) == Won(O)
  {
    assert Empty in g;
    var sc := Scores(g);
    var r := BestMove(g);
    var k: nat :| IsBestCell(g, sc, k) && r == g[k := O];
    assert sc[m] == Score(g, m) && sc[k] == Score(g, k);
    assert Score(g, m) == 10;
    assert sc[m] <= sc[k];
  }

  /** The empty cells at or after `i`, in ascending order. */
  function EmptyCells(g: Grid, i: nat): (r: seq<nat>)
    requires i <= 9
    ensures forall k :: 0 <= k < |r| ==> i <= r[k] < 9 && g[r[k]] == Empty
    ensures forall j :: i <= j < 9 && g[j] == Empty ==> j in r
    ensures |r| == 0 <==> forall j :: i <= j < 9 ==> g[j] != Empty
    decreases 9 - i
  {
    if i == 9 then []
    else if g[i] == Empty then [i] + EmptyCells(g, i + 1)
    else EmptyCells(g, i + 1)
  }

  /** `randomMove()`: `rnd` is the `Math.random()` draw; O takes the empty
      cell at position floor(rnd * n) among the n empty cells. */
  function RandomMove(g: Grid, rnd: real): (r: Grid)
    requires 0.0 <= rnd < 1.0
    ensures Empty !in g ==> r == g
    ensures Empty in g ==> exists m :: 0 <= m < 9 && g[m] == Empty && r == g[m := O]
  {
    var e := EmptyCells(g, 0);
    if |e| == 0 then g
    else
      var k := PickIndex(rnd, |e|);
      assert g[e[k]] == Empty;
      g[e[k] := O]
  }

  /** floor(rnd * n) for a draw in [0, 1) is a position among n. */
  function PickIndex(rnd: real, n: nat): (k: nat)
    requires 0.0 <= rnd < 1.0 && n > 0
    ensures k < n
    ensures k as real <= rnd * n as real < k as real + 1.0
  {
    var f := (rnd * n as real).Floor;
    assert rnd * n as real < n as real by {
      assert (1.0 - rnd) * n as real > 0.0;
    }
    f
  }

  /** `aiMove()`: "Easy" plays at random; "Medium" plays the best move when
      the first draw is below 0.6 and otherwise at random with the second
      draw; any other difficulty plays the best move. */
  function AiMove(g: Grid, difficulty: string, rnd1: real, rnd2: real): (r: Grid)
    requires 0.0 <= rnd1 < 1.0 && 0.0 <= rnd2 < 1.0
    ensures Empty !in g ==> r == g
    ensures Empty in g ==> exists m :: 0 <= m < 9 && g[m] == Empty && r == g[m := O]
    ensures difficulty != "Easy" && difficulty != "Medium" ==> r == BestMove(g)
    ensures difficulty == "Easy" ==> r == RandomMove(g, rnd1)
  {
    if difficulty == "Easy" then RandomMove(g, rnd1)
    else if difficulty == "Medium" then (if rnd1 < 0.6 then BestMove(g) else RandomMove(g, rnd2))
    else BestMove(g)
  }

  /** The click mapping as written: a point inside the board addresses the
      cell it lies in, but a point on the far edge of the board (x or y
      exactly equal to its size) also passes the guard and yields column or
      row 3. */
  function CellIndexAsWritten(x: real, y: real, size: real): (r: Option<int>)
    requires size > 0.0
    ensures r.Some? <==> 0.0 <= x <= size && 0.0 <= y <= size
    ensures r.Some? ==> 0 <= r.value <= 12
    ensures 0.0 <= x < size && 0.0 <= y < size ==> r == Some(CellIndex(x, y, size).value as int)
  {
    if x < 0.0 || y < 0.0 || x > size || y > size then None
    else
      var cell := size / 3.0;
      ThirdsUpToThree(x, size);
      ThirdsUpToThree(y, size);
      var r := Some((y / cell).Floor * 3 + (x / cell).Floor);
      if x < size && y < size then FloorIsBand(x, size); FloorIsBand(y, size); r else r
  }

  /** Scaling by a positive factor keeps the order of two reals. */
  lemma ScaleKeepsOrder(a: real, c: real, k: real)
    requires k > 0.0
    ensures a < c ==> a * k < c * k
    ensures a <= c ==> a * k <= c * k
  {
    if a < c {
      MulPositive(c - a, k);
      assert (c - a) * k == c * k - a * k;
    }
  }

  /** Inside the board, `Math.floor(v / cell)` is the third `v` lies in. */
  lemma FloorIsBand(v: real, size: real)
    requires size > 0.0 && 0.0 <= v < size
    ensures (v / (size / 3.0)).Floor == Band(v, size)
  {
    var q := v / (size / 3.0);
    var n: int := Band(v, size);
    ThirdQuotient(v, size);
    assert q * size == 3.0 * v;
    assert n as real * size <= 3.0 * v < (n + 1) as real * size;
    FloorFromScaled(q, n, size, 3.0 * v);
  }

  /** `v / (size / 3)` scaled back by `size` is `3 v`. */
  lemma ThirdQuotient(v: real, size: real)
    requires size > 0.0
    ensures (v / (size / 3.0)) * size == 3.0 * v
  {
    var cell := size / 3.0;
    assert (v / cell) * cell == v;
    assert size == 3.0 * cell;
  }

  /** A real whose value scaled by k, w, lies between the scaled integers
      n and n + 1 (the upper one excluded) has floor n. */
  lemma FloorFromScaled(q: real, n: int, k: real, w: real)
    requires k > 0.0 && q * k == w
    requires n as real * k <= w < (n + 1) as real * k
    ensures q.Floor == n
  {
    var bottom, top := n as real, (n + 1) as real;
    assert bottom * k <= q * k < top * k;
    ScaleKeepsOrder(q, bottom, k);
    ScaleKeepsOrder(top, q, k);
    assert bottom <= q < top;
  }

  /** A coordinate of the closed board falls in column (or row) 0 to 3. */
  lemma ThirdsUpToThree(v: real, size: real)
    requires size > 0.0 && 0.0 <= v <= size
    ensures 0 <= (v / (size / 3.0)).Floor <= 3
  {
    var cell := size / 3.0;
    var q := v / cell;
    assert q * cell == v;
    if q > 3.0 {
      MulPositive(q - 3.0, cell);
      assert false;
    }
    if q < 0.0 {
      MulPositive(-q, cell);
      assert false;
    }
  }

  /** A click on the right edge of the top row marks the first cell of the
      middle row, and a click on the bottom edge addresses index 9, which is
      no cell of the board at all. */
  lemma EdgeClickMisplaced()
    ensures CellIndexAsWritten(3.0, 0.0, 3.0) == Some(3)
    ensures CellIndexAsWritten(0.0, 3.0, 3.0) == Some(9)
  {
    assert (3.0 / (3.0 / 3.0)).Floor == 3;
    assert (0.0 / (3.0 / 3.0)).Floor == 0;
  }

  /** The cell under a click at (x, y) relative to the board's top-left
      corner, with the far edges excluded: the board's cells are the nine
      half-open squares of side size/3. */
  function CellIndex(x: real, y: real, size: real): (r: Option<nat>)
    ensures r.Some? <==> size > 0.0 && 0.0 <= x < size && 0.0 <= y < size
    ensures r.Some? ==> r.value < 9
    ensures r.Some? ==>
      && (r.value % 3) as real * size <= 3.0 * x < (r.value % 3 + 1) as real * size
      && (r.value / 3) as real * size <= 3.0 * y < (r.value / 3 + 1) as real * size
  {
    if size <= 0.0 || x < 0.0 || y < 0.0 || x >= size || y >= size then None
    else
      var col := Band(x, size);
      var row := Band(y, size);
      assert (row * 3 + col) % 3 == col && (row * 3 + col) / 3 == row;
      Some(row * 3 + col)
  }

  /** The third of [0, size) that `v` falls in. */
  function Band(v: real, size: real): (r: nat)
    requires size > 0.0 && 0.0 <= v < size
    ensures r < 3
    ensures r as real * size <= 3.0 * v < (r + 1) as real * size
  {
    if 3.0 * v < size then 0 else if 3.0 * v < 2.0 * size then 1 else 2
  }

  /** The game's state. `offBoard` holds the indices past the nine cells
      that a click on the board's far edge has set to "X" in the script's
      array: `checkWinner`, the computer and the drawing never look at them.
      `result` is Ongoing while `checkWinner` says null; `cues` are the
      sounds played, in order. */
  datatype Game = Game(grid: Grid, offBoard: set<int>, gameOver: bool, result: Outcome,
                       difficulty: string, cues: seq<string>)

  const Start: Game := Game(EmptyGrid, {}, false, Ongoing, "Easy", [])

  /** The recorded result is the board's outcome and the game is over
      exactly when there is one. Off-board marks lie at 9 to 12, and each
      one gave the computer a move, so X's marks and off-board marks
      together equal O's marks, or lead them by one when X has just
      finished the game. */
  ghost predicate Inv(gm: Game)
  {
    && gm.result == CheckWinner(gm.grid)
    && gm.gameOver == (gm.result != Ongoing)
    && (forall i :: i in gm.offBoard ==> 9 <= i <= 12)
    && (!gm.gameOver ==> Count(gm.grid, X) + |gm.offBoard| == Count(gm.grid, O))
    && (Count(gm.grid, X) + |gm.offBoard| == Count(gm.grid, O)
        || Count(gm.grid, X) + |gm.offBoard| == Count(gm.grid, O) + 1)
  }

  /** `reset()`: a fresh nine-cell array, so the off-board marks go too. */
  function Reset(gm: Game): (r: Game)
    ensures r.grid == EmptyGrid && r.offBoard == {} && !r.gameOver && r.result == Ongoing
    ensures r.difficulty == gm.difficulty && r.cues == gm.cues
    ensures Inv(r)
  {
    EmptyGridIsFresh();
    gm.(grid := EmptyGrid, offBoard := {}, result := Ongoing, gameOver := false)
  }

  /** The empty board is undecided and holds no marks. */
  lemma EmptyGridIsFresh()
    ensures CheckWinner(EmptyGrid) == Ongoing
    ensures Count(EmptyGrid, X) == 0 && Count(EmptyGrid, O) == 0
  {
    assert forall i :: 0 <= i < 9 ==> EmptyGrid[i] == Empty;
    assert EmptyGrid[0] == Empty;
    CountAbsent(EmptyGrid, X);
    CountAbsent(EmptyGrid, O);
  }

  /** A difficulty button: its id capitalised becomes the difficulty, and
      the game restarts. */
  function ChooseDifficulty(gm: Game, buttonId: string): (r: Game)
    ensures r.difficulty == Text.Capitalize(buttonId)
    ensures r.grid == EmptyGrid && !r.gameOver
    ensures Inv(r)
  {
    Reset(gm).(difficulty := Text.Capitalize(buttonId))
  }

  /** The three buttons give the three difficulties `aiMove` knows. */
  lemma ButtonDifficulties(gm: Game)
    ensures ChooseDifficulty(gm, "easy").difficulty == "Easy"
    ensures ChooseDifficulty(gm, "medium").difficulty == "Medium"
    ensures ChooseDifficulty(gm, "hard").difficulty == "Hard"
  {
    assert Text.Capitalize("easy") == "Easy" by {
      assert "easy"[0] == 'e' && "easy"[1..] == "asy";
    }
    assert Text.Capitalize("medium") == "Medium" by {
      assert "medium"[0] == 'm' && "medium"[1..] == "edium";
    }
    assert Text.Capitalize("hard") == "Hard" by {
      assert "hard"[0] == 'h' && "hard"[1..] == "ard";
    }
  }

  /** The sound for a finished game: the player's win plays yuck.mp3, the
      computer's win plays fail.mp3, a draw plays nothing. */
  function Cue(w: Outcome): (r: seq<string>)
    ensures w == Won(X) ==> r == ["yuck.mp3"]
    ensures w == Won(O) ==> r == ["fail.mp3"]
    ensures w != Won(X) && w != Won(O) ==> r == []
  {
    if w == Won(X) then ["yuck.mp3"] else if w == Won(O) then ["fail.mp3"] else []
  }

  /** The pet image: base_play2 after the player won, base_play1 after the
      computer won, base_play otherwise. */
  function PetImage(gm: Game): (r: string)
    ensures gm.gameOver && gm.result == Won(X) ==> r == "base_play2.png"
    ensures gm.gameOver && gm.result == Won(O) ==> r == "base_play1.png"
    ensures !(gm.gameOver && gm.result.Won?) ==> r == "base_play.png"
  {
    if gm.gameOver && gm.result == Won(X) then "base_play2.png"
    else if gm.gameOver && gm.result == Won(O) then "base_play1.png"
    else "base_play.png"
  }

  /** A canvas click at (px, py) on a width x height canvas, with the two
      random draws the computer's move may use. After a finished game the
      click restarts. Otherwise the click is mapped as written: on one of
      the nine cells an empty cell takes X and the computer answers unless X
      has just finished the game; past the ninth cell (the bottom edge) an
      index not yet marked takes X where no line can see it, and the
      computer moves all the same. A finished game records its result and
      plays its sound. */
  function Click(gm: Game, px: real, py: real, width: real, height: real, rnd1: real, rnd2: real): (r: Game)
    requires 0.0 <= rnd1 < 1.0 && 0.0 <= rnd2 < 1.0
    ensures gm.gameOver ==> r == Reset(gm)
    ensures !gm.gameOver ==> forall i :: 0 <= i < 9 && gm.grid[i] != Empty ==> r.grid[i] == gm.grid[i]
    ensures !gm.gameOver ==> gm.offBoard <= r.offBoard && r.difficulty == gm.difficulty
    ensures !gm.gameOver && r.gameOver ==> r.cues == gm.cues + Cue(r.result)
    ensures var c := ClickIndex(px, py, width, height);
      && (!gm.gameOver && c.None? ==> r == gm)
      && (!gm.gameOver && c.Some? && c.value < 9 && gm.grid[c.value] != Empty ==> r == gm)
      && (!gm.gameOver && c.Some? && c.value < 9 && gm.grid[c.value] == Empty ==>
            && r.grid[c.value] == X && r.offBoard == gm.offBoard
            && Count(r.grid, X) == Count(gm.grid, X) + 1
            && Count(r.grid, O) == Count(gm.grid, O) + (if CheckWinner(gm.grid[c.value := X]) == Ongoing then 1 else 0))
      && (!gm.gameOver && c.Some? && c.value >= 9 && c.value in gm.offBoard ==> r == gm)
      && (!gm.gameOver && c.Some? && c.value >= 9 && c.value !in gm.offBoard ==>
            && r.offBoard == gm.offBoard + {c.value} && Count(r.grid, X) == Count(gm.grid, X)
            && Count(r.grid, O) == Count(gm.grid, O) + (if CheckWinner(gm.grid) == Ongoing then 1 else 0))
    ensures Inv(gm) ==> Inv(r)
  {
    if gm.gameOver then Reset(gm)
    else
      match ClickIndex(px, py, width, height)
      case None => gm
      case Some(idx) =>
        if idx < 9 then (if gm.grid[idx] != Empty then gm else Turn(gm, idx, rnd1, rnd2))
        else if idx in gm.offBoard then gm
        else OffBoardTurn(gm, idx, rnd1, rnd2)
  }

  /** A click strictly inside the board is handled as intended: only a
      click on the board's far edges tells the two mappings apart. */
  lemma InteriorClickAsIntended(gm: Game, px: real, py: real, width: real, height: real, rnd1: real, rnd2: real)
    requires 0.0 <= rnd1 < 1.0 && 0.0 <= rnd2 < 1.0
    requires var size := Min(width, height) * 0.6;
      && size > 0.0
      && 0.0 <= px - (width - size) / 2.0 < size
      && 0.0 <= py - (height - size) / 2.0 < size
    ensures Click(gm, px, py, width, height, rnd1, rnd2) == ClickIntended(gm, px, py, width, height, rnd1, rnd2)
  {
  }

  /** The array index a click at (px, py) addresses, as written: the board is
      the centred square of 0.6 times the canvas's smaller side. A board of
      size zero takes no click. */
  function ClickIndex(px: real, py: real, width: real, height: real): (r: Option<int>)
    ensures r.Some? ==> 0 <= r.value <= 12
    ensures var size := Min(width, height) * 0.6;
      size > 0.0 ==> r == CellIndexAsWritten(px - (width - size) / 2.0, py - (height - size) / 2.0, size)
    ensures Min(width, height) <= 0.0 ==> r.None?
  {
    var size := Min(width, height) * 0.6;
    if size <= 0.0 then None
    else CellIndexAsWritten(px - (width - size) / 2.0, py - (height - size) / 2.0, size)
  }

  /** The click with the evidently intended mapping: only a point inside one
      of the nine half-open cells counts, so no mark ever leaves the board
      and the X lands on the cell under the pointer. */
  function ClickIntended(gm: Game, px: real, py: real, width: real, height: real, rnd1: real, rnd2: real): (r: Game)
    requires 0.0 <= rnd1 < 1.0 && 0.0 <= rnd2 < 1.0
    ensures gm.gameOver ==> r == Reset(gm)
    ensures !gm.gameOver ==> r.offBoard == gm.offBoard
    ensures !gm.gameOver ==> forall i :: 0 <= i < 9 && gm.grid[i] != Empty ==> r.grid[i] == gm.grid[i]
    ensures var size := Min(width, height) * 0.6;
      var c := CellIndex(px - (width - size) / 2.0, py - (height - size) / 2.0, size);
      !gm.gameOver && c.Some? && gm.grid[c.value] == Empty ==> r.grid[c.value] == X
    ensures Inv(gm) ==> Inv(r)
  {
    if gm.gameOver then Reset(gm)
    else
      var size := Min(width, height) * 0.6;
      match CellIndex(px - (width - size) / 2.0, py - (height - size) / 2.0, size)
      case None => gm
      case Some(idx) => if gm.grid[idx] != Empty then gm else Turn(gm, idx, rnd1, rnd2)
  }

  /** What follows the player's mark: `checkWinner`, the computer's move
      when it says null, `checkWinner` again, and on a decided board the
      result and its sound. */
  function Answer(gm: Game, rnd1: real, rnd2: real): (r: Game)
    requires !gm.gameOver
    requires 0.0 <= rnd1 < 1.0 && 0.0 <= rnd2 < 1.0
    ensures CheckWinner(gm.grid) != Ongoing ==> r.grid == gm.grid
    ensures CheckWinner(gm.grid) == Ongoing ==>
      exists m :: 0 <= m < 9 && gm.grid[m] == Empty && r.grid == gm.grid[m := O]
    ensures r.gameOver <==> CheckWinner(r.grid) != Ongoing
    ensures r.gameOver ==> r.result == CheckWinner(r.grid) && r.cues == gm.cues + Cue(r.result)
    ensures !r.gameOver ==> r.result == gm.result && r.cues == gm.cues
    ensures Count(r.grid, X) == Count(gm.grid, X)
    ensures Count(r.grid, O) == Count(gm.grid, O) + (if CheckWinner(gm.grid) == Ongoing then 1 else 0)
    ensures forall i :: 0 <= i < 9 && gm.grid[i] != Empty ==> r.grid[i] == gm.grid[i]
    ensures r.offBoard == gm.offBoard && r.difficulty == gm.difficulty
  {
    var g2 := if CheckWinner(gm.grid) == Ongoing then AiMove(gm.grid, gm.difficulty, rnd1, rnd2) else gm.grid;
    var w := CheckWinner(g2);
    var r := if w == Ongoing then gm.(grid := g2)
             else gm.(grid := g2, result := w, gameOver := true, cues := gm.cues + Cue(w));
    if CheckWinner(gm.grid) == Ongoing then CountsAfterReply(gm.grid, g2); r else r
  }

  /** The player's X on the empty cell `idx` of an unfinished game, the
      computer's answer unless X has just finished it, and the result with
      its sound when the game is over. */
  function Turn(gm: Game, idx: nat, rnd1: real, rnd2: real): (r: Game)
    requires idx < 9 && gm.grid[idx] == Empty && !gm.gameOver
    requires 0.0 <= rnd1 < 1.0 && 0.0 <= rnd2 < 1.0
    ensures r.grid[idx] == X && r.difficulty == gm.difficulty && r.offBoard == gm.offBoard
    ensures forall i :: 0 <= i < 9 && gm.grid[i] != Empty ==> r.grid[i] == gm.grid[i]
    ensures Count(r.grid, X) == Count(gm.grid, X) + 1
    ensures Count(r.grid, O) == Count(gm.grid, O) + (if CheckWinner(gm.grid[idx := X]) == Ongoing then 1 else 0)
    ensures r.gameOver <==> CheckWinner(r.grid) != Ongoing
    ensures r.gameOver ==> r.result == CheckWinner(r.grid) && r.cues == gm.cues + Cue(r.result)
    ensures !r.gameOver ==> r.cues == gm.cues
    ensures Inv(gm) ==> Inv(r)
  {
    var g1 := gm.grid[idx := X];
    var r := Answer(gm.(grid := g1), rnd1, rnd2);
    CountsAfterTurn(gm.grid, idx, g1, r.grid);
    r
  }

  /** One turn keeps the mark counts in step: after X alone the computer is
      one behind, after X and O they are level. No mark already on the board
      is overwritten. */
  lemma CountsAfterTurn(g: Grid, idx: nat, g1: Grid, g2: Grid)
    requires idx < 9 && g[idx] == Empty && g1 == g[idx := X]
    requires g2 == g1 || exists m :: 0 <= m < 9 && g1[m] == Empty && g2 == g1[m := O]
    ensures Count(g1, X) == Count(g, X) + 1 && Count(g1, O) == Count(g, O)
    ensures g2 == g1 || (Count(g2, X) == Count(g1, X) && Count(g2, O) == Count(g1, O) + 1)
    ensures g2[idx] == X && forall i :: 0 <= i < 9 && g[i] != Empty ==> g2[i] == g[i]
  {
    CountUpdate(g, idx, X, X);
    CountUpdate(g, idx, X, O);
    if g2 != g1 {
      var m :| 0 <= m < 9 && g1[m] == Empty && g2 == g1[m := O];
      CountUpdate(g1, m, O, X);
      CountUpdate(g1, m, O, O);
    }
  }

  /** An X written at index `idx` past the board: the board is unchanged,
      so the computer, finding the game undecided, simply moves again. */
  function OffBoardTurn(gm: Game, idx: int, rnd1: real, rnd2: real): (r: Game)
    requires 9 <= idx <= 12 && idx !in gm.offBoard && !gm.gameOver
    requires 0.0 <= rnd1 < 1.0 && 0.0 <= rnd2 < 1.0
    ensures r.offBoard == gm.offBoard + {idx} && r.difficulty == gm.difficulty
    ensures forall i :: 0 <= i < 9 && gm.grid[i] != Empty ==> r.grid[i] == gm.grid[i]
    ensures Count(r.grid, X) == Count(gm.grid, X)
    ensures Count(r.grid, O) == Count(gm.grid, O) + (if CheckWinner(gm.grid) == Ongoing then 1 else 0)
    ensures r.gameOver ==> r.result == CheckWinner(r.grid) && r.cues == gm.cues + Cue(r.result)
    ensures Inv(gm) ==> Inv(r)
  {
    var gm1 := gm.(offBoard := gm.offBoard + {idx});
    var r := Answer(gm1, rnd1, rnd2);
    if CheckWinner(gm.grid) == Ongoing then OffBoardKeepsInv(gm, idx, r); r else r
  }

  /** The invariant survives an off-board mark followed by the computer's
      one O. */
  lemma OffBoardKeepsInv(gm: Game, idx: int, r: Game)
    requires 9 <= idx <= 12 && idx !in gm.offBoard
    requires r.offBoard == gm.offBoard + {idx}
    requires Count(r.grid, X) == Count(gm.grid, X) && Count(r.grid, O) == Count(gm.grid, O) + 1
    requires r.gameOver <==> CheckWinner(r.grid) != Ongoing
    requires r.gameOver ==> r.result == CheckWinner(r.grid)
    requires !r.gameOver ==> r.result == gm.result
    ensures Inv(gm) && !gm.gameOver ==> Inv(r)
  {
    assert |r.offBoard| == |gm.offBoard| + 1;
  }

  /** The computer's reply adds one O and nothing else. */
  lemma CountsAfterReply(g: Grid, g2: Grid)
    requires exists m :: 0 <= m < 9 && g[m] == Empty && g2 == g[m := O]
    ensures Count(g2, X) == Count(g, X) && Count(g2, O) == Count(g, O) + 1
    ensures forall i :: 0 <= i < 9 && g[i] != Empty ==> g2[i] == g[i]
  {
    var m :| 0 <= m < 9 && g[m] == Empty && g2 == g[m := O];
    CountUpdate(g, m, O, X);
    CountUpdate(g, m, O, O);
  }

  /** In any unfinished game, a click on the bottom edge of the board (a
      5 x 5 canvas puts the 3 x 3 board at (1, 1)) places no X on the board
      but lets the computer move: O gains a mark and X does not. */
  lemma BottomEdgeClickGivesAwayTurn(gm: Game, rnd1: real, rnd2: real)
    requires Inv(gm) && !gm.gameOver && 9 !in gm.offBoard
    requires 0.0 <= rnd1 < 1.0 && 0.0 <= rnd2 < 1.0
    ensures var r := Click(gm, 1.0, 4.0, 5.0, 5.0, rnd1, rnd2);
      && r.offBoard == gm.offBoard + {9}
      && Count(r.grid, X) == Count(gm.grid, X) && Count(r.grid, O) == Count(gm.grid, O) + 1
  {
    BottomEdgeIsOffBoard(gm, rnd1, rnd2);
  }

  /** That click addresses index 9. */
  lemma BottomEdgeIsOffBoard(gm: Game, rnd1: real, rnd2: real)
    requires !gm.gameOver && 9 !in gm.offBoard
    requires 0.0 <= rnd1 < 1.0 && 0.0 <= rnd2 < 1.0
    ensures Click(gm, 1.0, 4.0, 5.0, 5.0, rnd1, rnd2) == OffBoardTurn(gm, 9, rnd1, rnd2)
  {
    assert Min(5.0, 5.0) * 0.6 == 3.0;
    assert CellIndexAsWritten(0.0, 3.0, 3.0) == Some(9) by { EdgeClickMisplaced(); }
  }

  datatype Event =
    | CanvasClick(px: real, py: real, width: real, height: real, rnd1: real, rnd2: real)
    | DifficultyButton(id: string)

  /** One event; draws outside [0, 1) cannot come from `Math.random()` and
      are ignored. */
  function Step(gm: Game, e: Event): (r: Game)
    ensures Inv(gm) ==> Inv(r)
  {
    match e
    case CanvasClick(px, py, w, h, r1, r2) =>
      if 0.0 <= r1 < 1.0 && 0.0 <= r2 < 1.0 then Click(gm, px, py, w, h, r1, r2) else gm
    case DifficultyButton(id) => ChooseDifficulty(gm, id)
  }

  function Run(gm: Game, es: seq<Event>): Game
    decreases |es|
  {
    if es == [] then gm else Run(Step(gm, es[0]), es[1..])
  }

  /** Every reachable game records the board's true outcome and keeps the
      players' mark counts in step. */
  lemma {:induction false} RunKeepsInv(gm: Game, es: seq<Event>)
    requires Inv(gm)
    ensures Inv(Run(gm, es))
    decreases |es|
  {
    if es != [] {
      RunKeepsInv(Step(gm, es[0]), es[1..]);
    }
  }

  /** The mode starts in a consistent state. */
  lemma StartIsConsistent()
    ensures Inv(Start)
  {
    assert Reset(Start) == Start;
  }
}
