/**
 * The slot machine of js/games/slots.js: the weighted symbol list, the 3x3
 * grid, the paylines, the line evaluation and the bet and win arithmetic of
 * the spin button. Pays are kept in halves (the lemon's 1.5 is 3 halves), so
 * every amount stays a whole number.
 */
module Slots {
  import opened Wrappers
  import opened Storage
  import opened Wallet
  import opened Random

  datatype Icon = Lemon | Cherry | Star | Bell | Gem | Seven

  /** A reel symbol: its icon, its weight out of 100, and its pay for three in a line, in halves. */
  datatype Symbol = Symbol(icon: Icon, weight: nat, halfPay: nat)

  /** The symbol table: the more frequent the symbol, the smaller its pay. */
  const SYMBOLS: seq<Symbol> := [
    Symbol(Lemon, 30, 3),
    Symbol(Cherry, 26, 4),
    Symbol(Star, 18, 8),
    Symbol(Bell, 14, 12),
    Symbol(Gem, 8, 20),
    Symbol(Seven, 4, 40)
  ]

  /** The smallest bet per line. */
  const MIN_LINE_BET := 100

  /** The number of throw-away grids drawn for the spinning animation. */
  const ANIMATION_SPINS := 8

  // ---------------------------------------------------------------------------
  // The weighted list

  /** `n` copies of `x`. */
  function Repeat(x: Icon, n: nat): (r: seq<Icon>)
    ensures |r| == n
    ensures forall i :: 0 <= i < n ==> r[i] == x
  {
    seq(n, _ => x)
  }

  /**
   * Each symbol's icon repeated `weight` times, symbol after symbol, so the
   * weighted list is as long as the total weight.
   */
  function Expand(syms: seq<Symbol>): (weighted: seq<Icon>)
    ensures |weighted| == TotalWeight(syms)
  {
    if |syms| == 0 then []
    else
      var last := syms[|syms| - 1];
      Expand(syms[..|syms| - 1]) + Repeat(last.icon, last.weight)
  }

  /** The sum of the weights. */
  function TotalWeight(syms: seq<Symbol>): nat {
    if |syms| == 0 then 0 else TotalWeight(syms[..|syms| - 1]) + syms[|syms| - 1].weight
  }

  /** The sum of the weights of the symbols showing `x`. */
  function WeightOf(syms: seq<Symbol>, x: Icon): nat {
    if |syms| == 0 then 0
    else
      var last := syms[|syms| - 1];
      WeightOf(syms[..|syms| - 1], x) + (if last.icon == x then last.weight else 0)
  }

  /** No icon appears twice in the table. */
  predicate DistinctIcons(syms: seq<Symbol>) {
    forall i, j :: 0 <= i < j < |syms| ==> syms[i].icon != syms[j].icon
  }

  /** `x` appears in `Repeat(y, n)` exactly `n` times when it is `y`, else never. */
  lemma {:induction false} RepeatCount(y: Icon, n: nat, x: Icon)
    ensures multiset(Repeat(y, n))[x] == if x == y then n else 0
  {
    if n > 0 {
      RepeatCount(y, n - 1, x);
      assert Repeat(y, n) == Repeat(y, n - 1) + [y];
      assert multiset(Repeat(y, n)) == multiset(Repeat(y, n - 1)) + multiset{y};
    }
  }

  /** Each icon occurs in the weighted list as often as its weight says. */
  lemma {:induction false} ExpandCount(syms: seq<Symbol>, x: Icon)
    ensures multiset(Expand(syms))[x] == WeightOf(syms, x)
  {
    if |syms| > 0 {
      var last := syms[|syms| - 1];
      ExpandCount(syms[..|syms| - 1], x);
      RepeatCount(last.icon, last.weight, x);
      assert multiset(Expand(syms)) == multiset(Expand(syms[..|syms| - 1])) + multiset(Repeat(last.icon, last.weight));
    }
  }

  /** With distinct icons, the weight of a symbol's icon is that symbol's own weight. */
  lemma {:induction false} WeightOfDistinct(syms: seq<Symbol>, k: nat)
    requires k < |syms| && DistinctIcons(syms)
    ensures WeightOf(syms, syms[k].icon) == syms[k].weight
  {
    var n := |syms| - 1;
    var init := syms[..n];
    assert DistinctIcons(init) by {
      forall i, j | 0 <= i < j < |init| ensures init[i].icon != init[j].icon {
        assert init[i] == syms[i] && init[j] == syms[j];
      }
    }
    if k == n {
      WeightOfAbsent(init, syms[k].icon);
    } else {
      assert init[k] == syms[k];
      WeightOfDistinct(init, k);
    }
  }

  /** An icon that no symbol shows has no weight. */
  lemma {:induction false} WeightOfAbsent(syms: seq<Symbol>, x: Icon)
    requires forall i :: 0 <= i < |syms| ==> syms[i].icon != x
    ensures WeightOf(syms, x) == 0
  {
    if |syms| > 0 {
      WeightOfAbsent(syms[..|syms| - 1], x);
    }
  }

  /** Every entry of the weighted list is the icon of some symbol. */
  lemma {:induction false} ExpandFromSymbols(syms: seq<Symbol>, k: nat)
    requires k < |Expand(syms)|
    ensures exists i :: 0 <= i < |syms| && syms[i].icon == Expand(syms)[k]
  {
    var n := |syms| - 1;
    var init := syms[..n];
    if k < |Expand(init)| {
      ExpandFromSymbols(init, k);
      var i :| 0 <= i < |init| && init[i].icon == Expand(init)[k];
      assert syms[i] == init[i];
    } else {
      assert Expand(syms)[k] == syms[n].icon;
    }
  }

  /** The weights add up to 100. */
  lemma TotalWeightIs100()
    ensures TotalWeight(SYMBOLS) == 100
  {
    var s5, s4, s3, s2, s1 := SYMBOLS[..5], SYMBOLS[..4], SYMBOLS[..3], SYMBOLS[..2], SYMBOLS[..1];
    assert s5[..4] == s4 && s4[..3] == s3 && s3[..2] == s2 && s2[..1] == s1 && s1[..0] == [];
    assert TotalWeight(s1) == 30;
    assert TotalWeight(s2) == 56;
    assert TotalWeight(s3) == 74;
    assert TotalWeight(s4) == 88;
    assert TotalWeight(s5) == 96;
  }

  /** The weighted list: 100 entries, each icon exactly `weight` times. */
  lemma WeightedTable()
    ensures |Expand(SYMBOLS)| == 100
    ensures forall k :: 0 <= k < |SYMBOLS| ==> multiset(Expand(SYMBOLS))[SYMBOLS[k].icon] == SYMBOLS[k].weight
  {
    TotalWeightIs100();
    forall k | 0 <= k < |SYMBOLS|
      ensures multiset(Expand(SYMBOLS))[SYMBOLS[k].icon] == SYMBOLS[k].weight
    {
      ExpandCount(SYMBOLS, SYMBOLS[k].icon);
      SymbolWeight(k);
    }
  }

  /** In the table, an icon's weight is its symbol's weight. */
  lemma SymbolWeight(k: nat)
    requires k < |SYMBOLS|
    ensures WeightOf(SYMBOLS, SYMBOLS[k].icon) == SYMBOLS[k].weight
  {
    assert DistinctIcons(SYMBOLS);
    WeightOfDistinct(SYMBOLS, k);
  }

  // ---------------------------------------------------------------------------
  // Looking a symbol up

  /** `SYMBOLS.find(s => s.icon === x)`: the first symbol showing `x`. */
  function FindSymbol(syms: seq<Symbol>, x: Icon): (r: Option<Symbol>)
    ensures r.Some? ==> r.value in syms && r.value.icon == x
    ensures r.None? ==> forall i :: 0 <= i < |syms| ==> syms[i].icon != x
  {
    if |syms| == 0 then None
    else if syms[0].icon == x then Some(syms[0])
    else
      var r := FindSymbol(syms[1..], x);
      assert forall i :: 1 <= i < |syms| ==> syms[i] == syms[1..][i - 1];
      r
  }

  /** Every icon is in the table, and its pay is between 1.5 and 20 (3 and 40 halves). */
  lemma FindSymbolTotal(x: Icon)
    ensures FindSymbol(SYMBOLS, x).Some?
    ensures 3 <= FindSymbol(SYMBOLS, x).value.halfPay <= 40
  {
    var i := match x
      case Lemon => 0
      case Cherry => 1
      case Star => 2
      case Bell => 3
      case Gem => 4
      case Seven => 5;
    assert SYMBOLS[i].icon == x;
    assert forall s :: s in SYMBOLS ==> 3 <= s.halfPay <= 40;
  }

  // ---------------------------------------------------------------------------
  // Grid and paylines

  /** A cell as `[row, column]`. */
  type Pos = (int, int)

  type Line = seq<Pos>

  type Grid = seq<seq<Icon>>

  predicate InGrid(p: Pos) {
    0 <= p.0 < 3 && 0 <= p.1 < 3
  }

  /** Three cells, all on the grid. */
  predicate IsLine(line: Line) {
    |line| == 3 && forall k :: 0 <= k < 3 ==> InGrid(line[k])
  }

  predicate AllLines(lines: seq<Line>) {
    forall i :: 0 <= i < |lines| ==> IsLine(lines[i])
  }

  predicate Is3x3(grid: Grid) {
    |grid| == 3 && forall r :: 0 <= r < 3 ==> |grid[r]| == 3
  }

  function RowLine(r: int): Line {
    [(r, 0), (r, 1), (r, 2)]
  }

  const DIAG_DOWN: Line := [(0, 0), (1, 1), (2, 2)]
  const DIAG_UP: Line := [(0, 2), (1, 1), (2, 0)]

  /** `getLines(mode)`: the middle row for mode 1, otherwise the three rows and the two diagonals. */
  function GetLines(mode: int): (lines: seq<Line>)
    ensures AllLines(lines)
  {
    if mode == 1 then [RowLine(1)]
    else [RowLine(0), RowLine(1), RowLine(2), DIAG_DOWN, DIAG_UP]
  }

  /** Mode 1 plays the middle row alone; any other mode plays five distinct lines: the three rows and both diagonals. */
  lemma GetLinesShape(mode: int)
    ensures |GetLines(mode)| == if mode == 1 then 1 else 5
    ensures RowLine(1) in GetLines(mode)
    ensures mode != 1 ==> RowLine(0) in GetLines(mode) && RowLine(2) in GetLines(mode) && DIAG_DOWN in GetLines(mode) && DIAG_UP in GetLines(mode)
    ensures forall i, j :: 0 <= i < j < |GetLines(mode)| ==> GetLines(mode)[i] != GetLines(mode)[j]
  {
  }

  // ---------------------------------------------------------------------------
  // Evaluating the lines

  function At(grid: Grid, p: Pos): Icon
    requires Is3x3(grid) && InGrid(p)
  {
    grid[p.0][p.1]
  }

  /** The three cells of the line show the same icon. */
  predicate Matches(grid: Grid, line: Line)
    requires Is3x3(grid) && IsLine(line)
  {
    At(grid, line[0]) == At(grid, line[1]) && At(grid, line[1]) == At(grid, line[2])
  }

  /** The pay of one line, in halves: the matched symbol's pay, or nothing. */
  function LinePay(grid: Grid, line: Line): (p: nat)
    requires Is3x3(grid) && IsLine(line)
    ensures p > 0 <==> Matches(grid, line)
    ensures p > 0 ==> 3 <= p <= 40
  {
    FindSymbolTotal(At(grid, line[0]));
    if Matches(grid, line) then
      match FindSymbol(SYMBOLS, At(grid, line[0]))
      case Some(s) => s.halfPay
      case None => 0
    else 0
  }

  /** The total multiplier, in halves: the sum of the pays of the matching lines, at most 20 per line. */
  function LinesPay(grid: Grid, lines: seq<Line>): (p: nat)
    requires Is3x3(grid) && AllLines(lines)
    ensures p <= 40 * |lines|
  {
    if |lines| == 0 then 0
    else LinesPay(grid, lines[..|lines| - 1]) + LinePay(grid, lines[|lines| - 1])
  }

  /** The cells of the matching lines, line after line: three cells of the grid for each. */
  function WinningCells(grid: Grid, lines: seq<Line>): (cells: seq<Pos>)
    requires Is3x3(grid) && AllLines(lines)
    ensures |cells| % 3 == 0 && |cells| <= 3 * |lines|
    ensures forall k :: 0 <= k < |cells| ==> InGrid(cells[k])
  {
    if |lines| == 0 then []
    else
      var last := lines[|lines| - 1];
      WinningCells(grid, lines[..|lines| - 1]) + (if Matches(grid, last) then last else [])
  }

  /** The number of matching lines. */
  function WinCount(grid: Grid, lines: seq<Line>): nat
    requires Is3x3(grid) && AllLines(lines)
  {
    if |lines| == 0 then 0
    else WinCount(grid, lines[..|lines| - 1]) + (if Matches(grid, lines[|lines| - 1]) then 1 else 0)
  }

  /** `evalWin`: walks the lines, adding the pay and the cells of every line of three equal icons. */
  method EvalWin(grid: Grid, lines: seq<Line>) returns (halfMultiplier: nat, cells: seq<Pos>)
    requires Is3x3(grid) && AllLines(lines)
    ensures halfMultiplier == LinesPay(grid, lines)
    ensures cells == WinningCells(grid, lines)
  {
    halfMultiplier := 0;
    cells := [];
    var i := 0;
    while i < |lines|
      invariant 0 <= i <= |lines|
      invariant halfMultiplier == LinesPay(grid, lines[..i])
      invariant cells == WinningCells(grid, lines[..i])
    {
      var line := lines[i];
      var a, b, c := At(grid, line[0]), At(grid, line[1]), At(grid, line[2]);
      NextLine(grid, lines, i);
      if a == b && b == c {
        var sym := FindSymbol(SYMBOLS, a);
        if sym.Some? {
          halfMultiplier := halfMultiplier + sym.value.halfPay;
          cells := cells + line;
        } else {
          FindSymbolTotal(a);
          assert false;
        }
      }
      i := i + 1;
    }
    assert lines[..|lines|] == lines;
  }

  /** Evaluating one more line adds its pay and, when it matches, its cells. */
  lemma NextLine(grid: Grid, lines: seq<Line>, i: nat)
    requires Is3x3(grid) && AllLines(lines) && i < |lines|
    ensures LinesPay(grid, lines[..i + 1]) == LinesPay(grid, lines[..i]) + LinePay(grid, lines[i])
    ensures WinningCells(grid, lines[..i + 1]) ==
      WinningCells(grid, lines[..i]) + (if Matches(grid, lines[i]) then lines[i] else [])
  {
    assert lines[..i + 1][..i] == lines[..i];
  }

  /** The multiplier is zero exactly when no line matches. */
  lemma {:induction false} LinesPayZeroIff(grid: Grid, lines: seq<Line>)
    requires Is3x3(grid) && AllLines(lines)
    ensures LinesPay(grid, lines) == 0 <==> forall i :: 0 <= i < |lines| ==> !Matches(grid, lines[i])
  {
    if |lines| > 0 {
      var init := lines[..|lines| - 1];
      LinesPayZeroIff(grid, init);
      assert forall i :: 0 <= i < |init| ==> init[i] == lines[i];
    }
  }

  /** Three winning cells per matching line. */
  lemma {:induction false} WinningCellsPerLine(grid: Grid, lines: seq<Line>)
    requires Is3x3(grid) && AllLines(lines)
    ensures |WinningCells(grid, lines)| == 3 * WinCount(grid, lines)
  {
    if |lines| > 0 {
      WinningCellsPerLine(grid, lines[..|lines| - 1]);
    }
  }

  /** Each matching line adds between 1.5 and 20 to the multiplier. */
  lemma {:induction false} LinesPayBounds(grid: Grid, lines: seq<Line>)
    requires Is3x3(grid) && AllLines(lines)
    ensures 3 * WinCount(grid, lines) <= LinesPay(grid, lines) <= 40 * WinCount(grid, lines)
    ensures WinCount(grid, lines) <= |lines|
  {
    if |lines| > 0 {
      LinesPayBounds(grid, lines[..|lines| - 1]);
    }
  }

  // ---------------------------------------------------------------------------
  // Bet and win arithmetic

  /**
   * `Math.max(100, Math.floor(Number(input) || 0))`; `None` is an input that
   * is not a number, which `|| 0` turns into 0.
   */
  function BetPerLine(input: Option<real>): (b: int)
    ensures b >= MIN_LINE_BET
    ensures b == MIN_LINE_BET || (input.Some? && b as real <= input.value < b as real + 1.0)
    ensures input.Some? && input.value >= MIN_LINE_BET as real ==> b as real <= input.value < b as real + 1.0
  {
    var n := match input case Some(v) => v.Floor case None => 0;
    if n < MIN_LINE_BET then MIN_LINE_BET else n
  }

  /** `Number(linesSel.value) === 5 ? 5 : 1`. */
  function LinesCount(choice: Option<real>): (n: int)
    ensures n == 1 || n == 5
    ensures n == 5 <==> choice == Some(5.0)
  {
    if choice == Some(5.0) then 5 else 1
  }

  /** `totalBet`: the per-line bet on every played line. */
  function TotalBet(input: Option<real>, choice: Option<real>): (t: int)
    ensures t >= MIN_LINE_BET
  {
    BetPerLine(input) * LinesCount(choice)
  }

  /** `Math.floor(betPerLine * totalMultiplier)` with the multiplier in halves. */
  function WinAmount(betPerLine: nat, halfMultiplier: nat): (won: nat)
    ensures 2 * won <= betPerLine * halfMultiplier < 2 * won + 2
    ensures halfMultiplier == 0 ==> won == 0
  {
    (betPerLine * halfMultiplier) / 2
  }

  /** The stake of a spin is at least 100, and a win never exceeds 20 times it. */
  lemma SpinStakeAndWin(input: Option<real>, choice: Option<real>, grid: Grid)
    requires Is3x3(grid)
    ensures BetPerLine(input) * LinesCount(choice) >= MIN_LINE_BET
    ensures WinAmount(BetPerLine(input), LinesPay(grid, GetLines(LinesCount(choice)))) <= 20 * (BetPerLine(input) * LinesCount(choice))
  {
    var bpl := BetPerLine(input);
    var lc := LinesCount(choice);
    var lines := GetLines(lc);
    LinesPayBounds(grid, lines);
    WinBound(bpl, lc, LinesPay(grid, lines));
  }

  /** Arithmetic step of `SpinStakeAndWin`. */
  lemma WinBound(bpl: nat, lc: nat, m: nat)
    requires bpl >= MIN_LINE_BET && lc >= 1 && m <= 40 * lc
    ensures bpl * lc >= MIN_LINE_BET
    ensures WinAmount(bpl, m) <= 20 * (bpl * lc)
  {
    assert bpl * lc >= bpl * 1;
    assert bpl * m <= bpl * (40 * lc);
  }

  // ---------------------------------------------------------------------------
  // The machine

  /** The pick made from word `n` of the stream: `weighted[randInt(0, weighted.length - 1)]`. */
  function Cell(weighted: seq<Icon>, draw: nat -> Word, n: nat): (x: Icon)
    requires |weighted| > 0
    ensures x in weighted
  {
    weighted[Scale(0, |weighted| - 1, draw(n))]
  }

  /** The grid drawn from the stream starting at word `start`: row by row, left to right. */
  function GridFrom(weighted: seq<Icon>, draw: nat -> Word, start: nat): (g: Grid)
    requires |weighted| > 0
    ensures Is3x3(g)
  {
    seq(3, r requires 0 <= r < 3 => seq(3, c requires 0 <= c < 3 => Cell(weighted, draw, start + 3 * r + c)))
  }

  /** Cell `(r, c)` of the grid is the pick made from word `start + 3 * r + c`. */
  lemma GridFromCells(weighted: seq<Icon>, draw: nat -> Word, start: nat)
    requires |weighted| > 0
    ensures forall r, c :: 0 <= r < 3 && 0 <= c < 3 ==> GridFrom(weighted, draw, start)[r][c] == Cell(weighted, draw, start + 3 * r + c)
  {
  }

  /** A grid of icons taken from the weighted list shows only icons of the table. */
  lemma GridShowsSymbols(draw: nat -> Word, start: nat)
    ensures |Expand(SYMBOLS)| > 0
    ensures var g := GridFrom(Expand(SYMBOLS), draw, start);
      forall r, c :: 0 <= r < 3 && 0 <= c < 3 ==> exists i :: 0 <= i < |SYMBOLS| && SYMBOLS[i].icon == g[r][c]
  {
    WeightedTable();
    var w := Expand(SYMBOLS);
    var g := GridFrom(w, draw, start);
    GridFromCells(w, draw, start);
    forall r, c | 0 <= r < 3 && 0 <= c < 3
      ensures exists i :: 0 <= i < |SYMBOLS| && SYMBOLS[i].icon == g[r][c]
    {
      ExpandFromSymbols(SYMBOLS, Scale(0, |w| - 1, draw(start + 3 * r + c)));
      assert g[r][c] == Expand(SYMBOLS)[Scale(0, |w| - 1, draw(start + 3 * r + c))];
    }
  }

  /**
   * `out` is the round drawn from word `start` of the stream: the grid drawn
   * there, its pay and its winning cells on the lines of `mode`, and the win
   * at `betPerLine`.
   */
  ghost predicate Played(out: SpinOutcome, weighted: seq<Icon>, draw: nat -> Word, start: nat, betPerLine: nat, mode: int) {
    |weighted| > 0 && out.Spun? &&
    out.grid == GridFrom(weighted, draw, start) &&
    out.halfMultiplier == LinesPay(out.grid, GetLines(mode)) &&
    out.cells == WinningCells(out.grid, GetLines(mode)) &&
    out.won == WinAmount(betPerLine, out.halfMultiplier)
  }

  /** What the spin button did. */
  datatype SpinOutcome =
    | NoProfile
    | BetRefused(reason: BetError)
    | Spun(grid: Grid, halfMultiplier: nat, cells: seq<Pos>, won: nat)

  class SlotMachine {
    /** The module-level weighted pick list. */
    var weighted: seq<Icon>

    ghost predicate Valid()
      reads this
    {
      weighted == Expand(SYMBOLS)
    }

    /** Module load: `buildWeighted()`. */
    constructor ()
      ensures Valid()
    {
      weighted := [];
      new;
      BuildWeighted();
    }

    /** `buildWeighted`: every symbol's icon pushed `weight` times, in table order. */
    method BuildWeighted()
      modifies this
      ensures weighted == Expand(SYMBOLS)
    {
      weighted := [];
      var k := 0;
      while k < |SYMBOLS|
        invariant 0 <= k <= |SYMBOLS|
        invariant weighted == Expand(SYMBOLS[..k])
      {
        var s := SYMBOLS[k];
        var i := 0;
        while i < s.weight
          invariant 0 <= i <= s.weight
          invariant weighted == Expand(SYMBOLS[..k]) + Repeat(s.icon, i)
        {
          weighted := weighted + [s.icon];
          assert Repeat(s.icon, i + 1) == Repeat(s.icon, i) + [s.icon];
          i := i + 1;
        }
        assert SYMBOLS[..k + 1][..k] == SYMBOLS[..k];
        k := k + 1;
      }
      assert SYMBOLS[..|SYMBOLS|] == SYMBOLS;
    }

    /** `pickSymbol`: the entry of the weighted list at a drawn index. */
    method PickSymbol(rng: Rng) returns (x: Icon)
      requires |weighted| > 0
      modifies rng
      ensures rng.used == old(rng.used) + 1
      ensures x == Cell(weighted, rng.draw, old(rng.used))
    {
      var idx := rng.RandInt(0, |weighted| - 1);
      x := weighted[idx];
    }

    /** The inner loop of `spinGrid`: one row of three picks. */
    method SpinRow(rng: Rng) returns (row: seq<Icon>)
      requires |weighted| > 0
      modifies rng
      ensures rng.used == old(rng.used) + 3
      ensures |weighted| > 0 && |row| == 3
      ensures forall j :: 0 <= j < 3 ==> row[j] == Cell(weighted, rng.draw, old(rng.used) + j)
    {
      row := [];
      var c := 0;
      while c < 3
        invariant 0 <= c <= 3
        invariant rng.used == old(rng.used) + c
        invariant |weighted| > 0 && |row| == c
        invariant forall j :: 0 <= j < c ==> row[j] == Cell(weighted, rng.draw, old(rng.used) + j)
      {
        var x := PickSymbol(rng);
        row := row + [x];
        c := c + 1;
      }
    }

    /** `spinGrid`: three rows of three picks. */
    method SpinGrid(rng: Rng) returns (grid: Grid)
      requires |weighted| > 0
      modifies rng
      ensures rng.used == old(rng.used) + 9
      ensures |weighted| > 0 && grid == GridFrom(weighted, rng.draw, old(rng.used))
    {
      grid := [];
      var r := 0;
      while r < 3
        invariant 0 <= r <= 3
        invariant rng.used == old(rng.used) + 3 * r
        invariant |grid| == r
        invariant forall i :: 0 <= i < r ==> |grid[i]| == 3
        invariant forall i, j :: 0 <= i < r && 0 <= j < 3 ==> grid[i][j] == Cell(weighted, rng.draw, old(rng.used) + 3 * i + j)
      {
        var row := SpinRow(rng);
        grid := grid + [row];
        r := r + 1;
      }
      ghost var g := GridFrom(weighted, rng.draw, old(rng.used));
      GridFromCells(weighted, rng.draw, old(rng.used));
      assert forall i :: 0 <= i < 3 ==> grid[i] == g[i];
    }

    /**
     * The spin button: the stake `betPerLine * lines` goes through `placeBet`,
     * eight animation grids are drawn and discarded, the final grid is
     * evaluated, and a positive multiplier is paid out.
     */
    method Spin(store: Store, rng: Rng, name: string, betInput: Option<real>, linesChoice: Option<real>)
      returns (out: SpinOutcome)
      requires Valid()
      modifies store, rng
      ensures name == "" <==> out == NoProfile
      ensures out == NoProfile ==> store.items == old(store.items) && rng.used == old(rng.used)
      ensures out.BetRefused? <==> name != "" && Debit(Record(old(store.items), name), TotalBet(betInput, linesChoice)).Failure?
      ensures out.BetRefused? ==>
        store.items == Initialized(old(store.items), name) && rng.used == old(rng.used)
      ensures out.Spun? ==> rng.used == old(rng.used) + 9 * (ANIMATION_SPINS + 1)
      ensures out.Spun? ==>
        Played(out, weighted, rng.draw, old(rng.used) + 9 * ANIMATION_SPINS, BetPerLine(betInput), LinesCount(linesChoice))
      ensures out.Spun? ==>
        store.items == WithBalance(old(store.items), name, Balance(old(store.items), name) - TotalBet(betInput, linesChoice) + out.won)
      ensures out.Spun? ==>
        Balance(store.items, name) == Balance(old(store.items), name) - TotalBet(betInput, linesChoice) + out.won
    {
      WeightedTable();
      out := SpinActive(store, rng, name, betInput, linesChoice);
    }

    /** The body of the spin button; of the weighted list it needs only that it is not empty. */
    method SpinActive(store: Store, rng: Rng, name: string, betInput: Option<real>, linesChoice: Option<real>)
      returns (out: SpinOutcome)
      requires |weighted| > 0
      modifies store, rng
      ensures name == "" <==> out == NoProfile
      ensures out == NoProfile ==> store.items == old(store.items) && rng.used == old(rng.used)
      ensures out.BetRefused? <==> name != "" && Debit(Record(old(store.items), name), TotalBet(betInput, linesChoice)).Failure?
      ensures out.BetRefused? ==>
        store.items == Initialized(old(store.items), name) && rng.used == old(rng.used)
      ensures out.Spun? ==> rng.used == old(rng.used) + 9 * (ANIMATION_SPINS + 1)
      ensures out.Spun? ==>
        Played(out, weighted, rng.draw, old(rng.used) + 9 * ANIMATION_SPINS, BetPerLine(betInput), LinesCount(linesChoice))
      ensures out.Spun? ==>
        store.items == WithBalance(old(store.items), name, Balance(old(store.items), name) - TotalBet(betInput, linesChoice) + out.won)
      ensures out.Spun? ==>
        Balance(store.items, name) == Balance(old(store.items), name) - TotalBet(betInput, linesChoice) + out.won
    {
      if name == "" {
        return NoProfile;
      }
      var betPerLine := BetPerLine(betInput);
      var linesCount := LinesCount(linesChoice);
      var totalBet := TotalBet(betInput, linesChoice);
      var betRes := PlaceBet(store, name, totalBet);
      if betRes.BetRejected? {
        return BetRefused(betRes.reason);
      }
      out := PlayStaked(store, rng, name, betPerLine, linesCount, totalBet, old(store.items));
    }

    /** The round after a stake of `totalBet` was taken from the storage `before`. */
    method PlayStaked(store: Store, rng: Rng, name: string, betPerLine: nat, linesCount: int, totalBet: int, ghost before: Items)
      returns (out: SpinOutcome)
      requires |weighted| > 0
      requires store.items == WithBalance(before, name, Balance(before, name) - totalBet)
      modifies store, rng
      ensures rng.used == old(rng.used) + 9 * (ANIMATION_SPINS + 1)
      ensures Played(out, weighted, rng.draw, old(rng.used) + 9 * ANIMATION_SPINS, betPerLine, linesCount)
      ensures store.items == WithBalance(before, name, Balance(before, name) - totalBet + out.won)
      ensures Balance(store.items, name) == Balance(before, name) - totalBet + out.won
    {
      ghost var mid := store.items;
      out := PlayRound(store, rng, name, betPerLine, linesCount);
      StakeThenPay(before, mid, store.items, name, totalBet, out.halfMultiplier > 0, out.won);
    }

    /** The part of the spin after the stake is taken: the grids, the evaluation and the payout. */
    method PlayRound(store: Store, rng: Rng, name: string, betPerLine: nat, linesCount: int) returns (out: SpinOutcome)
      requires |weighted| > 0
      modifies store, rng
      ensures rng.used == old(rng.used) + 9 * (ANIMATION_SPINS + 1)
      ensures Played(out, weighted, rng.draw, old(rng.used) + 9 * ANIMATION_SPINS, betPerLine, linesCount)
      ensures out.halfMultiplier == 0 ==> store.items == old(store.items)
      ensures out.halfMultiplier > 0 ==> store.items == WithBalance(old(store.items), name, Balance(old(store.items), name) + out.won)
      ensures Balance(store.items, name) == Balance(old(store.items), name) + out.won
    {
      var grid := AnimateAndSpin(rng);
      var lines := GetLines(linesCount);
      var halfMultiplier, cells := EvalWin(grid, lines);
      ghost var before := store.items;
      assert before == old(store.items);
      var won := PayWin(store, name, betPerLine, halfMultiplier);
      out := Spun(grid, halfMultiplier, cells, won);
    }

    /** The payout step of the spin: a positive multiplier pays `floor(betPerLine * multiplier)`. */
    method PayWin(store: Store, name: string, betPerLine: nat, halfMultiplier: nat) returns (won: nat)
      modifies store
      ensures won == WinAmount(betPerLine, halfMultiplier)
      ensures halfMultiplier == 0 ==> store.items == old(store.items)
      ensures halfMultiplier > 0 ==> store.items == WithBalance(old(store.items), name, Balance(old(store.items), name) + won)
      ensures Balance(store.items, name) == Balance(old(store.items), name) + won
    {
      won := 0;
      if halfMultiplier > 0 {
        won := WinAmount(betPerLine, halfMultiplier);
        var _ := Payout(store, name, won as real);
      }
    }

    /** The eight animation grids, then the final one. */
    method AnimateAndSpin(rng: Rng) returns (grid: Grid)
      requires |weighted| > 0
      modifies rng
      ensures rng.used == old(rng.used) + 9 * (ANIMATION_SPINS + 1)
      ensures |weighted| > 0 && grid == GridFrom(weighted, rng.draw, old(rng.used) + 9 * ANIMATION_SPINS)
    {
      var i := 0;
      while i < ANIMATION_SPINS
        invariant 0 <= i <= ANIMATION_SPINS
        invariant rng.used == old(rng.used) + 9 * i
      {
        var _ := SpinGrid(rng);
        i := i + 1;
      }
      grid := SpinGrid(rng);
    }
  }
}
