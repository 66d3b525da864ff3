/**
 * The interactive board of `components/MainChessboard.tsx`: click-to-move
 * selection, right-click marks, the highlight of a piece's legal targets and
 * the board glow that reflects check, mate and stalemate.
 *
 * The chess rules engine is not modelled; it is an oracle `Rules` over an
 * abstract position type, asked only the questions the component asks.
 */
module MainChessboard {
  import opened Wrappers

  /** A square name such as "e4". */
  type Square = string

  /** A side, as the engine's `turn()` reports it ('w' or 'b') and as the first letter of the board orientation. */
  datatype Color = White | Black

  datatype Piece = Piece(kind: char, color: Color)

  /**
   * What the engine's `move` returns.  The component treats the attempt as
   * rejected exactly when the result is `undefined`.
   */
  datatype MoveResult = Undefined | Moved(san: string)

  /**
   * The engine's answers, for a position of type `P`: the side to move, the
   * target square of every legal move from a square, the piece on a square,
   * the position and result of attempting a move (from, to, promotion), and
   * the three terminal-state queries.
   */
  datatype Rules<!P> = Rules(
    turn: P -> Color,
    targets: (P, Square) -> seq<Square>,
    get: (P, Square) -> Option<Piece>,
    move: (P, Square, Square, char) -> (P, MoveResult),
    inCheckmate: P -> bool,
    inCheck: P -> bool,
    inStalemate: P -> bool)

  /** The per-square styles the component draws. */
  datatype SquareStyle =
    | QuietTarget    // a legal target that is empty or holds a piece of the mover's colour
    | CaptureTarget  // a legal target holding an opposing piece
    | Selected       // the square whose moves are shown
    | Marked         // a right-click mark

  function Background(style: SquareStyle): (css: string)
  {
    match style
    case QuietTarget => "radial-gradient(circle, rgba(255,255,255,.1) 25%, transparent 25%)"
    case CaptureTarget => "radial-gradient(circle, rgba(0,0,0,.1) 85%, transparent 85%)"
    case Selected => "rgba(255, 255, 0, 0.4)"
    case Marked => "rgba(0, 0, 255, 0.4)"
  }

  /** The board's glow, one per game condition. */
  datatype BoardGlow = CheckmateGlow | CheckGlow | StalemateGlow | PlainGlow

  function BoxShadow(glow: BoardGlow): (css: string)
  {
    match glow
    case CheckmateGlow => "0 8px 32px rgba(239, 37, 37, 0.5)"
    case CheckGlow => "0 8px 32px rgba(239, 180, 37, 0.5)"
    case StalemateGlow => "0 8px 32px rgba(255, 34, 123, 0.5)"
    case PlainGlow => "0 5px 15px rgba(0, 0, 0, 0.5)"
  }

  /**
   * `getCustomBoardStyles`: checkmate before check before stalemate; the
   * plain shadow only when none holds.
   */
  function BoardStyle<P>(rules: Rules<P>, game: P): (glow: BoardGlow)
    ensures glow == CheckmateGlow <==> rules.inCheckmate(game)
    ensures glow == CheckGlow <==> !rules.inCheckmate(game) && rules.inCheck(game)
    ensures glow == StalemateGlow <==> !rules.inCheckmate(game) && !rules.inCheck(game) && rules.inStalemate(game)
    ensures glow == PlainGlow <==> !rules.inCheckmate(game) && !rules.inCheck(game) && !rules.inStalemate(game)
  {
    if rules.inCheckmate(game) then CheckmateGlow
    else if rules.inCheck(game) then CheckGlow
    else if rules.inStalemate(game) then StalemateGlow
    else PlainGlow
  }

  /** A mated side is also in check, yet the mate glow is the one shown. */
  lemma CheckmateOutranksCheck<P>(rules: Rules<P>, game: P)
    requires rules.inCheckmate(game) && rules.inCheck(game)
    ensures BoardStyle(rules, game) == CheckmateGlow
    ensures BoardStyle(rules, game) != CheckGlow
  {
  }

  /** The piece on `target` belongs to the other side from the piece on `from`. */
  predicate Opposes<P>(rules: Rules<P>, game: P, from: Square, target: Square)
  {
    rules.get(game, target).Some? && rules.get(game, from).Some? &&
    rules.get(game, target).value.color != rules.get(game, from).value.color
  }

  function TargetStyle<P>(rules: Rules<P>, game: P, from: Square, target: Square): (style: SquareStyle)
  {
    if Opposes(rules, game, from, target) then CaptureTarget else QuietTarget
  }

  /** The engine answers `get(square)` with a piece whenever it lists moves from that square. */
  predicate MovesHaveMover<P>(rules: Rules<P>, game: P, square: Square)
  {
    |rules.targets(game, square)| > 0 ==> rules.get(game, square).Some?
  }

  /**
   * The highlight map `getMoveOptions` builds for a square with legal moves:
   * exactly one entry per legal target, capture style on a target holding an
   * opposing piece, the quiet style on every other target, and the selected
   * style on the square itself.
   */
  function MoveOptionsMap<P>(rules: Rules<P>, game: P, square: Square): (options: map<Square, SquareStyle>)
    ensures options.Keys == (set t | t in rules.targets(game, square)) + {square}
    ensures options[square] == Selected
    ensures forall t :: t in options && t != square ==>
      (options[t] == CaptureTarget <==> Opposes(rules, game, square, t)) &&
      (options[t] == QuietTarget <==> !Opposes(rules, game, square, t))
  {
    map t | t in (set m | m in rules.targets(game, square)) + {square} ::
      if t == square then Selected else TargetStyle(rules, game, square, t)
  }

  /** `optionSquares` after `getMoveOptions(square)`: untouched when the square has no legal moves. */
  function RefreshOptions<P>(rules: Rules<P>, game: P, square: Square, current: map<Square, SquareStyle>): (options: map<Square, SquareStyle>)
  {
    if rules.targets(game, square) == [] then current else MoveOptionsMap(rules, game, square)
  }

  /**
   * The `forEach` of `getMoveOptions`: one entry per move, in order, and the
   * source square last.  `None` when there is no move (the early return).
   */
  method MoveOptions<P>(rules: Rules<P>, game: P, square: Square) returns (options: Option<map<Square, SquareStyle>>)
    requires MovesHaveMover(rules, game, square)
    ensures options.None? <==> rules.targets(game, square) == []
    ensures options.Some? ==> options.value == MoveOptionsMap(rules, game, square)
  {
    var moves := rules.targets(game, square);
    if |moves| == 0 {
      return None;
    }
    var newSquares: map<Square, SquareStyle> := map[];
    var i := 0;
    while i < |moves|
      invariant 0 <= i <= |moves|
      invariant newSquares.Keys == set t | t in moves[..i]
      invariant forall t :: t in newSquares ==> newSquares[t] == TargetStyle(rules, game, square, t)
    {
      assert moves[..i + 1] == moves[..i] + [moves[i]];
      newSquares := newSquares[moves[i] := TargetStyle(rules, game, square, moves[i])];
      i := i + 1;
    }
    assert moves[..i] == moves;
    newSquares := newSquares[square := Selected];
    return Some(newSquares);
  }

  /** Whether a square carries the right-click mark. */
  predicate IsMarked(marks: map<Square, Option<SquareStyle>>, square: Square)
  {
    square in marks && marks[square] == Some(Marked)
  }

  /**
   * `onSquareRightClick`: the clicked square's entry flips between the mark
   * and `undefined`; every other entry is kept.
   */
  function ToggleMark(marks: map<Square, Option<SquareStyle>>, square: Square): (r: map<Square, Option<SquareStyle>>)
    ensures r.Keys == marks.Keys + {square}
    ensures forall s :: s in marks && s != square ==> r[s] == marks[s]
    ensures IsMarked(r, square) <==> !IsMarked(marks, square)
    ensures r[square] == None || r[square] == Some(Marked)
  {
    marks[square := if IsMarked(marks, square) then None else Some(Marked)]
  }

  /** Right-clicking the same square twice restores every square's mark. */
  lemma ToggleMarkTwice(marks: map<Square, Option<SquareStyle>>, square: Square)
    ensures forall s :: IsMarked(ToggleMark(ToggleMark(marks, square), square), s) <==> IsMarked(marks, s)
  {
    var once := ToggleMark(marks, square);
    var twice := ToggleMark(once, square);
    forall s ensures IsMarked(twice, s) <==> IsMarked(marks, s) {
      if s != square && s in marks {
        assert twice[s] == once[s] == marks[s];
      }
    }
  }

  /**
   * `customSquareStyles`: the option highlights overlaid by the right-click
   * entries, so an entry reset to `undefined` hides an option highlight too.
   */
  function SquareStyles(options: map<Square, SquareStyle>, marks: map<Square, Option<SquareStyle>>): (r: map<Square, Option<SquareStyle>>)
    ensures r.Keys == options.Keys + marks.Keys
    ensures forall s :: s in marks ==> r[s] == marks[s]
    ensures forall s :: s in options && s !in marks ==> r[s] == Some(options[s])
  {
    map s | s in options.Keys + marks.Keys :: if s in marks then marks[s] else Some(options[s])
  }

  /**
   * A right-click as the board shows it: an unmarked square shows the mark,
   * a marked one shows no style at all (its option highlight stays hidden
   * under the `undefined` entry), and every other square shows what it
   * showed before.
   */
  lemma RightClickOverridesHighlight(options: map<Square, SquareStyle>, marks: map<Square, Option<SquareStyle>>, square: Square)
    ensures square in SquareStyles(options, ToggleMark(marks, square))
    ensures SquareStyles(options, ToggleMark(marks, square))[square] ==
      (if IsMarked(marks, square) then None else Some(Marked))
    ensures forall s :: s in SquareStyles(options, marks) && s != square ==>
      s in SquareStyles(options, ToggleMark(marks, square)) &&
      SquareStyles(options, ToggleMark(marks, square))[s] == SquareStyles(options, marks)[s]
  {
  }

  /** Two right-clicks on a never-marked square that shows a move highlight leave it showing no style. */
  lemma DoubleRightClickHidesHighlight(options: map<Square, SquareStyle>, marks: map<Square, Option<SquareStyle>>, square: Square)
    requires square in options && square !in marks
    ensures SquareStyles(options, marks)[square] != None
    ensures SquareStyles(options, ToggleMark(ToggleMark(marks, square), square))[square] == None
  {
    RightClickOverridesHighlight(options, marks, square);
    RightClickOverridesHighlight(options, ToggleMark(marks, square), square);
  }

  class Board<P> {
    const rules: Rules<P>
    /** The first letter of `boardOrientation`: the side this board may move. */
    const orientation: Color
    const allowMoves: bool
    /** The parent's game, replaced through `setGame`. */
    var game: P
    var moveFrom: Option<Square>
    var rightClickedSquares: map<Square, Option<SquareStyle>>
    var optionSquares: map<Square, SquareStyle>

    /** A right-click entry only ever holds the mark or `undefined`. */
    ghost predicate Valid()
      reads this
    {
      forall s :: s in rightClickedSquares ==> rightClickedSquares[s] == None || rightClickedSquares[s] == Some(Marked)
    }

    constructor (rules: Rules<P>, game: P, orientation: Color, allowMoves: bool)
      ensures Valid()
      ensures this.rules == rules && this.game == game
      ensures this.orientation == orientation && this.allowMoves == allowMoves
      ensures moveFrom == None && rightClickedSquares == map[] && optionSquares == map[]
    {
      this.rules := rules;
      this.game := game;
      this.orientation := orientation;
      this.allowMoves := allowMoves;
      moveFrom := None;
      rightClickedSquares := map[];
      optionSquares := map[];
    }

    /** `getMoveOptions(square)` against the position `at`. */
    method GetMoveOptions(at: P, square: Square)
      requires MovesHaveMover(rules, at, square)
      modifies this`optionSquares
      ensures optionSquares == RefreshOptions(rules, at, square, old(optionSquares))
    {
      var options := MoveOptions(rules, at, square);
      if options.Some? {
        optionSquares := options.value;
      }
    }

    /** `onSquareRightClick`: toggles the clicked square's mark and nothing else. */
    method OnSquareRightClick(square: Square)
      requires Valid()
      modifies this`rightClickedSquares
      ensures Valid()
      ensures rightClickedSquares == ToggleMark(old(rightClickedSquares), square)
    {
      rightClickedSquares := ToggleMark(rightClickedSquares, square);
    }

    /**
     * `onSquareClick`.  Nothing changes when moves are not allowed or it is
     * not this side's turn.  Otherwise every right-click mark is cleared and:
     * with nothing selected the square is selected and its moves shown; with
     * a square selected a move to the clicked square (promoting to a queen)
     * is attempted and its position handed to `setGame` either way; a
     * rejected attempt selects the clicked square instead (its moves shown
     * from the position the click started from), an accepted one clears the
     * selection and the highlights.
     */
    method OnSquareClick(square: Square)
      requires Valid()
      requires MovesHaveMover(rules, game, square)
      modifies this`game, this`moveFrom, this`rightClickedSquares, this`optionSquares
      ensures Valid()
      ensures !allowMoves || rules.turn(old(game)) != orientation ==>
        game == old(game) && moveFrom == old(moveFrom) &&
        rightClickedSquares == old(rightClickedSquares) && optionSquares == old(optionSquares)
      ensures allowMoves && rules.turn(old(game)) == orientation ==> rightClickedSquares == map[]
      ensures allowMoves && rules.turn(old(game)) == orientation && old(moveFrom).None? ==>
        game == old(game) && moveFrom == Some(square) &&
        optionSquares == RefreshOptions(rules, old(game), square, old(optionSquares))
      ensures allowMoves && rules.turn(old(game)) == orientation && old(moveFrom).Some? ==>
        var attempt := rules.move(old(game), old(moveFrom).value, square, 'q');
        game == attempt.0 &&
        (attempt.1 == Undefined ==>
           moveFrom == Some(square) && optionSquares == RefreshOptions(rules, old(game), square, old(optionSquares))) &&
        (attempt.1 != Undefined ==> moveFrom == None && optionSquares == map[])
    {
      if !allowMoves {
        return;
      }
      if rules.turn(game) != orientation {
        return;
      }
      rightClickedSquares := map[];
      var shown := game;
      if moveFrom.None? {
        moveFrom := Some(square);
        GetMoveOptions(shown, square);
        return;
      }
      var attempt := rules.move(game, moveFrom.value, square, 'q');
      game := attempt.0;
      if attempt.1 == Undefined {
        moveFrom := Some(square);
        GetMoveOptions(shown, square);
        return;
      }
      moveFrom := None;
      optionSquares := map[];
    }
  }
}
