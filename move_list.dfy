/**
 * The move-history table of `components/MoveList.tsx`: the game's SAN
 * history is cut into rows of two, White's move in the first column and
 * Black's in the second.
 */
module MoveList {

  /** A SAN move such as "e4" or "Nxf7+". */
  type San = string

  /** `source.slice(start, end)` for a start inside the array: the end is clamped to the length. */
  function Slice(source: seq<San>, start: nat, end: nat): (r: seq<San>)
    requires start <= end && start <= |source|
    ensures end <= |source| ==> r == source[start..end]
    ensures |source| < end ==> r == source[start..]
  {
    if end <= |source| then source[start..end] else source[start..]
  }

  /** The reducer passed to `reduce`: at an even index, append the slice of two starting there. */
  function Step(result: seq<seq<San>>, index: nat, source: seq<San>): (next: seq<seq<San>>)
    requires index < |source|
  {
    if index % 2 == 0 then result + [Slice(source, index, index + 2)] else result
  }

  /** `reduce` run from `index` to the end of `source`, with the accumulator `result`. */
  function ReduceFrom(source: seq<San>, index: nat, result: seq<seq<San>>): (rows: seq<seq<San>>)
    requires index <= |source|
    decreases |source| - index
  {
    if index == |source| then result
    else ReduceFrom(source, index + 1, Step(result, index, source))
  }

  /** `chunkInTwo(history)`: `reduce` from index 0 with the empty accumulator. */
  function ChunkInTwo(history: seq<San>): (rows: seq<seq<San>>)
  {
    ReduceFrom(history, 0, [])
  }

  /** Reference definition: the rows of two written as a plain recursion. */
  function Pairs(history: seq<San>): (rows: seq<seq<San>>)
    decreases |history|
  {
    if |history| <= 2 then (if history == [] then [] else [history])
    else [history[..2]] + Pairs(history[2..])
  }

  /** Concatenation of the rows, the inverse of the chunking. */
  function Flatten(rows: seq<seq<San>>): (moves: seq<San>)
    decreases |rows|
  {
    if rows == [] then [] else rows[0] + Flatten(rows[1..])
  }

  /** From an even index, the fold appends exactly the reference rows of the rest of the history. */
  lemma {:induction false} ReduceFromIsPairs(source: seq<San>, index: nat, result: seq<seq<San>>)
    requires index <= |source| && index % 2 == 0
    ensures ReduceFrom(source, index, result) == result + Pairs(source[index..])
    decreases |source| - index
  {
    var rest := source[index..];
    if index == |source| {
      assert rest == [];
    } else if index + 1 == |source| {
      var next := result + [source[index..]];
      assert ReduceFrom(source, index, result) == ReduceFrom(source, index + 1, next);
      assert ReduceFrom(source, index + 1, next) == next;
      assert Pairs(rest) == [rest];
    } else {
      var next := result + [source[index..index + 2]];
      assert ReduceFrom(source, index, result) == ReduceFrom(source, index + 1, next);
      assert ReduceFrom(source, index + 1, next) == ReduceFrom(source, index + 2, next);
      ReduceFromIsPairs(source, index + 2, next);
      assert rest[..2] == source[index..index + 2];
      assert rest[2..] == source[index + 2..];
      if |rest| == 2 {
        assert rest == rest[..2] && Pairs(rest[2..]) == [];
      }
      assert Pairs(rest) == [source[index..index + 2]] + Pairs(source[index + 2..]);
    }
  }

  /** The fold in the source computes the reference rows. */
  lemma ChunkInTwoIsPairs(history: seq<San>)
    ensures ChunkInTwo(history) == Pairs(history)
  {
    ReduceFromIsPairs(history, 0, []);
    assert history[0..] == history;
  }

  lemma {:induction false} PairsFlatten(history: seq<San>)
    ensures Flatten(Pairs(history)) == history
    decreases |history|
  {
    if |history| <= 2 {
      if history != [] {
        assert Flatten([history]) == history + Flatten([]);
      }
    } else {
      var rows := Pairs(history);
      assert rows[0] == history[..2] && rows[1..] == Pairs(history[2..]);
      PairsFlatten(history[2..]);
      assert history == history[..2] + history[2..];
    }
  }

  lemma {:induction false} PairsRows(history: seq<San>)
    ensures |Pairs(history)| == (|history| + 1) / 2
    ensures forall i :: 0 <= i < |Pairs(history)| ==>
      Pairs(history)[i] == history[2 * i..if 2 * i + 2 <= |history| then 2 * i + 2 else |history|]
    decreases |history|
  {
    if |history| > 2 {
      var rows, tail := Pairs(history), history[2..];
      PairsRows(tail);
      forall i | 0 <= i < |rows|
        ensures rows[i] == history[2 * i..if 2 * i + 2 <= |history| then 2 * i + 2 else |history|]
      {
        if i > 0 {
          assert rows[i] == Pairs(tail)[i - 1];
        }
      }
    }
  }

  /** Concatenating the rows gives back the history exactly. */
  lemma ChunkInTwoRoundTrip(history: seq<San>)
    ensures Flatten(ChunkInTwo(history)) == history
  {
    ChunkInTwoIsPairs(history);
    PairsFlatten(history);
  }

  /**
   * There are ⌈n/2⌉ rows, none for an empty history, and row `i` is
   * `[h[2i], h[2i+1]]`: White's move then Black's, as the table headers say.
   */
  lemma ChunkInTwoRowAt(history: seq<San>, i: nat)
    requires i < |ChunkInTwo(history)|
    ensures |ChunkInTwo(history)| == (|history| + 1) / 2
    ensures 2 * i + 1 < |history| ==> ChunkInTwo(history)[i] == [history[2 * i], history[2 * i + 1]]
    ensures 2 * i + 1 == |history| ==> ChunkInTwo(history)[i] == [history[2 * i]]
  {
    ChunkInTwoIsPairs(history);
    PairsRows(history);
  }

  /** An empty history yields no rows. */
  lemma ChunkInTwoEmpty()
    ensures ChunkInTwo([]) == []
  {
  }

  /** Every row holds two moves, except a last row of one move, which exists exactly when the history has odd length. */
  lemma ChunkInTwoRowLengths(history: seq<San>)
    ensures forall i :: 0 <= i < |ChunkInTwo(history)| - 1 ==> |ChunkInTwo(history)[i]| == 2
    ensures ChunkInTwo(history) != [] ==>
      (|ChunkInTwo(history)[|ChunkInTwo(history)| - 1]| == 1 <==> |history| % 2 == 1)
    ensures ChunkInTwo(history) != [] ==> 1 <= |ChunkInTwo(history)[|ChunkInTwo(history)| - 1]| <= 2
  {
    ChunkInTwoIsPairs(history);
    PairsRows(history);
  }
}
