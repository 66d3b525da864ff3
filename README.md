# Shatranj front-end logic, modelled in Dafny

Shatranj is a wagered peer-to-peer chess web application. Players stake an
ERC-20 token (ASHF), are paired by a matchmaking server and play on an
interactive board. Almost all of its front end is presentation. This project
models the small amount of decision logic it holds:

- **Matchmaking dialog** (`components/Matchmaking.tsx`, module `Matchmaking`).
  - Bid validation is an ordered chain of four checks.
  - The request body sends `min_bid`, which falls back to the bid.
  - A class `MatchmakingDialog` holds the dialog's state cells: `bid`, `uuid`,
    `matchmakingStatus` and `cancelStatus`. It also holds whether the status
    stream is open, and an effect log of toasts, transfers, requests, dialog
    closes and navigations.
  - Every asynchronous call is a parameter saying how it settled.
- **Interactive board** (`components/MainChessboard.tsx`, module `MainChessboard`).
  - A class `Board` holds the click-to-move selection `moveFrom`, the
    right-click marks and the legal-move highlights.
  - The highlight map is built by a loop proved against a map-valued
    specification.
  - The board glow is a priority classifier.
  - The chess engine is an oracle value `Rules<P>` over an abstract position
    type. It answers: side to move, legal targets, piece on a square, move
    attempt, checkmate, check and stalemate.
- **Move list** (`components/MoveList.tsx`, module `MoveList`). `chunkInTwo` is
  modelled as the `reduce` it is. It is proved equal to a plain recursive
  pairing and inverse to concatenation.
- **Address truncation** (`utils/index.ts`, module `Utils`; the copy in
  `pages/play.tsx`, module `PlayPage`). `truncateHash` is built on JavaScript's
  clamping `substring` (module `JsString`).
- **Player strip** (`components/OptionPanel.tsx`, module `OptionPanel`). The
  `[white, "v/s", black]` order is reversed for the black side.

The settlement and realtime-synchronisation flow lives in `pages/play/[id].tsx`.
That page is not part of this model.

## Model

| member | source | states |
|---|---|---|
| `JsString.Substring` | utils/index.ts:12 | in-range indices give the plain slice, swapped indices give the slice between them, a negative start reads from 0, an end past the string reads to its end, and the result is never longer than the input |
| `JsString.SubstringClamped` | utils/index.ts:12 | any out-of-range index behaves exactly as its value clamped into [0, n] |
| `Utils.TruncateHash` | utils/index.ts:11-13 | the result has length min(5,n)+3+min(4,n); it starts with the first min(5,n) characters, ends with the last min(4,n), and has "..." at index min(5,n) |
| `Utils.TruncateHashClosedForm` | utils/index.ts:12 | the result is `hash[..min(5,n)] + "..." + hash[max(0,n-4)..]` |
| `Utils.TruncateHashLongInput` | utils/index.ts:12 | any input of five or more characters (a 42-character address among them) shortens to 12 characters |
| `Utils.TruncateHashShortInput` | utils/index.ts:12 | an input of at most four characters gives `hash + "..." + hash` |
| `PlayPage.TruncateHash` | pages/play.tsx:27-29 | same length, prefix, suffix and "..." position facts as the utils copy |
| `PlayPage.TruncateHashCopiesAgree` | pages/play.tsx:27-29 | the page's copy equals `Utils.TruncateHash` on every string |
| `MoveList.ReduceFromIsPairs` | components/MoveList.tsx:19-25 | from an even index, the `reduce` appends exactly the pairs of the rest of the history |
| `MoveList.ChunkInTwoIsPairs` | components/MoveList.tsx:18-26 | `chunkInTwo` equals the recursive pairing of the history |
| `MoveList.ChunkInTwoRoundTrip` | components/MoveList.tsx:18-26 | concatenating the rows gives back the history exactly |
| `MoveList.ChunkInTwoRowAt` | components/MoveList.tsx:18-26 | there are ⌈n/2⌉ rows; row i is `[h[2i], h[2i+1]]` (White, then Black), or `[h[2i]]` for the last move of an odd history |
| `MoveList.ChunkInTwoEmpty` | components/MoveList.tsx:18-26 | an empty history yields no rows |
| `MoveList.ChunkInTwoRowLengths` | components/MoveList.tsx:21-22 | every row but the last has two moves; the last has one or two, and one exactly when the history length is odd |
| `OptionPanel.Reverse` | components/OptionPanel.tsx:23 | `reverse()` keeps the length and puts element i at position n-1-i |
| `OptionPanel.Strip` | components/OptionPanel.tsx:15-23 | three slots with "v/s" in the middle and the local side's card first; `[white, v/s, black]` for White, `[black, v/s, white]` for Black |
| `OptionPanel.StripOrientationsMirror` | components/OptionPanel.tsx:23 | the Black strip is the reverse of the White strip |
| `OptionPanel.StripIsPermutation` | components/OptionPanel.tsx:15-23 | each player's card and the "v/s" label appear exactly once, whatever the side |
| `Matchmaking.Validate` | components/Matchmaking.tsx:114-146 | no warning iff min ≤ value, value and min are multiples of 10 and value ≥ the configured minimum; "min above bid" iff value < min |
| `Matchmaking.ValidateReportsFirstFailure` | components/Matchmaking.tsx:115-143 | the warning shown is a failing check, and every check ranked before it passes; no warning iff no check fails |
| `Matchmaking.MinBidSent` | components/Matchmaking.tsx:157 | `min_bid` is the player's minimum or the bid, the minimum replaced only when blank; it is 0 only when both are; it never exceeds a bid that is at least the minimum |
| `Matchmaking.MatchRequestFor` | components/Matchmaking.tsx:151-158 | the request carries the user's address and `token_bid` = bid value; `min_bid` ≤ `token_bid` exactly when the player's minimum ≤ their bid |
| `Matchmaking.ValidatedRequestIsConsistent` | components/Matchmaking.tsx:114-158 | for a validated bid, the `min_bid` sent is a multiple of 10, at most `token_bid`, and `token_bid` is at least the configured minimum |
| `Matchmaking.WithField` | components/Matchmaking.tsx:82-85 | the named field reads back the typed value; every other field reads as before |
| `Matchmaking.WithFieldLaws` | components/Matchmaking.tsx:82-85 | re-entering a field's shown value changes nothing; the last value typed into a field wins; edits to different fields commute |
| `Matchmaking.IntendedCancelAction` | components/Matchmaking.tsx:288 | line 288's choice: cancel the queued request exactly when the uuid is truthy, with that uuid; otherwise only close |
| `Matchmaking.CancelButtonDoesNothing` | components/CustomModal.tsx:55-62 | the rendered Cancel button does nothing with uuid "m-1" (or any truthy uuid), where line 288 intends a cancellation |
| `Matchmaking.RefundAmount` | components/Matchmaking.tsx:186 | with a fee fraction in [0,1] the refund lies between 0 and the wager; with no fee it is the whole wager |
| `Matchmaking.MatchmakingDialog.constructor` | components/Matchmaking.tsx:72-76 | starts with bid {0,0}, no uuid, both statuses idle, no stream, no effects |
| `Matchmaking.MatchmakingDialog.HandleBidInput` | components/Matchmaking.tsx:82-85 | only `bid` changes, to `WithField` of the old bid |
| `Matchmaking.MatchmakingDialog.HandleMatchmaking` | components/Matchmaking.tsx:151-230 | an invalid bid raises only its warning (no loading status, no transfer); otherwise the wager transfer, then error, or the match POST whose answer sets the uuid and opens the stream or sets error |
| `Matchmaking.MatchmakingDialog.CancelMatchmaking` | components/Matchmaking.tsx:173-214 | matchmaking status reset to idle; a refund of wager × (1 − fee) to the user's own address only on a 200 answer, then cancel status success or error; error on a network failure or a non-2xx answer; loading on any other 2xx answer |
| `Matchmaking.MatchmakingDialog.OnCancelClick` | components/Matchmaking.tsx:288 | as `IntendedCancelAction` directs: without a truthy uuid it only closes the dialog; with one it resets the status and issues the cancel request for that uuid |
| `Matchmaking.MatchmakingDialog.OnActionClick` | components/Matchmaking.tsx:278-286 | no change while the button is disabled (bid value 0 or status loading); otherwise the warning alone, or the wager transfer first |
| `Matchmaking.MatchmakingDialog.Render` | components/Matchmaking.tsx:232-271 | every render leaves the status stream open exactly when the uuid is truthy |
| `Matchmaking.RepeatedMatchIdNavigatesTwice` | components/Matchmaking.tsx:241-271 | a `match_id` received again after the re-render that follows a match navigates to `/play/<match_id>` a second time |
| `Matchmaking.MatchmakingDialog.OnServerMessage` | components/Matchmaking.tsx:241-255 | only a message with a truthy `match_id` on an open stream sets status success, closes stream and dialog and navigates to `/play/<match_id>`; anything else changes nothing |
| `Matchmaking.MatchmakingDialog.OnServerError` | components/Matchmaking.tsx:257-265 | on an open stream: an error toast, stream and dialog closed, matchmaking status untouched |
| `MainChessboard.BoardStyle` | components/MainChessboard.tsx:101-124 | exactly one glow, by priority checkmate > check > stalemate > plain, each as an iff |
| `MainChessboard.CheckmateOutranksCheck` | components/MainChessboard.tsx:101-113 | a mated position, though also in check, gets the checkmate glow |
| `MainChessboard.MoveOptionsMap` | components/MainChessboard.tsx:28-56 | one key per legal target plus the source square; capture style iff the target holds an opposing piece, quiet otherwise; selected style on the source |
| `MainChessboard.MoveOptions` | components/MainChessboard.tsx:34-55 | no map when there are no legal moves; otherwise the `forEach` builds exactly `MoveOptionsMap` |
| `MainChessboard.ToggleMark` | components/MainChessboard.tsx:58-68 | the clicked square's mark flips, its entry is the mark or undefined, every other entry is kept |
| `MainChessboard.ToggleMarkTwice` | components/MainChessboard.tsx:58-68 | two right-clicks on a square leave every square marked exactly as before |
| `MainChessboard.RightClickOverridesHighlight` | components/MainChessboard.tsx:58-68 | a right-click shows the mark on an unmarked square and no style at all on a marked one, option highlight included; every other square shows what it showed |
| `MainChessboard.DoubleRightClickHidesHighlight` | components/MainChessboard.tsx:138-141 | two right-clicks on a never-marked square with a move highlight leave it showing no style |
| `MainChessboard.Board.constructor` | components/MainChessboard.tsx:19-21 | no selection, no marks, no highlights |
| `MainChessboard.Board.GetMoveOptions` | components/MainChessboard.tsx:28-56 | highlights untouched when the square has no legal moves, else replaced by `MoveOptionsMap` |
| `MainChessboard.Board.OnSquareRightClick` | components/MainChessboard.tsx:58-68 | the marks become `ToggleMark` of the old marks; the marks keep holding only the mark or undefined |
| `MainChessboard.Board.OnSquareClick` | components/MainChessboard.tsx:70-99 | no change when moves are disallowed or it is not this side's turn; otherwise marks cleared; no selection → select and show moves; selection → queen-promoting attempt handed to `setGame`, undefined result → reselect and show moves, success → selection and highlights cleared |

## Left out

- Token transfers (`_safeTransferToken`, `transferASHF`) are not modelled: web3 signing, the Moralis SDK and the float-to-`BigInt` unit conversion are foreign code. Each transfer is a success/failure parameter.
- The HTTP calls and the `EventSource` are not modelled, and neither is JSON parsing. The POST answer, the cancel answer and each stream message are parameters. The cancel request follows the HTTP client's default of rejecting any status outside 2xx.
- The chess engine (legality, FEN, history, check and mate detection) is foreign. It is the oracle `Rules<P>`, and its `moves({verbose: true})` answer is reduced to the `to` square of each move.
- `MainChessboard.Board.OnSquareClick`: a rejected move is recognised only when the engine returns `undefined`, which is what the component tests. chess.js releases that return `null` for an illegal move would take the success branch. The selection and highlights would then be cleared instead of reselected.
- `MainChessboard.Board.OnSquareClick`: `{ ...game }` copies the engine object shallowly, so the copy and the original may share internal state. Here the attempt yields a fresh position value, and highlights after a rejected move are computed from the position the click started from.
- `MainChessboard.MoveOptions` requires that the engine reports a piece on any square it lists moves from. Without one, `game.get(square).color` would throw as soon as a listed target is occupied (an empty target short-circuits before it).
- The platform fee and minimum wager come from `app-config`, which is not part of this model. They are constants of the dialog, the fee an exact `real` in [0,1] instead of a float.
- Bids are naturals, with blank as 0. The inputs store strings, so the source's `<` at components/Matchmaking.tsx:115 compares strings. That coercion is not modelled.
- `Matchmaking.MinBidSent`: a minimum typed as "0" is a non-empty string and so truthy in the source, which then sends `min_bid` "0"; the model cannot tell it from a blank minimum and sends the bid.
- `Matchmaking.MatchmakingDialog.OnActionClick`: likewise a typed "0" enables the source's action button, while the model keeps a zero bid disabled. With a valid bid, the contract states only that the transfer comes first; the rest is as `HandleMatchmaking` states.
- `Matchmaking.MatchmakingDialog.OnCancelClick`: models line 288 as if the modal frame applied `cancelButtonProps`. It does not (see Findings), so in the source a Cancel click does nothing and `CancelMatchmaking` cannot be reached from this dialog. With a uuid, the contract states only the reset status and the cancel request; the rest is as `CancelMatchmaking` states.
- `Matchmaking.MatchmakingDialog.OnServerMessage`: it closes the stream, but the following render (`Render`) re-opens it while the uuid stays truthy, so a repeated `match_id` navigates again (`RepeatedMatchIdNavigatesTwice`). When renders happen is not modelled; a caller interleaves `Render` explicitly.
- `Matchmaking.MatchmakingDialog.OnServerError`: the same holds after an error; the next render re-opens the stream.
- Each asynchronous handler (`HandleMatchmaking`, `CancelMatchmaking`) runs to completion with its outcomes given up front. User events that interleave while a request is pending are not modelled, and neither is the closure capture of `bid` at click time. The refund on cancel is computed from the bid in the form at that moment, which may differ from the wager paid.
- Strings are sequences of Unicode scalar values, while JavaScript's `substring` counts UTF-16 code units. The two agree on the ASCII account addresses `truncateHash` is given.
- Toast texts are the enumerated `Notice` values, with the amounts they interpolate; the prose is not modelled. The refund-failure toast keeps the source's "success" kind.
- `console.log` calls and the random `uid` keys are not modelled. They hold no decision logic.
- Presentation components, the theme, wallet login, network and token configuration tables and `hooks/useCustomToast.ts` are not part of this model.
- `pages/play/[id].tsx` (realtime sync, winner posting, payouts) and `updateGame` in `pages/play.tsx` are not part of this model.

## Findings

| source | as written | input that shows it | evidently intended | confidence | as-written member | corrected member |
|---|---|---|---|---|---|---|
| components/Matchmaking.tsx:287-291 | the cancel handler is passed as `cancelButtonProps`, a prop the modal frame does not declare; the frame's Cancel button calls its own `onClose` prop (components/CustomModal.tsx:55-62), which the dialog never passes, so the click does nothing | a queued request with uuid "m-1": Cancel neither cancels it nor refunds the paid wager | the choice at line 288: cancel and refund with a uuid, close without | high, not executed | `Matchmaking.CancelButtonDoesNothing` | `Matchmaking.IntendedCancelAction` |
