# Stone Paper Scissors — game logic model

This project models the game logic of the single-page Stone Paper Scissors
component `src/StonePaperScissors.jsx`. The user picks stone, paper or
scissors. The computer picks one at random. A fixed "beats" table decides the
round. The component keeps the current round on screen, a running score, and
the five most recent rounds.

The model is functional. The component's state is one immutable `State`
value: the current player move, computer move and result (each an `Option`),
the `Score`, and the history as a `seq<Round>`. Each event handler is a pure
transition from one `State` to the next. React's batched `setState` calls in
one handler count as a single atomic step.

- `wrappers.dfy`: module `Wrappers`, holding `Option` and `Min`.
- `moves.dfy`: module `Moves`, holding the move catalog, the `rules` table
  (`Beats`), `determineWinner` (`Winner`), the catalog lookup behind
  `getChoiceEmoji` (`Find`, `ChoiceEmoji`), and an independent cyclic-index
  reading of the rule.
- `session.dfy`: module `Session`, holding the state, the history update
  (`Push`), the three handlers `playGame`, `resetGame` and `resetScore`,
  `getResultClass`, and the state invariant `Valid`.
- `replay.dfy`: module `Replay`, covering whole sessions. An event sequence is
  replayed from the initial state. Its lemmas relate the score and the history
  to the rounds played since the last score reset.

Two inputs are passed in as parameters:

- the computer's move, which the source draws with `Math.random`;
- the time label stored with each round, which the source reads with
  `new Date().toLocaleTimeString()`. In the model it is an opaque string.

Three points about the code shape the model:

- **No invalid-move path.** `playGame` is only called from the catalog
  buttons (line 106). `Move` is a datatype, so an invalid move cannot be
  expressed, and there is no error path.
- **A fixed table.** `rules` is a fixed three-entry object (lines 20-24), and
  `Beats` models exactly that table. `Moves.WinnerIsCyclic` shows it is the
  three-cycle in catalog order.
- **No return value.** The handlers return nothing. Each transition in the
  model returns the new `State`.

## Model

| member | source | states |
|---|---|---|
| `Moves.MoveIdInjective` | src/StonePaperScissors.jsx:4-8 | Two moves have the same catalog identifier exactly when they are the same move. |
| `Moves.CatalogListsEachMoveOnce` | src/StonePaperScissors.jsx:4-8 | Every move appears in the catalog, no move appears twice, and every glyph is non-empty and differs from the placeholder. |
| `Moves.Index` | src/StonePaperScissors.jsx:4-8 | Each move has a position in the catalog, and the entry at that position holds that move. |
| `Moves.Winner` | src/StonePaperScissors.jsx:17-27 | The rule gives a draw exactly on equal moves. It gives a player win exactly when the table maps the player's move to the computer's. It gives a computer win exactly when the table maps the computer's move to the player's. So exactly one outcome holds for every pair. |
| `Moves.WinnerAntisymmetric` | src/StonePaperScissors.jsx:17-27 | Swapping the two moves turns a player win into a computer win and back. A draw stays a draw. |
| `Moves.WinnerIsCyclic` | src/StonePaperScissors.jsx:20-26 | The table is the three-cycle in catalog order. Take the difference of the two catalog positions modulo 3: 0 is a draw, 1 a player win and 2 a computer win. |
| `Moves.Find` | src/StonePaperScissors.jsx:74 | The lookup finds an entry exactly when some entry has the identifier. The entry it returns is the first one with that identifier. |
| `Moves.ChoiceEmoji` | src/StonePaperScissors.jsx:73-75 | A catalog identifier gets that entry's glyph. An identifier that names no move gets the placeholder. |
| `Moves.ChoiceEmojiOfMove` | src/StonePaperScissors.jsx:73-75 | The identifier of any move gets its catalog glyph, never the placeholder. |
| `Session.LastN` | src/StonePaperScissors.jsx:45 | For n of at least 1, `slice(-n)` returns the last min(length, n) elements, and they form a suffix of the input. |
| `Session.RoundOf` | src/StonePaperScissors.jsx:46-51 | The history record holds the player's move, the computer's move, the time label, and the rule's verdict on the two moves. |
| `Session.KeepFourThenAppend` | src/StonePaperScissors.jsx:44-52 | Keeping the last four entries and then appending gives the same history as appending and then keeping the last five. |
| `Session.Push` | src/StonePaperScissors.jsx:44-52 | The new history has length min(old + 1, 5) and ends with the new record. Below the cap it is the old history plus the record. At the cap the oldest entry is evicted first. |
| `Session.PlayGame` | src/StonePaperScissors.jsx:29-53 | A play shows a complete round whose result is the rule's verdict. The player's score goes up by one only on a player win, and the computer's only on a computer win; a draw leaves both unchanged. The history gets the new record by the bounded FIFO update. |
| `Session.PlayGamePreservesValid` | src/StonePaperScissors.jsx:29-53 | A play keeps the state invariant: no partial round, at most five history entries, and every record carries the rule's verdict. |
| `Session.ResetGame` | src/StonePaperScissors.jsx:55-59 | "Play Again" clears all three current-round fields together and leaves the score and history unchanged. |
| `Session.ResetScore` | src/StonePaperScissors.jsx:61-64 | "Reset Score" zeroes both scores and empties the history. It leaves the current round untouched, so whether a round is on screen does not change. |
| `Session.ResultClass` | src/StonePaperScissors.jsx:66-71 | No result maps to the empty class. A player win maps to `win`, a computer win to `lose`, and a draw to `draw`. |
| `Session.ResultClassInjective` | src/StonePaperScissors.jsx:66-71 | Different results get different classes. |
| `Replay.CountsPartition` | src/StonePaperScissors.jsx:38-42 | Across any rounds, the numbers of player wins, computer wins and draws add up to the number of rounds. |
| `Replay.RunPreservesValid` | src/StonePaperScissors.jsx:29-64 | Any sequence of plays and resets keeps the state invariant. |
| `Replay.AlwaysValid` | src/StonePaperScissors.jsx:11-64 | In every state reachable from the initial one, the three current-round fields are all absent or all present with the rule's verdict. The history also holds at most five records, each carrying the rule's verdict. |
| `Replay.RunFromInitial` | src/StonePaperScissors.jsx:29-64 | Starting from the initial state, each score equals that side's win count since the last score reset. The history equals the last five rounds played since then, oldest first. |
| `Replay.ScoreAndHistoryBounded` | src/StonePaperScissors.jsx:38-52 | After N plays since the last score reset, the two scores add up to at most N and the history holds min(N, 5) rounds. |
| `Replay.SixPlays` | src/StonePaperScissors.jsx:29-53 | Six plays of stone against scissors, stone, paper, scissors, stone and paper give alternating wins, draws and losses. The score ends at 2 to 2, and the history holds rounds two to six. |

## Left out

- JSX rendering, the CSS import and button wiring (src/StonePaperScissors.jsx:2, 77-166): these are presentation only. This includes the use of a round's result string as a CSS class in the history list.
- The uniform random draw of the computer's move (line 30): the move is a parameter of `Session.PlayGame`, and probability is not modelled.
- The clock and locale formatting of the timestamp (line 50): it is an opaque string parameter.
- React's `useState` and asynchronous update batching: each handler is one atomic transition.
- Moves.ChoiceEmoji: takes a string, so the `null` argument the source could pass when no round is on screen is not expressible. The source only renders those glyphs while a result is present, and `null` would fall back to the placeholder like any identifier outside the catalog.
- An invalid-move error path does not exist in the source and is not invented: see above.
- Score: both counters are unbounded naturals. The source keeps them as JavaScript Numbers (lines 14, 40-41), which count exactly only up to 2^53 - 1.
- Session.LastN: requires n of at least 1. JavaScript's `slice(-0)` returns the whole array, but the source only calls `slice(-4)`.
- Determinism of `determineWinner` needs no lemma: `Moves.Winner` is a pure function, so equal arguments always give equal results.
