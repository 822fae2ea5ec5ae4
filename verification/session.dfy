/** The session state and the three handlers that change it
    (src/StonePaperScissors.jsx, `playGame`, `resetGame`, `resetScore`),
    plus the result-to-CSS-class lookup. Each handler's batch of state
    updates is one atomic transition from one `State` value to the next. */
module Session {
  import opened Wrappers
  import opened Moves

  /** The opaque time-of-day label stored with each round. */
  type Timestamp = string

  /** The cumulative score. */
  datatype Score = Score(player: nat, computer: nat)

  /** One entry of the game history. */
  datatype Round = Round(player: Move, computer: Move, result: Outcome, timestamp: Timestamp)

  /** The component's state: the current round's three fields, the score and
      the recent-games history. */
  datatype State = State(
    playerChoice: Option<Move>,
    computerChoice: Option<Move>,
    result: Option<Outcome>,
    score: Score,
    history: seq<Round>)

  /** How many rounds the history holds at most. */
  const HistoryCap: nat := 5

  /** The state the component starts in. */
  const Initial: State := State(None, None, None, Score(0, 0), [])

  /** `s.slice(-n)` for `n >= 1`: the last `n` elements of `s`, or all of it
      when shorter. (`slice(-0)` would return the whole array.) */
  function LastN<T>(s: seq<T>, n: nat): (r: seq<T>)
    requires n > 0
    ensures |r| == Min(|s|, n)
    ensures r == s[|s| - |r|..]
  {
    if |s| <= n then s else s[|s| - n..]
  }

  /** The round record `playGame` appends. */
  function RoundOf(choice: Move, computerSelection: Move, at: Timestamp): (r: Round)
    ensures r.player == choice && r.computer == computerSelection && r.timestamp == at
    ensures r.result == Winner(choice, computerSelection)
  {
    Round(choice, computerSelection, Winner(choice, computerSelection), at)
  }

  /** No round on screen: all three current-round fields are absent. */
  predicate Idle(s: State)
  {
    s.playerChoice.None? && s.computerChoice.None? && s.result.None?
  }

  /** A round on screen: all three fields are present and the result is the
      rule's verdict on the two moves. */
  predicate Resolved(s: State)
  {
    && s.playerChoice.Some? && s.computerChoice.Some? && s.result.Some?
    && s.result.value == Winner(s.playerChoice.value, s.computerChoice.value)
  }

  /** Every recorded round carries the rule's verdict on its moves. */
  predicate HistoryConsistent(h: seq<Round>)
  {
    forall i :: 0 <= i < |h| ==> h[i].result == Winner(h[i].player, h[i].computer)
  }

  /** The invariant the handlers keep: never a partial round, a bounded
      history, and consistent records. */
  predicate Valid(s: State)
  {
    && (Idle(s) || Resolved(s))
    && |s.history| <= HistoryCap
    && HistoryConsistent(s.history)
  }

  /** Keeping the last four and appending is the same as appending and then
      evicting from the front until at most five remain. */
  lemma KeepFourThenAppend<T>(h: seq<T>, x: T)
    ensures LastN(h, HistoryCap - 1) + [x] == LastN(h + [x], HistoryCap)
  {
  }

  /** The history update of `playGame`: keep the last four entries and append
      the new one. The result is the append-then-evict-oldest reading of a
      five-entry FIFO. */
  function Push<T>(h: seq<T>, x: T): (r: seq<T>)
    ensures r == LastN(h + [x], HistoryCap)
    ensures |r| == Min(|h| + 1, HistoryCap)
    ensures r[|r| - 1] == x
    ensures |h| < HistoryCap ==> r == h + [x]
    ensures |h| == HistoryCap ==> r == h[1..] + [x]
  {
    KeepFourThenAppend(h, x);
    LastN(h, HistoryCap - 1) + [x]
  }

  /** `playGame`, with the computer's draw and the clock reading passed in. */
  function PlayGame(s: State, choice: Move, computerSelection: Move, at: Timestamp): (r: State)
    ensures Resolved(r)
    ensures r.playerChoice == Some(choice) && r.computerChoice == Some(computerSelection)
    ensures Winner(choice, computerSelection) == Player ==> r.score == Score(s.score.player + 1, s.score.computer)
    ensures Winner(choice, computerSelection) == Computer ==> r.score == Score(s.score.player, s.score.computer + 1)
    ensures Winner(choice, computerSelection) == Draw ==> r.score == s.score
    ensures r.history == Push(s.history, RoundOf(choice, computerSelection, at))
  {
    var result := Winner(choice, computerSelection);
    var score := Score(
      if result == Player then s.score.player + 1 else s.score.player,
      if result == Computer then s.score.computer + 1 else s.score.computer);
    State(Some(choice), Some(computerSelection), Some(result), score,
          Push(s.history, RoundOf(choice, computerSelection, at)))
  }

  /** A play keeps the invariant: the new round is complete and consistent,
      and the history stays within its cap with every record consistent. */
  lemma PlayGamePreservesValid(s: State, choice: Move, computerSelection: Move, at: Timestamp)
    requires Valid(s)
    ensures Valid(PlayGame(s, choice, computerSelection, at))
  {
  }

  /** `resetGame` ("Play Again"): clears the current round and nothing else. */
  function ResetGame(s: State): (r: State)
    ensures Idle(r)
    ensures r.score == s.score && r.history == s.history
    ensures Valid(s) ==> Valid(r)
  {
    s.(playerChoice := None, computerChoice := None, result := None)
  }

  /** `resetScore`: zeroes the score and empties the history, leaving the
      current round (and so whether one is on screen) as it was. */
  function ResetScore(s: State): (r: State)
    ensures r.score == Score(0, 0) && r.history == []
    ensures r.playerChoice == s.playerChoice && r.computerChoice == s.computerChoice && r.result == s.result
    ensures Idle(r) <==> Idle(s)
    ensures Resolved(r) <==> Resolved(s)
    ensures Valid(s) ==> Valid(r)
  {
    s.(score := Score(0, 0), history := [])
  }

  /** `getResultClass`: the CSS class of the result banner. */
  function ResultClass(result: Option<Outcome>): (r: string)
    ensures r == "" <==> result.None?
    ensures result == Some(Player) ==> r == "win"
    ensures result == Some(Computer) ==> r == "lose"
    ensures result == Some(Draw) ==> r == "draw"
  {
    match result
    case None => ""
    case Some(Player) => "win"
    case Some(Computer) => "lose"
    case Some(Draw) => "draw"
  }

  /** Different results get different classes, so the class determines the
      result. */
  lemma ResultClassInjective(a: Option<Outcome>, b: Option<Outcome>)
    ensures ResultClass(a) == ResultClass(b) <==> a == b
  {
  }
}
