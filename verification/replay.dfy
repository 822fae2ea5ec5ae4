/** Whole sessions: a sequence of user actions applied one after another from
    the initial state, and what the score and the history say about them. */
module Replay {
  import opened Wrappers
  import opened Moves
  import opened Session

  /** One handler invocation: a play (with the computer's draw and the clock
      reading it happened to get), "Play Again", or "Reset Score". */
  datatype Event =
    | Played(choice: Move, computer: Move, at: Timestamp)
    | RoundReset
    | ScoreReset

  /** One event's transition. */
  function Step(s: State, e: Event): State
  {
    match e
    case Played(c, k, t) => PlayGame(s, c, k, t)
    case RoundReset => ResetGame(s)
    case ScoreReset => ResetScore(s)
  }

  /** The state after the events, applied in order (the last one last). */
  function Run(s: State, evs: seq<Event>): State
    decreases |evs|
  {
    if evs == [] then s else Step(Run(s, evs[..|evs| - 1]), evs[|evs| - 1])
  }

  /** The events after the last score reset (all of them if there is none). */
  function SinceReset(evs: seq<Event>): (r: seq<Event>)
    ensures forall i :: 0 <= i < |r| ==> !r[i].ScoreReset?
    decreases |evs|
  {
    if evs == [] then []
    else if evs[|evs| - 1].ScoreReset? then []
    else SinceReset(evs[..|evs| - 1]) + [evs[|evs| - 1]]
  }

  /** The rounds the plays among the events produce, in order. */
  function Rounds(evs: seq<Event>): (r: seq<Round>)
    ensures |r| <= |evs|
    ensures HistoryConsistent(r)
    decreases |evs|
  {
    if evs == [] then []
    else
      var prev := Rounds(evs[..|evs| - 1]);
      match evs[|evs| - 1]
      case Played(c, k, t) => prev + [RoundOf(c, k, t)]
      case _ => prev
  }

  /** How many of the rounds ended with outcome `o`. */
  function Count(rs: seq<Round>, o: Outcome): nat
    decreases |rs|
  {
    if rs == [] then 0
    else Count(rs[..|rs| - 1], o) + (if rs[|rs| - 1].result == o then 1 else 0)
  }

  /** Each round has exactly one outcome, so the three counts add up to the
      number of rounds. */
  lemma {:induction false} CountsPartition(rs: seq<Round>)
    ensures Count(rs, Player) + Count(rs, Computer) + Count(rs, Draw) == |rs|
    decreases |rs|
  {
    if rs != [] {
      CountsPartition(rs[..|rs| - 1]);
    }
  }

  /** Every sequence of handlers keeps the state invariant. */
  lemma {:induction false} RunPreservesValid(s: State, evs: seq<Event>)
    requires Valid(s)
    ensures Valid(Run(s, evs))
    decreases |evs|
  {
    if evs != [] {
      RunPreservesValid(s, evs[..|evs| - 1]);
      match evs[|evs| - 1]
      case Played(c, k, t) => PlayGamePreservesValid(Run(s, evs[..|evs| - 1]), c, k, t);
      case _ =>
    }
  }

  /** In every reachable state the current round is either wholly absent or
      wholly present and consistent, and the history holds at most five
      consistent records. */
  lemma AlwaysValid(evs: seq<Event>)
    ensures Valid(Run(Initial, evs))
  {
    RunPreservesValid(Initial, evs);
  }

  /** The last `n` of the last `m` elements are the last `n` elements, when
      `0 < n <= m`. */
  lemma LastNOfLastN<T>(s: seq<T>, m: nat, n: nat)
    requires 0 < n <= m
    ensures LastN(LastN(s, m), n) == LastN(s, n)
  {
  }

  /** Appending an event applies its transition last. */
  lemma RunAppend(s: State, evs: seq<Event>, e: Event)
    ensures Run(s, evs + [e]) == Step(Run(s, evs), e)
  {
  }

  /** An event other than a score reset extends the events since the last
      reset, and adds a round exactly when it is a play. */
  lemma SinceResetAppend(evs: seq<Event>, e: Event)
    requires !e.ScoreReset?
    ensures SinceReset(evs + [e]) == SinceReset(evs) + [e]
    ensures Rounds(SinceReset(evs + [e]))
         == Rounds(SinceReset(evs)) + (if e.Played? then [RoundOf(e.choice, e.computer, e.at)] else [])
  {
  }

  /** Adding one round adds one to the count of its own outcome only. */
  lemma CountAppend(rs: seq<Round>, r: Round, o: Outcome)
    ensures Count(rs + [r], o) == Count(rs, o) + (if r.result == o then 1 else 0)
  {
  }

  /** From the initial state, the score counts exactly the player's and the
      computer's wins since the last score reset, and the history is the last
      five rounds played since then, oldest first. */
  lemma {:induction false} RunFromInitial(evs: seq<Event>)
    ensures Run(Initial, evs).score
         == Score(Count(Rounds(SinceReset(evs)), Player), Count(Rounds(SinceReset(evs)), Computer))
    ensures Run(Initial, evs).history == LastN(Rounds(SinceReset(evs)), HistoryCap)
    decreases |evs|
  {
    if evs != [] {
      var pre := evs[..|evs| - 1];
      var e := evs[|evs| - 1];
      assert evs == pre + [e];
      RunFromInitial(pre);
      RunAppend(Initial, pre, e);
      var rs := Rounds(SinceReset(pre));
      match e
      case ScoreReset =>
      case RoundReset =>
        SinceResetAppend(pre, e);
      case Played(c, k, t) =>
        SinceResetAppend(pre, e);
        var rec := RoundOf(c, k, t);
        CountAppend(rs, rec, Player);
        CountAppend(rs, rec, Computer);
        LastNOfLastN(rs, HistoryCap, HistoryCap - 1);
        KeepFourThenAppend(rs, rec);
    }
  }

  /** Over N plays since the last score reset the two scores add up to at most
      N, and the history holds min(N, 5) rounds. */
  lemma ScoreAndHistoryBounded(evs: seq<Event>)
    ensures var n := |Rounds(SinceReset(evs))|;
            && Run(Initial, evs).score.player + Run(Initial, evs).score.computer <= n
            && |Run(Initial, evs).history| == Min(n, HistoryCap)
  {
    RunFromInitial(evs);
    CountsPartition(Rounds(SinceReset(evs)));
  }

  /** Six plays of stone against scissors, stone, paper, scissors, stone,
      paper: wins, draws and losses alternate, and the first round is the one
      evicted from the history. */
  lemma SixPlays(t: seq<Timestamp>)
    requires |t| == 6
    ensures PlayGame(PlayGame(PlayGame(PlayGame(PlayGame(PlayGame(Initial,
              Stone, Scissors, t[0]), Stone, Stone, t[1]), Stone, Paper, t[2]),
              Stone, Scissors, t[3]), Stone, Stone, t[4]), Stone, Paper, t[5])
         == State(Some(Stone), Some(Paper), Some(Computer), Score(2, 2),
                  [Round(Stone, Stone, Draw, t[1]), Round(Stone, Paper, Computer, t[2]),
                   Round(Stone, Scissors, Player, t[3]), Round(Stone, Stone, Draw, t[4]),
                   Round(Stone, Paper, Computer, t[5])])
  {
  }
}
