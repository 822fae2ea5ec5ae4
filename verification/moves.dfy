/** The move catalog and the rule that decides one round
    (src/StonePaperScissors.jsx, `choices` and `determineWinner`). */
module Moves {
  import opened Wrappers

  /** The three moves. Using a datatype rather than the source's string ids
      makes a move outside the catalog unrepresentable. */
  datatype Move = Stone | Paper | Scissors

  /** The outcome of a round, from the player's side: the strings
      'player', 'computer' and 'draw' of the source. */
  datatype Outcome = Player | Computer | Draw

  /** The identifier a move carries in the catalog. */
  function MoveId(m: Move): string
  {
    match m
    case Stone => "stone"
    case Paper => "paper"
    case Scissors => "scissors"
  }

  /** One catalog entry: the move, its display name and its glyph. */
  datatype Choice = Choice(move: Move, name: string, emoji: string)

  /** The fixed, ordered catalog. */
  const Catalog: seq<Choice> := [
    Choice(Stone, "Stone", "\U{270A}"),
    Choice(Paper, "Paper", "\U{270B}"),
    Choice(Scissors, "Scissors", "\U{270C}\U{FE0F}")
  ]

  /** The glyph shown for an identifier that is not in the catalog. */
  const Unknown: string := "\U{2753}"

  /** Distinct moves have distinct identifiers. */
  lemma MoveIdInjective(a: Move, b: Move)
    ensures MoveId(a) == MoveId(b) <==> a == b
  {
  }

  /** Some catalog entry holds move `m`. */
  ghost predicate Listed(m: Move)
  {
    exists i :: 0 <= i < |Catalog| && Catalog[i].move == m
  }

  /** Every move is listed in the catalog exactly once, and every glyph
      differs from the placeholder. */
  lemma CatalogListsEachMoveOnce()
    ensures forall m: Move :: Listed(m)
    ensures forall i, j :: 0 <= i < j < |Catalog| ==> Catalog[i].move != Catalog[j].move
    ensures forall i :: 0 <= i < |Catalog| ==> Catalog[i].emoji != "" && Catalog[i].emoji != Unknown
  {
    forall m: Move ensures Listed(m) {
      assert Catalog[Index(m)].move == m;
    }
  }

  /** The catalog position of a move. */
  function Index(m: Move): (i: nat)
    ensures i < |Catalog| && Catalog[i].move == m
  {
    match m
    case Stone => 0
    case Paper => 1
    case Scissors => 2
  }

  /** The `rules` table: the one move each move defeats. */
  function Beats(m: Move): Move
  {
    match m
    case Stone => Scissors
    case Paper => Stone
    case Scissors => Paper
  }

  /** `determineWinner`: a draw on equal moves, a player win when the table
      maps the player's move to the computer's, a computer win otherwise. */
  function Winner(player: Move, computer: Move): (r: Outcome)
    ensures r == Draw <==> player == computer
    ensures r == Player <==> Beats(player) == computer
    ensures r == Computer <==> Beats(computer) == player
  {
    if player == computer then Draw
    else if Beats(player) == computer then Player
    else Computer
  }

  /** Swapping the two moves swaps the winner: the rule is antisymmetric. */
  lemma WinnerAntisymmetric(a: Move, b: Move)
    ensures Winner(a, b) == Player <==> Winner(b, a) == Computer
    ensures Winner(a, b) == Draw <==> Winner(b, a) == Draw
  {
  }

  /** The outcome read off the difference of two catalog positions modulo the
      catalog size: 0 is a draw, 1 a win for the first, 2 a win for the second. */
  function CycleOutcome(d: int): (r: Outcome)
  {
    var k := d % |Catalog|;
    if k == 0 then Draw else if k == 1 then Player else Computer
  }

  /** The table is the cycle stone, paper, scissors in catalog order: each move
      beats the one before it, wrapping around. */
  lemma WinnerIsCyclic(player: Move, computer: Move)
    ensures Winner(player, computer) == CycleOutcome(Index(player) - Index(computer))
  {
  }

  /** `choices.find`: the first catalog entry whose identifier is `id`. */
  function Find(cs: seq<Choice>, id: string): (r: Option<Choice>)
    ensures r.Some? <==> exists i :: 0 <= i < |cs| && MoveId(cs[i].move) == id
    ensures r.Some? ==> exists i :: 0 <= i < |cs| && cs[i] == r.value && MoveId(cs[i].move) == id
                                    && forall j :: 0 <= j < i ==> MoveId(cs[j].move) != id
  {
    if cs == [] then None
    else if MoveId(cs[0].move) == id then Some(cs[0])
    else
      var r := Find(cs[1..], id);
      assert forall i :: 1 <= i < |cs| ==> cs[i] == cs[1..][i - 1];
      r
  }

  /** `getChoiceEmoji`: the catalog glyph of `id`, or the placeholder when no
      entry has that identifier (or its glyph is empty). */
  function ChoiceEmoji(id: string): (r: string)
    ensures forall i :: 0 <= i < |Catalog| && MoveId(Catalog[i].move) == id ==> r == Catalog[i].emoji
    ensures (forall m: Move :: MoveId(m) != id) ==> r == Unknown
  {
    CatalogListsEachMoveOnce();
    forall i, j | 0 <= i < |Catalog| && 0 <= j < |Catalog| && MoveId(Catalog[i].move) == MoveId(Catalog[j].move)
      ensures i == j
    {
      MoveIdInjective(Catalog[i].move, Catalog[j].move);
    }
    match Find(Catalog, id)
    case Some(c) => if c.emoji != "" then c.emoji else Unknown
    case None => Unknown
  }

  /** A move's identifier always finds its own glyph, never the placeholder. */
  lemma ChoiceEmojiOfMove(m: Move)
    ensures ChoiceEmoji(MoveId(m)) == Catalog[Index(m)].emoji
    ensures ChoiceEmoji(MoveId(m)) != Unknown
  {
    CatalogListsEachMoveOnce();
  }
}
