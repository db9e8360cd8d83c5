/** The stand-alone binary (src/main.rs): a best-of enum limited to 3, 5 or
    7 rounds, the `Game` accumulator, and the round loop of `main` with
    console input, random sampling and table output abstracted away. */
module Binary {
  import opened Base
  import opened Text
  import opened Choices
  import opened Scoring

  /** The `BestOf` enum; its discriminant is the number of rounds. */
  datatype BestOf = Three | Five | Seven {
    /** `best_of as u8`. */
    function Rounds(): (n: u8)
      ensures n % 2 == 1 && 3 <= n <= 7
    {
      match this
      case Three => 3
      case Five => 5
      case Seven => 7
    }
  }

  const BestOfError := "Could not parse given value. You must choose between 3, 5 and 7"

  /** `FromStr for BestOf`: only the exact strings "3", "5" and "7". */
  function FromStr(s: string): (r: Result<BestOf, string>)
    ensures r.Ok? <==> s == "3" || s == "5" || s == "7"
    ensures r.Ok? ==> s == Decimal(r.value.Rounds())
    ensures r.Err? ==> r.error == BestOfError
  {
    match s
    case "3" => Ok(Three)
    case "5" => Ok(Five)
    case "7" => Ok(Seven)
    case _ => Err(BestOfError)
  }

  /** Every variant is parsed back from the decimal form of its round count. */
  lemma FromStrRoundTrip(b: BestOf)
    ensures FromStr(Decimal(b.Rounds())) == Ok(b)
  {
  }

  /** `Default for BestOf`. */
  function Default(): (b: BestOf)
    ensures b.Rounds() == 5
  {
    Five
  }

  /** The configuration `Game::new` settles on: the given value, else the default. */
  function Configured(bestOf: Option<BestOf>): (b: BestOf)
    ensures bestOf.Some? ==> b == bestOf.value
    ensures bestOf.None? ==> b.Rounds() == 5
  {
    match bestOf
    case Some(value) => value
    case None => Default()
  }

  /** `Game`: the scores, the number of the round being played and the
      (never reassigned) configuration. */
  class Game {
    var humanPoints: u8
    var computerPoints: u8
    var round: u8
    const bestOf: BestOf

    /** `Game::new`: no points yet, round 1. */
    constructor (bestOf: Option<BestOf>)
      ensures humanPoints == 0 && computerPoints == 0 && round == 1
      ensures this.bestOf == Configured(bestOf)
    {
      humanPoints, computerPoints, round := 0, 0, 1;
      this.bestOf := Configured(bestOf);
    }

    /** `add_point`: one point to the named winner, none on a draw; the
        round is not touched. The `+= 1` panics on `u8` overflow. */
    method AddPoint(player: Winner)
      requires player == Human ==> humanPoints < U8_MAX
      requires player == Computer ==> computerPoints < U8_MAX
      modifies this`humanPoints, this`computerPoints
      ensures humanPoints == old(humanPoints) + (if player == Human then 1 else 0)
      ensures computerPoints == old(computerPoints) + (if player == Computer then 1 else 0)
      ensures round == old(round)
    {
      match player
      case Human => humanPoints := humanPoints + 1;
      case Computer => computerPoints := computerPoints + 1;
      case Draw =>
    }

    /** `increase_round`: the next round; the points are not touched. */
    method IncreaseRound()
      requires round < U8_MAX
      modifies this`round
      ensures round == old(round) + 1
      ensures humanPoints == old(humanPoints) && computerPoints == old(computerPoints)
    {
      round := round + 1;
    }

    /** `game_winner`: the side with strictly more points, otherwise Draw. */
    function GameWinner(): (w: Winner)
      reads this
      ensures w == Computer <==> computerPoints > humanPoints
      ensures w == Human <==> humanPoints > computerPoints
      ensures w == Draw <==> humanPoints == computerPoints
    {
      if computerPoints > humanPoints then Computer
      else if computerPoints < humanPoints then Human
      else Draw
    }
  }

  /** What the results table shows of one round. */
  datatype RoundRecord = RoundRecord(round: nat, human: Choice, computer: Choice, winner: Winner)

  /** What `main` reports after the loop: the table rows, the totals, the
      round counter and the match winner. */
  datatype MatchReport = MatchReport(
    rows: seq<RoundRecord>, humanPoints: u8, computerPoints: u8, round: u8, winner: Winner)

  /** The `i`-th line the console yields; past the end of the input
      `read_line` succeeds with nothing read, leaving the buffer empty. */
  function InputLine(lines: seq<string>, i: nat): string {
    if i < |lines| then lines[i] else ""
  }

  /** The first `n` lines the human types all name a choice. */
  predicate AllParse(lines: seq<string>, n: nat) {
    forall i :: 0 <= i < n ==> TryFrom(InputLine(lines, i)).Ok?
  }

  /** The table rows of the first `n` rounds, specified round by round. */
  function Rows(lines: seq<string>, rolls: seq<Choice>, n: nat): (rows: seq<RoundRecord>)
    requires AllParse(lines, n) && n <= |rolls|
    ensures |rows| == n
    ensures forall i :: 0 <= i < n ==> rows[i] == Row(lines, rolls, i)
  {
    if n == 0 then [] else Rows(lines, rolls, n - 1) + [Row(lines, rolls, n - 1)]
  }

  /** Round `i + 1`: the human's parsed line against the computer's roll. */
  function Row(lines: seq<string>, rolls: seq<Choice>, i: nat): RoundRecord
    requires TryFrom(InputLine(lines, i)).Ok? && i < |rolls|
  {
    var human := TryFrom(InputLine(lines, i)).value;
    RoundRecord(i + 1, human, rolls[i], RoundWinner(human, rolls[i]))
  }

  /** The winner column of a table. */
  function Winners(rows: seq<RoundRecord>): (ws: seq<Winner>)
    ensures |ws| == |rows|
    ensures forall i :: 0 <= i < |rows| ==> ws[i] == rows[i].winner
  {
    if rows == [] then [] else Winners(rows[..|rows| - 1]) + [rows[|rows| - 1].winner]
  }

  /** One more parsed round extends the table by its row. */
  lemma RecordRound(lines: seq<string>, rolls: seq<Choice>, i: nat)
    requires AllParse(lines, i) && TryFrom(InputLine(lines, i)).Ok? && i < |rolls|
    ensures AllParse(lines, i + 1)
    ensures Rows(lines, rolls, i + 1) == Rows(lines, rolls, i) + [Row(lines, rolls, i)]
  {
  }

  /** One more row extends the winner column by its winner. */
  lemma WinnersSnoc(rows: seq<RoundRecord>, row: RoundRecord)
    ensures Winners(rows + [row]) == Winners(rows) + [row.winner]
  {
  }

  /** The round loop of `main`: for each of the configured number of rounds,
      read a line, parse it (aborting the match on the first line that does
      not name a choice), play it against the computer's roll, award the
      point and advance the round. */
  method PlayMatch(bestOf: Option<BestOf>, lines: seq<string>, rolls: seq<Choice>)
    returns (r: Result<MatchReport, string>)
    requires Configured(bestOf).Rounds() <= |rolls|
    ensures var n := Configured(bestOf).Rounds();
      r.Err? <==> !AllParse(lines, n)
    ensures r.Err? ==> r.error == UnknownChoice
    ensures r.Ok? ==> var n := Configured(bestOf).Rounds();
      && r.value.rows == Rows(lines, rolls, n)
      && r.value.humanPoints == Count(Winners(r.value.rows), Human)
      && r.value.computerPoints == Count(Winners(r.value.rows), Computer)
      && r.value.round == n + 1
      && r.value.humanPoints + r.value.computerPoints <= n
      && (r.value.winner == Human <==> r.value.humanPoints > r.value.computerPoints)
      && (r.value.winner == Computer <==> r.value.computerPoints > r.value.humanPoints)
      && (r.value.winner == Draw <==> r.value.humanPoints == r.value.computerPoints)
  {
    var game := new Game(bestOf);
    var n := game.bestOf.Rounds();
    var rows: seq<RoundRecord> := [];
    for i := 0 to n
      invariant AllParse(lines, i)
      invariant rows == Rows(lines, rolls, i)
      invariant game.humanPoints == Count(Winners(rows), Human)
      invariant game.computerPoints == Count(Winners(rows), Computer)
      invariant game.round == i + 1
    {
      var human := TryFrom(InputLine(lines, i));
      if human.Err? {
        return Err(human.error);
      }
      var computer := rolls[i];
      var winner := RoundWinner(human.value, computer);
      var row := RoundRecord(game.round, human.value, computer, winner);
      RecordRound(lines, rolls, i);
      WinnersSnoc(rows, row);
      CountSnoc(Winners(rows), winner, Human);
      CountSnoc(Winners(rows), winner, Computer);
      rows := rows + [row];
      game.AddPoint(winner);
      game.IncreaseRound();
    }
    CountPartition(Winners(rows));
    r := Ok(MatchReport(rows, game.humanPoints, game.computerPoints, game.round, game.GameWinner()));
  }
}
