/** The library crate (src/lib.rs): a best-of newtype over `u8` validated
    as odd and greater than 2, its string parser, and the `Game`
    accumulator with the test for ending a match early. */
module Library {
  import opened Base
  import opened Text
  import opened Choices

  /** `pub struct BestOf(u8)`; outside the crate it is built only through
      `New`, `Default` and `FromStr`, which keep `Valid`. */
  datatype BestOf = BestOf(value: u8)

  /** A usable round count: odd and greater than 2. */
  predicate Valid(b: BestOf) {
    b.value % 2 == 1 && b.value > 2
  }

  const NotOddError := "Number must be odd and greater than 2"
  const NotNumberError := "Could not parse number"

  /** `BestOf::new`: accepts exactly the odd numbers above 2, unchanged. */
  function New(number: u8): (r: Result<BestOf, string>)
    ensures r.Ok? <==> number % 2 == 1 && number > 2
    ensures r.Ok? ==> r.value.value == number && Valid(r.value)
    ensures r.Err? ==> r.error == NotOddError
  {
    if number % 2 != 0 && number > 2 then Ok(BestOf(number)) else Err(NotOddError)
  }

  /** `Default for BestOf`: five rounds. */
  function Default(): (b: BestOf)
    ensures b.value == 5 && Valid(b)
  {
    BestOf(5)
  }

  /** The digits `str::parse::<u8>` reads: one leading '+' is skipped. */
  function Unsigned(s: string): (d: string)
    ensures |d| <= |s|
  {
    if |s| > 0 && s[0] == '+' then s[1..] else s
  }

  /** `str::parse::<u8>`: an optional '+', then one or more ASCII digits
      (leading zeros allowed) whose value fits in a `u8`. A '-' sign, an
      empty string, a lone '+', any other character and any value above
      255 are errors. */
  function ParseU8(s: string): (r: Option<u8>)
    ensures r.Some? ==> |s| > 0 && IsDigit(s[|s| - 1])
  {
    var d := Unsigned(s);
    if d == [] || !AllDigits(d) then None
    else if DigitsValue(d) <= U8_MAX then Some(DigitsValue(d))
    else None
  }

  /** The decimal form of a `u8` parses back to it; that of a larger number
      overflows. */
  lemma ParseDecimal(n: nat)
    ensures ParseU8(Decimal(n)) == if n <= U8_MAX then Some(n) else None
  {
    DecimalValue(n);
  }

  /** A sign other than one leading '+' is rejected. */
  lemma ParseRejectsSigns(s: string)
    ensures ParseU8("-" + s).None?
    ensures ParseU8("+" + s) == (if s != [] && s[0] == '+' then None else ParseU8(s))
  {
  }

  /** Leading zeros are accepted and do not change the number: "007" is 7. */
  lemma ParseLeadingZero(s: string)
    requires s != [] && AllDigits(s)
    ensures ParseU8("0" + s) == ParseU8(s)
  {
    DigitsValueLeadingZero(s);
  }

  /** Any character other than an ASCII digit after the optional '+' makes
      the parse fail: " 3", "3 " and "a3" are errors. */
  lemma ParseRejectsNonDigit(s: string, i: nat)
    requires i < |Unsigned(s)| && !IsDigit(Unsigned(s)[i])
    ensures ParseU8(s).None?
  {
  }

  /** `FromStr for BestOf`: parse a `u8`, then validate it with `New`. */
  function FromStr(s: string): (r: Result<BestOf, string>)
    ensures r.Ok? <==> ParseU8(s).Some? && New(ParseU8(s).value).Ok?
    ensures r.Ok? ==> Valid(r.value) && Some(r.value.value) == ParseU8(s)
    ensures ParseU8(s).None? ==> r == Err(NotNumberError)
    ensures ParseU8(s).Some? && r.Err? ==> r.error == NotOddError
  {
    match ParseU8(s)
    case Some(value) => New(value)
    case None => Err(NotNumberError)
  }

  /** Parsing the decimal form of a number is `New` on that number. */
  lemma FromStrDecimal(n: u8)
    ensures FromStr(Decimal(n)) == New(n)
  {
    ParseDecimal(n);
  }

  /** `(best_of / 2) + 1`: the least number of points that is a strict
      majority of the rounds. */
  function Majority(bestOf: u8): (t: u8)
    ensures 2 * t > bestOf && 2 * (t - 1) <= bestOf
    ensures bestOf % 2 == 1 ==> t == (bestOf + 1) / 2
  {
    bestOf / 2 + 1
  }

  /** `Game`: the scores, the number of the round being played and the
      (never reassigned) configuration. */
  class Game {
    var humanPoints: u8
    var computerPoints: u8
    var round: u8
    const bestOf: BestOf

    /** `Game::new`: no points yet, round 1, the default when none is given. */
    constructor (bestOf: Option<BestOf>)
      ensures humanPoints == 0 && computerPoints == 0 && round == 1
      ensures bestOf.Some? ==> this.bestOf == bestOf.value
      ensures bestOf.None? ==> this.bestOf == Default()
    {
      humanPoints, computerPoints, round := 0, 0, 1;
      this.bestOf := match bestOf
        case Some(value) => value
        case None => Default();
    }

    /** `add_point`: one point to the named winner, none on a draw; the
        round is not touched. The `+= 1` panics on `u8` overflow. */
    method AddPoint(player: Winner)
      requires player == Human ==> humanPoints < U8_MAX
      requires player == Computer ==> computerPoints < U8_MAX
      modifies this`humanPoints, this`computerPoints
      ensures humanPoints == old(humanPoints) + (if player == Human then 1 else 0)
      ensures computerPoints == old(computerPoints) + (if player == Computer then 1 else 0)
      ensures round == old(round)
    {
      match player
      case Human => humanPoints := humanPoints + 1;
      case Computer => computerPoints := computerPoints + 1;
      case Draw =>
    }

    /** `increase_round`: the next round; the points are not touched. */
    method IncreaseRound()
      requires round < U8_MAX
      modifies this`round
      ensures round == old(round) + 1
      ensures humanPoints == old(humanPoints) && computerPoints == old(computerPoints)
    {
      round := round + 1;
    }

    /** `best_of()`: the wrapped round count, unchanged. */
    function Rounds(): (n: u8)
      reads this
      ensures Valid(bestOf) ==> n % 2 == 1 && n >= 3
      ensures n == bestOf.value
    {
      bestOf.value
    }

    /** `game_winner`: the side with strictly more points, otherwise Draw. */
    function GameWinner(): (w: Winner)
      reads this
      ensures w == Computer <==> computerPoints > humanPoints
      ensures w == Human <==> humanPoints > computerPoints
      ensures w == Draw <==> humanPoints == computerPoints
    {
      if computerPoints > humanPoints then Computer
      else if computerPoints < humanPoints then Human
      else Draw
    }

    /** `enough_points_to_end_game`: some side's score EQUALS the majority
        threshold (a score past it does not count); such a side holds a
        strict majority of the rounds. */
    function EnoughPointsToEndGame(): (b: bool)
      reads this
      ensures b <==> humanPoints == Majority(Rounds()) || computerPoints == Majority(Rounds())
      ensures b ==> 2 * humanPoints > Rounds() || 2 * computerPoints > Rounds()
    {
      var minimumRound := Majority(Rounds());
      humanPoints == minimumRound || computerPoints == minimumRound
    }
  }

  /** Once `enough_points_to_end_game` holds for a valid best-of, the side
      that reached the majority wins whatever the remaining rounds bring:
      the other side can neither draw level nor reach the majority itself. */
  lemma ClinchIsDecisive(g: Game, moreHuman: nat, moreComputer: nat)
    requires Valid(g.bestOf) && g.EnoughPointsToEndGame()
    requires g.humanPoints + g.computerPoints + moreHuman + moreComputer <= g.Rounds()
    ensures g.humanPoints == Majority(g.Rounds()) ==>
      g.computerPoints + moreComputer < Majority(g.Rounds()) <= g.humanPoints + moreHuman
    ensures g.computerPoints == Majority(g.Rounds()) ==>
      g.humanPoints + moreHuman < Majority(g.Rounds()) <= g.computerPoints + moreComputer
    ensures g.GameWinner() != Draw
  {
  }
}
