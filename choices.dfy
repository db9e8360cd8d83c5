/** The choice domain of the game: the three hands, their cyclic dominance
    order, the winner of one round, the console parser and the index mapping
    of the random sampler. The binary and the library carry identical copies
    of this code, so it is modelled once. */
module Choices {
  import opened Base
  import opened Text

  datatype Choice = Rock | Paper | Scissors

  /** `std::cmp::Ordering`. */
  datatype Ordering = Less | Equal | Greater {
    /** The ordering seen from the other side of the comparison. */
    function Reverse(): Ordering {
      match this
      case Less => Greater
      case Equal => Equal
      case Greater => Less
    }
  }

  /** Who took a round or a whole match. */
  datatype Winner = Human | Computer | Draw {
    /** The same result seen with the players' seats exchanged. */
    function Swap(): Winner {
      match this
      case Human => Computer
      case Computer => Human
      case Draw => Draw
    }
  }

  /** The position of a choice in the sampler's numbering 0, 1, 2. */
  function Index(c: Choice): (k: nat)
    ensures k < 3
  {
    match c
    case Rock => 0
    case Paper => 1
    case Scissors => 2
  }

  /** Reference definition of the dominance cycle: a choice beats the one
      numbered just below it, modulo 3 (Paper over Rock, Scissors over Paper,
      Rock over Scissors). */
  function CyclicOrder(a: Choice, b: Choice): Ordering {
    var d := (Index(a) - Index(b)) % 3;
    if d == 0 then Equal else if d == 1 then Greater else Less
  }

  /** `partial_cmp` on `Choice`: total, cyclic, `Equal` only on equal hands. */
  function PartialCmp(a: Choice, b: Choice): (r: Option<Ordering>)
    ensures r.Some?
    ensures r.value == CyclicOrder(a, b)
    ensures r.value == Equal <==> a == b
  {
    match (a, b)
    case (Rock, Paper) => Some(Less)
    case (Rock, Scissors) => Some(Greater)
    case (Paper, Rock) => Some(Greater)
    case (Paper, Scissors) => Some(Less)
    case (Scissors, Paper) => Some(Greater)
    case (Scissors, Rock) => Some(Less)
    case _ => Some(Equal)
  }

  /** Rust's `a > b` for a `PartialOrd` type: `partial_cmp` gives `Some(Greater)`. */
  predicate Beats(a: Choice, b: Choice) {
    PartialCmp(a, b) == Some(Greater)
  }

  /** Exchanging the arguments exchanges `Greater` and `Less`. */
  lemma PartialCmpAntisymmetric(a: Choice, b: Choice)
    ensures PartialCmp(b, a) == Some(PartialCmp(a, b).value.Reverse())
    ensures Beats(a, b) <==> PartialCmp(b, a) == Some(Less)
  {
  }

  /** The six ordered pairs of distinct hands, as the unit tests state them. */
  lemma DominanceTable()
    ensures Beats(Rock, Scissors) && Beats(Paper, Rock) && Beats(Scissors, Paper)
    ensures PartialCmp(Rock, Paper) == Some(Less)
    ensures PartialCmp(Paper, Scissors) == Some(Less)
    ensures PartialCmp(Scissors, Rock) == Some(Less)
  {
  }

  /** Every hand beats exactly one hand, the one numbered two above it
      modulo 3, and loses to exactly one, the one numbered just above it. */
  lemma BeatsExactlyOne(a: Choice, x: Choice)
    ensures Beats(a, x) <==> Index(x) == (Index(a) + 2) % 3
    ensures Beats(x, a) <==> Index(x) == (Index(a) + 1) % 3
  {
  }

  /** Dominance is a cycle, not a ranking: it is not transitive. */
  lemma BeatsNotTransitive()
    ensures !(forall a, b, c :: Beats(a, b) && Beats(b, c) ==> Beats(a, c))
  {
    assert Beats(Rock, Scissors) && Beats(Scissors, Paper) && !Beats(Rock, Paper);
  }

  /** `Game::round_winner`: the human takes the round when their hand beats
      the computer's, the computer when the reverse holds, otherwise Draw. */
  function RoundWinner(human: Choice, computer: Choice): (w: Winner)
    ensures w == Human <==> Beats(human, computer)
    ensures w == Computer <==> Beats(computer, human)
    ensures w == Draw <==> human == computer
  {
    PartialCmpAntisymmetric(human, computer);
    match PartialCmp(human, computer).value
    case Greater => Human
    case Less => Computer
    case Equal => Draw
  }

  /** Exchanging the hands exchanges the round's winner. */
  lemma RoundWinnerSwap(human: Choice, computer: Choice)
    ensures RoundWinner(computer, human) == RoundWinner(human, computer).Swap()
  {
  }

  /** The `Display` label of a choice. */
  function Label(c: Choice): (s: string)
    ensures |s| > 0
  {
    match c
    case Rock => "Rock"
    case Paper => "Paper"
    case Scissors => "Scissors"
  }

  /** `line` names `c`: it is the lowercase label of `c`, or that label's
      initial, followed by the newline `read_line` keeps. */
  predicate Names(c: Choice, line: string) {
    var name := Lower(Label(c));
    line == name + "\n" || line == [name[0], '\n']
  }

  /** The names written out. */
  lemma NamesAre(line: string)
    ensures Names(Rock, line) <==> line == "rock\n" || line == "r\n"
    ensures Names(Paper, line) <==> line == "paper\n" || line == "p\n"
    ensures Names(Scissors, line) <==> line == "scissors\n" || line == "s\n"
  {
    LowerRock();
    LowerPaper();
    LowerScissors();
  }

  /** The labels lowercased, one lemma per label to keep each proof small. */
  lemma LowerRock()
    ensures Lower(Label(Rock)) == "rock"
  {
    var l := Lower("Rock");
    assert forall i :: 0 <= i < 4 ==> l[i] == "rock"[i];
  }

  lemma LowerPaper()
    ensures Lower(Label(Paper)) == "paper"
  {
    var l := Lower("Paper");
    assert forall i :: 0 <= i < 5 ==> l[i] == "paper"[i];
  }

  lemma LowerScissors()
    ensures Lower(Label(Scissors)) == "scissors"
  {
    var l := Lower("Scissors");
    assert forall i :: 0 <= i < 8 ==> l[i] == "scissors"[i];
  }

  const UnknownChoice := "Unknown choice"

  /** `TryFrom<String> for Choice`: lowercase the line, then match it exactly. */
  function TryFrom(value: string): (r: Result<Choice, string>)
    ensures r.Ok? ==> Names(r.value, Lower(value))
    ensures r.Err? ==> forall c :: !Names(c, Lower(value))
    ensures r.Err? ==> r.error == UnknownChoice
  {
    NamesAre(Lower(value));
    var line := Lower(value);
    if line == "rock\n" || line == "r\n" then Ok(Rock)
    else if line == "paper\n" || line == "p\n" then Ok(Paper)
    else if line == "scissors\n" || line == "s\n" then Ok(Scissors)
    else Err(UnknownChoice)
  }

  /** No line names two choices, so `TryFrom` returns `c` exactly when the
      lowercased input names `c`. */
  lemma TryFromExactly(value: string, c: Choice)
    ensures TryFrom(value) == Ok(c) <==> Names(c, Lower(value))
  {
  }

  /** The parser ignores case. */
  lemma TryFromIgnoresCase(value: string)
    ensures TryFrom(value) == TryFrom(Lower(value))
  {
    LowerIdempotent(value);
  }

  /** A displayed label followed by a newline parses back to its choice,
      and so does its initial in either case. */
  lemma TryFromLabel(c: Choice)
    ensures TryFrom(Label(c) + "\n") == Ok(c)
    ensures TryFrom([Label(c)[0], '\n']) == Ok(c)
    ensures TryFrom(Lower([Label(c)[0], '\n'])) == Ok(c)
  {
    var shown := Label(c);
    var name := Lower(shown);
    LowerAppend(shown, "\n");
    assert Lower("\n") == "\n";
    TryFromExactly(shown + "\n", c);
    var initial := [shown[0], '\n'];
    assert Lower(initial) == [name[0], '\n'];
    TryFromExactly(initial, c);
    LowerIdempotent(initial);
    TryFromExactly(Lower(initial), c);
  }

  /** Without its trailing newline no input is accepted: "rock" and "" are errors. */
  lemma TryFromNeedsNewline(value: string)
    requires value == [] || value[|value| - 1] != '\n'
    ensures TryFrom(value) == Err(UnknownChoice)
  {
  }

  /** The computer's sample: `gen_range(0..=2)` mapped 0 to Rock, 1 to Paper,
      anything else to Scissors. */
  function Sample(k: int): (c: Choice)
    requires 0 <= k <= 2
    ensures Index(c) == k
  {
    match k
    case 0 => Rock
    case 1 => Paper
    case _ => Scissors
  }

  /** Every choice is the sample of exactly its own index. */
  lemma SampleCovers(c: Choice)
    ensures Sample(Index(c)) == c
  {
  }
}
