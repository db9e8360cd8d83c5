# Rock-paper-scissors — a Dafny model of the game logic

The crate plays rock-paper-scissors between a human at the console and a
computer that picks at random, over a best-of-N match. Its logic appears
twice. The binary (`src/main.rs`) limits N to 3, 5 or 7 and never stops
early on a clinch: it plays N rounds unless a line of input fails to parse,
which aborts the match. The library (`src/lib.rs`) takes any odd N from 3
to 255 (the count is a `u8`) and can also test whether a side has already
clinched the match. This project
models both:

- `base.dfy` (module `Base`): `Option`, `Result`, and the `u8` width of
  the counters.
- `text.dfy` (module `Text`): ASCII lowercasing and decimal digit strings.
- `choices.dfy` (module `Choices`): `Choice`, `Ordering`, `Winner`,
  `partial_cmp`, `round_winner`, the console parser `TryFrom<String>` and
  the sampler's index mapping. The binary and the library hold
  identical copies of this code, so it is modelled
  once. Each row below cites the binary's lines; the library's copy sits at
  `src/lib.rs:108-115` (`round_winner`), `src/lib.rs:143-151` (sampler),
  `src/lib.rs:153-164` (parser) and `src/lib.rs:180-192` (`partial_cmp`).
- `scoring.dfy` (module `Scoring`): how many rounds of a sequence of round
  winners each side took.
- `binary.dfy` (module `Binary`): the `BestOf` enum and its `FromStr` and
  `Default`, the `Game` class, and the round loop of `main` as the method
  `PlayMatch`.
- `library.dfy` (module `Library`): the `BestOf(u8)` newtype with `new`,
  `Default` and `FromStr`, and the library's `Game` class including
  `enough_points_to_end_game`.
- `agreement.dfy` (module `Agreement`): how the two best-of
  configurations relate.

`Game` is a class in the model. Its fields are updated in place, as in the
source. `add_point` and `increase_round` are methods whose postconditions
give the new value of every field. `PlayMatch` drives a fresh `Game`
through a `for` loop, just as `main` does. Its loop invariants tie the
game's counters to a round-by-round specification (`Rows`, `Winners`,
`Count`).

Inputs are made explicit:

- The console becomes a sequence of lines. Past the end of the sequence a
  line reads as empty, because `read_line` at end of input succeeds
  without reading anything.
- The random generator becomes a sequence of computer choices.

The model follows the code on points where the game's intended behaviour
might be read differently:

- The parser does not trim its input. It matches the lowercased line
  exactly, so the trailing `"\n"` that `read_line` keeps is required.
  `"Paper"` and `"s"` without a newline are rejected (`TryFromNeedsNewline`),
  and so are `"rock \n"` and `"rock\r\n"`.
- No early-stop policy exists in either variant. The binary does not stop
  on a clinch; only a parse error ends its match early. The library only
  offers the test `EnoughPointsToEndGame`.
- `human_points + computer_points <= round - 1` is not an invariant of
  `Game` itself, because `add_point` may be called without
  `increase_round` (the unit tests do this). It is proved for the match
  loop, where it holds.
- The errors are the source's static strings (`"Unknown choice"`,
  `"Number must be odd and greater than 2"`, `"Could not parse number"`),
  not typed error kinds.

## Model

| member | source | states |
|---|---|---|
| `Choices.PartialCmp` | src/main.rs:238-250 | always `Some`; agrees with the reference cycle `CyclicOrder` (a choice beats the one numbered just below it, modulo 3); `Equal` exactly when both choices are the same |
| `Choices.PartialCmpAntisymmetric` | src/main.rs:238-250 | swapping the arguments reverses the ordering; `a > b` exactly when `b.partial_cmp(a)` is `Less` |
| `Choices.DominanceTable` | src/main.rs:256-296 | Rock > Scissors, Paper > Rock, Scissors > Paper, and the three reverse pairs give `Less`, as the unit tests assert |
| `Choices.BeatsExactlyOne` | src/main.rs:238-250 | each choice beats exactly one other choice (index + 2 mod 3) and loses to exactly one (index + 1 mod 3) |
| `Choices.BeatsNotTransitive` | src/main.rs:238-250 | the dominance relation is not transitive |
| `Choices.RoundWinner` | src/main.rs:174-181 | Human iff the human's choice beats the computer's; Computer iff the reverse; Draw iff the choices are equal |
| `Choices.RoundWinnerSwap` | src/main.rs:174-181 | exchanging the two hands exchanges Human and Computer and keeps Draw |
| `Text.Lower` | src/main.rs:215 | the lowercased string has the same length; each character is lowercased on its own (ASCII letters only) |
| `Choices.NamesAre` | src/main.rs:216-218 | the names of Rock, Paper and Scissors (lowercased label or its initial, plus newline) are exactly "rock\n"/"r\n", "paper\n"/"p\n" and "scissors\n"/"s\n" |
| `Choices.TryFrom` | src/main.rs:214-221 | on `Ok(c)` the lowercased input names `c`; on an error no choice is named and the error is "Unknown choice" |
| `Choices.TryFromExactly` | src/main.rs:214-221 | `try_from` returns `c` if and only if the lowercased input names `c` |
| `Choices.TryFromIgnoresCase` | src/main.rs:215 | parsing an input and parsing its lowercased form give the same result |
| `Choices.TryFromLabel` | src/main.rs:214-235 | the `Display` label plus newline parses back to its choice, and so does its initial in either case |
| `Choices.TryFromNeedsNewline` | src/main.rs:214-221 | any input not ending in a newline, the empty string included, is "Unknown choice" |
| `Choices.Sample` | src/main.rs:201-209 | the sampler maps 0, 1 and 2 to the choice with that index |
| `Choices.SampleCovers` | src/main.rs:201-209 | every choice is the sample of its own index, so the mapping is onto |
| `Scoring.CountPartition` | src/main.rs:50-67 | each round adds to exactly one of Human, Computer or Draw, so the three counts sum to the number of rounds |
| `Scoring.CountPassesThrough` | src/lib.rs:127-133 | a count that ends at or above `t` equals exactly `t` after some prefix of the rounds: points rise one at a time, so a score can reach the threshold `best_of / 2 + 1` only by equalling it first |
| `Binary.BestOf.Rounds` | src/main.rs:100-105 | each variant's discriminant is odd and between 3 and 7 |
| `Binary.FromStr` | src/main.rs:107-118 | succeeds exactly on "3", "5" and "7"; an accepted string is the decimal form of the round count; otherwise the fixed error message |
| `Binary.FromStrRoundTrip` | src/main.rs:107-118 | every variant is parsed back from the decimal form of its round count |
| `Binary.Default` | src/main.rs:120-124 | the default is five rounds |
| `Binary.Configured` | src/main.rs:139-142 | the given configuration if any, else the five-round default |
| `Binary.Game.constructor` | src/main.rs:134-144 | both scores 0, round 1, the configured or default best-of |
| `Binary.Game.AddPoint` | src/main.rs:146-152 | only the named winner's counter rises, by exactly 1; Draw changes nothing; round unchanged; no `u8` overflow |
| `Binary.Game.IncreaseRound` | src/main.rs:158-160 | round rises by exactly 1; both scores unchanged |
| `Binary.Game.GameWinner` | src/main.rs:183-191 | Computer iff computer points > human points, Human iff the reverse, Draw iff equal |
| `Binary.Rows` | src/main.rs:36-63 | the table of the first n rounds has n rows; row i holds round number i + 1, the parsed human line, the computer's roll and their round winner |
| `Binary.Winners` | src/main.rs:50-65 | the winner column has one entry per row, and entry i is row i's round winner |
| `Binary.PlayMatch` | src/main.rs:36-73 | errors with "Unknown choice" exactly when one of the N lines fails to parse; otherwise the rows are the specified ones, each score is the number of rounds that side won, round = N + 1, human + computer points <= N, and the winner is the side with more points or Draw |
| `Library.New` | src/lib.rs:33-39 | Ok exactly when the number is odd and greater than 2 (so 2 and 6 fail, 3, 5 and 7 pass), wrapping it unchanged; else the fixed error message |
| `Library.Default` | src/lib.rs:42-46 | wraps 5, which is valid |
| `Library.ParseU8` | src/lib.rs:52 | a successful parse reads a non-empty string ending in a digit |
| `Library.ParseDecimal` | src/lib.rs:52 | the decimal form of n parses to n when n <= 255 and overflows otherwise |
| `Library.ParseRejectsSigns` | src/lib.rs:52 | a leading '-' is always rejected; one leading '+' is skipped, two are rejected |
| `Library.ParseLeadingZero` | src/lib.rs:52 | a leading zero before a digit string does not change the parse: "007" gives 7 |
| `Library.ParseRejectsNonDigit` | src/lib.rs:52 | any character other than an ASCII digit after the optional '+' makes the parse fail |
| `Library.FromStr` | src/lib.rs:48-57 | Ok exactly when the string parses as a `u8` that `new` accepts; the result is valid and wraps the parsed number; "Could not parse number" for a non-number; `new`'s message otherwise |
| `Library.FromStrDecimal` | src/lib.rs:48-57 | parsing the decimal form of n is `BestOf::new(n)` |
| `Library.Majority` | src/lib.rs:128 | `best_of / 2 + 1` is the least strict majority of the rounds; for odd N it is (N + 1) / 2 |
| `Library.Game.constructor` | src/lib.rs:68-78 | both scores 0, round 1, the given best-of or the default |
| `Library.Game.AddPoint` | src/lib.rs:80-86 | only the named winner's counter rises, by exactly 1; Draw changes nothing; round unchanged; no `u8` overflow |
| `Library.Game.IncreaseRound` | src/lib.rs:92-94 | round rises by exactly 1; both scores unchanged |
| `Library.Game.Rounds` | src/lib.rs:104-106 | returns the wrapped number unchanged, which is odd and at least 3 for a valid configuration |
| `Library.Game.GameWinner` | src/lib.rs:117-125 | Computer iff computer points > human points, Human iff the reverse, Draw iff equal |
| `Library.Game.EnoughPointsToEndGame` | src/lib.rs:127-133 | true iff a score equals `best_of / 2 + 1` (equality, not >=); when true that side holds a strict majority of the rounds |
| `Library.ClinchIsDecisive` | src/lib.rs:127-133 | when `enough_points_to_end_game` holds for a valid best-of, the side at the majority stays ahead whatever the remaining rounds bring, the other side never reaches the majority, and the game winner is not Draw |
| `Agreement.DefaultsAgree` | src/lib.rs:42-46 | both variants default to five rounds |
| `Agreement.BinaryRoundsValid` | src/lib.rs:33-39 | `BestOf::new` accepts each of the binary's round counts 3, 5 and 7 |
| `Agreement.FromStrAgrees` | src/lib.rs:48-57 | every string the binary's parser accepts, the library's parser accepts with the same round count |
| `Agreement.LibraryAcceptsMore` | src/lib.rs:48-57 | the library also accepts "9", "+3" and "03"; the binary rejects all three |

## Left out

- Console I/O in `main` (`read_line`, `println!`, the `?` propagation): becomes the `lines` parameter. An I/O error from `read_line` is not modelled. End of input is modelled as an empty line.
- `rand::random` and `gen_range`: becomes the `rolls` parameter. `Sample` models only the index mapping; uniformity is not claimed.
- prettytable rendering and colouring, and the table's header and total rows: the model keeps only the data (`RoundRecord`, the totals, the winner).
- structopt argument parsing: `PlayMatch` takes the already parsed `Option<BestOf>`.
- `Display` for `Winner`, and formatting in general: not modelled. `Label` (Choice's display label) is kept only as the partner of the parser.
- `Text.Lower`: models ASCII lowercasing only. Rust's Unicode `to_lowercase` also maps a few non-ASCII characters to ASCII letters; for example the Kelvin sign U+212A becomes `k`, so Rust accepts "ROC\u{212A}\n" as Rock and the model does not.
- `Library.ParseU8`: its own contract is weak. Its body follows the rules of Rust's unsigned integer parsing: an optional leading '+', ASCII digits, overflow above 255. Separate lemmas state parts of that behaviour: canonical decimal forms (`ParseDecimal`), signs (`ParseRejectsSigns`), leading zeros (`ParseLeadingZero`) and non-digit characters (`ParseRejectsNonDigit`). No lemma states that these cases cover every input.
- `Binary.Game.AddPoint`, `Binary.Game.IncreaseRound`, `Library.Game.AddPoint`, `Library.Game.IncreaseRound`: they require the counter to be below 255. This models the debug build's overflow panic; the release build's wrap-around is not modelled.
- The accessors `round()`, `human_points()`, `computer_points()` and the binary's `best_of()`: plain field reads, used directly as fields.
- Library `BestOf` values built directly with the tuple constructor inside the crate: not ruled out by the type. `Valid` states the invariant that `new`, `Default` and `FromStr` keep.
