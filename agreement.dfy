/** How the two best-of configurations relate: the binary's three variants
    are among the library's valid values, both default to five rounds, and
    every string the binary accepts the library accepts with the same
    meaning, but not conversely. */
module Agreement {
  import opened Base
  import opened Text
  import Binary
  import Library

  lemma DefaultsAgree()
    ensures Library.Default().value == Binary.Default().Rounds()
  {
  }

  /** `BestOf::new` accepts each of the binary's round counts. */
  lemma BinaryRoundsValid(b: Binary.BestOf)
    ensures Library.New(b.Rounds()) == Ok(Library.BestOf(b.Rounds()))
  {
  }

  /** Where the binary's parser succeeds, the library's gives the same count. */
  lemma FromStrAgrees(s: string)
    requires Binary.FromStr(s).Ok?
    ensures Library.FromStr(s) == Ok(Library.BestOf(Binary.FromStr(s).value.Rounds()))
  {
  }

  /** The library also takes larger odd counts, a '+' sign and leading zeros,
      which the binary refuses. */
  lemma LibraryAcceptsMore()
    ensures Binary.FromStr("9").Err? && Library.FromStr("9") == Ok(Library.BestOf(9))
    ensures Binary.FromStr("+3").Err? && Library.FromStr("+3") == Ok(Library.BestOf(3))
    ensures Binary.FromStr("03").Err? && Library.FromStr("03") == Ok(Library.BestOf(3))
  {
  }
}
