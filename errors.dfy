/** The failures of stura_voting_utils/parser.py: the `ParseException`s it raises, and one
    `IndexError`, each with a reason and the 1-based number of the offending line. The
    message texts are not modelled. */
module Errors {

  datatype ErrorKind =
    | InvalidVoterEntry          // parser.py:21, a voter line not of the form "* voter: weight"
    | InvalidVoterWeight         // parser.py:27, `int()` rejects the weight
    | InvalidHead                // parser.py:84
    | InvalidGroup               // parser.py:106
    | InvalidVoting              // parser.py:118
    | InvalidOption              // parser.py:133
    | InvalidGroupOrVoting       // parser.py:167
    | InvalidSchulzeOrNext       // parser.py:188
    | OptionStateInconsistent    // parser.py:127, internal: no group or no voting name
    | MedianValueUnparsable      // parser.py:147, internal: the amount did not convert
    | SchulzeOptionWithoutGroup  // parser.py:177, internal: no group to add the option to
    | NoSchulzeVoting            // parser.py:179, the `IndexError` of `schulze_votings[-1]`
  {
    /** The kinds no well-formed state can lead to: those the source labels "Internal error",
        and the `IndexError` on a group without a Schulze voting. */
    predicate IsInternal() {
      OptionStateInconsistent? || MedianValueUnparsable? || SchulzeOptionWithoutGroup?
      || NoSchulzeVoting?
    }
  }

  datatype ParseError = ParseError(kind: ErrorKind, line: nat)
}
