/** Board size and tile statuses (utils/constants.js). */
module Constants {

  /** Rows on the board: the maximum number of guesses in one round. */
  const NUM_ROWS: nat := 6

  /** Columns nominally on the board; the board actually follows the target's length. */
  const NUM_COLS: nat := 5

  /** The four tile statuses; `Name` gives the string the source stores. */
  datatype Status = Unknown | Correct | Present | Absent {
    function Name(): string {
      match this
      case Unknown => "unknown"
      case Correct => "correct"
      case Present => "present"
      case Absent => "absent"
    }
  }

  /** No two statuses share a name, so the strings and the datatype are interchangeable. */
  lemma NamesDistinct(a: Status, b: Status)
    ensures a.Name() == b.Name() <==> a == b
  {
  }

}
