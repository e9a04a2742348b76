/** The select of the output loop: how many cases reflect.Select takes, and how many of them are the loop's own. */
module SelectCases {
  const MAX_SELECT_CASES: nat := 65536
  const INTERNAL_CASES: nat := 2
}
