/** Source locations and their deliberately loose equality (test fixtures carry no file). */
module Locations {
  import opened Wrappers

  /** A range of positions in the source text; `String.Index` values are offsets here. */
  datatype Range = Range(lower: int, upper: int)

  datatype Location = Location(file: Option<string>, position: Option<Range>)

  /** A location that names no file and no position, what the parser's nodes default to. */
  const NO_LOCATION: Location := Location(None, None)

  /** `Location.==`: two locations without a file are always equal. */
  predicate LocationEquals(lhs: Location, rhs: Location) {
    if lhs.file.None? && rhs.file.None? then true
    else lhs.file == rhs.file && lhs.position == rhs.position
  }

  lemma NoFileLocationsEqual(lhs: Location, rhs: Location)
    requires lhs.file.None? && rhs.file.None?
    ensures LocationEquals(lhs, rhs)
  {
  }

  lemma LocationEqualsWithFile(lhs: Location, rhs: Location)
    requires lhs.file.Some? || rhs.file.Some?
    ensures LocationEquals(lhs, rhs) <==> lhs.file == rhs.file && lhs.position == rhs.position
  {
  }

  lemma NoFileNeverEqualsFile(lhs: Location, rhs: Location)
    requires lhs.file.None? && rhs.file.Some?
    ensures !LocationEquals(lhs, rhs) && !LocationEquals(rhs, lhs)
  {
  }

  /** The loose equality is still an equivalence relation. */
  lemma LocationEqualsIsEquivalence(a: Location, b: Location, c: Location)
    ensures LocationEquals(a, a)
    ensures LocationEquals(a, b) <==> LocationEquals(b, a)
    ensures LocationEquals(a, b) && LocationEquals(b, c) ==> LocationEquals(a, c)
  {
  }
}
