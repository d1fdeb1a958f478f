/** How a queried company attribute compared with the register: a
    string-backed enum with the single-letter values `A` to `D`. */
module ComparisonResults {
  import opened Wrappers

  datatype ComparisonResult = MATCH | MISMATCH | NOT_REQUESTED | NOT_PROVIDED

  /** The backing value of a case (`$case->value`). */
  function Value(c: ComparisonResult): (v: string)
    ensures |v| == 1 && 'A' <= v[0] <= 'D'
  {
    match c
    case MATCH => "A"
    case MISMATCH => "B"
    case NOT_REQUESTED => "C"
    case NOT_PROVIDED => "D"
  }

  /** `ComparisonResult::cases()`, in declaration order. */
  const Cases: seq<ComparisonResult> := [MATCH, MISMATCH, NOT_REQUESTED, NOT_PROVIDED]

  /** The enum has exactly four cases with pairwise distinct values. */
  lemma CasesAreExactly4(c: ComparisonResult)
    ensures |Cases| == 4
    ensures c in Cases
    ensures forall i, j :: 0 <= i < j < |Cases| ==> Value(Cases[i]) != Value(Cases[j])
  {
  }

  /** `ComparisonResult::tryFrom($s)`: the case whose letter is `s`, or null. */
  function TryFrom(s: string): (r: Option<ComparisonResult>)
    ensures r.Some? ==> Value(r.value) == s
    ensures r.None? <==> s !in {"A", "B", "C", "D"}
    ensures r.None? <==> forall c :: Value(c) != s
  {
    match s
    case "A" => Some(MATCH)
    case "B" => Some(MISMATCH)
    case "C" => Some(NOT_REQUESTED)
    case "D" => Some(NOT_PROVIDED)
    case _ => None
  }

  /** Looking a case up by its own letter gives that case back. */
  lemma TryFromValue(c: ComparisonResult)
    ensures TryFrom(Value(c)) == Some(c)
  {
  }

  /** A company name where a letter is expected is not an outcome. */
  lemma TryFromExamples()
    ensures TryFrom("A") == Some(MATCH)
    ensures TryFrom("D") == Some(NOT_PROVIDED)
    ensures TryFrom("Test GmbH") == None
    ensures TryFrom("a") == None
    ensures TryFrom("") == None
  {
  }
}
