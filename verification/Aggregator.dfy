/** The ANY_MALICIOUS policy (pkg/aggregator/aggregator.go). */
module Aggregator {
  import opened Wrappers
  import opened Messages

  datatype Overall = Clean | Malware | Inconclusive

  const NO_VERDICTS := "aggregation requires at least one verdict"
  const INVALID_VERDICT := "verdict is invalid"

  /** The policy on the set of verdicts given: order and repetition play no part. */
  function Policy(verdicts: set<Verdict>): (r: Result<Overall>)
    ensures r.Success? <==>
            verdicts != {} && forall v | v in verdicts :: v in {VerdictClean, VerdictMalware, VerdictError, VerdictTimeout, VerdictUnavailable}
    ensures r == Success(Malware) <==> r.Success? && VerdictMalware in verdicts
    ensures r == Success(Clean) <==> verdicts == {VerdictClean}
    ensures r == Failure("aggregation requires at least one verdict") <==> verdicts == {}
    ensures r.Failure? && verdicts != {} ==> r.error == "verdict is invalid"
  {
    if verdicts == {} then Failure(NO_VERDICTS)
    else if exists v | v in verdicts :: !ValidVerdict(v) then Failure(INVALID_VERDICT)
    else if VerdictMalware in verdicts then Success(Malware)
    else if exists v | v in verdicts :: v != VerdictClean then Success(Inconclusive)
    else
      assert VerdictClean in verdicts;
      Success(Clean)
  }

  function Elements(verdicts: seq<Verdict>): set<Verdict> { set v | v in verdicts }

  method Aggregate(verdicts: seq<Verdict>) returns (r: Result<Overall>)
    ensures r == Policy(Elements(verdicts))
  {
    if |verdicts| == 0 {
      return Failure(NO_VERDICTS);
    }
    assert verdicts[0] in Elements(verdicts);
    var hasMalware, hasFailure := false, false;
    for index := 0 to |verdicts|
      invariant forall j | 0 <= j < index :: ValidVerdict(verdicts[j])
      invariant hasMalware <==> exists j | 0 <= j < index :: verdicts[j] == VerdictMalware
      invariant hasFailure <==>
                exists j | 0 <= j < index :: verdicts[j] != VerdictClean && verdicts[j] != VerdictMalware
    {
      match verdicts[index]
      case VerdictClean =>
      case VerdictMalware => hasMalware := true;
      case VerdictError | VerdictTimeout | VerdictUnavailable => hasFailure := true;
      case _ =>
        assert verdicts[index] in Elements(verdicts);
        return Failure(INVALID_VERDICT);
    }
    if hasMalware {
      return Success(Malware);
    }
    if hasFailure {
      var j :| 0 <= j < |verdicts| && verdicts[j] != VerdictClean && verdicts[j] != VerdictMalware;
      assert verdicts[j] in Elements(verdicts);
      return Success(Inconclusive);
    }
    return Success(Clean);
  }
}
