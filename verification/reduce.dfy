/** The scope of an aggregate operator's synchronisation: one worker
    partition, or the whole cluster. */
module Reduce {

  datatype Range = Local | Global

  /** `RANGES`: every range, each once. */
  const Ranges: seq<Range> := [Local, Global]

  /** `Ranges` enumerates the ranges without repetition. */
  lemma RangesListsEachOnce()
    ensures |Ranges| == 2 && Ranges[0] != Ranges[1]
    ensures forall r: Range :: r in Ranges
  {
    forall r: Range
      ensures r in Ranges
    {
      match r
      case Local => assert Ranges[0] == r;
      case Global => assert Ranges[1] == r;
    }
  }
}
