/** `ThreadSafeResults` of AI/ThreadSafeResults.py: a single slot holding the
    latest list of detection results. The lock only serialises the two methods;
    sequentially each runs whole, which is what this model describes. */
module Results {

  class ThreadSafeResults<T> {
    /** `self.results` */
    var results: seq<T>

    /** A new buffer holds the empty list. */
    constructor()
      ensures results == []
    {
      results := [];
    }

    /** `update_results(new_results)`: the new list replaces the old one wholesale. */
    method UpdateResults(newResults: seq<T>)
      modifies this
      ensures results == newResults
    {
      results := newResults;
    }

    /** `get_latest_results()`: a copy of the stored list; reading neither clears
        nor alters it. The copy is a value, so changing it cannot reach the buffer. */
    method GetLatestResults() returns (copy: seq<T>)
      ensures copy == results
    {
      copy := results;
    }
  }

  /** Only the last of several updates is visible, and reading twice gives the same list. */
  method LatestWins<T>(buffer: ThreadSafeResults<T>, first: seq<T>, second: seq<T>) returns (read1: seq<T>, read2: seq<T>)
    modifies buffer
    ensures read1 == second && read2 == second
    ensures buffer.results == second
  {
    buffer.UpdateResults(first);
    buffer.UpdateResults(second);
    read1 := buffer.GetLatestResults();
    read2 := buffer.GetLatestResults();
  }
}
