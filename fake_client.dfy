/** A deterministic, map-backed stand-in for the metrics backend: per-selector
    errors, series lists and query results, and an acceptable time interval. */
module FakeClient {
  import opened Wrappers
  import opened Model

  datatype FakePrometheusClient = FakePrometheusClient(
    acceptableInterval: Interval,
    errQueries: map<Selector, Error>,
    seriesResults: map<Selector, seq<Series>>,
    queryResults: map<Selector, QueryResult>)
  {
    /** An interval bound of 0 is unset; a set bound must lie within the acceptable interval. */
    predicate IntervalRejected(interval: Interval)
    {
      (interval.start != 0 && interval.start < acceptableInterval.start) ||
      (interval.end != 0 && interval.end > acceptableInterval.end)
    }

    /** The index of the first selector configured to fail, or the length when none is. */
    function FirstErrorIndex(selectors: seq<Selector>): (i: nat)
      ensures i <= |selectors|
      ensures forall j :: 0 <= j < i ==> selectors[j] !in errQueries
      ensures i < |selectors| ==> selectors[i] in errQueries
    {
      if |selectors| == 0 then 0
      else if selectors[0] in errQueries then 0
      else 1 + FirstErrorIndex(selectors[1..])
    }

    /** The configured series of each selector, concatenated in selector order;
        a selector without configured series contributes nothing. */
    function Collected(selectors: seq<Selector>): seq<Series>
    {
      if |selectors| == 0 then []
      else
        (if selectors[0] in seriesResults then seriesResults[selectors[0]] else []) +
        Collected(selectors[1..])
    }

    lemma {:induction false} CollectedAppend(a: seq<Selector>, b: seq<Selector>)
      ensures Collected(a + b) == Collected(a) + Collected(b)
    {
      if |a| > 0 {
        assert (a + b)[1..] == a[1..] + b;
        CollectedAppend(a[1..], b);
      } else {
        assert a + b == b;
      }
    }

    /** Selectors the fake knows nothing about change nothing in a result. */
    lemma {:induction false} CollectedIgnoresUnknown(a: seq<Selector>, sel: Selector, b: seq<Selector>)
      requires sel !in seriesResults
      ensures Collected(a + [sel] + b) == Collected(a + b)
    {
      CollectedAppend(a + [sel], b);
      CollectedAppend(a, [sel]);
      CollectedAppend(a, b);
      assert Collected([sel]) == Collected([]) + [];
    }

    /** What `Series` answers. */
    function SeriesAnswer(interval: Interval, selectors: seq<Selector>): Result<Option<seq<Series>>, Error>
    {
      if IntervalRejected(interval) then Err(IntervalOutOfRange(interval))
      else if FirstErrorIndex(selectors) < |selectors| then Err(errQueries[selectors[FirstErrorIndex(selectors)]])
      else Ok(Some(Collected(selectors)))
    }

    /** `Series`: rejects an interval outside the acceptable one, then fails with the
        error of the first failing selector, else returns the collected series. */
    method Series(interval: Interval, selectors: seq<Selector>) returns (r: Result<Option<seq<Series>>, Error>)
      ensures IntervalRejected(interval) ==> r == Err(IntervalOutOfRange(interval))
      ensures !IntervalRejected(interval) && FirstErrorIndex(selectors) < |selectors| ==>
        r == Err(errQueries[selectors[FirstErrorIndex(selectors)]])
      ensures !IntervalRejected(interval) && FirstErrorIndex(selectors) == |selectors| ==>
        r == Ok(Some(Collected(selectors)))
    {
      if IntervalRejected(interval) {
        return Err(IntervalOutOfRange(interval));
      }
      var res: seq<Series> := [];
      var i := 0;
      while i < |selectors|
        invariant 0 <= i <= |selectors|
        invariant forall j :: 0 <= j < i ==> selectors[j] !in errQueries
        invariant res == Collected(selectors[..i])
      {
        var sel := selectors[i];
        if sel in errQueries {
          return Err(errQueries[sel]);
        }
        if sel in seriesResults {
          res := res + seriesResults[sel];
        }
        CollectedAppend(selectors[..i], [sel]);
        assert selectors[..i + 1] == selectors[..i] + [sel];
        i := i + 1;
      }
      assert selectors[..i] == selectors;
      r := Ok(Some(res));
    }

    /** `Query`: a time outside the acceptable interval (bounds included) is
        rejected; then a configured error, then a configured result, and
        otherwise an empty vector. */
    function Query(t: Time, query: Selector): (r: Result<QueryResult, Error>)
      ensures (t < acceptableInterval.start || t > acceptableInterval.end) ==> r == Err(TimeOutOfRange(t))
      ensures acceptableInterval.start <= t <= acceptableInterval.end ==>
        if query in errQueries then r == Err(errQueries[query])
        else if query in queryResults then r == Ok(queryResults[query])
        else r == Ok(QueryResult(ValVector, Some([]), None, None))
    {
      if t < acceptableInterval.start || t > acceptableInterval.end then Err(TimeOutOfRange(t))
      else if query in errQueries then Err(errQueries[query])
      else if query in queryResults then Ok(queryResults[query])
      else Ok(QueryResult(ValVector, Some([]), None, None))
    }

    /** `QueryRange`: always an empty result and no error. */
    function QueryRange(r: Range, query: Selector): (res: Result<QueryResult, Error>)
      ensures res.Ok? && res.value.resultType == ValNone && res.value.vector.None?
      ensures res.value.scalar.None? && res.value.matrix.None?
    {
      Ok(EmptyQueryResult)
    }

    /** The fake as a backend client. */
    function AsClient(): (c: Client)
      ensures forall iv, sels :: c.series(iv, sels) == SeriesAnswer(iv, sels)
      ensures forall t, q :: c.query(t, q) == Query(t, q)
    {
      Client(
        (iv, sels) => SeriesAnswer(iv, sels),
        (t, q) => Query(t, q),
        (r, q) => QueryRange(r, q))
    }
  }
}
