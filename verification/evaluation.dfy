/**
 * AgentEvaluator of document_processing/evaluation.py: a counter of
 * evaluated results, a processing-time figure folded in two at a time, and
 * one completeness score per result, summarised by a report.
 */
module Evaluation {
  import opened Models

  /** The completeness scores a result can have: quarters from 0 to 1. */
  const Quarters: set<real> := {0.0, 0.25, 0.5, 0.75, 1.0}

  /** How many of dates, amounts, parties and references are non-empty. */
  function FilledFields(m: Metadata): (n: nat)
    ensures n <= 4
    ensures n == 0 <==> m.dates == [] && m.amounts == [] && m.parties == [] && m.references == []
    ensures n == 4 <==> m.dates != [] && m.amounts != [] && m.parties != [] && m.references != []
  {
    (if |m.dates| > 0 then 1 else 0) + (if |m.amounts| > 0 then 1 else 0)
    + (if |m.parties| > 0 then 1 else 0) + (if |m.references| > 0 then 1 else 0)
  }

  /** The completeness score of one result: the share of the four entity lists that are non-empty. */
  function Completeness(m: Metadata): (c: real)
    ensures c in Quarters
    ensures c * 4.0 == FilledFields(m) as real
    ensures c == 0.0 <==> m.dates == [] && m.amounts == [] && m.parties == [] && m.references == []
    ensures c == 1.0 <==> m.dates != [] && m.amounts != [] && m.parties != [] && m.references != []
  {
    FilledFields(m) as real / 4.0
  }

  /** Python's `sum` of a list of numbers. */
  function Sum(xs: seq<real>): real {
    if xs == [] then 0.0 else xs[0] + Sum(xs[1..])
  }

  /** A sum of scores between 0 and 1 lies between 0 and the number of scores. */
  lemma {:induction false} SumBounds(xs: seq<real>)
    requires forall i :: 0 <= i < |xs| ==> 0.0 <= xs[i] <= 1.0
    ensures 0.0 <= Sum(xs) <= |xs| as real
  {
    if xs != [] {
      SumBounds(xs[1..]);
    }
  }

  /** The processing-time figure after one more result: the mean of the old figure and the new time. */
  function NextAverage(avg: real, timeMs: nat): (next: real)
    ensures avg >= 0.0 ==> next >= 0.0
    ensures avg <= timeMs as real ==> avg <= next <= timeMs as real
    ensures timeMs as real <= avg ==> timeMs as real <= next <= avg
  {
    (avg + timeMs as real) / 2.0
  }

  /** The processing-time figure after a run of results, starting from 0. */
  function AverageAfter(times: seq<nat>): real {
    if times == [] then 0.0 else NextAverage(AverageAfter(times[..|times| - 1]), times[|times| - 1])
  }

  function Pow2(n: nat): (p: real)
    ensures p >= 1.0
  {
    if n == 0 then 1.0 else 2.0 * Pow2(n - 1)
  }

  /**
   * The figure is not a running mean: after n results that all took t
   * milliseconds it is t * (1 - 1/2^n), not t.
   */
  lemma {:induction false} AverageOfEqualTimes(t: nat, n: nat)
    ensures AverageAfter(seq(n, _ => t)) * Pow2(n) == t as real * (Pow2(n) - 1.0)
  {
    if n > 0 {
      var times := seq(n, _ => t);
      assert times[..n - 1] == seq(n - 1, _ => t);
      AverageOfEqualTimes(t, n - 1);
      var prev := AverageAfter(times[..n - 1]);
      assert AverageAfter(times) == NextAverage(prev, t);
      FoldOneMore(prev, t as real, Pow2(n - 1));
    }
  }

  /** One more fold step of a time t keeps the closed form of AverageOfEqualTimes. */
  lemma FoldOneMore(prev: real, t: real, p: real)
    requires prev * p == t * (p - 1.0)
    ensures ((prev + t) / 2.0) * (2.0 * p) == t * (2.0 * p - 1.0)
  {
    assert ((prev + t) / 2.0) * (2.0 * p) == prev * p + t * p;
  }

  /** Two results of 100 ms leave the figure at 75, not 100. */
  lemma TwoEqualTimes()
    ensures AverageAfter([100, 100]) == 75.0
  {
    assert [100, 100][..1] == [100];
    assert [100][..0] == [];
  }

  /** What get_report returns; the two averages are not rounded here. */
  datatype Report = Report(totalDocuments: nat, avgProcessingTimeMs: real, avgExtractionCompleteness: real)

  class Evaluator {
    var totalProcessed: nat
    var avgProcessingTime: real
    var completeness: seq<real>

    /** One score per evaluated result, each a quarter step; the time figure is never negative. */
    predicate Valid()
      reads this
    {
      totalProcessed == |completeness| && avgProcessingTime >= 0.0 &&
      forall i :: 0 <= i < |completeness| ==> completeness[i] in Quarters
    }

    constructor()
      ensures totalProcessed == 0 && avgProcessingTime == 0.0 && completeness == []
      ensures Valid()
    {
      totalProcessed := 0;
      avgProcessingTime := 0.0;
      completeness := [];
    }

    /** evaluate_result: count the result, fold its time into the figure, record its completeness. */
    method EvaluateResult(result: ProcessingResult)
      requires Valid()
      modifies this
      ensures totalProcessed == old(totalProcessed) + 1
      ensures avgProcessingTime == NextAverage(old(avgProcessingTime), result.processingTimeMs)
      ensures completeness == old(completeness) + [Completeness(result.metadata)]
      ensures Valid()
    {
      totalProcessed := totalProcessed + 1;
      avgProcessingTime := NextAverage(avgProcessingTime, result.processingTimeMs);
      completeness := completeness + [Completeness(result.metadata)];
    }

    /** get_report: the count, the time figure, and the mean completeness, or 0 before any result. */
    function GetReport(): (r: Report)
      reads this
      ensures r.totalDocuments == totalProcessed
      ensures r.avgProcessingTimeMs == avgProcessingTime
      ensures completeness == [] ==> r.avgExtractionCompleteness == 0.0
      ensures completeness != [] ==> r.avgExtractionCompleteness * |completeness| as real == Sum(completeness)
      ensures Valid() ==> 0.0 <= r.avgExtractionCompleteness <= 1.0
    {
      if completeness == [] then Report(totalProcessed, avgProcessingTime, 0.0)
      else
        var n := |completeness| as real;
        var mean := Sum(completeness) / n;
        assert Valid() ==> 0.0 <= mean <= 1.0 by {
          if Valid() {
            SumBounds(completeness);
          }
        }
        Report(totalProcessed, avgProcessingTime, mean)
    }
  }
}
