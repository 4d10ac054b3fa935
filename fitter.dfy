/**
 * Choosing the distribution family that best fits a sample
 * (`find_best_distribution`). Each candidate family, in a fixed order, is
 * fitted to the sample and scored by the Kolmogorov-Smirnov statistic D; the
 * family with the smallest D wins. The fitting and the KS test themselves
 * are an oracle here: the model receives, per candidate, whether fitting or
 * testing raised, and otherwise the fitted parameters and the statistic.
 */
module Fitter {
  import opened Wrappers

  /** The candidate families (`scipy.stats` objects). */
  datatype Family = Expon | Lognorm | Gamma | WeibullMin

  /** The candidates, in the order they are tried. */
  const Candidates: seq<Family> := [Expon, Lognorm, Gamma, WeibullMin]

  /** A double as far as the comparison `D < best` sees it: a number, positive infinity, or NaN. */
  datatype Score = Finite(value: real) | Infinite | NaN

  /** IEEE-754 `<` on scores: a number is below a larger number and below infinity; infinity is below nothing, and every comparison with NaN is false. */
  predicate Less(a: Score, b: Score) {
    match (a, b)
    case (Finite(x), Finite(y)) => x < y
    case (Finite(_), Infinite) => true
    case _ => false
  }

  /** What trying one candidate gave: `fit` or `kstest` raised, or the fitted parameters and D. */
  datatype Trial = Raised | Fitted(params: seq<real>, stat: Score)

  /** Why no family is returned: no candidate produced a finite D, so the chosen family stays `None`. */
  datatype FitError = NoDistribution

  /** A candidate counts only if it was fitted and scored with a finite D. */
  predicate Succeeded(t: Trial) {
    t.Fitted? && t.stat.Finite?
  }

  /**
   * Candidate `i` is the best among the first `n`: it succeeded, no
   * successful candidate before `n` has a smaller D, and every successful
   * candidate before `i` has a strictly larger one (ties go to the earlier).
   */
  ghost predicate IsBestUpTo(trials: seq<Trial>, i: nat, n: nat)
    requires n <= |trials|
  {
    && i < n
    && Succeeded(trials[i])
    && (forall j :: 0 <= j < n && Succeeded(trials[j]) ==> trials[i].stat.value <= trials[j].stat.value)
    && (forall j :: 0 <= j < i && Succeeded(trials[j]) ==> trials[i].stat.value < trials[j].stat.value)
  }

  ghost predicate IsBest(trials: seq<Trial>, i: nat) {
    IsBestUpTo(trials, i, |trials|)
  }

  /**
   * Reference definition of the choice after the first `n` candidates: a
   * candidate replaces the one kept so far only when it succeeded with a
   * strictly smaller D.
   */
  function Choice(trials: seq<Trial>, n: nat): (c: Option<nat>)
    requires n <= |trials|
    ensures c.None? <==> forall j :: 0 <= j < n ==> !Succeeded(trials[j])
    ensures c.Some? ==> IsBestUpTo(trials, c.value, n)
  {
    if n == 0 then None
    else
      var prev := Choice(trials, n - 1);
      if Succeeded(trials[n - 1]) && (prev.None? || trials[n - 1].stat.value < trials[prev.value].stat.value)
      then Some(n - 1)
      else prev
  }

  /** The best candidate is unique: whichever candidate is best is the one `Choice` keeps. */
  lemma {:induction false} ChoiceUnique(trials: seq<Trial>, i: nat, n: nat)
    requires n <= |trials| && IsBestUpTo(trials, i, n)
    ensures Choice(trials, n) == Some(i)
  {
    // `Choice` keeps some candidate, since candidate `i` succeeded; two
    // distinct best candidates would each have a D strictly below the other's.
    assert Succeeded(trials[i]);
  }

  /**
   * `find_best_distribution`: the candidates are tried in order, keeping the
   * first whose D is strictly below the best so far (initially infinity); a
   * candidate that raised is skipped. The best family and its own fitted
   * parameters are returned; when none succeeded, reporting the choice fails.
   */
  method FindBestDistribution(trials: seq<Trial>) returns (r: Result<(Family, seq<real>), FitError>)
    requires |trials| == |Candidates|
    ensures r.Failure? <==> forall j :: 0 <= j < |trials| ==> !Succeeded(trials[j])
    ensures r.Failure? ==> r.error == NoDistribution
    ensures r.Success? ==> Choice(trials, |trials|).Some?
    ensures r.Success? ==>
              var i := Choice(trials, |trials|).value;
              IsBest(trials, i) && r.value == (Candidates[i], trials[i].params)
    ensures r.Success? ==> forall i: nat :: IsBest(trials, i) ==> r.value == (Candidates[i], trials[i].params)
  {
    var best: Option<nat> := None;
    var bestStat := Infinite;
    var bestParams: seq<real> := [];
    for k := 0 to |trials|
      invariant best == Choice(trials, k)
      invariant best.None? ==> bestStat == Infinite
      invariant best.Some? ==> bestStat == trials[best.value].stat && bestParams == trials[best.value].params
    {
      match trials[k]
      case Raised =>
      case Fitted(params, d) =>
        if Less(d, bestStat) {
          bestStat := d;
          best := Some(k);
          bestParams := params;
        }
    }
    if best.None? {
      r := Failure(NoDistribution);
    } else {
      r := Success((Candidates[best.value], bestParams));
      forall i: nat | IsBest(trials, i)
        ensures r.value == (Candidates[i], trials[i].params)
      {
        ChoiceUnique(trials, i, |trials|);
      }
    }
  }
}
