/**
  Properties of the likelihood loop: the closed form and growth of the
  latent-state counter, which records contribute a process term, when the
  evaluation stays in range, the split of the total into process and
  observation sums, and the effect of the two masks.
*/
module LikelihoodLemmas {
  import opened Numerics
  import opened Mvt
  import opened Process
  import opened LikelihoodSpec

  /** The counter at record i is the number of positive gaps among records 1..i. */
  lemma {:induction false} StateNumClosedForm(dt: Vector, i: nat)
    requires i < |dt|
    ensures StateNum(dt, i) == |PositiveGaps(dt, i)|
  {
    if i == 0 {
      assert PositiveGaps(dt, 0) == {};
    } else {
      StateNumClosedForm(dt, i - 1);
      if dt[i] > 0.0 {
        assert PositiveGaps(dt, i) == PositiveGaps(dt, i - 1) + {i};
      } else {
        assert PositiveGaps(dt, i) == PositiveGaps(dt, i - 1);
      }
    }
  }

  /** The counter never decreases and grows by at most one per record. */
  lemma {:induction false} StateNumMonotone(dt: Vector, i: nat, j: nat)
    requires i <= j < |dt|
    ensures StateNum(dt, i) <= StateNum(dt, j) <= StateNum(dt, i) + (j - i)
  {
    if i < j {
      StateNumMonotone(dt, i, j - 1);
    }
  }

  /**
    Records i <= j share a latent state exactly when no record after i up to
    j has a positive gap.
  */
  lemma {:induction false} SameStateIffNoGap(dt: Vector, i: nat, j: nat)
    requires i <= j < |dt|
    ensures StateNum(dt, i) == StateNum(dt, j) <==> forall k :: i < k <= j ==> dt[k] <= 0.0
  {
    if i < j {
      SameStateIffNoGap(dt, i, j - 1);
      StateNumMonotone(dt, i, j - 1);
      if dt[j] > 0.0 {
        assert StateNum(dt, j) == StateNum(dt, j - 1) + 1;
      }
    }
  }

  /** Records sharing a latent state compare their fixes with the same latent position. */
  lemma SharedStateSharedPrediction(d: Data, p: Params, i: nat, j: nat)
    requires WellShaped(d, p) && i <= j < |d.dt| && StateNum(d.dt, j) < NumStates(p)
    requires forall k :: i < k <= j ==> d.dt[k] <= 0.0
    ensures StateNum(d.dt, j) == StateNum(d.dt, i)
    ensures ObsResidual(d, p, j, StateNum(d.dt, j)) == [d.lat[j] - p.mu[0][StateNum(d.dt, i)], d.lon[j] - p.mu[1][StateNum(d.dt, i)]]
  {
    SameStateIffNoGap(d.dt, i, j);
  }

  /**
    The process branch (state not 0 and positive gap) is taken exactly at the
    records after the first with a positive gap, and there the state is at least 1.
  */
  lemma ProcessBranchIff(dt: Vector, i: nat)
    requires i < |dt|
    ensures (StateNum(dt, i) != 0 && dt[i] > 0.0) <==> (i > 0 && dt[i] > 0.0)
    ensures i > 0 && dt[i] > 0.0 ==> StateNum(dt, i) >= 1
  {
  }

  /**
    One more record after a successful prefix: the state check, then the
    process term where the branch is taken, then the quality check and the
    observation term.
  */
  lemma AccumulateStep(t: Terms, numStates: nat, numClasses: nat, dt: Vector, qual: seq<nat>, i: nat, acc: real)
    requires |qual| == |dt| && Covers(t, dt) && i < |dt|
    requires Accumulate(t, numStates, numClasses, dt, qual, i) == Ok(acc)
    ensures StateNum(dt, i) >= numStates ==>
      Accumulate(t, numStates, numClasses, dt, qual, i + 1) == Err(StateOutOfRange(i))
    ensures StateNum(dt, i) < numStates && qual[i] >= numClasses ==>
      Accumulate(t, numStates, numClasses, dt, qual, i + 1) == Err(QualityOutOfRange(i))
    ensures StateNum(dt, i) < numStates && qual[i] < numClasses ==>
      var s := StateNum(dt, i);
      var withProcess := if i > 0 && dt[i] > 0.0 then acc + t.process[i] else acc;
      Accumulate(t, numStates, numClasses, dt, qual, i + 1) == Ok(withProcess + t.obs[i])
  {
    ProcessBranchIff(dt, i);
  }

  /** Once an evaluation has aborted, later records do not change the outcome. */
  lemma {:induction false} ErrPersists(t: Terms, numStates: nat, numClasses: nat, dt: Vector, qual: seq<nat>,
                                       n: nat, m: nat)
    requires |qual| == |dt| && Covers(t, dt) && n <= m <= |dt|
    requires Accumulate(t, numStates, numClasses, dt, qual, n).Err?
    ensures Accumulate(t, numStates, numClasses, dt, qual, m) == Accumulate(t, numStates, numClasses, dt, qual, n)
  {
    if n < m {
      ErrPersists(t, numStates, numClasses, dt, qual, n, m - 1);
    }
  }

  /** The first n records are in range exactly when the first n - 1 are and record n - 1 is. */
  lemma PrefixInRangeStep(numStates: nat, numClasses: nat, dt: Vector, qual: seq<nat>, n: nat)
    requires |qual| == |dt| && 0 < n <= |dt|
    ensures PrefixInRange(numStates, numClasses, dt, qual, n) <==>
      PrefixInRange(numStates, numClasses, dt, qual, n - 1) && StateNum(dt, n - 1) < numStates && qual[n - 1] < numClasses
  {
  }

  /** The first n records evaluate without error exactly when each of them is in range. */
  lemma {:induction false} PrefixOkIff(t: Terms, numStates: nat, numClasses: nat, dt: Vector, qual: seq<nat>, n: nat)
    requires |qual| == |dt| && Covers(t, dt) && n <= |dt|
    ensures Accumulate(t, numStates, numClasses, dt, qual, n).Ok? <==> PrefixInRange(numStates, numClasses, dt, qual, n)
  {
    if n > 0 {
      PrefixOkIff(t, numStates, numClasses, dt, qual, n - 1);
      PrefixInRangeStep(numStates, numClasses, dt, qual, n);
    }
  }

  /**
    Without an error, the total over the first n records is the sum of the
    process terms at the records i > 0 with dt(i) > 0 plus the sum of the
    observation terms at every record.
  */
  lemma {:induction false} PrefixDecomposition(t: Terms, numStates: nat, numClasses: nat, dt: Vector, qual: seq<nat>,
                                               n: nat)
    requires |qual| == |dt| && Covers(t, dt) && n <= |dt| && PrefixInRange(numStates, numClasses, dt, qual, n)
    ensures Accumulate(t, numStates, numClasses, dt, qual, n) == Ok(ProcessSum(t, dt, n) + ObsSum(t, dt, n))
  {
    if n > 0 {
      PrefixDecomposition(t, numStates, numClasses, dt, qual, n - 1);
      ProcessBranchIff(dt, n - 1);
    }
  }

  /** Two sets of terms that agree at every record before n give the same outcome. */
  lemma {:induction false} AccumulateCongruent(t: Terms, u: Terms, numStates: nat, numClasses: nat, dt: Vector,
                                               qual: seq<nat>, n: nat)
    requires |qual| == |dt| && Covers(t, dt) && Covers(u, dt) && n <= |dt|
    requires forall i :: 0 <= i < n ==> t.process[i] == u.process[i] && t.obs[i] == u.obs[i]
    ensures Accumulate(t, numStates, numClasses, dt, qual, n) == Accumulate(u, numStates, numClasses, dt, qual, n)
  {
    if n > 0 {
      AccumulateCongruent(t, u, numStates, numClasses, dt, qual, n - 1);
    }
  }

  /** The two range conditions on the model hold exactly when every record is in range. */
  lemma InRangeIffPrefix(d: Data, p: Params)
    requires WellShaped(d, p)
    ensures InRange(d, p) <==> PrefixInRange(NumStates(p), NumClasses(p), d.dt, d.qual, |d.dt|)
  {
    var n := |d.dt|;
    if InRange(d, p) {
      forall i | 0 <= i < n
        ensures StateNum(d.dt, i) < NumStates(p)
      {
        StateNumMonotone(d.dt, i, n - 1);
      }
    }
  }

  /**
    The evaluation succeeds exactly when every quality class has a table
    entry and the positive gaps after record 0 are fewer than the state columns.
  */
  lemma NllOkIff(num: Ops, d: Data, p: Params)
    requires WellShaped(d, p)
    ensures Nll(num, d, p).Ok? <==> InRange(d, p)
  {
    PrefixOkIff(RecordTerms(num, d, p), NumStates(p), NumClasses(p), d.dt, d.qual, |d.dt|);
    InRangeIffPrefix(d, p);
  }

  /** Entry i of the first n process terms is the process term of record i. */
  lemma {:induction false} ProcessTermsAt(num: Ops, d: Data, p: Params, n: nat, i: nat)
    requires WellShaped(d, p) && i < n <= |d.dt|
    ensures ProcessTerms(num, d, p, n)[i] == ProcessAt(num, d, p, i)
  {
    if i < n - 1 {
      ProcessTermsAt(num, d, p, n - 1, i);
    }
  }

  /** Entry i of the first n observation terms is the observation term of record i. */
  lemma {:induction false} ObsTermsAt(num: Ops, d: Data, p: Params, n: nat, i: nat)
    requires WellShaped(d, p) && i < n <= |d.dt|
    ensures ObsTerms(num, d, p, n)[i] == ObsAt(num, d, p, i)
  {
    if i < n - 1 {
      ObsTermsAt(num, d, p, n - 1, i);
    }
  }

  /**
    The terms of record i are its process term (zero at state 0) and its
    masked observation term, read at its own latent-state column.
  */
  lemma RecordTermsAt(num: Ops, d: Data, p: Params, i: nat)
    requires WellShaped(d, p) && i < |d.dt|
    ensures RecordTerms(num, d, p).process[i] == ProcessAt(num, d, p, i)
    ensures RecordTerms(num, d, p).obs[i] == ObsAt(num, d, p, i)
  {
    ProcessTermsAt(num, d, p, |d.dt|, i);
    ObsTermsAt(num, d, p, |d.dt|, i);
  }

  /** The model's own record terms satisfy TermsOf. */
  lemma RecordTermsOf(num: Ops, d: Data, p: Params)
    requires WellShaped(d, p)
    ensures TermsOf(RecordTerms(num, d, p), num, d, p)
  {
    forall i | 0 <= i < |d.dt|
      ensures RecordTerms(num, d, p).process[i] == ProcessAt(num, d, p, i)
      ensures RecordTerms(num, d, p).obs[i] == ObsAt(num, d, p, i)
    {
      RecordTermsAt(num, d, p, i);
    }
  }

  /**
    One more record after a successful prefix, for any terms that are the
    model's: the state error, the quality error, or the total with the
    record's process term (in its branch) and its masked observation term added.
  */
  lemma ModelStep(t: Terms, num: Ops, d: Data, p: Params, i: nat, acc: real)
    requires WellShaped(d, p) && TermsOf(t, num, d, p) && i < |d.dt|
    requires Accumulate(t, NumStates(p), NumClasses(p), d.dt, d.qual, i) == Ok(acc)
    ensures StateNum(d.dt, i) >= NumStates(p) ==>
      Accumulate(t, NumStates(p), NumClasses(p), d.dt, d.qual, i + 1) == Err(StateOutOfRange(i))
    ensures StateNum(d.dt, i) < NumStates(p) && d.qual[i] >= NumClasses(p) ==>
      Accumulate(t, NumStates(p), NumClasses(p), d.dt, d.qual, i + 1) == Err(QualityOutOfRange(i))
    ensures StateNum(d.dt, i) < NumStates(p) && d.qual[i] < NumClasses(p) ==>
      var s := StateNum(d.dt, i);
      var withProcess := if i > 0 && d.dt[i] > 0.0 then acc + ProcessTerm(num, d, p, i, s) else acc;
      Accumulate(t, NumStates(p), NumClasses(p), d.dt, d.qual, i + 1) == Ok(withProcess + ObsTerm(num, d, p, i, s))
  {
    AccumulateStep(t, NumStates(p), NumClasses(p), d.dt, d.qual, i, acc);
    ProcessBranchIff(d.dt, i);
    assert t.process[i] == ProcessAt(num, d, p, i) && t.obs[i] == ObsAt(num, d, p, i);
  }

  /**
    One more record of the model after a successful prefix: the state error,
    the quality error, or the total with the record's process term (in its
    branch) and its masked observation term added.
  */
  lemma NllUpToStep(num: Ops, d: Data, p: Params, i: nat, acc: real)
    requires WellShaped(d, p) && i < |d.dt| && NllUpTo(num, d, p, i) == Ok(acc)
    ensures StateNum(d.dt, i) >= NumStates(p) ==> NllUpTo(num, d, p, i + 1) == Err(StateOutOfRange(i))
    ensures StateNum(d.dt, i) < NumStates(p) && d.qual[i] >= NumClasses(p) ==>
      NllUpTo(num, d, p, i + 1) == Err(QualityOutOfRange(i))
    ensures StateNum(d.dt, i) < NumStates(p) && d.qual[i] < NumClasses(p) ==>
      var s := StateNum(d.dt, i);
      var withProcess := if i > 0 && d.dt[i] > 0.0 then acc + ProcessTerm(num, d, p, i, s) else acc;
      NllUpTo(num, d, p, i + 1) == Ok(withProcess + ObsTerm(num, d, p, i, s))
  {
    RecordTermsOf(num, d, p);
    ModelStep(RecordTerms(num, d, p), num, d, p, i, acc);
  }

  /** An error in the first n records of the model is the outcome of the whole evaluation. */
  lemma NllErrPersists(num: Ops, d: Data, p: Params, n: nat)
    requires WellShaped(d, p) && n <= |d.dt| && NllUpTo(num, d, p, n).Err?
    ensures Nll(num, d, p) == NllUpTo(num, d, p, n)
  {
    ErrPersists(RecordTerms(num, d, p), NumStates(p), NumClasses(p), d.dt, d.qual, n, |d.dt|);
  }

  /**
    Under the two range conditions the returned total is the sum of the
    process terms at the records i > 0 with dt(i) > 0 and of the masked
    observation terms at every record.
  */
  lemma NllDecomposition(num: Ops, d: Data, p: Params)
    requires WellShaped(d, p) && InRange(d, p)
    ensures Nll(num, d, p) == Ok(ProcessSum(RecordTerms(num, d, p), d.dt, |d.dt|) + ObsSum(RecordTerms(num, d, p), d.dt, |d.dt|))
  {
    var t := RecordTerms(num, d, p);
    InRangeIffPrefix(d, p);
    PrefixDecomposition(t, NumStates(p), NumClasses(p), d.dt, d.qual, |d.dt|);
  }

  /** A record with inclusion weight 0, or at or after numdata, contributes exactly 0. */
  lemma ObsTermMasked(num: Ops, d: Data, p: Params, i: nat, s: nat)
    requires WellShaped(d, p) && i < |d.dt| && s < NumStates(p) && d.qual[i] < NumClasses(p)
    requires d.incl[i] == 0.0 || !((i as real) < p.numdata)
    ensures ObsTerm(num, d, p, i, s) == 0.0
  {
  }

  /** The process term of a record reads, of the data, only the time gaps. */
  lemma ProcessTermsAgree(num: Ops, d: Data, e: Data, p: Params, k: nat)
    requires WellShaped(d, p) && WellShaped(e, p) && k < |d.dt| && e.dt == d.dt
    ensures ProcessAt(num, e, p, k) == ProcessAt(num, d, p, k)
  {
  }

  /** The observation term of a record reads, of the data, only its own fix, class and weight. */
  lemma ObsTermsAgree(num: Ops, d: Data, e: Data, p: Params, k: nat)
    requires WellShaped(d, p) && WellShaped(e, p) && k < |d.dt|
    requires e.dt == d.dt && e.qual[k] == d.qual[k] && e.incl[k] == d.incl[k]
    requires e.minDf == d.minDf && e.modelCode == d.modelCode
    requires e.lat[k] == d.lat[k] && e.lon[k] == d.lon[k]
    ensures ObsAt(num, e, p, k) == ObsAt(num, d, p, k)
  {
    var s := StateNum(d.dt, k);
    if s < NumStates(p) && d.qual[k] < NumClasses(p) {
      assert ObsResidual(e, p, k, s) == ObsResidual(d, p, k, s);
    }
  }

  /** At a masked record both observation terms vanish, whatever the fixes. */
  lemma MaskedTermsAgree(num: Ops, d: Data, e: Data, p: Params, k: nat)
    requires WellShaped(d, p) && WellShaped(e, p) && k < |d.dt|
    requires e.dt == d.dt && e.qual[k] == d.qual[k] && e.incl[k] == d.incl[k]
    requires d.incl[k] == 0.0 || !((k as real) < p.numdata)
    ensures ObsAt(num, e, p, k) == ObsAt(num, d, p, k)
  {
    var s := StateNum(d.dt, k);
    if s < NumStates(p) && d.qual[k] < NumClasses(p) {
      ObsTermMasked(num, d, p, k, s);
      ObsTermMasked(num, e, p, k, s);
    }
  }

  /**
    The fix at a masked record does not influence the outcome: replacing its
    latitude and longitude leaves the result unchanged.
  */
  lemma MaskedFixIrrelevant(num: Ops, d: Data, p: Params, i: nat, lat: real, lon: real)
    requires WellShaped(d, p) && i < |d.dt|
    requires d.incl[i] == 0.0 || !((i as real) < p.numdata)
    ensures WellShaped(d.(lat := d.lat[i := lat], lon := d.lon[i := lon]), p)
    ensures Nll(num, d.(lat := d.lat[i := lat], lon := d.lon[i := lon]), p) == Nll(num, d, p)
  {
    var e := d.(lat := d.lat[i := lat], lon := d.lon[i := lon]);
    var t, u := RecordTerms(num, e, p), RecordTerms(num, d, p);
    forall k | 0 <= k < |d.dt|
      ensures t.process[k] == u.process[k] && t.obs[k] == u.obs[k]
    {
      RecordTermsAt(num, e, p, k);
      RecordTermsAt(num, d, p, k);
      ProcessTermsAgree(num, d, e, p, k);
      if k == i {
        MaskedTermsAgree(num, d, e, p, k);
      } else {
        ObsTermsAgree(num, d, e, p, k);
      }
    }
    AccumulateCongruent(t, u, NumStates(p), NumClasses(p), d.dt, d.qual, |d.dt|);
  }
}
