/** Concrete batches: the endpoint's regression batch and the boundary
    cases around the threshold and the window length. Times are seconds
    since 2019-01-01T00:00:00 and amounts are in hundredths. */
module FraudCheckScenarios {
  import opened FraudCheck
  import opened FraudCheckProperties

  const P7a81: string := "7a81b904f63762f00d53c4d79825420efd00f5f9"
  const P9976: string := "9976bdc9565c7a2e34d432a2e5778bf8fa7eb735"
  const Pd958: string := "d958d5f1b2976086d991b0cfe4e7b23a5b2fa408"
  const Pefa0: string := "efa0bee4e432d97b72d17462c71018063ecb9f0e"
  const P5fce: string := "5fce533699af002a03d0eda90c097b188f345eed"

  /** Seconds since 2019-01-01T00:00:00 of a time in January or February
      2019. */
  function At(month: int, day: int, hour: int, minute: int, second: int): int
    requires month == 1 || month == 2
  {
    (((if month == 1 then 0 else 31) + day - 1) * 24 + hour) * 3600 + minute * 60 + second
  }

  /** The regression batch, in the order the endpoint receives it. */
  const Batch: seq<Application> := [
    Application(P7a81, At(1, 29, 13, 12, 11), 10000),
    Application(P9976, At(1, 29, 15, 12, 11), 6000),
    Application(P9976, At(1, 29, 16, 12, 11), 6000),
    Application(P9976, At(1, 29, 16, 30, 5), 6000),
    Application(P9976, At(1, 29, 17, 12, 11), 6000),
    Application(Pd958, At(1, 29, 18, 4, 20), 7540),
    Application(P7a81, At(1, 29, 18, 12, 11), 4000),
    Application(P7a81, At(1, 30, 13, 12, 10), 1000),
    Application(Pd958, At(1, 30, 13, 12, 11), 7540),
    Application(P7a81, At(1, 31, 18, 12, 11), 1000),
    Application(Pefa0, At(2, 1, 23, 12, 11), 6000),
    Application(Pefa0, At(2, 2, 14, 50, 11), 6000),
    Application(Pefa0, At(2, 3, 18, 12, 11), 6000),
    Application(Pefa0, At(2, 4, 20, 9, 40), 15000),
    Application(P5fce, At(2, 6, 12, 30, 40), 20000)
  ]

  lemma DistinctPostcodes()
    ensures P7a81 != P9976 && P7a81 != Pd958 && P7a81 != Pefa0 && P7a81 != P5fce
    ensures P9976 != Pd958 && P9976 != Pefa0 && P9976 != P5fce
    ensures Pd958 != Pefa0 && Pd958 != P5fce && Pefa0 != P5fce
  {
  }

  /** The state of the classifier after each application of the regression
      batch, each written as an update of the one before. */
  const S0: State := Initial
  const S1: State := State([], S0.processed[P7a81 := [Window(At(1, 29, 13, 12, 11), 10000)]])
  const S2: State := State([], S1.processed[P9976 := [Window(At(1, 29, 15, 12, 11), 6000)]])
  const S3: State := State([], S2.processed[P9976 := [Window(At(1, 29, 15, 12, 11), 12000), Window(At(1, 29, 16, 12, 11), 6000)]])
  const S4: State := State([P9976], S3.processed[P9976 := [Window(At(1, 29, 15, 12, 11), 18000), Window(At(1, 29, 16, 12, 11), 6000)]])
  const S5: State := State([P9976], S4.processed)
  const S6: State := State([P9976], S5.processed[Pd958 := [Window(At(1, 29, 18, 4, 20), 7540)]])
  const S7: State := State([P9976], S6.processed[P7a81 := [Window(At(1, 29, 13, 12, 11), 14000), Window(At(1, 29, 18, 12, 11), 4000)]])
  const S8: State := State([P9976], S7.processed[P7a81 := [Window(At(1, 29, 13, 12, 11), 15000), Window(At(1, 29, 18, 12, 11), 5000), Window(At(1, 30, 13, 12, 10), 1000)]])
  const S9: State := State([P9976, Pd958], S8.processed[Pd958 := [Window(At(1, 29, 18, 4, 20), 15080)]])
  const S10: State := State([P9976, Pd958], S9.processed[P7a81 := [Window(At(1, 31, 18, 12, 11), 1000)]])
  const S11: State := State([P9976, Pd958], S10.processed[Pefa0 := [Window(At(2, 1, 23, 12, 11), 6000)]])
  const S12: State := State([P9976, Pd958], S11.processed[Pefa0 := [Window(At(2, 1, 23, 12, 11), 12000), Window(At(2, 2, 14, 50, 11), 6000)]])
  const S13: State := State([P9976, Pd958], S12.processed[Pefa0 := [Window(At(2, 3, 18, 12, 11), 6000)]])
  const S14: State := State([P9976, Pd958], S13.processed[Pefa0 := [Window(At(2, 4, 20, 9, 40), 15000)]])
  const S15: State := State([P9976, Pd958, P5fce], S14.processed)

  /** Application `k` of the batch takes state `S(k-1)` to `Sk`: the scan
      result is stated where the application meets earlier windows. */
  lemma RegressionStep1()
    ensures Step(S0, Batch[0], 15075) == S1
  {
  }

  lemma RegressionStep2()
    ensures Step(S1, Batch[1], 15075) == S2
  {
  }

  lemma RegressionStep3()
    ensures Step(S2, Batch[2], 15075) == S3
  {
    DistinctPostcodes();
    assert Batch[2] == Application(P9976, At(1, 29, 16, 12, 11), 6000);
    assert WindowsOf(S2, P9976) == [Window(At(1, 29, 15, 12, 11), 6000)];
    assert ScanWindows([Window(At(1, 29, 15, 12, 11), 6000)], At(1, 29, 16, 12, 11), 6000, 15075) == Scan([Window(At(1, 29, 15, 12, 11), 12000)], false);
    assert [Window(At(1, 29, 15, 12, 11), 12000)] + [Window(At(1, 29, 16, 12, 11), 6000)] == [Window(At(1, 29, 15, 12, 11), 12000), Window(At(1, 29, 16, 12, 11), 6000)];
  }

  lemma RegressionStep4()
    ensures Step(S3, Batch[3], 15075) == S4
  {
    DistinctPostcodes();
    assert Batch[3] == Application(P9976, At(1, 29, 16, 30, 5), 6000);
    assert WindowsOf(S3, P9976) == [Window(At(1, 29, 15, 12, 11), 12000), Window(At(1, 29, 16, 12, 11), 6000)];
    assert ScanWindows([Window(At(1, 29, 15, 12, 11), 12000), Window(At(1, 29, 16, 12, 11), 6000)], At(1, 29, 16, 30, 5), 6000, 15075) == Scan([Window(At(1, 29, 15, 12, 11), 18000), Window(At(1, 29, 16, 12, 11), 6000)], true);
  }

  lemma RegressionStep5()
    ensures Step(S4, Batch[4], 15075) == S5
  {
  }

  lemma RegressionStep6()
    ensures Step(S5, Batch[5], 15075) == S6
  {
  }

  lemma RegressionStep7()
    ensures Step(S6, Batch[6], 15075) == S7
  {
    DistinctPostcodes();
    assert Batch[6] == Application(P7a81, At(1, 29, 18, 12, 11), 4000);
    assert WindowsOf(S6, P7a81) == [Window(At(1, 29, 13, 12, 11), 10000)];
    assert ScanWindows([Window(At(1, 29, 13, 12, 11), 10000)], At(1, 29, 18, 12, 11), 4000, 15075) == Scan([Window(At(1, 29, 13, 12, 11), 14000)], false);
    assert [Window(At(1, 29, 13, 12, 11), 14000)] + [Window(At(1, 29, 18, 12, 11), 4000)] == [Window(At(1, 29, 13, 12, 11), 14000), Window(At(1, 29, 18, 12, 11), 4000)];
  }

  lemma RegressionStep8()
    ensures Step(S7, Batch[7], 15075) == S8
  {
    DistinctPostcodes();
    assert Batch[7] == Application(P7a81, At(1, 30, 13, 12, 10), 1000);
    assert WindowsOf(S7, P7a81) == [Window(At(1, 29, 13, 12, 11), 14000), Window(At(1, 29, 18, 12, 11), 4000)];
    assert ScanWindows([Window(At(1, 29, 13, 12, 11), 14000), Window(At(1, 29, 18, 12, 11), 4000)], At(1, 30, 13, 12, 10), 1000, 15075) == Scan([Window(At(1, 29, 13, 12, 11), 15000), Window(At(1, 29, 18, 12, 11), 5000)], false);
    assert [Window(At(1, 29, 13, 12, 11), 15000), Window(At(1, 29, 18, 12, 11), 5000)] + [Window(At(1, 30, 13, 12, 10), 1000)] == [Window(At(1, 29, 13, 12, 11), 15000), Window(At(1, 29, 18, 12, 11), 5000), Window(At(1, 30, 13, 12, 10), 1000)];
  }

  lemma RegressionStep9()
    ensures Step(S8, Batch[8], 15075) == S9
  {
    DistinctPostcodes();
    assert Batch[8] == Application(Pd958, At(1, 30, 13, 12, 11), 7540);
    assert WindowsOf(S8, Pd958) == [Window(At(1, 29, 18, 4, 20), 7540)];
    assert ScanWindows([Window(At(1, 29, 18, 4, 20), 7540)], At(1, 30, 13, 12, 11), 7540, 15075) == Scan([Window(At(1, 29, 18, 4, 20), 15080)], true);
  }

  lemma RegressionStep10()
    ensures Step(S9, Batch[9], 15075) == S10
  {
    DistinctPostcodes();
    assert Batch[9] == Application(P7a81, At(1, 31, 18, 12, 11), 1000);
    assert WindowsOf(S9, P7a81) == [Window(At(1, 29, 13, 12, 11), 15000), Window(At(1, 29, 18, 12, 11), 5000), Window(At(1, 30, 13, 12, 10), 1000)];
    assert ScanWindows([Window(At(1, 29, 13, 12, 11), 15000), Window(At(1, 29, 18, 12, 11), 5000), Window(At(1, 30, 13, 12, 10), 1000)], At(1, 31, 18, 12, 11), 1000, 15075) == Scan([], false);
    assert [] + [Window(At(1, 31, 18, 12, 11), 1000)] == [Window(At(1, 31, 18, 12, 11), 1000)];
  }

  lemma RegressionStep11()
    ensures Step(S10, Batch[10], 15075) == S11
  {
  }

  lemma RegressionStep12()
    ensures Step(S11, Batch[11], 15075) == S12
  {
    DistinctPostcodes();
    assert Batch[11] == Application(Pefa0, At(2, 2, 14, 50, 11), 6000);
    assert WindowsOf(S11, Pefa0) == [Window(At(2, 1, 23, 12, 11), 6000)];
    assert ScanWindows([Window(At(2, 1, 23, 12, 11), 6000)], At(2, 2, 14, 50, 11), 6000, 15075) == Scan([Window(At(2, 1, 23, 12, 11), 12000)], false);
    assert [Window(At(2, 1, 23, 12, 11), 12000)] + [Window(At(2, 2, 14, 50, 11), 6000)] == [Window(At(2, 1, 23, 12, 11), 12000), Window(At(2, 2, 14, 50, 11), 6000)];
  }

  lemma RegressionStep13()
    ensures Step(S12, Batch[12], 15075) == S13
  {
    DistinctPostcodes();
    assert Batch[12] == Application(Pefa0, At(2, 3, 18, 12, 11), 6000);
    assert WindowsOf(S12, Pefa0) == [Window(At(2, 1, 23, 12, 11), 12000), Window(At(2, 2, 14, 50, 11), 6000)];
    assert ScanWindows([Window(At(2, 1, 23, 12, 11), 12000), Window(At(2, 2, 14, 50, 11), 6000)], At(2, 3, 18, 12, 11), 6000, 15075) == Scan([], false);
    assert [] + [Window(At(2, 3, 18, 12, 11), 6000)] == [Window(At(2, 3, 18, 12, 11), 6000)];
  }

  lemma RegressionStep14()
    ensures Step(S13, Batch[13], 15075) == S14
  {
    DistinctPostcodes();
    assert Batch[13] == Application(Pefa0, At(2, 4, 20, 9, 40), 15000);
    assert WindowsOf(S13, Pefa0) == [Window(At(2, 3, 18, 12, 11), 6000)];
    assert ScanWindows([Window(At(2, 3, 18, 12, 11), 6000)], At(2, 4, 20, 9, 40), 15000, 15075) == Scan([], false);
    assert [] + [Window(At(2, 4, 20, 9, 40), 15000)] == [Window(At(2, 4, 20, 9, 40), 15000)];
  }

  lemma RegressionStep15()
    ensures Step(S14, Batch[14], 15075) == S15
  {
  }

  /** The expected state after the first `k` applications of the batch. */
  function Expected(k: nat): State
    requires k <= 15
  {
    match k
    case 0 => S0
    case 1 => S1
    case 2 => S2
    case 3 => S3
    case 4 => S4
    case 5 => S5
    case 6 => S6
    case 7 => S7
    case 8 => S8
    case 9 => S9
    case 10 => S10
    case 11 => S11
    case 12 => S12
    case 13 => S13
    case 14 => S14
    case _ => S15
  }

  lemma RegressionStep(k: nat)
    requires k < 15
    ensures Step(Expected(k), Batch[k], 15075) == Expected(k + 1)
  {
    if k == 0 { RegressionStep1(); }
    else if k == 1 { RegressionStep2(); }
    else if k == 2 { RegressionStep3(); }
    else if k == 3 { RegressionStep4(); }
    else if k == 4 { RegressionStep5(); }
    else if k == 5 { RegressionStep6(); }
    else if k == 6 { RegressionStep7(); }
    else if k == 7 { RegressionStep8(); }
    else if k == 8 { RegressionStep9(); }
    else if k == 9 { RegressionStep10(); }
    else if k == 10 { RegressionStep11(); }
    else if k == 11 { RegressionStep12(); }
    else if k == 12 { RegressionStep13(); }
    else if k == 13 { RegressionStep14(); }
    else { RegressionStep15(); }
  }

  /** The regression batch at a threshold of 150.75 flags three postcodes,
      in the order they were detected: 9976... by its third application
      within a day, d958... by two applications just under a day apart, and
      5fce... by one application over the threshold on its own. */
  lemma Regression()
    ensures FraudulentPostcodes(Batch, 15075) == [P9976, Pd958, P5fce]
  {
    assert Batch[..0] == [];
    for k := 0 to 15
      invariant Run(Batch[..k], 15075) == Expected(k)
    {
      assert Batch[..k + 1][..k] == Batch[..k];
      RegressionStep(k);
    }
    assert Batch[..15] == Batch;
  }

  /** One application of exactly the threshold is not flagged; one a cent
      over a lower threshold is. */
  lemma ThresholdBoundary()
    ensures FraudulentPostcodes([Application(P7a81, At(1, 29, 13, 12, 11), 10000)], 10000) == []
    ensures FraudulentPostcodes([Application(P7a81, At(1, 29, 13, 12, 11), 10000)], 9900) == [P7a81]
  {
    SingleApplication(Application(P7a81, At(1, 29, 13, 12, 11), 10000), 10000);
    SingleApplication(Application(P7a81, At(1, 29, 13, 12, 11), 10000), 9900);
  }

  /** A window lasts a day of elapsed time, not a calendar date: two
      applications two hours apart across midnight are summed, two exactly a
      day apart are not, and two on days further apart are not either. */
  lemma WindowBoundary()
    ensures FraudulentPostcodes([Application(P9976, At(1, 29, 23, 0, 0), 8000),
                                 Application(P9976, At(1, 30, 1, 0, 0), 8000)], 15075) == [P9976]
    ensures FraudulentPostcodes([Application(P9976, At(1, 29, 23, 0, 0), 8000),
                                 Application(P9976, At(1, 30, 23, 0, 0), 8000)], 15075) == []
    ensures FraudulentPostcodes([Application(P9976, At(1, 29, 13, 12, 11), 10000),
                                 Application(P9976, At(2, 2, 13, 12, 11), 10000)], 15075) == []
  {
    TwoApplications(Application(P9976, At(1, 29, 23, 0, 0), 8000),
                    Application(P9976, At(1, 30, 1, 0, 0), 8000), 15075);
    TwoApplications(Application(P9976, At(1, 29, 23, 0, 0), 8000),
                    Application(P9976, At(1, 30, 23, 0, 0), 8000), 15075);
    TwoApplications(Application(P9976, At(1, 29, 13, 12, 11), 10000),
                    Application(P9976, At(2, 2, 13, 12, 11), 10000), 15075);
  }

  /** Windows follow arrival order, not time order. An application a day
      or more after a window's anchor closes that window even when a later
      one arrives with an earlier time. Here the first and third
      applications are 50 seconds apart and add up to 160.00, but the
      second one has already dropped the first window. The same three
      applications in time order are flagged. */
  lemma ArrivalOrder()
    ensures FraudulentPostcodes([Application(P9976, At(1, 1, 0, 0, 0), 8000),
                                 Application(P9976, At(1, 2, 3, 46, 40), 1000),
                                 Application(P9976, At(1, 1, 0, 0, 50), 8000)], 15075) == []
    ensures FraudulentPostcodes([Application(P9976, At(1, 1, 0, 0, 0), 8000),
                                 Application(P9976, At(1, 1, 0, 0, 50), 8000),
                                 Application(P9976, At(1, 2, 3, 46, 40), 1000)], 15075) == [P9976]
  {
    var a1 := Application(P9976, At(1, 1, 0, 0, 0), 8000);
    var a2 := Application(P9976, At(1, 2, 3, 46, 40), 1000);
    var a3 := Application(P9976, At(1, 1, 0, 0, 50), 8000);
    assert [a1, a2, a3][..2] == [a1, a2] && [a1, a2][..1] == [a1] && [a1][..0] == [];
    assert Run([a1], 15075) == State([], map[P9976 := [Window(a1.submittedAt, 8000)]]);
    assert ScanWindows([Window(a1.submittedAt, 8000)], a2.submittedAt, 1000, 15075) == Scan([], false);
    var w2: seq<Window> := [Window(a2.submittedAt, 1000)];
    assert [] + w2 == w2;
    assert map[P9976 := [Window(a1.submittedAt, 8000)]][P9976 := w2] == map[P9976 := w2];
    assert Run([a1, a2], 15075) == State([], map[P9976 := w2]);
    assert ScanWindows([Window(a2.submittedAt, 1000)], a3.submittedAt, 8000, 15075) == Scan([], false);
    assert [a1, a3, a2][..2] == [a1, a3];
    TwoApplications(a1, a3, 15075);
    LastStep([a1, a3, a2], 15075);
  }
}
