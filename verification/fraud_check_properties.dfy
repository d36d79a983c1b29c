/** Properties of the fraud classifier over a whole batch of applications. */
module FraudCheckProperties {
  import opened FraudCheck

  /** No postcode occurs twice. */
  predicate Distinct(ps: seq<string>) {
    forall i, j :: 0 <= i < j < |ps| ==> ps[i] != ps[j]
  }

  /** The postcodes flagged after the first `n` applications. */
  function Flagged(apps: seq<Application>, n: nat, threshold: int): seq<string>
    requires n <= |apps|
  {
    Run(apps[..n], threshold).fraudulent
  }

  /** For a postcode not yet flagged,
      no stored window holds more than the threshold. */
  predicate WindowsWithin(s: State, threshold: int) {
    forall p, w :: p in s.processed && p !in s.fraudulent && w in s.processed[p] ==> w.sum <= threshold
  }

  /** The sum of the amounts of every application of `p` in `apps`. */
  function Total(apps: seq<Application>, p: string): int
    decreases |apps|
  {
    if apps == [] then 0
    else Total(apps[..|apps| - 1], p) + (if apps[|apps| - 1].postcode == p then apps[|apps| - 1].amount else 0)
  }

  lemma LastStep(apps: seq<Application>, threshold: int)
    requires apps != []
    ensures Run(apps, threshold) == Step(Run(apps[..|apps| - 1], threshold), apps[|apps| - 1], threshold)
    ensures var out' := Run(apps[..|apps| - 1], threshold).fraudulent;
      var out := Run(apps, threshold).fraudulent;
      var app := apps[|apps| - 1];
      && (out == out' || out == out' + [app.postcode])
      && (app.postcode in out' ==> out == out')
      && (app.amount > threshold ==> app.postcode in out)
  {
  }

  /** The output only grows: what was flagged after any prefix is a prefix
      of the final output. */
  lemma {:induction false} AppendOnly(apps: seq<Application>, n: nat, threshold: int)
    requires n <= |apps|
    ensures Flagged(apps, n, threshold) <= FraudulentPostcodes(apps, threshold)
    decreases |apps|
  {
    assert apps[..|apps|] == apps;
    if n < |apps| {
      var init := apps[..|apps| - 1];
      assert init[..n] == apps[..n];
      AppendOnly(init, n, threshold);
      LastStep(apps, threshold);
    }
  }

  /** The output never lists a postcode twice. */
  lemma {:induction false} OutputDistinct(apps: seq<Application>, threshold: int)
    ensures Distinct(FraudulentPostcodes(apps, threshold))
    decreases |apps|
  {
    if apps != [] {
      OutputDistinct(apps[..|apps| - 1], threshold);
      LastStep(apps, threshold);
    }
  }

  /** Application `n` either flags nothing or appends its own postcode to
      what was flagged before it; with `AppendOnly` this makes the output
      the postcodes in the order they were detected. */
  lemma FlagStep(apps: seq<Application>, n: nat, threshold: int)
    requires n < |apps|
    ensures Flagged(apps, n + 1, threshold) == Flagged(apps, n, threshold)
         || Flagged(apps, n + 1, threshold) == Flagged(apps, n, threshold) + [apps[n].postcode]
  {
    assert apps[..n + 1][..n] == apps[..n];
    LastStep(apps[..n + 1], threshold);
  }

  /** Every flagged postcode is the postcode of some application. */
  lemma {:induction false} OutputFromInput(apps: seq<Application>, threshold: int)
    ensures forall p :: p in FraudulentPostcodes(apps, threshold) ==>
      exists k :: 0 <= k < |apps| && apps[k].postcode == p
    decreases |apps|
  {
    if apps != [] {
      var init := apps[..|apps| - 1];
      OutputFromInput(init, threshold);
      LastStep(apps, threshold);
      forall p | p in FraudulentPostcodes(apps, threshold)
        ensures exists k :: 0 <= k < |apps| && apps[k].postcode == p
      {
        if p in FraudulentPostcodes(init, threshold) {
          var k :| 0 <= k < |init| && init[k].postcode == p;
          assert apps[k] == init[k];
        } else {
          assert apps[|apps| - 1].postcode == p;
        }
      }
    }
  }

  /** An application strictly over the threshold on its own flags its
      postcode. */
  lemma OverThresholdFlagged(apps: seq<Application>, threshold: int)
    ensures forall k :: 0 <= k < |apps| && apps[k].amount > threshold ==>
      apps[k].postcode in FraudulentPostcodes(apps, threshold)
  {
    forall k | 0 <= k < |apps| && apps[k].amount > threshold
      ensures apps[k].postcode in FraudulentPostcodes(apps, threshold)
    {
      var prefix := apps[..k + 1];
      assert prefix[..k] == apps[..k];
      LastStep(prefix, threshold);
      AppendOnly(apps, k + 1, threshold);
    }
  }

  /** A batch of one application is flagged exactly when its amount is
      strictly over the threshold; an amount equal to it is not. */
  lemma SingleApplication(app: Application, threshold: int)
    ensures FraudulentPostcodes([app], threshold) == (if app.amount > threshold then [app.postcode] else [])
  {
    LastStep([app], threshold);
    assert [app][..0] == [];
  }

  /** A step that processes an application without flagging it found no
      live window the amount would take over the threshold, and the amount
      itself is within the threshold. */
  lemma NoBreachInStep(s: State, app: Application, threshold: int)
    requires app.postcode !in s.fraudulent
    requires Step(s, app, threshold).fraudulent == s.fraudulent
    ensures app.amount <= threshold
    ensures forall w :: w in Live(WindowsOf(s, app.postcode), app.submittedAt) ==> w.sum + app.amount <= threshold
  {
    var ws := WindowsOf(s, app.postcode);
    LiveMembers(ws, app.submittedAt);
    if ws != [] {
      ScanWindowsSpec(ws, app.submittedAt, app.amount, threshold);
      forall w | w in ws && !Stale(w.anchor, app.submittedAt)
        ensures w.sum + app.amount <= threshold
      {
        var m :| 0 <= m < |ws| && ws[m] == w;
        assert !Breaches(ws[m], app.submittedAt, app.amount, threshold);
      }
    }
  }

  /** Processing one application keeps every unflagged postcode's windows
      at or under the threshold. */
  lemma StepWindowsWithin(s: State, app: Application, threshold: int)
    requires WindowsWithin(s, threshold)
    ensures WindowsWithin(Step(s, app, threshold), threshold)
  {
    var s' := Step(s, app, threshold);
    var p := app.postcode;
    StepFlags(s, app, threshold);
    StepFrame(s, app, threshold);
    forall q, w | q in s'.processed && q !in s'.fraudulent && w in s'.processed[q]
      ensures w.sum <= threshold
    {
      assert w in WindowsOf(s', q);
      if q == p {
        StepNewWindow(s, app, threshold);
        NoBreachInStep(s, app, threshold);
        var live := Live(WindowsOf(s, p), app.submittedAt);
        var acc := Accumulate(live, app.amount);
        if w in acc {
          var i :| 0 <= i < |acc| && acc[i] == w;
          assert live[i] in live;
        }
      } else {
        assert w in WindowsOf(s, q);
      }
    }
  }

  /** The window invariant holds after any batch. */
  lemma {:induction false} RunWindowsWithin(apps: seq<Application>, threshold: int)
    ensures WindowsWithin(Run(apps, threshold), threshold)
    decreases |apps|
  {
    if apps != [] {
      RunWindowsWithin(apps[..|apps| - 1], threshold);
      LastStep(apps, threshold);
      StepWindowsWithin(Run(apps[..|apps| - 1], threshold), apps[|apps| - 1], threshold);
    }
  }

  /** A postcode whose applications are all non-negative and add up to at
      most the threshold is never flagged: no window can hold more than the
      postcode's total so far. */
  lemma {:induction false} WithinTotalNeverFlagged(apps: seq<Application>, threshold: int, p: string)
    requires forall k :: 0 <= k < |apps| && apps[k].postcode == p ==> apps[k].amount >= 0
    requires Total(apps, p) <= threshold
    ensures p !in FraudulentPostcodes(apps, threshold)
    ensures 0 <= Total(apps, p)
    ensures forall w :: w in WindowsOf(Run(apps, threshold), p) ==> w.sum <= Total(apps, p)
    decreases |apps|
  {
    if apps != [] {
      var n := |apps|;
      var init := apps[..n - 1];
      assert forall k :: 0 <= k < |init| ==> init[k] == apps[k];
      WithinTotalNeverFlagged(init, threshold, p);
      LastStep(apps, threshold);
      StepWithinTotal(Run(init, threshold), apps[n - 1], threshold, p, Total(init, p));
    }
  }

  /** One step of the argument above: windows bounded by the total so far
      stay bounded by the new total, and none of them breaches. */
  lemma StepWithinTotal(s: State, app: Application, threshold: int, p: string, before: int)
    requires p !in s.fraudulent && 0 <= before
    requires forall w :: w in WindowsOf(s, p) ==> w.sum <= before
    requires app.postcode == p ==> app.amount >= 0 && before + app.amount <= threshold
    ensures var after := before + (if app.postcode == p then app.amount else 0);
      && p !in Step(s, app, threshold).fraudulent
      && forall w :: w in WindowsOf(Step(s, app, threshold), p) ==> w.sum <= after
  {
    var s' := Step(s, app, threshold);
    StepFlags(s, app, threshold);
    StepFrame(s, app, threshold);
    if app.postcode == p {
      var ws := WindowsOf(s, p);
      if ws != [] {
        ScanWindowsSpec(ws, app.submittedAt, app.amount, threshold);
        forall j | 0 <= j < |ws|
          ensures !Breaches(ws[j], app.submittedAt, app.amount, threshold)
        {
          assert ws[j] in ws;
        }
      }
      assert s'.fraudulent == s.fraudulent;
      StepNewWindow(s, app, threshold);
      var live := Live(ws, app.submittedAt);
      var acc := Accumulate(live, app.amount);
      LiveMembers(ws, app.submittedAt);
      forall w | w in WindowsOf(s', p)
        ensures w.sum <= before + app.amount
      {
        if w in acc {
          var i :| 0 <= i < |acc| && acc[i] == w;
          assert live[i] in live;
        }
      }
    }
  }

  /** Two applications of one postcode, neither over the threshold alone,
      flag it exactly when they are less than a day apart and their sum is
      strictly over the threshold. */
  lemma TwoApplications(a1: Application, a2: Application, threshold: int)
    requires a1.postcode == a2.postcode
    requires a1.amount <= threshold && a2.amount <= threshold
    ensures FraudulentPostcodes([a1, a2], threshold)
      == if !Stale(a1.submittedAt, a2.submittedAt) && a1.amount + a2.amount > threshold
         then [a1.postcode] else []
  {
    assert [a1, a2][..1] == [a1] && [a1][..0] == [];
    LastStep([a1, a2], threshold);
    LastStep([a1], threshold);
    var ws := [Window(a1.submittedAt, a1.amount)];
    var s1 := Run([a1], threshold);
    assert s1 == State([], map[a1.postcode := ws]);
    assert WindowsOf(s1, a2.postcode) == ws;
    assert ws[1..] == [];
    var w := Window(a1.submittedAt, a1.amount + a2.amount);
    assert ScanWindows(ws, a2.submittedAt, a2.amount, threshold)
      == if Stale(a1.submittedAt, a2.submittedAt) then Scan([], false)
         else Scan([w], w.sum > threshold);
  }
}
