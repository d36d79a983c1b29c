/** What the classifier's output means for a whole batch. A postcode is
    flagged exactly when some run of its applications goes strictly over
    the threshold. A run starts at one application of the postcode and
    contains no later application a day or more away from that first one.
    The proof follows one postcode through the fold. While the postcode is
    unflagged, its windows are exactly the runs still open, each holding
    the sum of the run so far. */
module FraudCheckMeaning {
  import opened FraudCheck
  import FraudCheckProperties

  /** The applications of postcode `p` in `apps`, in batch order. */
  function ApplicationsOf(apps: seq<Application>, p: string): seq<Application>
    decreases |apps|
  {
    if apps == [] then []
    else
      var last := apps[|apps| - 1];
      ApplicationsOf(apps[..|apps| - 1], p) + (if last.postcode == p then [last] else [])
  }

  /** `ApplicationsOf` keeps exactly the applications of `p`. */
  lemma {:induction false} ApplicationsOfMembers(apps: seq<Application>, p: string)
    ensures forall x :: x in ApplicationsOf(apps, p) <==> x in apps && x.postcode == p
    decreases |apps|
  {
    if apps != [] {
      var init := apps[..|apps| - 1];
      ApplicationsOfMembers(init, p);
      assert apps == init + [apps[|apps| - 1]];
    }
  }

  /** The sum of the amounts of `xs`. */
  function Sum(xs: seq<Application>): int
    decreases |xs|
  {
    if xs == [] then 0 else Sum(xs[..|xs| - 1]) + xs[|xs| - 1].amount
  }

  /** A postcode's total over the batch is the sum of its applications. */
  lemma {:induction false} TotalIsSum(apps: seq<Application>, p: string)
    ensures FraudCheckProperties.Total(apps, p) == Sum(ApplicationsOf(apps, p))
    decreases |apps|
  {
    if apps != [] {
      var init, last := apps[..|apps| - 1], apps[|apps| - 1];
      var xs := ApplicationsOf(init, p);
      TotalIsSum(init, p);
      if last.postcode == p {
        assert ApplicationsOf(apps, p) == xs + [last];
        assert (xs + [last])[..|xs|] == xs;
      } else {
        assert ApplicationsOf(apps, p) == xs;
      }
    }
  }

  /** No application among `xs[i + 1..n]` is a day or more away from
      `xs[i]`: the window anchored at `xs[i]` is still open after the first
      `n` applications. */
  predicate Survives(xs: seq<Application>, i: int, n: int)
    requires 0 <= i < n <= |xs|
  {
    forall m :: i < m < n ==> !Stale(xs[i].submittedAt, xs[m].submittedAt)
  }

  /** Applications `i..j` of `xs` lie within a day of application `i` and
      add up to strictly more than the threshold. */
  predicate OverRun(xs: seq<Application>, i: int, j: int, threshold: int)
    requires 0 <= i <= j < |xs|
  {
    Survives(xs, i, j + 1) && Sum(xs[i..j + 1]) > threshold
  }

  /** Some run that ends among the first `n` applications of `xs` goes
      over the threshold. */
  predicate OverRunBefore(xs: seq<Application>, n: int, threshold: int)
    requires 0 <= n <= |xs|
  {
    exists i, j :: 0 <= i <= j < n && OverRun(xs, i, j, threshold)
  }

  /** The window anchored at application `i` after the first `n`: the sum
      of the run from `i` up to application `n`, or none once the run is
      broken. */
  function Entry(xs: seq<Application>, i: int, n: int): seq<Window>
    requires 0 <= i < n <= |xs|
  {
    if Survives(xs, i, n) then [Window(xs[i].submittedAt, Sum(xs[i..n]))] else []
  }

  /** The windows left open after the first `n` applications of `xs`, for
      the anchors before `k`, in anchor order. */
  function Anchored(xs: seq<Application>, k: int, n: int): seq<Window>
    requires 0 <= k <= n <= |xs|
    decreases k
  {
    if k == 0 then [] else Anchored(xs, k - 1, n) + Entry(xs, k - 1, n)
  }

  /** Every window left open after the first `n` applications of `xs`. */
  function Open(xs: seq<Application>, n: int): seq<Window>
    requires 0 <= n <= |xs|
  {
    Anchored(xs, n, n)
  }

  /** The open windows are exactly the surviving runs with their sums. */
  lemma {:induction false} AnchoredMembers(xs: seq<Application>, k: int, n: int)
    requires 0 <= k <= n <= |xs|
    ensures forall w :: w in Anchored(xs, k, n) <==>
      exists i :: 0 <= i < k && Survives(xs, i, n) && w == Window(xs[i].submittedAt, Sum(xs[i..n]))
    decreases k
  {
    if k > 0 {
      AnchoredMembers(xs, k - 1, n);
    }
  }

  lemma SumSnoc(xs: seq<Application>, i: int, c: int)
    requires 0 <= i <= c < |xs|
    ensures Sum(xs[i..c + 1]) == Sum(xs[i..c]) + xs[c].amount
  {
    assert xs[i..c + 1][..c - i] == xs[i..c];
  }

  lemma {:induction false} LiveConcat(a: seq<Window>, b: seq<Window>, t: int)
    ensures Live(a + b, t) == Live(a, t) + Live(b, t)
    decreases |a|
  {
    if a == [] {
      assert a + b == b;
    } else {
      var ab := a + b;
      LiveConcat(a[1..], b, t);
      assert ab[0] == a[0] && ab[1..] == a[1..] + b;
      if !Stale(a[0].anchor, t) {
        assert Live(ab, t) == [a[0]] + (Live(a[1..], t) + Live(b, t));
        assert Live(a, t) == [a[0]] + Live(a[1..], t);
      }
    }
  }

  lemma AccumulateConcat(a: seq<Window>, b: seq<Window>, amount: int)
    ensures Accumulate(a + b, amount) == Accumulate(a, amount) + Accumulate(b, amount)
  {
  }

  /** Dropping stale windows and accumulating into the live ones can be
      done piecewise on a split list. */
  lemma ScanConcat(a: seq<Window>, b: seq<Window>, a': seq<Window>, b': seq<Window>, t: int, amount: int)
    requires a' == Accumulate(Live(a, t), amount) && b' == Accumulate(Live(b, t), amount)
    ensures Accumulate(Live(a + b, t), amount) == a' + b'
  {
    LiveConcat(a, b, t);
    AccumulateConcat(Live(a, t), Live(b, t), amount);
  }

  /** Application `c` moves the open windows of the first `c` applications
      to those of the first `c + 1`, except its own new window. Windows
      whose run it breaks are dropped, and the others receive its amount. */
  lemma {:induction false} AnchoredStep(xs: seq<Application>, k: int, c: int)
    requires 0 <= k <= c < |xs|
    ensures Anchored(xs, k, c + 1) == Accumulate(Live(Anchored(xs, k, c), xs[c].submittedAt), xs[c].amount)
    decreases k
  {
    if k > 0 {
      var i, t, a := k - 1, xs[c].submittedAt, xs[c].amount;
      var before, entry := Anchored(xs, i, c), Entry(xs, i, c);
      var before', entry' := Anchored(xs, i, c + 1), Entry(xs, i, c + 1);
      assert before' == Accumulate(Live(before, t), a) by {
        AnchoredStep(xs, i, c);
      }
      assert entry' == Accumulate(Live(entry, t), a) by {
        EntryStep(xs, i, c);
      }
      assert Anchored(xs, k, c) == before + entry;
      assert Anchored(xs, k, c + 1) == before' + entry';
      ScanConcat(before, entry, before', entry', t, a);
    }
  }

  /** Application `c` drops the window anchored at `i` when it is a day or
      more from `i`, and otherwise adds its amount to it. */
  lemma EntryStep(xs: seq<Application>, i: int, c: int)
    requires 0 <= i < c < |xs|
    ensures Entry(xs, i, c + 1) == Accumulate(Live(Entry(xs, i, c), xs[c].submittedAt), xs[c].amount)
  {
    SumSnoc(xs, i, c);
    SurvivesStep(xs, i, c);
  }

  /** A run stays open past application `c` exactly when it was open
      before it and `c` is less than a day from the run's first
      application. */
  lemma SurvivesStep(xs: seq<Application>, i: int, c: int)
    requires 0 <= i < c < |xs|
    ensures Survives(xs, i, c + 1) <==> Survives(xs, i, c) && !Stale(xs[i].submittedAt, xs[c].submittedAt)
  {
  }

  /** With the windows of the first `c` applications open, application `c`
      makes the scan breach exactly when a run that starts before it and
      ends at it goes over the threshold. */
  lemma ScanBreachIff(xs: seq<Application>, c: int, threshold: int)
    requires 0 <= c < |xs|
    ensures ScanWindows(Open(xs, c), xs[c].submittedAt, xs[c].amount, threshold).breached
      <==> exists i :: 0 <= i < c && OverRun(xs, i, c, threshold)
  {
    var ws := Open(xs, c);
    var t := xs[c].submittedAt;
    var a := xs[c].amount;
    ScanWindowsSpec(ws, t, a, threshold);
    AnchoredMembers(xs, c, c);
    var f := FirstBreach(ws, t, a, threshold);
    if f < |ws| {
      assert ws[f] in ws;
      var i :| 0 <= i < c && Survives(xs, i, c) && ws[f] == Window(xs[i].submittedAt, Sum(xs[i..c]));
      SumSnoc(xs, i, c);
      assert OverRun(xs, i, c, threshold);
    }
    if i :| 0 <= i < c && OverRun(xs, i, c, threshold) {
      SumSnoc(xs, i, c);
      var w := Window(xs[i].submittedAt, Sum(xs[i..c]));
      assert w in ws;
      var j :| 0 <= j < |ws| && ws[j] == w;
      assert Breaches(ws[j], t, a, threshold);
    }
  }

  lemma OverRunBeforeStep(xs: seq<Application>, c: int, threshold: int)
    requires 0 <= c < |xs|
    ensures OverRunBefore(xs, c + 1, threshold)
      <==> OverRunBefore(xs, c, threshold) || exists i :: 0 <= i <= c && OverRun(xs, i, c, threshold)
  {
  }

  /** One step of the fold keeps the meaning of the state for postcode `p`.
      `xs` lists the applications of `p`, of which the first `c` are
      processed. */
  lemma StepMeaning(s: State, x: Application, threshold: int, p: string, xs: seq<Application>, c: int)
    requires 0 <= c <= |xs|
    requires p in s.fraudulent <==> OverRunBefore(xs, c, threshold)
    requires p !in s.fraudulent ==> WindowsOf(s, p) == Open(xs, c)
    requires x.postcode == p ==> c < |xs| && xs[c] == x
    ensures var c' := if x.postcode == p then c + 1 else c;
      var s' := Step(s, x, threshold);
      && (p in s'.fraudulent <==> OverRunBefore(xs, c', threshold))
      && (p !in s'.fraudulent ==> WindowsOf(s', p) == Open(xs, c'))
  {
    var s' := Step(s, x, threshold);
    StepFlags(s, x, threshold);
    StepFrame(s, x, threshold);
    if x.postcode == p {
      OverRunBeforeStep(xs, c, threshold);
      if p !in s.fraudulent {
        SumSnoc(xs, c, c);
        assert OverRun(xs, c, c, threshold) <==> x.amount > threshold;
        ScanBreachIff(xs, c, threshold);
        if s'.fraudulent == s.fraudulent {
          StepNewWindow(s, x, threshold);
          AnchoredStep(xs, c, c);
        }
      }
    }
  }

  /** After any batch, postcode `p` is flagged exactly when some run among
      its processed applications went over the threshold; while it is not
      flagged, its windows are exactly the runs still open. */
  lemma {:induction false} RunMeaning(apps: seq<Application>, threshold: int, p: string, xs: seq<Application>)
    requires ApplicationsOf(apps, p) <= xs
    ensures var c := |ApplicationsOf(apps, p)|;
      var s := Run(apps, threshold);
      && (p in s.fraudulent <==> OverRunBefore(xs, c, threshold))
      && (p !in s.fraudulent ==> WindowsOf(s, p) == Open(xs, c))
    decreases |apps|
  {
    if apps != [] {
      var init := apps[..|apps| - 1];
      var x := apps[|apps| - 1];
      var c := |ApplicationsOf(init, p)|;
      assert ApplicationsOf(init, p) <= ApplicationsOf(apps, p);
      RunMeaning(init, threshold, p, xs);
      if x.postcode == p {
        assert ApplicationsOf(apps, p)[c] == x;
      }
      StepMeaning(Run(init, threshold), x, threshold, p, xs, c);
    }
  }

  /** A postcode is flagged exactly when, for some `i <= j`, its
      applications `i..j` all lie within a day of application `i` and add
      up to strictly more than the threshold. */
  lemma FlaggedIff(apps: seq<Application>, threshold: int, p: string)
    ensures var xs := ApplicationsOf(apps, p);
      p in FraudulentPostcodes(apps, threshold) <==>
        exists i, j :: 0 <= i <= j < |xs| && OverRun(xs, i, j, threshold)
  {
    RunMeaning(apps, threshold, p, ApplicationsOf(apps, p));
  }
}
