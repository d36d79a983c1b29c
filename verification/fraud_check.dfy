/** A model of the fraud classifier behind the fraud-check endpoint.

    The classifier makes one pass over already-parsed loan applications
    (postcode, submission time, amount) against a threshold. For every
    postcode it keeps a list of open windows, each anchored at the time of
    an earlier application and holding a running sum; it returns the
    postcodes it flags as fraudulent, in the order it first flagged them.

    Times are whole seconds and amounts are whole hundredths (cents), so no
    floating point is involved.
 */
module FraudCheck {

  /** Seconds in one day: the length of a window. */
  const Day: int := 86400

  /** One parsed application string. */
  datatype Application = Application(postcode: string, submittedAt: int, amount: int)

  /** One open window: the anchor time of the application that opened it and
      everything accumulated into it since. */
  datatype Window = Window(anchor: int, sum: int)

  /** The outcome of scanning one postcode's windows for a new application:
      the window list left behind, and whether some window breached. */
  datatype Scan = Scan(kept: seq<Window>, breached: bool)

  /** The classifier's state between applications: the postcodes flagged so
      far, in detection order, and the windows of every postcode seen. */
  datatype State = State(fraudulent: seq<string>, processed: map<string, seq<Window>>)

  const Initial: State := State([], map[])

  function Abs(x: int): (r: nat)
    ensures r == x || r == -x
  {
    if x < 0 then -x else x
  }

  /** Whole days elapsed between two instants, in either order, as the
      `%a` format of a date-time difference gives them. */
  function ElapsedDays(a: int, b: int): (d: nat)
    ensures d * Day <= Abs(a - b) < (d + 1) * Day
  {
    Abs(a - b) / Day
  }

  /** A window is stale for an application when at least one whole day has
      elapsed between the window's anchor and the application. */
  predicate Stale(anchor: int, t: int) {
    Abs(t - anchor) >= Day
  }

  /** Staleness is exactly a non-zero count of whole elapsed days, the test
      the endpoint applies to each window. */
  lemma StaleIffWholeDay(anchor: int, t: int)
    ensures Stale(anchor, t) <==> ElapsedDays(t, anchor) != 0
  {
  }

  /** The windows of `ws` that are still live at time `t`, in order. */
  function Live(ws: seq<Window>, t: int): (r: seq<Window>)
    ensures |r| <= |ws|
  {
    if ws == [] then []
    else if Stale(ws[0].anchor, t) then Live(ws[1..], t)
    else [ws[0]] + Live(ws[1..], t)
  }

  /** The live windows are exactly the windows that are not stale. */
  lemma {:induction false} LiveMembers(ws: seq<Window>, t: int)
    ensures forall w :: w in Live(ws, t) <==> w in ws && !Stale(w.anchor, t)
    decreases |ws|
  {
    if ws != [] {
      LiveMembers(ws[1..], t);
      assert ws == [ws[0]] + ws[1..];
    }
  }

  /** Every window of `ws` with `amount` added to its sum. */
  function Accumulate(ws: seq<Window>, amount: int): (r: seq<Window>)
    ensures |r| == |ws|
    ensures forall i :: 0 <= i < |ws| ==> r[i] == Window(ws[i].anchor, ws[i].sum + amount)
    decreases |ws|
  {
    if ws == [] then []
    else [Window(ws[0].anchor, ws[0].sum + amount)] + Accumulate(ws[1..], amount)
  }

  /** Window `w` is live at `t` and adding `amount` takes it strictly over
      the threshold. */
  predicate Breaches(w: Window, t: int, amount: int, threshold: int) {
    !Stale(w.anchor, t) && w.sum + amount > threshold
  }

  /** The position of the first window of `ws`, in scan order, that
      breaches; `|ws|` when none does. */
  function FirstBreach(ws: seq<Window>, t: int, amount: int, threshold: int): (i: nat)
    ensures i <= |ws|
    ensures forall j :: 0 <= j < i ==> !Breaches(ws[j], t, amount, threshold)
    ensures i < |ws| ==> Breaches(ws[i], t, amount, threshold)
    decreases |ws|
  {
    if ws == [] then 0
    else if Breaches(ws[0], t, amount, threshold) then 0
    else
      assert forall j :: 1 <= j < |ws| ==> ws[j] == ws[1..][j - 1];
      1 + FirstBreach(ws[1..], t, amount, threshold)
  }

  /** The window list left behind when window `i` is the one that breaches:
      the live windows before it with the amount added, window `i` with the
      amount added, and every window after it untouched. */
  function BreachedWindows(ws: seq<Window>, i: int, t: int, amount: int): seq<Window>
    requires 0 <= i < |ws|
  {
    Accumulate(Live(ws[..i], t), amount) + [Window(ws[i].anchor, ws[i].sum + amount)] + ws[i + 1..]
  }

  /** The inner scan over one postcode's windows. The scan walks a snapshot
      of the list: a stale window is dropped and nothing is added to it; a
      live one receives the amount; the first live one that then exceeds the
      threshold ends the scan, leaving the windows after it as they were. */
  function ScanWindows(ws: seq<Window>, t: int, amount: int, threshold: int): Scan
    decreases |ws|
  {
    if ws == [] then Scan([], false)
    else
      var w := Window(ws[0].anchor, ws[0].sum + amount);
      if Stale(ws[0].anchor, t) then ScanWindows(ws[1..], t, amount, threshold)
      else if w.sum > threshold then Scan([w] + ws[1..], true)
      else
        var rest := ScanWindows(ws[1..], t, amount, threshold);
        Scan([w] + rest.kept, rest.breached)
  }

  /** What the scan leaves behind: it breaches exactly when some live
      window would exceed the threshold; without a breach every live window
      receives the amount and every stale one is gone; with one, the scan
      stops at the first breaching window. */
  lemma {:induction false} ScanWindowsSpec(ws: seq<Window>, t: int, amount: int, threshold: int)
    ensures var r := ScanWindows(ws, t, amount, threshold);
      var i := FirstBreach(ws, t, amount, threshold);
      && (r.breached <==> i < |ws|)
      && (!r.breached ==> r.kept == Accumulate(Live(ws, t), amount))
      && (r.breached ==> r.kept == BreachedWindows(ws, i, t, amount))
    decreases |ws|
  {
    if ws != [] {
      if Breaches(ws[0], t, amount, threshold) {
        assert ws[..0] == [];
      } else {
        ScanWindowsSpec(ws[1..], t, amount, threshold);
        var rest := ScanWindows(ws[1..], t, amount, threshold);
        if rest.breached {
          BreachedShift(ws, FirstBreach(ws[1..], t, amount, threshold), t, amount, threshold);
        } else if !Stale(ws[0].anchor, t) {
          AccumulateCons(ws[0], Live(ws[1..], t), amount);
        }
      }
    }
  }

  /** Breaching at window `i + 1` of `ws` is breaching at window `i` of its
      tail, with the first window dropped or accumulated into. */
  lemma BreachedShift(ws: seq<Window>, i: int, t: int, amount: int, threshold: int)
    requires ws != [] && 0 <= i < |ws| - 1
    ensures Stale(ws[0].anchor, t) ==>
      BreachedWindows(ws, i + 1, t, amount) == BreachedWindows(ws[1..], i, t, amount)
    ensures !Stale(ws[0].anchor, t) ==>
      BreachedWindows(ws, i + 1, t, amount)
        == [Window(ws[0].anchor, ws[0].sum + amount)] + BreachedWindows(ws[1..], i, t, amount)
  {
    assert ws[..i + 1][1..] == ws[1..][..i];
    assert ws[i + 2..] == ws[1..][i + 1..];
    if !Stale(ws[0].anchor, t) {
      AccumulateCons(ws[0], Live(ws[1..][..i], t), amount);
    }
  }

  lemma AccumulateCons(w: Window, ws: seq<Window>, amount: int)
    ensures Accumulate([w] + ws, amount) == [Window(w.anchor, w.sum + amount)] + Accumulate(ws, amount)
  {
  }

  /** The windows stored for `p`; none when `p` has not been seen. */
  function WindowsOf(s: State, p: string): seq<Window> {
    if p in s.processed then s.processed[p] else []
  }

  /** Processes one application: the body of the outer loop. */
  function Step(s: State, app: Application, threshold: int): State {
    var p := app.postcode;
    if p in s.fraudulent then s
    else if app.amount > threshold then State(s.fraudulent + [p], s.processed)
    else
      var ws := WindowsOf(s, p);
      if ws == [] then
        State(s.fraudulent, s.processed[p := [Window(app.submittedAt, app.amount)]])
      else
        var scan := ScanWindows(ws, app.submittedAt, app.amount, threshold);
        if scan.breached then State(s.fraudulent + [p], s.processed[p := scan.kept])
        else State(s.fraudulent, s.processed[p := scan.kept + [Window(app.submittedAt, app.amount)]])
  }

  /** A step appends at most its own postcode, never one already flagged,
      and always one whose amount alone is strictly over the threshold. */
  lemma StepFlags(s: State, app: Application, threshold: int)
    ensures var s' := Step(s, app, threshold);
      && (s'.fraudulent == s.fraudulent || s'.fraudulent == s.fraudulent + [app.postcode])
      && (app.postcode in s.fraudulent ==> s'.fraudulent == s.fraudulent)
      && (app.amount > threshold ==> app.postcode in s'.fraudulent)
  {
  }

  /** A step changes no other postcode's windows. */
  lemma StepFrame(s: State, app: Application, threshold: int)
    ensures forall q :: q != app.postcode ==> WindowsOf(Step(s, app, threshold), q) == WindowsOf(s, q)
  {
  }

  /** A step that processes an application and flags nothing leaves its
      postcode's live windows with the amount added, the stale ones gone,
      and one new window for the application itself at the end. */
  lemma StepNewWindow(s: State, app: Application, threshold: int)
    requires app.postcode !in s.fraudulent
    requires Step(s, app, threshold).fraudulent == s.fraudulent
    ensures WindowsOf(Step(s, app, threshold), app.postcode)
      == Accumulate(Live(WindowsOf(s, app.postcode), app.submittedAt), app.amount)
         + [Window(app.submittedAt, app.amount)]
  {
    var ws := WindowsOf(s, app.postcode);
    if ws != [] {
      ScanWindowsSpec(ws, app.submittedAt, app.amount, threshold);
    }
  }

  /** The state after processing every application of `apps` in order. */
  function Run(apps: seq<Application>, threshold: int): State
    decreases |apps|
  {
    if apps == [] then Initial
    else Step(Run(apps[..|apps| - 1], threshold), apps[|apps| - 1], threshold)
  }

  /** The postcodes the endpoint returns for a parsed request. */
  function FraudulentPostcodes(apps: seq<Application>, threshold: int): seq<string> {
    Run(apps, threshold).fraudulent
  }
}
