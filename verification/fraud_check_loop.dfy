/** The classifier written as the two nested loops of the endpoint: an outer
    loop over the applications and an inner loop over a snapshot of one
    postcode's windows that drops stale windows, accumulates into live ones,
    and leaves both loops on the first breach. Each loop is proved to compute
    what the functional model computes. */
module FraudCheckLoop {
  import opened FraudCheck

  /** The scan of `rest` preceded by windows already kept. */
  function After(kept: seq<Window>, rest: Scan): Scan {
    Scan(kept + rest.kept, rest.breached)
  }

  /** One step of the scan at position `i`, seen from the windows already
      kept: a stale window is skipped, a breaching one ends the scan, any
      other is kept with the amount added. */
  lemma ScanAt(ws: seq<Window>, i: nat, kept: seq<Window>, t: int, amount: int, threshold: int)
    requires i < |ws|
    ensures var w := Window(ws[i].anchor, ws[i].sum + amount);
      var rest := ScanWindows(ws[i + 1..], t, amount, threshold);
      After(kept, ScanWindows(ws[i..], t, amount, threshold))
        == if Stale(ws[i].anchor, t) then After(kept, rest)
           else if w.sum > threshold then Scan(kept + [w] + ws[i + 1..], true)
           else After(kept + [w], rest)
  {
  }

  /** The inner loop over a snapshot of one postcode's windows. */
  method ScanLoop(ws: seq<Window>, t: int, amount: int, threshold: int)
    returns (kept: seq<Window>, breached: bool)
    ensures Scan(kept, breached) == ScanWindows(ws, t, amount, threshold)
  {
    kept := [];
    breached := false;
    var i := 0;
    while i < |ws|
      invariant 0 <= i <= |ws|
      invariant ScanWindows(ws, t, amount, threshold) == After(kept, ScanWindows(ws[i..], t, amount, threshold))
    {
      ScanAt(ws, i, kept, t, amount, threshold);
      var w := ws[i];
      if Stale(w.anchor, t) {
        // the window is dropped and nothing is added to it
        i := i + 1;
        continue;
      }
      var updated := Window(w.anchor, w.sum + amount);
      if updated.sum > threshold {
        // the windows after the breaching one are left as they were
        kept := kept + [updated] + ws[i + 1..];
        breached := true;
        return;
      }
      kept := kept + [updated];
      i := i + 1;
    }
    assert ws[i..] == [];
  }

  /** The outer loop over the applications, returning the flagged postcodes
      in the order they were detected. */
  method FraudCheckLoop(apps: seq<Application>, threshold: int) returns (fraudulent: seq<string>)
    ensures fraudulent == FraudulentPostcodes(apps, threshold)
  {
    fraudulent := [];
    var processed: map<string, seq<Window>> := map[];
    for i := 0 to |apps|
      invariant State(fraudulent, processed) == Run(apps[..i], threshold)
    {
      assert apps[..i + 1][..i] == apps[..i];
      var app := apps[i];
      var p := app.postcode;
      if p in fraudulent {
        continue;
      }
      if app.amount > threshold {
        fraudulent := fraudulent + [p];
        continue;
      }
      if p !in processed || processed[p] == [] {
        processed := processed[p := [Window(app.submittedAt, app.amount)]];
        continue;
      }
      var kept, breached := ScanLoop(processed[p], app.submittedAt, app.amount, threshold);
      processed := processed[p := kept];
      if breached {
        fraudulent := fraudulent + [p];
        continue;
      }
      processed := processed[p := kept + [Window(app.submittedAt, app.amount)]];
    }
    assert apps[..|apps|] == apps;
  }
}
