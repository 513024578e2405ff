/** workflows/scans/inspector.go: the three verdicts on a scan, and the bucket of a Partial one. */
module Inspector {
  datatype Detail = Detail(name: string, status: string, details: string)

  datatype Scan = Scan(id: string, status: string, engines: seq<string>, details: seq<Detail>)

  datatype Bucket = InProgress | Succeeded | Broken

  const KNOWN := {"Queued", "Running", "Completed", "Failed", "Canceled", "Partial"}

  predicate Running(status: string) {
    status == "Queued" || status == "Running"
  }

  /** `fold` is the lower-casing of names; nothing is assumed of it. */
  predicate Requested(scan: Scan, fold: string -> string, name: string) {
    exists e | e in scan.engines :: fold(e) == fold(name)
  }

  /** The entries that matter: those of requested engines, or all when the scan names no engine. */
  predicate Matters(scan: Scan, fold: string -> string, d: Detail) {
    d in scan.details && (scan.engines == [] || Requested(scan, fold, d.name))
  }

  /** What the bucket means. */
  function BucketOf(scan: Scan, fold: string -> string): Bucket {
    if forall d | d in scan.details :: !Matters(scan, fold, d) then Broken
    else if exists d | d in scan.details :: Matters(scan, fold, d) && Running(d.status) then InProgress
    else if forall d | d in scan.details :: Matters(scan, fold, d) ==> d.status == "Completed" then Succeeded
    else Broken
  }

  predicate Executing(scan: Scan, fold: string -> string) {
    Running(scan.status) || (scan.status == "Partial" && BucketOf(scan, fold) == InProgress)
  }

  predicate Successful(scan: Scan, fold: string -> string) {
    scan.status == "Completed" || (scan.status == "Partial" && BucketOf(scan, fold) == Succeeded)
  }

  predicate Failed(scan: Scan, fold: string -> string) {
    scan.status == "Failed" || scan.status == "Canceled" || (scan.status == "Partial" && BucketOf(scan, fold) == Broken)
  }

  /** partialBucket: one pass over the entries. */
  method PartialBucket(scan: Scan, fold: string -> string) returns (b: Bucket)
    ensures b == BucketOf(scan, fold)
  {
    var requested: set<string> := {};
    for i := 0 to |scan.engines|
      invariant forall n :: n in requested <==> exists e | e in scan.engines[..i] :: fold(e) == n
    {
      assert scan.engines[..i + 1] == scan.engines[..i] + [scan.engines[i]];
      requested := requested + {fold(scan.engines[i])};
    }
    assert scan.engines[..|scan.engines|] == scan.engines;
    assert requested == {} ==> scan.engines == [] by {
      if scan.engines != [] {
        assert scan.engines[0] in scan.engines;
        assert fold(scan.engines[0]) in requested;
      }
    }
    var considerAll := requested == {};
    var anyExecuting, allCompleted, matched := false, true, 0;
    for i := 0 to |scan.details|
      invariant matched > 0 <==> exists d | d in scan.details[..i] :: Matters(scan, fold, d)
      invariant matched >= 0
      invariant anyExecuting <==> exists d | d in scan.details[..i] :: Matters(scan, fold, d) && Running(d.status)
      invariant allCompleted <==>
                forall d | d in scan.details[..i] :: Matters(scan, fold, d) ==> d.status == "Completed"
    {
      var sd := scan.details[i];
      assert sd in scan.details && scan.details[..i + 1] == scan.details[..i] + [sd];
      assert Matters(scan, fold, sd) <==> considerAll || fold(sd.name) in requested;
      if !considerAll && fold(sd.name) !in requested {
        continue;
      }
      matched := matched + 1;
      if sd.status == "Queued" || sd.status == "Running" {
        anyExecuting := true;
        allCompleted := false;
      } else if sd.status != "Completed" {
        allCompleted := false;
      }
    }
    assert scan.details[..|scan.details|] == scan.details;
    if matched == 0 {
      return Broken;
    }
    if anyExecuting {
      return InProgress;
    }
    if allCompleted {
      return Succeeded;
    }
    return Broken;
  }

  /** The bucket is decided by the entries that matter. */
  lemma BucketOfMatters(a: Scan, b: Scan, fold: string -> string)
    requires forall d :: Matters(a, fold, d) <==> Matters(b, fold, d)
    ensures BucketOf(a, fold) == BucketOf(b, fold)
  {
  }

  /** It depends only on which entries there are and which names were requested, not on their order or
      number. */
  lemma BucketIgnoresOrder(a: Scan, b: Scan, fold: string -> string)
    requires forall d :: d in a.details <==> d in b.details
    requires forall e :: e in a.engines <==> e in b.engines
    ensures BucketOf(a, fold) == BucketOf(b, fold)
  {
    assert (a.engines == []) == (b.engines == []) by {
      assert a.engines != [] ==> a.engines[0] in a.engines;
      assert b.engines != [] ==> b.engines[0] in b.engines;
    }
    assert forall n :: Requested(a, fold, n) == Requested(b, fold, n);
    BucketOfMatters(a, b, fold);
  }

  /** Entries for engines nobody asked for change nothing, wherever they appear, when the scan names
      its engines. */
  lemma UnrequestedEntriesAreIgnored(a: Scan, fold: string -> string, d: Detail, k: nat)
    requires a.engines != [] && !Requested(a, fold, d.name) && k <= |a.details|
    ensures BucketOf(a.(details := a.details[..k] + [d] + a.details[k..]), fold) == BucketOf(a, fold)
  {
    var b := a.(details := a.details[..k] + [d] + a.details[k..]);
    assert a.details == a.details[..k] + a.details[k..];
    assert forall n :: Requested(a, fold, n) == Requested(b, fold, n);
    BucketOfMatters(a, b, fold);
  }

  /** At most one verdict holds of a scan, and one does exactly when its status is a known one: on any
      other status all three are false and a waiter goes on waiting. */
  lemma OneVerdict(scan: Scan, fold: string -> string)
    ensures !(Executing(scan, fold) && Successful(scan, fold))
    ensures !(Successful(scan, fold) && Failed(scan, fold))
    ensures !(Executing(scan, fold) && Failed(scan, fold))
    ensures Executing(scan, fold) || Successful(scan, fold) || Failed(scan, fold) <==> scan.status in KNOWN
  {
    var b := BucketOf(scan, fold);
    assert b == InProgress || b == Succeeded || b == Broken;
  }

  /** The entry is of an engine that was asked for, or nothing was asked for by name. */
  predicate Relevant(scan: Scan, fold: string -> string, d: Detail) {
    scan.engines == [] || exists e | e in scan.engines :: fold(e) == fold(d.name)
  }

  /** The three verdicts in terms of the scan itself.  A Partial scan is still executing while a relevant
      entry is; otherwise it is successful when there is a relevant entry and all of them completed, and
      failed when there is none or one of them did not. */
  lemma VerdictsMean(scan: Scan, fold: string -> string)
    ensures var busy := exists d | d in scan.details ::
                          Relevant(scan, fold, d) && (d.status == "Queued" || d.status == "Running");
            var some := exists d | d in scan.details :: Relevant(scan, fold, d);
            var bad := exists d | d in scan.details :: Relevant(scan, fold, d) && d.status != "Completed";
            && (Executing(scan, fold) <==> scan.status in {"Queued", "Running"} || (scan.status == "Partial" && busy))
            && (Successful(scan, fold) <==> scan.status == "Completed" || (scan.status == "Partial" && some && !bad))
            && (Failed(scan, fold) <==>
                  scan.status in {"Failed", "Canceled"} || (scan.status == "Partial" && !busy && (!some || bad)))
  {
    forall d | d in scan.details ensures Matters(scan, fold, d) <==> Relevant(scan, fold, d) {
      assert Requested(scan, fold, d.name) <==> exists e | e in scan.engines :: fold(e) == fold(d.name);
    }
    assert "Completed" != "Queued" by { assert |"Completed"| != |"Queued"|; }
    assert "Completed" != "Running" by { assert |"Completed"| != |"Running"|; }
  }

  function Entry(d: Detail): string {
    d.name + "=" + d.status + if d.details != "" then " (" + d.details + ")" else ""
  }

  function Join(ds: seq<Detail>): string {
    if ds == [] then "" else if |ds| == 1 then Entry(ds[0]) else Entry(ds[0]) + ", " + Join(ds[1..])
  }

  /** The reason a failed scan is reported with. */
  function StateMessage(scan: Scan): string {
    if scan.status != "Partial" then scan.status else "Partial: " + Join(scan.details)
  }

  /** The reason lists every entry, in order. */
  lemma {:induction false} MessageGrows(ds: seq<Detail>, d: Detail)
    ensures Join(ds + [d]) == if ds == [] then Entry(d) else Join(ds) + ", " + Entry(d)
  {
    if ds == [] {
      assert ds + [d] == [d];
    } else {
      var rest := ds[1..];
      MessageGrows(rest, d);
      assert (ds + [d])[1..] == rest + [d];
      assert rest != [] ==> Entry(ds[0]) + ", " + (Join(rest) + ", " + Entry(d))
                            == Entry(ds[0]) + ", " + Join(rest) + ", " + Entry(d);
    }
  }

  datatype Verdict = Good | Bad | Open

  /** What a waiter sees: it asks Successful first, then Failed, and goes on otherwise. */
  function VerdictOf(scan: Scan, fold: string -> string): (v: Verdict)
    ensures v.Good? <==> Successful(scan, fold)
    ensures v.Bad? <==> Failed(scan, fold)
  {
    OneVerdict(scan, fold);
    if Successful(scan, fold) then Good else if Failed(scan, fold) then Bad else Open
  }

  /** The documented rule for success: every requested engine reported, and reported only Completed. */
  predicate AllRequestedCompleted(scan: Scan, fold: string -> string) {
    forall e | e in scan.engines ::
      Reported(scan, fold, e) && forall d | d in scan.details :: fold(d.name) == fold(e) ==> d.status == "Completed"
  }

  predicate Reported(scan: Scan, fold: string -> string, engine: string) {
    exists d | d in scan.details :: fold(d.name) == fold(engine)
  }

  /** The code's success is the documented one exactly when every requested engine has an entry: an
      engine that never reported does not stand in the way. */
  lemma SuccessIsDocumentedIff(scan: Scan, fold: string -> string)
    requires scan.engines != [] && BucketOf(scan, fold) == Succeeded
    ensures AllRequestedCompleted(scan, fold) <==> forall e | e in scan.engines :: Reported(scan, fold, e)
  {
    forall e, d | e in scan.engines && d in scan.details && fold(d.name) == fold(e)
      ensures d.status == "Completed"
    {
      assert Requested(scan, fold, d.name);
      assert Matters(scan, fold, d);
    }
  }

  lemma DocumentedSuccessIsSuccess(scan: Scan, fold: string -> string)
    requires scan.engines != [] && AllRequestedCompleted(scan, fold)
    ensures BucketOf(scan, fold) == Succeeded
  {
    var e := scan.engines[0];
    assert Reported(scan, fold, e);
    var d :| d in scan.details && fold(d.name) == fold(e);
    assert Requested(scan, fold, d.name);
    assert Matters(scan, fold, d);
    forall x | x in scan.details && Matters(scan, fold, x) ensures x.status == "Completed" {
      var y :| y in scan.engines && fold(y) == fold(x.name);
      assert Reported(scan, fold, y);
    }
    assert !Running("Completed");
  }

  const SILENT_ENGINE := Scan("s", "Partial", ["sast", "kics"], [Detail("sast", "Completed", "")])

  /** Two engines requested, one never reports: the scan is successful all the same. */
  lemma SilentEngineDoesNotBlock()
    ensures Successful(SILENT_ENGINE, s => s) && !AllRequestedCompleted(SILENT_ENGINE, s => s)
  {
    var scan, same := SILENT_ENGINE, (s: string) => s;
    var d := Detail("sast", "Completed", "");
    assert scan.details[0] == d && d in scan.details;
    assert scan.engines[0] == "sast" && "sast" in scan.engines;
    assert scan.engines[1] == "kics" && "kics" in scan.engines;
    assert Requested(scan, same, d.name);
    assert Matters(scan, same, d);
    assert "Completed" != "Queued" by { assert |"Completed"| != |"Queued"|; }
    assert "Completed" != "Running" by { assert |"Completed"| != |"Running"|; }
    assert "sast"[0] != "kics"[0];
    assert !Reported(scan, same, "kics");
  }
}
