/** `clone_repo` of `src/git.rs`: clone a template repository while a
    progress bar follows the transfer. The transfer itself is supplied by
    the caller (`Transfer`); what is modelled is what the progress callback
    computes from each report, and that the clone result is passed back
    unchanged. */
module Clone {
  import opened Base
  import opened Files

  /** The three status messages of the progress bar. */
  datatype Stage = ResolvingDeltas | ReceivingObjects | Preparing

  function StageText(stage: Stage): string {
    match stage
    case ResolvingDeltas => "Resolving deltas..."
    case ReceivingObjects => "Receiving objects..."
    case Preparing => "Preparing..."
  }

  /** The message chosen for a report of `received` out of `total` objects.
      Equal counts, including the 0 of 0 reported before the total is
      known, read as resolving deltas. */
  function StageOf(received: nat, total: nat): (stage: Stage)
    ensures stage == ResolvingDeltas <==> received == total
    ensures stage == ReceivingObjects <==> received != total && total > 0
    ensures stage == Preparing <==> received != total && total == 0
  {
    if received == total then ResolvingDeltas
    else if total > 0 then ReceivingObjects
    else Preparing
  }

  /** The bar position: the percentage of objects received, rounded down,
      and 0 while the total is unknown. */
  function Percent(received: nat, total: nat): (p: nat)
    ensures total == 0 ==> p == 0
    ensures total > 0 ==> p * total <= 100 * received < (p + 1) * total
  {
    if total > 0 then 100 * received / total else 0
  }

  lemma MulLeftMonotone(a: nat, b: nat, t: nat)
    requires a <= b
    ensures a * t <= b * t
  {
  }

  /** The bar never passes 100 while no more objects than the total have
      arrived. */
  lemma PercentAtMost100(received: nat, total: nat)
    requires received <= total
    ensures Percent(received, total) <= 100
  {
    if total > 0 {
      var p := Percent(received, total);
      if p > 100 {
        MulLeftMonotone(101, p, total);
        assert false;
      }
    }
  }

  /** For a fixed total, the bar never moves back as objects arrive. */
  lemma PercentMonotone(received1: nat, received2: nat, total: nat)
    requires received1 <= received2
    ensures Percent(received1, total) <= Percent(received2, total)
  {
    if total > 0 {
      var p1, p2 := Percent(received1, total), Percent(received2, total);
      if p1 > p2 {
        MulLeftMonotone(p2 + 1, p1, total);
        assert false;
      }
    }
  }

  /** With the total known, the bar shows 100 exactly when every object
      has been received. */
  lemma PercentFullIffComplete(received: nat, total: nat)
    requires 0 < total && received <= total
    ensures Percent(received, total) == 100 <==> received == total
  {
    var p := Percent(received, total);
    if received == total {
      if p < 100 {
        MulLeftMonotone(p + 1, 100, total);
      } else if p > 100 {
        MulLeftMonotone(101, p, total);
      }
    }
  }

  /** What a progress report carries: the objects received so far and the
      total the transfer announced (0 before it is known). */
  datatype TransferStats = TransferStats(receivedObjects: nat, totalObjects: nat)

  /** The terminal progress bar the callback drives. Only its state is
      modelled, not how it is drawn. */
  class ProgressBar {
    const length: nat
    var position: nat
    var message: string
    var finished: bool

    constructor (length: nat)
      ensures this.length == length && position == 0 && message == "" && !finished
    {
      this.length := length;
      position := 0;
      message := "";
      finished := false;
    }

    method SetMessage(m: string)
      modifies this
      ensures message == m && position == old(position) && finished == old(finished)
    {
      message := m;
    }

    method SetPosition(p: nat)
      modifies this
      ensures position == p && message == old(message) && finished == old(finished)
    {
      position := p;
    }

    /** Fills the bar, shows `m` and stops it. */
    method FinishWithMessage(m: string)
      modifies this
      ensures finished && message == m && position == length
    {
      position := length;
      message := m;
      finished := true;
    }
  }

  /** The `transfer_progress` callback: set the message and the position
      from the report, and always let the transfer go on. */
  method TransferProgress(bar: ProgressBar, stats: TransferStats) returns (proceed: bool)
    modifies bar
    ensures bar.message == StageText(StageOf(stats.receivedObjects, stats.totalObjects))
    ensures bar.position == Percent(stats.receivedObjects, stats.totalObjects)
    ensures bar.finished == old(bar.finished)
    ensures proceed
  {
    var received, total := stats.receivedObjects, stats.totalObjects;
    if received == total {
      bar.SetMessage("Resolving deltas...");
    } else if total > 0 {
      bar.SetMessage("Receiving objects...");
    } else {
      bar.SetMessage("Preparing...");
    }
    var progress := if total > 0 then 100 * received / total else 0;
    bar.SetPosition(progress);
    proceed := true;
  }

  datatype GitError = GitError(message: string)

  /** The cloned repository, known by its working directory. */
  datatype Repository = Repository(workdir: Path)

  /** What the network transfer does when asked to clone a URL into a
      directory: the progress reports it makes, then either the files of the
      checkout or the transfer's error. */
  datatype Transfer = Transfer(reports: seq<TransferStats>, outcome: Result<map<Path, seq<byte>>, GitError>)

  /** A clone only creates files inside its destination directory. */
  predicate StaysWithin(t: Transfer, path: Path) {
    t.outcome.Ok? ==> forall q | q in t.outcome.value :: Under(path, q)
  }

  /** `clone_repo`: run the transfer, feeding each report to the callback,
      finish the bar with "Done!", and return the clone result unchanged.
      On success the checkout's files are on disk; on failure nothing is. */
  method CloneRepo(fs: FileSystem, url: string, path: Path, transfer: (string, Path) -> Transfer)
    returns (r: Result<Repository, GitError>, bar: ProgressBar)
    requires StaysWithin(transfer(url, path), path)
    modifies fs
    ensures fresh(bar) && bar.finished && bar.message == "Done!" && bar.position == bar.length == 100
    ensures transfer(url, path).outcome.Err? ==>
              r == Err(transfer(url, path).outcome.error) && fs.files == old(fs.files)
    ensures transfer(url, path).outcome.Ok? ==>
              r == Ok(Repository(path)) && fs.files == old(fs.files) + transfer(url, path).outcome.value
    ensures forall q | q in old(fs.files) && !Under(path, q) :: q in fs.files && fs.files[q] == old(fs.files)[q]
    ensures fs.writes == old(fs.writes)
  {
    bar := new ProgressBar(100);
    var t := transfer(url, path);
    for k := 0 to |t.reports|
      modifies bar
      invariant fresh(bar) && bar.length == 100 && !bar.finished
      invariant k > 0 ==> bar.position == Percent(t.reports[k - 1].receivedObjects, t.reports[k - 1].totalObjects)
    {
      var proceed := TransferProgress(bar, t.reports[k]);
      assert proceed;
    }
    if t.outcome.Ok? {
      fs.files := fs.files + t.outcome.value;
      r := Ok(Repository(path));
    } else {
      r := Err(t.outcome.error);
    }
    bar.FinishWithMessage("Done!");
  }
}
