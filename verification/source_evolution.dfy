/**
 What source revalidation means for a workspace: which workspaces it accepts, and exactly when a
 workspace changed only by the run's own scoped writes is accepted.
 */
module SourceEvolution {
  import opened Options
  import RunModel
  import opened SourceEvidence

  /** A path resolves to a canonical path; a canonical path holds a file. */
  datatype Link = Link(resolved: Path, symlink: bool)
  datatype Held = Held(digest: Digest, executable: bool)

  datatype Workspace = Workspace(links: map<Path, Link>, files: map<Path, Held>) {
    ghost predicate Valid() {
      && (forall q :: q in links ==> links[q].resolved in files)
      && (forall p :: p in files ==> p in links && links[p] == Link(p, false))
    }
  }

  datatype Write = Write(path: Path, digest: Digest)

  /** A scoped write names the resolved path; it fills an existing file or creates a plain one. */
  predicate Plain(w: Workspace, x: Write) { x.path in w.files || x.path !in w.links }

  function Apply(w: Workspace, x: Write): Workspace {
    if x.path in w.files then w.(files := w.files[x.path := w.files[x.path].(digest := x.digest)])
    else Workspace(w.links[x.path := Link(x.path, false)], w.files[x.path := Held(x.digest, false)])
  }

  function After(w: Workspace, writes: seq<Write>): Workspace {
    if writes == [] then w else Apply(After(w, writes[..|writes| - 1]), writes[|writes| - 1])
  }

  predicate AllPlain(w: Workspace, writes: seq<Write>) {
    writes != [] ==>
      && AllPlain(w, writes[..|writes| - 1])
      && Plain(After(w, writes[..|writes| - 1]), writes[|writes| - 1])
  }

  function LastWritten(writes: seq<Write>, path: Path): Option<Digest> {
    if writes == [] then None
    else if writes[|writes| - 1].path == path then Some(writes[|writes| - 1].digest)
    else LastWritten(writes[..|writes| - 1], path)
  }

  /** The fingerprint of one path, if it exists. */
  function Seen(w: Workspace, path: Path): Option<Fingerprint>
    requires w.Valid()
  {
    if path !in w.links then None
    else
      var at := w.links[path];
      Some(Fingerprint(path, at.resolved, w.files[at.resolved].digest, at.symlink, w.files[at.resolved].executable))
  }

  /** A complete capture of some paths of the workspace. */
  ghost predicate Captures(s: Snapshot, w: Workspace, paths: set<Path>)
    requires w.Valid()
  {
    forall p: Path :: Find(s.files, p) == if p in paths then Seen(w, p) else None
  }

  // ----- what the workspace holds after the writes -----

  lemma {:induction false} AfterValid(w: Workspace, writes: seq<Write>)
    requires w.Valid() && AllPlain(w, writes)
    ensures After(w, writes).Valid()
  {
    if writes != [] {
      AfterValid(w, writes[..|writes| - 1]);
    }
  }

  /** Every link survives, and a new one is a plain path that was written. */
  ghost predicate LinksGrew(w: Workspace, now: Workspace, writes: seq<Write>) {
    && (forall q :: q in w.links ==> q in now.links && now.links[q] == w.links[q])
    && (forall q :: q in now.links && q !in w.links ==> now.links[q] == Link(q, false) && LastWritten(writes, q).Some?)
  }

  /** Every file holds what was last written to it; only a file that was already there can be executable. */
  ghost predicate FilesWritten(w: Workspace, now: Workspace, writes: seq<Write>) {
    && (forall p :: p in w.files ==> p in now.files && now.files[p].executable == w.files[p].executable)
    && (forall p :: p in now.files && p !in w.files ==> !now.files[p].executable && LastWritten(writes, p).Some?)
    && (forall p: Path :: LastWritten(writes, p).Some? ==>
         p in now.files && now.files[p].digest == LastWritten(writes, p).value)
    && (forall p: Path :: LastWritten(writes, p).None? && p in w.files ==> now.files[p].digest == w.files[p].digest)
  }

  lemma {:induction false} AfterLinks(w: Workspace, writes: seq<Write>)
    requires AllPlain(w, writes)
    ensures LinksGrew(w, After(w, writes), writes)
  {
    if writes != [] {
      AfterLinks(w, writes[..|writes| - 1]);
    }
  }

  lemma {:induction false} AfterFiles(w: Workspace, writes: seq<Write>)
    ensures FilesWritten(w, After(w, writes), writes)
  {
    if writes != [] {
      AfterFiles(w, writes[..|writes| - 1]);
    }
  }

  lemma AfterHolds(w: Workspace, writes: seq<Write>)
    requires w.Valid() && AllPlain(w, writes)
    ensures After(w, writes).Valid() && LinksGrew(w, After(w, writes), writes) &&
      FilesWritten(w, After(w, writes), writes)
  {
    AfterValid(w, writes);
    AfterLinks(w, writes);
    AfterFiles(w, writes);
  }

  // ----- receipts of an evolution -----

  /** The writes every attempt performed, in order. */
  function Performed(batches: seq<seq<Write>>): seq<Write> {
    if batches == [] then [] else Performed(batches[..|batches| - 1]) + batches[|batches| - 1]
  }

  /** An attempt's receipts are the last write to each path it wrote, under the run's own id. */
  ghost predicate Receipted(a: SourceAttempt, batch: seq<Write>, run: RunModel.Id) {
    && (forall j :: 0 <= j < |a.writes| ==>
          a.writes[j].run == run && LastWritten(batch, a.writes[j].path) == Some(a.writes[j].digest))
    && (forall p: Path :: LastWritten(batch, p).Some? ==> exists j :: 0 <= j < |a.writes| && a.writes[j].path == p)
  }

  ghost predicate AllReceipted(run: SourceRun, batches: seq<seq<Write>>) {
    |batches| == |run.attempts| && forall i :: 0 <= i < |batches| ==> Receipted(run.attempts[i], batches[i], run.id)
  }

  /** Whether the last attempt that wrote a path completed; true when none did. */
  function LastWriterCompleted(attempts: seq<SourceAttempt>, batches: seq<seq<Write>>, log: seq<Logged>,
      path: Path): bool
    requires |attempts| == |batches|
  {
    if attempts == [] then true
    else
      var n := |attempts| - 1;
      if LastWritten(batches[n], path).Some? then Completed(attempts[n], log)
      else LastWriterCompleted(attempts[..n], batches[..n], log, path)
  }

  lemma {:induction false} LastWrittenAppend(a: seq<Write>, b: seq<Write>, path: Path)
    ensures LastWritten(a + b, path) ==
      if LastWritten(b, path).Some? then LastWritten(b, path) else LastWritten(a, path)
  {
    if b == [] {
      assert a + b == a;
    } else {
      assert (a + b)[..|a + b| - 1] == a + b[..|b| - 1];
      LastWrittenAppend(a, b[..|b| - 1], path);
    }
  }

  /** One attempt's receipts for one path. */
  lemma {:induction false} ReceiptsOfOne(
    earlier: LastWrite, writes: seq<Receipt>, completed: bool, run: RunModel.Id, batch: seq<Write>, path: Path)
    requires forall j :: 0 <= j < |writes| ==>
      writes[j].run == run && LastWritten(batch, writes[j].path) == Some(writes[j].digest)
    ensures LastIn(earlier, writes, completed, run, path) ==
      if forall j :: 0 <= j < |writes| ==> writes[j].path != path then earlier
      else if completed then Counted(LastWritten(batch, path).value) else Forfeited
  {
    if writes != [] {
      var before := writes[..|writes| - 1];
      assert forall j :: 0 <= j < |before| ==> before[j] == writes[j];
      ReceiptsOfOne(earlier, before, completed, run, batch, path);
    }
  }

  /** The receipts of the whole run say who wrote each path last, and what. */
  lemma {:induction false} ReceiptsOfAll(run: SourceRun, attempts: seq<SourceAttempt>, batches: seq<seq<Write>>,
      path: Path)
    requires |attempts| == |batches| && forall i :: 0 <= i < |batches| ==> Receipted(attempts[i], batches[i], run.id)
    ensures LastOver(attempts, run, path) ==
      var last := LastWritten(Performed(batches), path);
      if last.None? then NeverWritten
      else if LastWriterCompleted(attempts, batches, run.log, path) then Counted(last.value) else Forfeited
  {
    if attempts != [] {
      var n := |attempts| - 1;
      ReceiptsOfAll(run, attempts[..n], batches[..n], path);
      LastWrittenAppend(Performed(batches[..n]), batches[n], path);
      ReceiptsOfOne(LastOver(attempts[..n], run, path), attempts[n].writes, Completed(attempts[n], run.log), run.id,
        batches[n], path);
      assert Receipted(attempts[n], batches[n], run.id);
    }
  }

  // ----- acceptance -----

  /** Files with one resolved path have one digest, as in any capture of a workspace. */
  lemma {:induction false} OutputOfCapture(files: seq<Fingerprint>, w: Workspace, resolved: Path)
    requires w.Valid() && forall f :: f in files ==> Seen(w, f.path) == Some(f)
    ensures Output(files, resolved).Some? ==>
      resolved in w.files && Output(files, resolved) == Some(w.files[resolved].digest)
  {
    if files != [] {
      assert files[|files| - 1] in files;
      OutputOfCapture(files[..|files| - 1], w, resolved);
    }
  }

  /** Unique paths make every listed file the one found under its path. */
  lemma {:induction false} ListedIsFound(s: Snapshot, f: Fingerprint)
    requires s.Valid() && f in s.files
    ensures Find(s.files, f.path) == Some(f)
  {
    FoundAmong(s.files, f);
  }

  lemma {:induction false} FoundAmong(files: seq<Fingerprint>, f: Fingerprint)
    requires f in files && forall i, j :: 0 <= i < j < |files| ==> files[i].path < files[j].path
    ensures Find(files, f.path) == Some(f)
  {
    var n := |files| - 1;
    var k :| 0 <= k < |files| && files[k] == f;
    if k < n {
      assert files[..n][k] == f;
      FoundAmong(files[..n], f);
    }
  }

  lemma CaptureOutputs(s: Snapshot, w: Workspace, paths: set<Path>, p: Path)
    requires s.Valid() && w.Valid() && Captures(s, w, paths)
    ensures Output(s.files, p).Some? ==> p in w.files && Output(s.files, p) == Some(w.files[p].digest)
    ensures p in paths && p in w.files ==> Output(s.files, p) == Some(w.files[p].digest)
  {
    forall f | f in s.files ensures Seen(w, f.path) == Some(f) {
      ListedIsFound(s, f);
    }
    OutputOfCapture(s.files, w, p);
    if p in paths && p in w.files {
      assert Find(s.files, p) == Seen(w, p);
    }
  }

  /** The run's own writes, seen through two captures of the workspace. */
  ghost predicate Evolved(run: SourceRun, observed: Snapshot, w: Workspace, batches: seq<seq<Write>>,
      visible: set<Path>, seen: set<Path>)
    requires w.Valid() && run.baseline.Some?
  {
    var writes := Performed(batches);
    && OnlyUnstarted(run)
    && AllReceipted(run, batches) && AllPlain(w, writes) && After(w, writes).Valid()
    && run.baseline.value.SamePlace(observed)
    && run.baseline.value.Valid() && observed.Valid()
    && Captures(run.baseline.value, w, visible)
    && Captures(observed, After(w, writes), seen)
    // The fresh capture includes what was seen before and what was verified, and uncovers nothing else
    && (forall q :: q in visible ==> q in seen)
    && (forall p :: p in Receipts(run) ==> p in seen)
    && (forall q :: q in seen && q in After(w, writes).links ==> q in visible || LastWritten(writes, q).Some?)
  }

  /**
   One observed path is accounted for: unwritten, restored by whoever wrote it, or written last by a
   completed attempt.
   */
  ghost predicate Accounted(run: SourceRun, w: Workspace, batches: seq<seq<Write>>, visible: set<Path>, q: Path)
    requires w.Valid() && |run.attempts| == |batches|
    requires After(w, Performed(batches)).Valid() && q in After(w, Performed(batches)).links
  {
    var now := After(w, Performed(batches));
    var p := now.links[q].resolved;
    || (q in visible && q in w.links && Seen(w, q) == Seen(now, q))
    || (LastWriterCompleted(run.attempts, batches, run.log, p) &&
         ((q in visible && q in w.links) || !now.files[p].executable))
  }

  /** The comparison of one existing path, once its last writer is known. */
  lemma FaultOfPath(w: Workspace, now: Workspace, writes: seq<Write>, digests: map<Path, Digest>, q: Path,
      shown: bool, completed: bool)
    requires w.Valid() && now.Valid() && LinksGrew(w, now, writes) && FilesWritten(w, now, writes) && q in now.links
    requires shown || LastWritten(writes, q).Some?
    requires var last := LastWritten(writes, now.links[q].resolved);
      Lookup(digests, now.links[q].resolved) == if completed then last else None
    requires LastWritten(writes, now.links[q].resolved).None? ==> completed
    ensures Fault(if shown then Seen(w, q) else None, Seen(now, q), digests).None? <==>
      || (shown && q in w.links && Seen(w, q) == Seen(now, q))
      || (completed && ((shown && q in w.links) || !now.files[now.links[q].resolved].executable))
  {
    var p := now.links[q].resolved;
    if shown && q in w.links {
      assert now.links[q] == w.links[q] && p in w.files;
    }
  }

  lemma FaultOfEvolution(
    run: SourceRun, observed: Snapshot, w: Workspace, batches: seq<seq<Write>>, visible: set<Path>, seen: set<Path>,
    q: Path)
    requires run.baseline.Some? && w.Valid() && Evolved(run, observed, w, batches, visible, seen)
    ensures FaultAt(run.baseline.value, observed, Receipts(run), q).None? <==>
      (q in seen && q in After(w, Performed(batches)).links ==> Accounted(run, w, batches, visible, q))
  {
    var writes := Performed(batches);
    var now := After(w, writes);
    AfterHolds(w, writes);
    if q in seen && q in now.links {
      var p := now.links[q].resolved;
      ReceiptsOfAll(run, run.attempts, batches, p);
      assert Records(Receipts(run), p, LastOver(run.attempts, run, p));
      NeverWrittenCompleted(run.attempts, batches, run.log, p);
      FaultOfPath(w, now, writes, Receipts(run), q, q in visible,
        LastWriterCompleted(run.attempts, batches, run.log, p));
    } else {
      assert q in visible ==> q !in w.links;
    }
  }

  lemma {:induction false} NeverWrittenCompleted(attempts: seq<SourceAttempt>, batches: seq<seq<Write>>,
      log: seq<Logged>, path: Path)
    requires |attempts| == |batches|
    ensures LastWritten(Performed(batches), path).None? ==> LastWriterCompleted(attempts, batches, log, path)
  {
    if attempts != [] {
      var n := |attempts| - 1;
      LastWrittenAppend(Performed(batches[..n]), batches[n], path);
      NeverWrittenCompleted(attempts[..n], batches[..n], log, path);
    }
  }

  lemma OutputsOfEvolution(
    run: SourceRun, observed: Snapshot, w: Workspace, batches: seq<seq<Write>>, visible: set<Path>, seen: set<Path>)
    requires run.baseline.Some? && w.Valid() && Evolved(run, observed, w, batches, visible, seen)
    ensures OutputsInPlace(observed, Receipts(run))
  {
    var writes := Performed(batches);
    AfterHolds(w, writes);
    forall p | p in Receipts(run) ensures Output(observed.files, p) == Some(Receipts(run)[p]) {
      ReceiptsOfAll(run, run.attempts, batches, p);
      assert Records(Receipts(run), p, LastOver(run.attempts, run, p));
      CaptureOutputs(observed, After(w, writes), seen, p);
    }
  }

  /** Exactly when a workspace changed only by the run's own writes still has the baseline revision. */
  lemma EvolutionAcceptedIff(
    run: SourceRun, observed: Snapshot, w: Workspace, batches: seq<seq<Write>>, visible: set<Path>, seen: set<Path>)
    requires run.baseline.Some? && w.Valid() && Evolved(run, observed, w, batches, visible, seen)
    ensures Accepts(run, observed) <==>
      forall q :: q in seen && q in After(w, Performed(batches)).links ==> Accounted(run, w, batches, visible, q)
  {
    OutputsOfEvolution(run, observed, w, batches, visible, seen);
    forall q: Path
      ensures FaultAt(run.baseline.value, observed, Receipts(run), q).None? <==>
        (q in seen && q in After(w, Performed(batches)).links ==> Accounted(run, w, batches, visible, q))
    {
      FaultOfEvolution(run, observed, w, batches, visible, seen, q);
    }
  }

  /** Whole batches of completed attempts. */
  ghost predicate EveryWriterCompleted(run: SourceRun, batches: seq<seq<Write>>)
    requires |run.attempts| == |batches|
  {
    forall i :: 0 <= i < |batches| && batches[i] != [] ==> Completed(run.attempts[i], run.log)
  }

  lemma {:induction false} LastWriterAmongCompleted(attempts: seq<SourceAttempt>, batches: seq<seq<Write>>,
      log: seq<Logged>, path: Path)
    requires |attempts| == |batches|
    requires forall i :: 0 <= i < |batches| && batches[i] != [] ==> Completed(attempts[i], log)
    ensures LastWriterCompleted(attempts, batches, log, path)
  {
    if attempts != [] {
      LastWriterAmongCompleted(attempts[..|attempts| - 1], batches[..|attempts| - 1], log, path);
    }
  }

  /** Completeness: completed attempts writing plain files never lose the baseline revision. */
  lemma CompletedWritesRevalidate(
    run: SourceRun, observed: Snapshot, w: Workspace, batches: seq<seq<Write>>, visible: set<Path>, seen: set<Path>)
    requires run.baseline.Some? && w.Valid() && Evolved(run, observed, w, batches, visible, seen)
    requires EveryWriterCompleted(run, batches)
    requires forall p :: p in w.files && w.files[p].executable && LastWritten(Performed(batches), p).Some? ==>
      p in visible
    ensures Accepts(run, observed)
  {
    EvolutionAcceptedIff(run, observed, w, batches, visible, seen);
    var now := After(w, Performed(batches));
    AfterHolds(w, Performed(batches));
    forall q | q in seen && q in now.links ensures Accounted(run, w, batches, visible, q) {
      LastWriterAmongCompleted(run.attempts, batches, run.log, now.links[q].resolved);
    }
  }

  /**
   What acceptance promises about one path: it is not deleted, a changed or new path has the digest of
   the last counted write to the file it resolves to, its metadata did not move, and a new path is plain.
   */
  ghost predicate PathExplained(run: SourceRun, observed: Snapshot, p: Path)
    requires run.baseline.Some?
  {
    var was, now := Find(run.baseline.value.files, p), Find(observed.files, p);
    && (was.Some? ==> now.Some? && now.value.(digest := 0) == was.value.(digest := 0))
    && (now.Some? && was != now ==> LastOver(run.attempts, run, now.value.resolved) == Counted(now.value.digest))
    && (now.Some? && was.None? ==> now.value == Fingerprint(p, p, now.value.digest, false, false))
  }

  /** Soundness, for any pair of snapshots: every path is explained and every counted write is still in place. */
  lemma AcceptedIsExplained(run: SourceRun, observed: Snapshot)
    requires Accepts(run, observed)
    ensures forall p: Path :: PathExplained(run, observed, p)
    ensures forall p: Path :: LastOver(run.attempts, run, p).Counted? ==>
      Output(observed.files, p) == Some(LastOver(run.attempts, run, p).digest)
  {
    var receipts := Receipts(run);
    forall p: Path ensures PathExplained(run, observed, p) {
      assert FaultAt(run.baseline.value, observed, receipts, p).None?;
      var now := Find(observed.files, p);
      if now.Some? {
        assert Records(receipts, now.value.resolved, LastOver(run.attempts, run, now.value.resolved));
      }
    }
    forall p: Path | LastOver(run.attempts, run, p).Counted?
      ensures Output(observed.files, p) == Some(LastOver(run.attempts, run, p).digest)
    {
      assert Records(receipts, p, LastOver(run.attempts, run, p));
    }
  }

  /** A later attempt that does not complete forfeits the receipt: its file alone makes the run clarify. */
  lemma UnfinishedOverwriteRejects(
    run: SourceRun, observed: Snapshot, w: Workspace, batches: seq<seq<Write>>, visible: set<Path>, seen: set<Path>,
    path: Path)
    requires run.baseline.Some? && w.Valid() && Evolved(run, observed, w, batches, visible, seen)
    requires path in visible && path in w.files && LastWritten(Performed(batches), path).Some?
    requires LastWritten(Performed(batches), path).value != w.files[path].digest
    requires !LastWriterCompleted(run.attempts, batches, run.log, path)
    ensures !Accepts(run, observed)
  {
    EvolutionAcceptedIff(run, observed, w, batches, visible, seen);
    AfterHolds(w, Performed(batches));
    assert !Accounted(run, w, batches, visible, path);
  }
}
