/**
 Project-source evidence: the pinned baseline snapshot of a run, the receipts of its scoped
 writes, and the test that every change between the baseline and a fresh snapshot has a receipt.

 Digests are identifiers (SHA-256 taken as injective), so a snapshot serves as its own revision.
 */
module SourceEvidence {
  import opened Options
  import opened RunModel

  type Path = nat
  type Digest = nat

  datatype Fingerprint = Fingerprint(path: Path, resolved: Path, digest: Digest, symlink: bool, executable: bool)

  datatype Snapshot = Snapshot(project: Id, head: Id, policy: Id, files: seq<Fingerprint>) {
    /** The validated form: unique paths in increasing order. */
    predicate Valid() { forall i, j :: 0 <= i < j < |files| ==> files[i].path < files[j].path }

    predicate SamePlace(other: Snapshot) { project == other.project && head == other.head && policy == other.policy }
  }

  /** One line of an attempt's verified scoped writes. */
  datatype Receipt = Receipt(path: Path, digest: Digest, run: Id)

  datatype Logged = Logged(trigger: Trigger, execution: Option<Id>)

  datatype SourceAttempt = SourceAttempt(
    id: Id, node: Node, outcome: AttemptOutcome, interrupts: seq<int>, writes: seq<Receipt>)

  datatype SourceRun = SourceRun(
    id: Id, baseline: Option<Snapshot>, log: seq<Logged>, attempts: seq<SourceAttempt>, progress: Option<Progress>)

  datatype Reason = Unexplained | NewLinkOrExecutable | MetadataChanged

  datatype Refusal =
    | NoBaseline
    | UnfinishedAttempt
    | SourceMoved
    | OutputMissing(path: Path)
    | Changed(path: Path, why: Reason)

  /** The pinned baseline still identifies the source, or why it does not. */
  datatype Verdict = Same(revision: Snapshot) | Rejects(error: Refusal)

  // ----- receipts -----

  predicate PausedByHumanOrBudget(a: SourceAttempt, log: seq<Logged>, index: int) {
    && 0 <= index < |log|
    && log[index].execution == Some(a.id)
    && (log[index].trigger.ManualCheckpoint? || log[index].trigger.BudgetExceeded?)
  }

  /** An attempt whose writes count: it succeeded, or was only paused after its work. */
  predicate Completed(a: SourceAttempt, log: seq<Logged>) {
    || a.outcome.Succeeded?
    || (a.outcome.Interrupted? && a.interrupts != []
        && forall k :: 0 <= k < |a.interrupts| ==> PausedByHumanOrBudget(a, log, a.interrupts[k]))
  }

  /** What became of the last write to a path: a digest that counts, or a write that does not. */
  datatype LastWrite = NeverWritten | Counted(digest: Digest) | Forfeited

  /** What one attempt's receipts make of it. */
  function LastIn(earlier: LastWrite, writes: seq<Receipt>, completed: bool, run: Id, path: Path): LastWrite {
    if writes == [] then earlier
    else
      var w := writes[|writes| - 1];
      if w.path != path then LastIn(earlier, writes[..|writes| - 1], completed, run, path)
      else if completed && w.run == run then Counted(w.digest)
      else Forfeited
  }

  function LastOver(attempts: seq<SourceAttempt>, run: SourceRun, path: Path): LastWrite {
    if attempts == [] then NeverWritten
    else
      var a := attempts[|attempts| - 1];
      LastIn(LastOver(attempts[..|attempts| - 1], run, path), a.writes, Completed(a, run.log), run.id, path)
  }

  /** The dictionary of digests agrees with the last write to a path. */
  predicate Records(digests: map<Path, Digest>, path: Path, last: LastWrite) {
    if path in digests then last == Counted(digests[path]) else !last.Counted?
  }

  ghost predicate Verifies(digests: map<Path, Digest>, attempts: seq<SourceAttempt>, run: SourceRun) {
    forall p: Path :: Records(digests, p, LastOver(attempts, run, p))
  }

  /** The inner loop: what one more attempt does to the dictionary. */
  method RecordWrites(start: map<Path, Digest>, a: SourceAttempt, run: SourceRun, completed: bool,
      ghost before: seq<SourceAttempt>)
    returns (digests: map<Path, Digest>)
    requires Verifies(start, before, run) && completed == Completed(a, run.log)
    ensures Verifies(digests, before + [a], run)
  {
    digests := start;
    for j := 0 to |a.writes|
      invariant forall p: Path ::
        Records(digests, p, LastIn(LastOver(before, run, p), a.writes[..j], completed, run.id, p))
    {
      var w := a.writes[j];
      assert a.writes[..j + 1][..j] == a.writes[..j] && a.writes[..j + 1][j] == w;
      if completed && w.run == run.id {
        digests := digests[w.path := w.digest];
      } else {
        digests := digests - {w.path};
      }
    }
    assert a.writes[..|a.writes|] == a.writes;
    assert (before + [a])[..|before|] == before;
  }

  /** Whether an attempt's writes count: it succeeded, or every one of its interrupts only paused it. */
  method IsCompleted(a: SourceAttempt, log: seq<Logged>) returns (completed: bool)
    ensures completed <==> Completed(a, log)
  {
    if a.outcome == Succeeded {
      return true;
    }
    if a.outcome != Interrupted || a.interrupts == [] {
      return false;
    }
    for k := 0 to |a.interrupts|
      invariant forall m :: 0 <= m < k ==> PausedByHumanOrBudget(a, log, a.interrupts[m])
    {
      var index := a.interrupts[k];
      if index < 0 || index >= |log| || log[index].execution != Some(a.id) {
        return false;
      }
      if log[index].trigger != ManualCheckpoint && log[index].trigger != BudgetExceeded {
        return false;
      }
    }
    return true;
  }

  /** `verified_run_write_digests`. */
  method VerifiedWrites(run: SourceRun) returns (digests: map<Path, Digest>)
    ensures Verifies(digests, run.attempts, run)
  {
    digests := map[];
    for i := 0 to |run.attempts|
      invariant Verifies(digests, run.attempts[..i], run)
    {
      var a := run.attempts[i];
      assert run.attempts[..i] + [a] == run.attempts[..i + 1];
      var completed := IsCompleted(a, run.log);
      digests := RecordWrites(digests, a, run, completed, run.attempts[..i]);
    }
    assert run.attempts[..|run.attempts|] == run.attempts;
  }

  // ----- revalidation -----

  function Find(files: seq<Fingerprint>, path: Path): (r: Option<Fingerprint>)
    ensures r.Some? ==> r.value in files && r.value.path == path
    ensures r.None? ==> forall f :: f in files ==> f.path != path
  {
    if files == [] then None
    else if files[|files| - 1].path == path then Some(files[|files| - 1])
    else Find(files[..|files| - 1], path)
  }

  /** The digest recorded for a resolved path: the last listed file that resolves to it. */
  function Output(files: seq<Fingerprint>, resolved: Path): (r: Option<Digest>)
    ensures r.Some? ==> exists f :: f in files && f.resolved == resolved && f.digest == r.value
    ensures r.None? ==> forall f :: f in files ==> f.resolved != resolved
  {
    if files == [] then None
    else if files[|files| - 1].resolved == resolved then Some(files[|files| - 1].digest)
    else Output(files[..|files| - 1], resolved)
  }

  function Lookup<K, V>(m: map<K, V>, k: K): Option<V> { if k in m then Some(m[k]) else None }

  /** What is wrong with one path, comparing its two fingerprints. */
  function Fault(was: Option<Fingerprint>, now: Option<Fingerprint>, digests: map<Path, Digest>): Option<Reason> {
    if was == now then None
    else if now.None? || Lookup(digests, now.value.resolved) != Some(now.value.digest) then Some(Unexplained)
    else if was.None? then
      if now.value.symlink || now.value.resolved != now.value.path || now.value.executable
        then Some(NewLinkOrExecutable) else None
    else if (was.value.resolved, was.value.symlink, was.value.executable) != (now.value.resolved, now.value.symlink,
      now.value.executable)
      then Some(MetadataChanged)
    else None
  }

  function FaultAt(baseline: Snapshot, observed: Snapshot, digests: map<Path, Digest>, path: Path): Option<Reason> {
    Fault(Find(baseline.files, path), Find(observed.files, path), digests)
  }

  ghost predicate OutputsInPlace(observed: Snapshot, digests: map<Path, Digest>) {
    forall p :: p in digests ==> Output(observed.files, p) == Some(digests[p])
  }

  /** Nothing but the writes with a receipt separates the two snapshots. */
  ghost predicate Explained(baseline: Snapshot, observed: Snapshot, digests: map<Path, Digest>) {
    && baseline.SamePlace(observed)
    && OutputsInPlace(observed, digests)
    && forall path: Path :: FaultAt(baseline, observed, digests, path).None?
  }

  ghost predicate IndexedByPath(index: map<Path, Fingerprint>, files: seq<Fingerprint>) {
    forall p: Path :: Lookup(index, p) == Find(files, p)
  }

  method IndexFiles(files: seq<Fingerprint>) returns (index: map<Path, Fingerprint>, outputs: map<Path, Digest>)
    ensures IndexedByPath(index, files)
    ensures forall p: Path :: Lookup(outputs, p) == Output(files, p)
  {
    index, outputs := map[], map[];
    for i := 0 to |files|
      invariant IndexedByPath(index, files[..i])
      invariant forall p: Path :: Lookup(outputs, p) == Output(files[..i], p)
    {
      assert files[..i + 1][..i] == files[..i] && files[..i + 1][i] == files[i];
      index := index[files[i].path := files[i]];
      outputs := outputs[files[i].resolved := files[i].digest];
    }
    assert files[..|files|] == files;
  }

  lemma {:induction false} HasLeast(s: set<Path>) returns (least: Path)
    requires s != {}
    ensures least in s && forall p :: p in s ==> least <= p
    decreases s
  {
    var p :| p in s;
    if s == {p} {
      least := p;
    } else {
      var q := HasLeast(s - {p});
      assert forall x :: x in s ==> x == p || x in s - {p};
      least := if p < q then p else q;
    }
  }

  /** `revalidate_project_source`: accept, or name a path and what is wrong with it. */
  method Revalidate(baseline: Snapshot, observed: Snapshot, digests: map<Path, Digest>) returns (r: Verdict)
    ensures r.Same? <==> Explained(baseline, observed, digests)
    ensures r.Same? ==> r.revision == baseline
    ensures r.Rejects? && r.error.Changed? ==>
      && FaultAt(baseline, observed, digests, r.error.path) == Some(r.error.why)
      && forall p: Path :: p < r.error.path ==> FaultAt(baseline, observed, digests, p).None?
    ensures r.Rejects? && r.error.OutputMissing? ==>
      r.error.path in digests && Output(observed.files, r.error.path) != Some(digests[r.error.path])
    ensures r.Rejects? && r.error.SourceMoved? <==> !baseline.SamePlace(observed)
    ensures r.Rejects? ==> r.error.Changed? || r.error.OutputMissing? || r.error.SourceMoved?
  {
    if baseline.project != observed.project || baseline.head != observed.head || baseline.policy != observed.policy {
      return Rejects(SourceMoved);
    }
    var before, _ := IndexFiles(baseline.files);
    var after, outputs := IndexFiles(observed.files);
    var receipts := digests.Keys;
    while receipts != {}
      invariant receipts <= digests.Keys
      invariant forall p :: p in digests && p !in receipts ==> Output(observed.files, p) == Some(digests[p])
      decreases receipts
    {
      var p :| p in receipts;
      if Lookup(outputs, p) != Some(digests[p]) {
        return Rejects(OutputMissing(p));
      }
      receipts := receipts - {p};
    }
    var rest := before.Keys + after.Keys;
    while rest != {}
      invariant forall p: Path :: p !in rest ==> FaultAt(baseline, observed, digests, p).None?
      invariant rest <= before.Keys + after.Keys
      decreases rest
    {
      ghost var least := HasLeast(rest);
      var p :| p in rest && forall q :: q in rest ==> p <= q;
      var fault := Fault(Lookup(before, p), Lookup(after, p), digests);
      assert FaultAt(baseline, observed, digests, p) == fault;
      if fault.Some? {
        return Rejects(Changed(p, fault.value));
      }
      rest := rest - {p};
    }
    return Same(baseline);
  }

  /** One created but unstarted attempt, named by the cursor, is the only unfinished attempt allowed. */
  predicate OnlyUnstarted(run: SourceRun) {
    var unfinished := UnfinishedAttempts(run.attempts);
    || unfinished == []
    || (|unfinished| == 1 && run.progress.Some? && run.progress.value.stage.AttemptCreated?
        && run.progress.value.execution == Some(unfinished[0].id) && run.progress.value.nextNode == unfinished[0].node)
  }

  function UnfinishedAttempts(attempts: seq<SourceAttempt>): seq<SourceAttempt> {
    if attempts == [] then []
    else if attempts[0].outcome.Unfinished? then [attempts[0]] + UnfinishedAttempts(attempts[1..])
    else UnfinishedAttempts(attempts[1..])
  }

  /** The unfinished attempts, collected in order, against the cursor. */
  method IsSettled(run: SourceRun) returns (settled: bool)
    ensures settled <==> OnlyUnstarted(run)
  {
    var unfinished: seq<SourceAttempt> := [];
    for i := 0 to |run.attempts|
      invariant unfinished == UnfinishedAttempts(run.attempts[..i])
    {
      UnfinishedOneMore(run.attempts[..i], run.attempts[i]);
      assert run.attempts[..i] + [run.attempts[i]] == run.attempts[..i + 1];
      if run.attempts[i].outcome == Unfinished {
        unfinished := unfinished + [run.attempts[i]];
      }
    }
    assert run.attempts[..|run.attempts|] == run.attempts;
    if unfinished == [] {
      return true;
    }
    if |unfinished| > 1 || run.progress.None? || run.progress.value.stage != AttemptCreated {
      return false;
    }
    var created := unfinished[0];
    settled := run.progress.value.execution == Some(created.id) && run.progress.value.nextNode == created.node;
  }

  lemma {:induction false} UnfinishedOneMore(attempts: seq<SourceAttempt>, a: SourceAttempt)
    ensures UnfinishedAttempts(attempts + [a]) ==
      UnfinishedAttempts(attempts) + if a.outcome.Unfinished? then [a] else []
  {
    if attempts != [] {
      UnfinishedOneMore(attempts[1..], a);
      assert (attempts + [a])[1..] == attempts[1..] + [a];
    }
  }

  /** `current_project_source_revision`. */
  method CurrentRevision(run: SourceRun, observed: Snapshot) returns (r: Verdict)
    ensures r.Same? <==> Accepts(run, observed)
    ensures r.Same? ==> Some(r.revision) == run.baseline
    ensures run.baseline.None? ==> r == Rejects(NoBaseline)
    ensures run.baseline.Some? && !OnlyUnstarted(run) ==> r == Rejects(UnfinishedAttempt)
  {
    if run.baseline.None? {
      return Rejects(NoBaseline);
    }
    var settled := IsSettled(run);
    if !settled {
      return Rejects(UnfinishedAttempt);
    }
    var digests := VerifiedWrites(run);
    VerifiedIsReceipts(run, digests);
    r := Revalidate(run.baseline.value, observed, digests);
  }

  /** The receipts that count, as a value. */
  ghost function Receipts(run: SourceRun): (digests: map<Path, Digest>)
    ensures Verifies(digests, run.attempts, run)
  {
    ReceiptPathsCover(run.attempts, run);
    map p | p in ReceiptPaths(run.attempts) &&
      LastOver(run.attempts, run, p).Counted? :: LastOver(run.attempts, run, p).digest
  }

  function ReceiptPaths(attempts: seq<SourceAttempt>): set<Path> {
    if attempts == [] then {}
    else ReceiptPaths(attempts[..|attempts| - 1]) + (set w | w in attempts[|attempts| - 1].writes :: w.path)
  }

  lemma {:induction false} ReceiptPathsCover(attempts: seq<SourceAttempt>, run: SourceRun)
    ensures forall p: Path :: !LastOver(attempts, run, p).NeverWritten? ==> p in ReceiptPaths(attempts)
  {
    if attempts != [] {
      var before := attempts[..|attempts| - 1];
      var a := attempts[|attempts| - 1];
      ReceiptPathsCover(before, run);
      forall p: Path | !LastOver(attempts, run, p).NeverWritten? ensures p in ReceiptPaths(attempts) {
        LastInListed(LastOver(before, run, p), a.writes, Completed(a, run.log), run.id, p);
      }
    }
  }

  /** Receipts for other paths change nothing; a receipt for this path always does. */
  lemma {:induction false} LastInListed(earlier: LastWrite, writes: seq<Receipt>, completed: bool, run: Id, path: Path)
    ensures (forall j :: 0 <= j < |writes| ==> writes[j].path != path) ==>
      LastIn(earlier, writes, completed, run, path) == earlier
    ensures (exists j :: 0 <= j < |writes| && writes[j].path == path) ==>
      !LastIn(earlier, writes, completed, run, path).NeverWritten?
  {
    if writes != [] {
      var before := writes[..|writes| - 1];
      LastInListed(earlier, before, completed, run, path);
      assert forall j :: 0 <= j < |before| ==> before[j] == writes[j];
    }
  }

  lemma VerifiedIsReceipts(run: SourceRun, digests: map<Path, Digest>)
    requires Verifies(digests, run.attempts, run)
    ensures digests == Receipts(run)
  {
    var all := Receipts(run);
    forall p: Path ensures Lookup(digests, p) == Lookup(all, p) {
      assert Records(digests, p, LastOver(run.attempts, run, p)) && Records(all, p, LastOver(run.attempts, run, p));
    }
    assert digests.Keys == all.Keys by {
      forall p: Path ensures p in digests <==> p in all { assert Lookup(digests, p) == Lookup(all, p); }
    }
    forall p | p in digests ensures digests[p] == all[p] { assert Lookup(digests, p) == Lookup(all, p); }
  }

  ghost predicate Accepts(run: SourceRun, observed: Snapshot) {
    run.baseline.Some? && OnlyUnstarted(run) && Explained(run.baseline.value, observed, Receipts(run))
  }
}
