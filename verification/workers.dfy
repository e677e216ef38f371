/**
 Worker supervision for one run: the launch lock, the durable worker record, the launchers,
 observers, cancellers and guarded human actions that share it, and the worker processes.

 Each read-then-write of the record is one step.  Process ids are never reused, and ending a
 process either works or finds none.
 */
module Workers {
  import opened Options

  type WorkerId = nat
  type Pid = nat

  datatype Status = Starting | Running | Cancelling | Succeeded | Failed | Cancelled | Crashed {
    predicate Active() { Starting? || Running? || Cancelling? }
  }

  datatype Record = Record(worker: WorkerId, status: Status, pid: Option<Pid>, cancel: bool)

  /** How far one call of `launch_worker` has come.  The first three stages hold the launch lock. */
  datatype Launch =
    | Locked | Checked | Written
    | Reserved | Spawned(pid: Pid) | Recorded(pid: Pid) | Delivered(pid: Pid)
    | Ended

  datatype Stage = Waiting | Accepted | Finished

  /** A worker process; `worker` is the id in the request written for it. */
  datatype Process = Process(worker: WorkerId, stage: Stage, alive: bool)

  datatype Holder = Launcher(worker: WorkerId) | Guard(id: nat)

  datatype State = State(
    record: Option<Record>,
    lock: Option<Holder>,
    guardPassed: bool,
    launches: map<WorkerId, Launch>,
    processes: map<Pid, Process>,
    cancelled: set<WorkerId>,
    ended: map<WorkerId, Status>)
  {
    predicate RecordActive() { record.Some? && record.value.status.Active() }

    predicate Exists(pid: Pid) { pid in processes && processes[pid].alive }

    /** The process may still report, or is reporting. */
    predicate Working(pid: Pid) { Exists(pid) && !processes[pid].stage.Finished? }

    predicate At(w: WorkerId, stage: Launch) { w in launches && launches[w] == stage }
  }

  const NOTHING := State(None, None, false, map[], map[], {}, map[])

  datatype Event =
    | BeginLaunch(worker: WorkerId) | Check(worker: WorkerId) | Reserve(worker: WorkerId) | Unlock(worker: WorkerId)
    | Spawn(worker: WorkerId, pid: Pid) | RecordPid(worker: WorkerId) | Deliver(worker: WorkerId)
    | FailLaunch(worker: WorkerId)
    | Observe | Cancel
    | BeginGuard(guard: nat) | CheckGuard | EndGuard
    | Accept(pid: Pid) | Finish(pid: Pid, ok: bool) | Die(pid: Pid)

  function Fresh(w: WorkerId): Record { Record(w, Starting, None, false) }

  /** `observe_worker`: an active record whose process is gone becomes terminal. */
  function ObserveRecord(s: State): Option<Record> {
    if s.RecordActive() && s.record.value.pid.Some? && !s.Exists(s.record.value.pid.value)
    then Some(s.record.value.(status := if s.record.value.cancel then Cancelled else Crashed))
    else s.record
  }

  function Observed(s: State): State { s.(record := ObserveRecord(s)) }

  // ----- steps -----

  predicate HasPid(s: State, w: WorkerId) { w in s.launches && (s.launches[w].Spawned? || s.launches[w].Recorded?) }

  predicate Enabled(s: State, e: Event) {
    match e
    case BeginLaunch(w) => s.lock.None? && w !in s.launches
    case Check(w) => s.At(w, Locked)
    case Reserve(w) => s.At(w, Checked)
    case Unlock(w) => s.At(w, Written)
    case Spawn(w, pid) => s.At(w, Reserved) && pid !in s.processes
    case RecordPid(w) => w in s.launches && s.launches[w].Spawned?
    // Writing the request to a process that is gone fails instead.
    case Deliver(w) => w in s.launches && s.launches[w].Recorded? && s.Exists(s.launches[w].pid)
    case FailLaunch(w) => s.At(w, Reserved) || HasPid(s, w)
    case Observe => s.record.Some?
    case Cancel => s.record.Some?
    case BeginGuard(g) => s.lock.None?
    case CheckGuard => s.lock.Some? && s.lock.value.Guard? && !s.guardPassed
    case EndGuard => s.lock.Some? && s.lock.value.Guard? && s.guardPassed
    // Only a delivered request can be read, and the record is there by then.
    case Accept(pid) => s.Exists(pid) && s.processes[pid].stage.Waiting? &&
      s.At(s.processes[pid].worker, Delivered(pid)) && s.record.Some?
    case Finish(pid, ok) => s.Exists(pid) && s.processes[pid].stage.Accepted? && s.record.Some?
    case Die(pid) => s.Exists(pid)
  }

  function CheckLaunch(s: State, w: WorkerId): State {
    var seen := Observed(s);
    if seen.RecordActive() then seen.(launches := s.launches[w := Ended], lock := None)
    else seen.(launches := s.launches[w := Checked])
  }

  function CancelRecord(s: State): State {
    var seen := Observed(s);
    if !seen.RecordActive() || seen.record.value.pid.None? then seen else Marked(seen)
  }

  function Marked(s: State): State
    requires s.record.Some?
  {
    var r := s.record.value;
    s.(record := Some(r.(status := Cancelling, cancel := true)), cancelled := s.cancelled + {r.worker})
  }

  function AcceptRequest(s: State, pid: Pid): State
    requires s.Exists(pid) && s.record.Some?
  {
    var p := s.processes[pid];
    if s.record.value.worker != p.worker then s.(processes := s.processes[pid := p.(stage := Finished)])
    else s.(
      record := Some(s.record.value.(status := Running, pid := Some(pid))),
      processes := s.processes[pid := p.(stage := Accepted)])
  }

  /** The terminal status a worker writes over the latest record. */
  function FinalStatus(r: Record, ok: bool): Status {
    if r.cancel then Cancelled else if ok then Succeeded else Failed
  }

  function FinishWork(s: State, pid: Pid, ok: bool): State
    requires s.Exists(pid) && s.record.Some?
  {
    var p, status := s.processes[pid], FinalStatus(s.record.value, ok);
    s.(
      record := Some(s.record.value.(status := status)),
      processes := s.processes[pid := p.(stage := Finished)],
      ended := s.ended[p.worker := status])
  }

  function GuardCheck(s: State): State {
    var seen := Observed(s);
    if seen.RecordActive() then seen.(lock := None) else seen.(guardPassed := true)
  }

  function Begun(s: State, w: WorkerId): State {
    s.(lock := Some(Launcher(w)), launches := s.launches[w := Locked])
  }

  function Reserving(s: State, w: WorkerId): State {
    s.(record := Some(Fresh(w)), launches := s.launches[w := Written])
  }

  function Unlocked(s: State, w: WorkerId): State { s.(lock := None, launches := s.launches[w := Reserved]) }

  function Born(s: State, w: WorkerId, pid: Pid): State {
    s.(launches := s.launches[w := Spawned(pid)], processes := s.processes[pid := Process(w, Waiting, true)])
  }

  function PidRecorded(s: State, w: WorkerId): State
    requires w in s.launches && s.launches[w].Spawned?
  {
    var pid := s.launches[w].pid;
    s.(record := Some(Fresh(w).(pid := Some(pid))), launches := s.launches[w := Recorded(pid)])
  }

  /** The request is written for the process to read. */
  function Handed(s: State, w: WorkerId): State
    requires w in s.launches && s.launches[w].Recorded?
  {
    s.(launches := s.launches[w := Delivered(s.launches[w].pid)])
  }

  /** The launcher writes its failure over whatever record there is, from its own old copy. */
  function GivenUp(s: State, w: WorkerId): State {
    s.(record := Some(Fresh(w).(status := Failed)), launches := s.launches[w := Ended])
  }

  function Dead(s: State, pid: Pid): State
    requires pid in s.processes
  {
    s.(processes := s.processes[pid := s.processes[pid].(alive := false)])
  }

  function Next(s: State, e: Event): State
    requires Enabled(s, e)
  {
    match e
    case BeginLaunch(w) => Begun(s, w)
    case Check(w) => CheckLaunch(s, w)
    case Reserve(w) => Reserving(s, w)
    case Unlock(w) => Unlocked(s, w)
    case Spawn(w, pid) => Born(s, w, pid)
    case RecordPid(w) => PidRecorded(s, w)
    case Deliver(w) => Handed(s, w)
    case FailLaunch(w) => GivenUp(s, w)
    case Observe => Observed(s)
    case Cancel => CancelRecord(s)
    case BeginGuard(g) => s.(lock := Some(Guard(g)), guardPassed := false)
    case CheckGuard => GuardCheck(s)
    case EndGuard => s.(lock := None, guardPassed := false)
    case Accept(pid) => AcceptRequest(s, pid)
    case Finish(pid, ok) => FinishWork(s, pid, ok)
    case Die(pid) => Dead(s, pid)
  }

  /**
   A cancellation can be asked of any record.  It marks the worker of an active one whose process is still
   there; of an active one whose process is gone it only records the end; any other it leaves alone.
   */
  lemma CancelTakesEffect(s: State)
    requires s.record.Some?
    ensures Enabled(s, Cancel)
    ensures var r, t := s.record.value, Next(s, Cancel);
      && t == s.(record := t.record, cancelled := t.cancelled)
      && if r.pid.Some? && (r.status == Starting || r.status == Running || r.status == Cancelling) then
           if r.pid.value in s.processes && s.processes[r.pid.value].alive then
             t.record == Some(Record(r.worker, Cancelling, r.pid, true)) && t.cancelled == s.cancelled + {r.worker}
           else
             t.record == Some(r.(status := if r.cancel then Cancelled else Crashed)) && t.cancelled == s.cancelled
         else t == s
  {
  }

  /** What a worker that reports its end leaves: cancelled if that was asked, else how it went. */
  lemma FinishTakesEffect(s: State, pid: Pid, ok: bool)
    requires s.record.Some? && pid in s.processes &&
      s.processes[pid] == Process(s.processes[pid].worker, Accepted, true)
    ensures Enabled(s, Finish(pid, ok))
    ensures var r, p, t := s.record.value, s.processes[pid], Next(s, Finish(pid, ok));
      && t == s.(record := t.record, processes := t.processes, ended := t.ended)
      && t.record == Some(r.(status := t.record.value.status)) && t.ended == s.ended[p.worker := t.record.value.status]
      && t.processes == s.processes[pid := Process(p.worker, Finished, true)]
      && (t.record.value.status == Cancelled <==> r.cancel)
      && (t.record.value.status == Succeeded <==> !r.cancel && ok)
      && (t.record.value.status == Failed <==> !r.cancel && !ok)
  {
  }

  /** A worker takes the run over only under its own record; under another's it goes away. */
  lemma AcceptTakesEffect(s: State, pid: Pid)
    requires Enabled(s, Accept(pid))
    ensures var r, p, t := s.record.value, s.processes[pid], Next(s, Accept(pid));
      if r.worker == p.worker then
        t == s.(record := Some(Record(r.worker, Running, Some(pid), r.cancel)),
                processes := s.processes[pid := Process(p.worker, Accepted, true)])
      else t == s.(processes := s.processes[pid := Process(p.worker, Finished, true)])
  {
  }

  // ----- runs -----

  /** The events can happen one after the other and lead from one state to another. */
  predicate Runs(s: State, events: seq<Event>, t: State)
    decreases |events|
  {
    if events == [] then s == t else Enabled(s, events[0]) && Runs(Next(s, events[0]), events[1..], t)
  }

  /** A launcher that gives up finds its own record, or one nobody is using; it could check this. */
  predicate Harmless(s: State, e: Event) {
    e.FailLaunch? && s.record.Some? ==> s.record.value.worker == e.worker || !s.RecordActive()
  }

  /** The worker is between accepting its request and writing its terminal record. */
  predicate Inside(s: State, pid: Pid) { s.Exists(pid) && s.processes[pid].stage.Accepted? }

  /** A worker that would enter, or stay inside, even after its record was overwritten. */
  predicate Exposed(s: State, x: WorkerId) {
    && x in s.launches
    && match s.launches[x]
       case Written => true
       case Reserved => true
       case Spawned(_) => true
       case Delivered(pid) => Inside(s, pid)
       case _ => false
  }

  /** A launcher that gives up overwrites the record of no such worker. */
  predicate Safe(s: State, e: Event) {
    e.FailLaunch? ==> forall x :: x in s.launches && x != e.worker ==> !Exposed(s, x)
  }

  /** A run in which every launcher that gives up is harmless. */
  predicate OrderlyRuns(s: State, events: seq<Event>, t: State)
    decreases |events|
  {
    if events == [] then s == t
    else Enabled(s, events[0]) && Harmless(s, events[0]) && OrderlyRuns(Next(s, events[0]), events[1..], t)
  }

  /** A run in which every launcher that gives up is safe. */
  predicate SafeRuns(s: State, events: seq<Event>, t: State)
    decreases |events|
  {
    if events == [] then s == t
    else Enabled(s, events[0]) && Safe(s, events[0]) && SafeRuns(Next(s, events[0]), events[1..], t)
  }

  // ----- the invariant -----

  /** A worker holds the run: reserved and on its way, or its process can still report. */
  predicate Claiming(s: State, w: WorkerId) {
    w in s.launches &&
    match s.launches[w]
    case Locked => false
    case Checked => false
    case Written => true
    case Reserved => true
    case Spawned(_) => true
    case Recorded(pid) => s.Working(pid)
    case Delivered(pid) => s.Working(pid)
    case Ended => false
  }

  /** The record names the worker that holds the run. */
  predicate Named(s: State, w: WorkerId) {
    && s.RecordActive() && s.record.value.worker == w && w in s.launches
    && (s.launches[w].Written? || s.launches[w].Reserved? || s.launches[w].Spawned? ==> s.record.value == Fresh(w))
    && (s.launches[w].Recorded? || s.launches[w].Delivered? ==> s.record.value.pid == Some(s.launches[w].pid))
    && (w in s.cancelled ==> s.record.value.cancel)
  }

  /** The record names another worker and will keep doing so; this process leaves as soon as it reads it. */
  predicate Disowned(s: State, w: WorkerId) {
    && w in s.launches && (s.launches[w].Recorded? || s.launches[w].Delivered?)
    && s.launches[w].pid in s.processes && s.processes[s.launches[w].pid].stage.Waiting?
    && s.record.Some? && s.record.value.worker != w
  }

  /** Only workers in `lost` may have lost the record. */
  predicate Held(s: State, w: WorkerId, lost: set<WorkerId>) { Named(s, w) || (w in lost && Disowned(s, w)) }

  predicate ClaimsNamed(s: State, lost: set<WorkerId>) {
    forall w :: w in s.launches && Claiming(s, w) ==> Held(s, w, lost)
  }

  predicate HoldsLock(s: State, w: WorkerId)
    requires w in s.launches
  {
    && (s.launches[w].Locked? || s.launches[w].Checked? || s.launches[w].Written? ==> s.lock == Some(Launcher(w)))
    && (s.launches[w].Checked? ==> !s.RecordActive())
  }

  predicate HasLock(s: State, w: WorkerId) { s.At(w, Locked) || s.At(w, Checked) || s.At(w, Written) }

  predicate LocksOk(s: State) {
    && (forall w :: w in s.launches ==> HoldsLock(s, w))
    && (s.guardPassed ==> s.lock.Some? && s.lock.value.Guard? && !s.RecordActive())
    && (s.lock.Some? && s.lock.value.Launcher? ==> HasLock(s, s.lock.value.worker))
  }

  predicate ProcessOk(s: State, pid: Pid)
    requires pid in s.processes
  {
    var p := s.processes[pid];
    && p.worker in s.launches
    && (s.At(p.worker, Spawned(pid)) || s.At(p.worker, Recorded(pid)) || s.At(p.worker, Delivered(pid)) ||
         s.At(p.worker, Ended))
    && (p.stage.Accepted? ==> s.At(p.worker, Delivered(pid)))
    && (p.worker in s.ended ==> p.stage.Finished?)
  }

  predicate ProcessesOk(s: State) {
    && (forall pid :: pid in s.processes ==> ProcessOk(s, pid))
    && (forall w :: w in s.launches && (HasPid(s, w) || s.launches[w].Delivered?) ==>
          s.launches[w].pid in s.processes && s.processes[s.launches[w].pid].worker == w)
  }

  /** Where cancellations and endings can stand. */
  predicate HistoryOk(s: State) {
    && (forall w :: w in s.cancelled ==>
         w in s.launches && (s.launches[w].Recorded? || s.launches[w].Delivered? || s.launches[w].Ended?))
    && (forall w :: w in s.ended ==> w in s.launches && (s.launches[w].Delivered? || s.launches[w].Ended?))
    && (forall w :: w in s.cancelled && w in s.ended ==> !s.ended[w].Succeeded?)
    && (s.record.Some? ==> s.record.value.worker in s.launches)
    && (s.record.Some? && s.record.value.pid.Some? ==>
          var stage := s.launches[s.record.value.worker];
          stage.Recorded? || stage.Delivered? || stage.Ended?)
    && (s.RecordActive() ==> s.record.value.worker !in s.ended)
  }

  predicate Inv(s: State, lost: set<WorkerId>) { ClaimsNamed(s, lost) && LocksOk(s) && ProcessesOk(s) && HistoryOk(s) }

  // ----- every step keeps it -----

  /** Observation never takes the record from a worker that holds the run. */
  lemma ObservedKeeps(s: State, lost: set<WorkerId>)
    requires Inv(s, lost)
    ensures Inv(Observed(s), lost) && (Observed(s).RecordActive() ==> Observed(s) == s)
  {
    var t := Observed(s);
    forall w | w in t.launches && Claiming(t, w) ensures Held(t, w, lost) {
      assert Claiming(s, w) && Held(s, w, lost);
    }
    forall w | w in t.launches ensures HoldsLock(t, w) { assert HoldsLock(s, w); }
    forall pid | pid in t.processes ensures ProcessOk(t, pid) { assert ProcessOk(s, pid); }
  }

  lemma BeginKeepsClaims(s: State, w: WorkerId, lost: set<WorkerId>)
    requires ClaimsNamed(s, lost) && LocksOk(s) && s.lock.None? && w !in s.launches
    ensures ClaimsNamed(Begun(s, w), lost) && LocksOk(Begun(s, w))
  {
    var t := Begun(s, w);
    forall x | x in t.launches && Claiming(t, x) ensures Held(t, x, lost) {
      assert x in s.launches && Claiming(s, x) ==> Held(s, x, lost);
    }
    forall x | x in t.launches ensures HoldsLock(t, x) {
      assert x in s.launches ==> HoldsLock(s, x);
    }
  }

  lemma BeginKeepsRest(s: State, w: WorkerId)
    requires ProcessesOk(s) && HistoryOk(s) && w !in s.launches
    ensures ProcessesOk(Begun(s, w)) && HistoryOk(Begun(s, w))
  {
    var t := Begun(s, w);
    forall pid | pid in t.processes ensures ProcessOk(t, pid) {
      assert pid in s.processes ==> ProcessOk(s, pid);
    }
  }

  lemma ReserveKeepsClaims(s: State, w: WorkerId, lost: set<WorkerId>)
    requires ClaimsNamed(s, lost) && LocksOk(s) && HistoryOk(s) && s.At(w, Checked)
    ensures ClaimsNamed(Reserving(s, w), lost) && LocksOk(Reserving(s, w))
  {
    var t := Reserving(s, w);
    assert HoldsLock(s, w);
    forall x | x in t.launches && Claiming(t, x) ensures Held(t, x, lost) {
      assert x in s.launches && Claiming(s, x) ==> Held(s, x, lost);
    }
    forall x | x in t.launches ensures HoldsLock(t, x) {
      assert x in s.launches ==> HoldsLock(s, x);
    }
  }

  lemma ReserveKeepsRest(s: State, w: WorkerId)
    requires ProcessesOk(s) && HistoryOk(s) && s.At(w, Checked)
    ensures ProcessesOk(Reserving(s, w)) && HistoryOk(Reserving(s, w))
  {
    var t := Reserving(s, w);
    forall pid | pid in t.processes ensures ProcessOk(t, pid) {
      assert pid in s.processes ==> ProcessOk(s, pid);
    }
  }

  lemma UnlockKeepsClaims(s: State, w: WorkerId, lost: set<WorkerId>)
    requires ClaimsNamed(s, lost) && LocksOk(s) && s.At(w, Written)
    ensures ClaimsNamed(Unlocked(s, w), lost) && LocksOk(Unlocked(s, w))
  {
    var t := Unlocked(s, w);
    assert HoldsLock(s, w) && Claiming(s, w) && Held(s, w, lost);
    forall x | x in t.launches && Claiming(t, x) ensures Held(t, x, lost) {
      assert x in s.launches && Claiming(s, x) ==> Held(s, x, lost);
    }
    forall x | x in t.launches ensures HoldsLock(t, x) {
      assert x in s.launches ==> HoldsLock(s, x);
    }
  }

  lemma UnlockKeepsRest(s: State, w: WorkerId)
    requires ProcessesOk(s) && HistoryOk(s) && s.At(w, Written)
    ensures ProcessesOk(Unlocked(s, w)) && HistoryOk(Unlocked(s, w))
  {
    var t := Unlocked(s, w);
    forall pid | pid in t.processes ensures ProcessOk(t, pid) {
      assert pid in s.processes ==> ProcessOk(s, pid);
    }
  }

  lemma SpawnKeepsClaims(s: State, w: WorkerId, born: Pid, lost: set<WorkerId>)
    requires ClaimsNamed(s, lost) && LocksOk(s) && s.At(w, Reserved)
    requires ProcessesOk(s) && born !in s.processes
    ensures ClaimsNamed(Born(s, w, born), lost) && LocksOk(Born(s, w, born))
  {
    var t := Born(s, w, born);
    assert Claiming(s, w) && Held(s, w, lost);
    forall x | x in s.launches && (HasPid(s, x) || s.launches[x].Delivered?) ensures s.launches[x].pid != born {}
    forall x | x in t.launches && Claiming(t, x) ensures Held(t, x, lost) {
      assert x in s.launches && Claiming(s, x) ==> Held(s, x, lost);
    }
    forall x | x in t.launches ensures HoldsLock(t, x) {
      assert x in s.launches ==> HoldsLock(s, x);
    }
  }

  lemma SpawnKeepsRest(s: State, w: WorkerId, born: Pid)
    requires ProcessesOk(s) && HistoryOk(s) && s.At(w, Reserved) && born !in s.processes
    ensures ProcessesOk(Born(s, w, born)) && HistoryOk(Born(s, w, born))
  {
    var t := Born(s, w, born);
    forall pid | pid in t.processes ensures ProcessOk(t, pid) {
      assert pid in s.processes ==> ProcessOk(s, pid);
    }
  }

  lemma RecordKeepsClaims(s: State, w: WorkerId, lost: set<WorkerId>)
    requires ClaimsNamed(s, lost) && LocksOk(s) && w in s.launches && s.launches[w].Spawned?
    requires HistoryOk(s)
    ensures ClaimsNamed(PidRecorded(s, w), lost) && LocksOk(PidRecorded(s, w))
  {
    var t := PidRecorded(s, w);
    assert Claiming(s, w) && Held(s, w, lost);
    forall x | x in t.launches && Claiming(t, x) ensures Held(t, x, lost) {
      assert x in s.launches && Claiming(s, x) ==> Held(s, x, lost);
    }
    forall x | x in t.launches ensures HoldsLock(t, x) {
      assert x in s.launches ==> HoldsLock(s, x);
    }
  }

  lemma RecordKeepsRest(s: State, w: WorkerId)
    requires ProcessesOk(s) && HistoryOk(s) && w in s.launches && s.launches[w].Spawned?
    ensures ProcessesOk(PidRecorded(s, w)) && HistoryOk(PidRecorded(s, w))
  {
    var t := PidRecorded(s, w);
    forall pid | pid in t.processes ensures ProcessOk(t, pid) {
      assert pid in s.processes ==> ProcessOk(s, pid);
    }
  }

  lemma DeliverKeepsClaims(s: State, w: WorkerId, lost: set<WorkerId>)
    requires ClaimsNamed(s, lost) && LocksOk(s) && w in s.launches && s.launches[w].Recorded?
    ensures ClaimsNamed(Handed(s, w), lost) && LocksOk(Handed(s, w))
  {
    var t := Handed(s, w);
    forall x | x in t.launches && Claiming(t, x) ensures Held(t, x, lost) {
      assert x in s.launches && Claiming(s, x) ==> Held(s, x, lost);
    }
    forall x | x in t.launches ensures HoldsLock(t, x) {
      assert x in s.launches ==> HoldsLock(s, x);
    }
  }

  lemma DeliverKeepsRest(s: State, w: WorkerId)
    requires ProcessesOk(s) && HistoryOk(s) && w in s.launches && s.launches[w].Recorded?
    ensures ProcessesOk(Handed(s, w)) && HistoryOk(Handed(s, w))
  {
    var t := Handed(s, w);
    forall pid | pid in t.processes ensures ProcessOk(t, pid) {
      assert pid in s.processes ==> ProcessOk(s, pid);
    }
  }

  lemma DieKeepsClaims(s: State, dead: Pid, lost: set<WorkerId>)
    requires ClaimsNamed(s, lost) && LocksOk(s) && s.Exists(dead)
    ensures ClaimsNamed(Dead(s, dead), lost) && LocksOk(Dead(s, dead))
  {
    var t := Dead(s, dead);
    forall x | x in t.launches && Claiming(t, x) ensures Held(t, x, lost) {
      assert x in s.launches && Claiming(s, x) ==> Held(s, x, lost);
    }
    forall x | x in t.launches ensures HoldsLock(t, x) {
      assert x in s.launches ==> HoldsLock(s, x);
    }
  }

  lemma DieKeepsRest(s: State, dead: Pid)
    requires ProcessesOk(s) && HistoryOk(s) && s.Exists(dead)
    ensures ProcessesOk(Dead(s, dead)) && HistoryOk(Dead(s, dead))
  {
    var t := Dead(s, dead);
    forall pid | pid in t.processes ensures ProcessOk(t, pid) {
      assert pid in s.processes ==> ProcessOk(s, pid);
    }
  }

  // After the look at the record: a launcher gives up on an active one, and goes on otherwise.

  lemma GiveUpKeepsClaims(seen: State, w: WorkerId, lost: set<WorkerId>)
    requires ClaimsNamed(seen, lost) && LocksOk(seen) && seen.At(w, Locked)
    ensures ClaimsNamed(seen.(launches := seen.launches[w := Ended], lock := None), lost) &&
      LocksOk(seen.(launches := seen.launches[w := Ended], lock := None))
  {
    var t := seen.(launches := seen.launches[w := Ended], lock := None);
    assert HoldsLock(seen, w);
    forall x | x in t.launches && Claiming(t, x) ensures Held(t, x, lost) {
      assert x in seen.launches && Claiming(seen, x) ==> Held(seen, x, lost);
    }
    forall x | x in t.launches ensures HoldsLock(t, x) {
      assert x in seen.launches ==> HoldsLock(seen, x);
    }
  }

  lemma GiveUpKeepsProcesses(seen: State, w: WorkerId)
    requires ProcessesOk(seen) && seen.At(w, Locked)
    ensures ProcessesOk(seen.(launches := seen.launches[w := Ended], lock := None))
  {
    var t := seen.(launches := seen.launches[w := Ended], lock := None);
    forall pid | pid in t.processes ensures ProcessOk(t, pid) {
      assert pid in seen.processes ==> ProcessOk(seen, pid);
    }
  }

  lemma GiveUpKeepsHistory(seen: State, w: WorkerId)
    requires HistoryOk(seen) && seen.At(w, Locked)
    ensures HistoryOk(seen.(launches := seen.launches[w := Ended], lock := None))
  {
  }

  lemma GoOnKeepsClaims(seen: State, w: WorkerId, lost: set<WorkerId>)
    requires ClaimsNamed(seen, lost) && LocksOk(seen) && seen.At(w, Locked) && !seen.RecordActive()
    ensures ClaimsNamed(seen.(launches := seen.launches[w := Checked]), lost) &&
      LocksOk(seen.(launches := seen.launches[w := Checked]))
  {
    var t := seen.(launches := seen.launches[w := Checked]);
    assert HoldsLock(seen, w);
    forall x | x in t.launches && Claiming(t, x) ensures Held(t, x, lost) {
      assert x in seen.launches && Claiming(seen, x) ==> Held(seen, x, lost);
    }
    forall x | x in t.launches ensures HoldsLock(t, x) {
      assert x in seen.launches ==> HoldsLock(seen, x);
    }
  }

  lemma GoOnKeepsRest(seen: State, w: WorkerId)
    requires ProcessesOk(seen) && HistoryOk(seen) && seen.At(w, Locked)
    ensures ProcessesOk(seen.(launches := seen.launches[w := Checked])) &&
      HistoryOk(seen.(launches := seen.launches[w := Checked]))
  {
    var t := seen.(launches := seen.launches[w := Checked]);
    forall pid | pid in t.processes ensures ProcessOk(t, pid) {
      assert pid in seen.processes ==> ProcessOk(seen, pid);
    }
  }

  lemma CheckKeeps(s: State, w: WorkerId, lost: set<WorkerId>)
    requires Inv(s, lost) && s.At(w, Locked)
    ensures Inv(CheckLaunch(s, w), lost)
  {
    ObservedKeeps(s, lost);
    if Observed(s).RecordActive() {
      GiveUpKeepsClaims(Observed(s), w, lost);
      GiveUpKeepsProcesses(Observed(s), w);
      GiveUpKeepsHistory(Observed(s), w);
    } else {
      GoOnKeepsClaims(Observed(s), w, lost);
      GoOnKeepsRest(Observed(s), w);
    }
  }

  lemma GuardKeeps(s: State, lost: set<WorkerId>)
    requires Inv(s, lost) && s.lock.Some? && s.lock.value.Guard? && !s.guardPassed
    ensures Inv(GuardCheck(s), lost)
  {
    ObservedKeeps(s, lost);
    var seen := Observed(s);
    if seen.RecordActive() { LockKeeps(seen, None, false, lost); } else { LockKeeps(seen, seen.lock, true, lost); }
  }

  /** Taking, passing and leaving the lock of a guarded action. */
  lemma LockKeeps(s: State, lock: Option<Holder>, passed: bool, lost: set<WorkerId>)
    requires Inv(s, lost)
    requires (s.lock.Some? ==> s.lock.value.Guard?) && (lock.Some? ==> lock.value.Guard?)
    requires passed ==> lock.Some? && !s.RecordActive()
    ensures Inv(s.(lock := lock, guardPassed := passed), lost)
  {
    var t := s.(lock := lock, guardPassed := passed);
    forall x | x in t.launches && Claiming(t, x) ensures Held(t, x, lost) {
      assert x in s.launches && Claiming(s, x) ==> Held(s, x, lost);
    }
    forall x | x in t.launches ensures HoldsLock(t, x) {
      assert x in s.launches ==> HoldsLock(s, x);
    }
    forall pid | pid in t.processes ensures ProcessOk(t, pid) {
      assert pid in s.processes ==> ProcessOk(s, pid);
    }
  }

  /** Cancellation marks exactly the worker the record names. */
  lemma CancelKeeps(s: State, lost: set<WorkerId>)
    requires Inv(s, lost)
    ensures Inv(CancelRecord(s), lost)
  {
    ObservedKeeps(s, lost);
    if Observed(s).RecordActive() && Observed(s).record.value.pid.Some? {
      MarkKeepsClaims(Observed(s), lost);
      MarkKeepsRest(Observed(s));
    }
  }

  lemma MarkKeepsClaims(s: State, lost: set<WorkerId>)
    requires ClaimsNamed(s, lost) && LocksOk(s) && s.RecordActive() && s.record.value.pid.Some?
    ensures ClaimsNamed(Marked(s), lost) && LocksOk(Marked(s))
  {
    var t := Marked(s);
    forall x | x in t.launches && Claiming(t, x) ensures Held(t, x, lost) {
      assert x in s.launches && Claiming(s, x) ==> Held(s, x, lost);
    }
    forall x | x in t.launches ensures HoldsLock(t, x) {
      assert x in s.launches ==> HoldsLock(s, x);
    }
  }

  lemma MarkKeepsRest(s: State)
    requires ProcessesOk(s) && HistoryOk(s) && s.RecordActive() && s.record.value.pid.Some?
    ensures ProcessesOk(Marked(s)) && HistoryOk(Marked(s))
  {
    var t := Marked(s);
    forall pid | pid in t.processes ensures ProcessOk(t, pid) {
      assert pid in s.processes ==> ProcessOk(s, pid);
    }
  }

  /** A process that reads another worker's record leaves; otherwise it was the named one. */
  lemma AcceptFindsNamed(s: State, p: Pid, lost: set<WorkerId>)
    requires ClaimsNamed(s, lost) && Enabled(s, Accept(p))
    ensures s.record.value.worker == s.processes[p].worker ==> s.RecordActive()
  {
    assert Claiming(s, s.processes[p].worker) && Held(s, s.processes[p].worker, lost);
  }

  lemma AcceptKeepsClaims(s: State, p: Pid, lost: set<WorkerId>)
    requires ClaimsNamed(s, lost) && LocksOk(s) && ProcessesOk(s) && Enabled(s, Accept(p))
    ensures ClaimsNamed(AcceptRequest(s, p), lost) && LocksOk(AcceptRequest(s, p))
  {
    var t := AcceptRequest(s, p);
    var w := s.processes[p].worker;
    assert Claiming(s, w) && Held(s, w, lost);
    forall x | x in t.launches && Claiming(t, x) ensures Held(t, x, lost) {
      assert x in s.launches && Claiming(s, x) ==> Held(s, x, lost);
    }
    forall x | x in t.launches ensures HoldsLock(t, x) {
      assert x in s.launches ==> HoldsLock(s, x);
    }
  }

  lemma AcceptKeepsProcesses(s: State, p: Pid)
    requires ProcessesOk(s) && Enabled(s, Accept(p))
    ensures ProcessesOk(AcceptRequest(s, p))
  {
    var t := AcceptRequest(s, p);
    forall pid | pid in t.processes ensures ProcessOk(t, pid) {
      assert pid in s.processes ==> ProcessOk(s, pid);
    }
  }

  lemma AcceptKeepsHistory(s: State, p: Pid)
    requires HistoryOk(s) && Enabled(s, Accept(p))
    requires s.record.value.worker == s.processes[p].worker ==> s.RecordActive()
    ensures HistoryOk(AcceptRequest(s, p))
  {
  }

  lemma FinisherIsNamed(s: State, p: Pid, lost: set<WorkerId>)
    requires ClaimsNamed(s, lost) && ProcessesOk(s) && s.Exists(p) && s.processes[p].stage.Accepted?
    ensures s.At(s.processes[p].worker, Delivered(p)) && Named(s, s.processes[p].worker)
  {
    assert ProcessOk(s, p);
    assert Claiming(s, s.processes[p].worker) && Held(s, s.processes[p].worker, lost);
  }

  lemma FinishKeepsClaims(s: State, p: Pid, ok: bool, lost: set<WorkerId>)
    requires ClaimsNamed(s, lost) && LocksOk(s) && ProcessesOk(s) && Enabled(s, Finish(p, ok))
    requires s.At(s.processes[p].worker, Delivered(p)) && Named(s, s.processes[p].worker)
    ensures ClaimsNamed(FinishWork(s, p, ok), lost) && LocksOk(FinishWork(s, p, ok))
  {
    var t := FinishWork(s, p, ok);
    forall x | x in t.launches && Claiming(t, x) ensures Held(t, x, lost) {
      assert x in s.launches && Claiming(s, x) ==> Held(s, x, lost);
    }
    forall x | x in t.launches ensures HoldsLock(t, x) {
      assert x in s.launches ==> HoldsLock(s, x);
    }
  }

  lemma FinishKeepsProcesses(s: State, p: Pid, ok: bool)
    requires ProcessesOk(s) && Enabled(s, Finish(p, ok))
    requires s.At(s.processes[p].worker, Delivered(p)) && Named(s, s.processes[p].worker)
    ensures ProcessesOk(FinishWork(s, p, ok))
  {
    var t := FinishWork(s, p, ok);
    forall pid | pid in t.processes ensures ProcessOk(t, pid) {
      assert pid in s.processes ==> ProcessOk(s, pid);
    }
  }

  lemma FinishKeepsHistory(s: State, p: Pid, ok: bool)
    requires HistoryOk(s) && Enabled(s, Finish(p, ok))
    requires s.At(s.processes[p].worker, Delivered(p)) && Named(s, s.processes[p].worker)
    ensures HistoryOk(FinishWork(s, p, ok))
  {
    var t := FinishWork(s, p, ok);
    forall x | x in t.cancelled && x in t.ended ensures !t.ended[x].Succeeded? {
      assert x in s.cancelled && (x == s.processes[p].worker ==> s.record.value.cancel);
    }
  }

  lemma FailKeepsLocks(s: State, w: WorkerId)
    requires LocksOk(s) && Enabled(s, FailLaunch(w))
    ensures LocksOk(GivenUp(s, w))
  {
    var t := GivenUp(s, w);
    forall x | x in t.launches ensures HoldsLock(t, x) {
      assert x in s.launches ==> HoldsLock(s, x);
    }
  }

  lemma FailKeepsRest(s: State, w: WorkerId)
    requires ProcessesOk(s) && HistoryOk(s) && Enabled(s, FailLaunch(w))
    ensures ProcessesOk(GivenUp(s, w)) && HistoryOk(GivenUp(s, w))
  {
    var t := GivenUp(s, w);
    forall pid | pid in t.processes ensures ProcessOk(t, pid) {
      assert pid in s.processes ==> ProcessOk(s, pid);
    }
  }

  /** A harmless failure takes the record from nobody, and is safe. */
  lemma HarmlessFails(s: State, w: WorkerId, lost: set<WorkerId>)
    requires Inv(s, lost) && Enabled(s, FailLaunch(w)) && Harmless(s, FailLaunch(w))
    ensures Inv(GivenUp(s, w), lost) && Safe(s, FailLaunch(w))
  {
    FailKeepsLocks(s, w);
    FailKeepsRest(s, w);
    var t := GivenUp(s, w);
    forall x | x in s.launches && x != w ensures !Exposed(s, x) {
      assert Exposed(s, x) ==> Claiming(s, x) && Held(s, x, lost);
    }
    forall x | x in t.launches && Claiming(t, x) ensures Held(t, x, lost) {
      assert Claiming(s, x) && Held(s, x, lost);
    }
  }

  /** A safe failure disowns every other worker still on its way. */
  lemma SafeFails(s: State, w: WorkerId, lost: set<WorkerId>)
    requires Inv(s, lost) && Enabled(s, FailLaunch(w)) && Safe(s, FailLaunch(w))
    ensures Inv(GivenUp(s, w), s.launches.Keys)
  {
    FailKeepsLocks(s, w);
    FailKeepsRest(s, w);
    var t := GivenUp(s, w);
    forall x | x in t.launches && Claiming(t, x) ensures Held(t, x, s.launches.Keys) {
      assert !Exposed(s, x);
      assert ProcessOk(s, s.launches[x].pid);
    }
  }

  lemma StepKeeps(s: State, e: Event, lost: set<WorkerId>)
    requires Inv(s, lost) && Enabled(s, e) && !e.FailLaunch?
    ensures Inv(Next(s, e), lost)
  {
    match e
    case BeginLaunch(w) => BeginKeepsClaims(s, w, lost); BeginKeepsRest(s, w);
    case Check(w) => CheckKeeps(s, w, lost);
    case Reserve(w) => ReserveKeepsClaims(s, w, lost); ReserveKeepsRest(s, w);
    case Unlock(w) => UnlockKeepsClaims(s, w, lost); UnlockKeepsRest(s, w);
    case Spawn(w, pid) => SpawnKeepsClaims(s, w, pid, lost); SpawnKeepsRest(s, w, pid);
    case RecordPid(w) => RecordKeepsClaims(s, w, lost); RecordKeepsRest(s, w);
    case Deliver(w) => DeliverKeepsClaims(s, w, lost); DeliverKeepsRest(s, w);
    case Observe => ObservedKeeps(s, lost);
    case Cancel => CancelKeeps(s, lost);
    case BeginGuard(g) => LockKeeps(s, Some(Guard(g)), false, lost);
    case CheckGuard => GuardKeeps(s, lost);
    case EndGuard => LockKeeps(s, None, false, lost);
    case Accept(pid) =>
      AcceptKeepsClaims(s, pid, lost);
      AcceptKeepsProcesses(s, pid);
      AcceptFindsNamed(s, pid, lost);
      AcceptKeepsHistory(s, pid);
    case Finish(pid, ok) =>
      FinisherIsNamed(s, pid, lost);
      FinishKeepsClaims(s, pid, ok, lost);
      FinishKeepsProcesses(s, pid, ok);
      FinishKeepsHistory(s, pid, ok);
    case Die(pid) => DieKeepsClaims(s, pid, lost); DieKeepsRest(s, pid);
  }

  /** Orderly runs never take the record from a worker, and are safe. */
  lemma {:induction false} OrderlyRunsKeep(s: State, events: seq<Event>, t: State, lost: set<WorkerId>)
    requires Inv(s, lost) && OrderlyRuns(s, events, t)
    ensures Inv(t, lost) && SafeRuns(s, events, t)
    decreases |events|
  {
    if events != [] {
      var e := events[0];
      if e.FailLaunch? { HarmlessFails(s, e.worker, lost); } else { StepKeeps(s, e, lost); }
      OrderlyRunsKeep(Next(s, e), events[1..], t, lost);
    }
  }

  lemma {:induction false} SafeRunsKeep(s: State, events: seq<Event>, t: State, lost: set<WorkerId>)
    returns (disowned: set<WorkerId>)
    requires Inv(s, lost) && SafeRuns(s, events, t)
    ensures Inv(t, disowned)
    decreases |events|
  {
    disowned := lost;
    if events != [] {
      var e := events[0];
      if e.FailLaunch? {
        SafeFails(s, e.worker, lost);
        disowned := s.launches.Keys;
      } else {
        StepKeeps(s, e, lost);
      }
      disowned := SafeRunsKeep(Next(s, e), events[1..], t, disowned);
    }
  }

  // ----- what it means -----

  /** In every orderly run the record names whoever holds the run, and lock, processes and history agree. */
  lemma RunsKeep(events: seq<Event>, t: State)
    requires OrderlyRuns(NOTHING, events, t)
    ensures Inv(t, {}) && SafeRuns(NOTHING, events, t)
    ensures forall w :: w in t.launches && Claiming(t, w) ==> Named(t, w)
  {
    OrderlyRunsKeep(NOTHING, events, t, {});
    forall w | w in t.launches && Claiming(t, w) ensures Named(t, w) { assert Held(t, w, {}); }
  }

  /**
   In every run whose failing launchers are safe: at most one process is inside, the record names
   its worker, and none is inside while a guarded human action goes on.
   */
  lemma WorkersExcludeEachOther(events: seq<Event>, t: State, p: Pid, q: Pid)
    requires SafeRuns(NOTHING, events, t)
    ensures Inside(t, p) && Inside(t, q) ==> p == q
    ensures Inside(t, p) ==> !t.guardPassed && t.RecordActive() && t.record.value.worker == t.processes[p].worker
  {
    var lost := SafeRunsKeep(NOTHING, events, t, {});
    InsideIsNamed(t, p, lost);
    InsideIsNamed(t, q, lost);
  }

  lemma InsideIsNamed(s: State, p: Pid, lost: set<WorkerId>)
    requires Inv(s, lost)
    ensures Inside(s, p) ==>
      && s.At(s.processes[p].worker, Delivered(p))
      && s.RecordActive() && s.record.value.worker == s.processes[p].worker && !s.guardPassed
  {
    if Inside(s, p) {
      assert ProcessOk(s, p);
      assert Claiming(s, s.processes[p].worker) && Held(s, s.processes[p].worker, lost);
    }
  }

  /** A worker whose cancellation was recorded never ends as succeeded. */
  lemma CancelledNeverSucceeds(events: seq<Event>, t: State, w: WorkerId)
    requires SafeRuns(NOTHING, events, t) && w in t.cancelled && w in t.ended
    ensures !t.ended[w].Succeeded?
  {
    var lost := SafeRunsKeep(NOTHING, events, t, {});
  }

  // ----- where it fails -----

  /** One whole launch, up to the recorded process id. */
  function LaunchOf(w: WorkerId, pid: Pid): seq<Event> {
    [BeginLaunch(w), Check(w), Reserve(w), Unlock(w), Spawn(w, pid), RecordPid(w)]
  }

  function Launched(s: State, w: WorkerId, pid: Pid): State {
    s.(
      record := Some(Record(w, Starting, Some(pid), false)),
      launches := s.launches[w := Recorded(pid)],
      processes := s.processes[pid := Process(w, Waiting, true)])
  }

  type Trace = (seq<Event>, State) -> bool

  ghost predicate ExtendsBy(leads: Trace, events: seq<Event>, t: State, e: Event) {
    leads(events, t) && Enabled(t, e) ==> leads(events + [e], Next(t, e))
  }

  /** Possible steps can be added to any trace; a launcher giving up is not among them. */
  ghost predicate Extends(leads: Trace) {
    forall events, t, e: Event :: !e.FailLaunch? ==> ExtendsBy(leads, events, t, e)
  }

  lemma Extend(leads: Trace, events: seq<Event>, t: State, e: Event, u: State)
    requires Extends(leads) && leads(events, t) && Enabled(t, e) && Next(t, e) == u && !e.FailLaunch?
    ensures leads(events + [e], u)
  {
    assert ExtendsBy(leads, events, t, e);
  }

  function UpToWritten(t: State, w: WorkerId): State {
    t.(record := Some(Fresh(w)), lock := Some(Launcher(w)), launches := t.launches[w := Written])
  }

  lemma LockAndReserve(leads: Trace, events: seq<Event>, t: State, w: WorkerId)
    requires Extends(leads) && leads(events, t) && t.lock.None? && w !in t.launches && !Observed(t).RecordActive()
    ensures leads(events + [BeginLaunch(w), Check(w), Reserve(w)], UpToWritten(t, w))
  {
    var t1 := t.(lock := Some(Launcher(w)), launches := t.launches[w := Locked]);
    var t2 := t.(lock := Some(Launcher(w)), launches := t.launches[w := Checked], record := ObserveRecord(t));
    Extend(leads, events, t, BeginLaunch(w), t1);
    Extend(leads, events + [BeginLaunch(w)], t1, Check(w), t2);
    Extend(leads, events + [BeginLaunch(w)] + [Check(w)], t2, Reserve(w), UpToWritten(t, w));
    assert events + [BeginLaunch(w)] + [Check(w)] + [Reserve(w)] == events + [BeginLaunch(w), Check(w), Reserve(w)];
  }

  lemma SpawnAndRecord(leads: Trace, events: seq<Event>, t: State, w: WorkerId, pid: Pid)
    requires Extends(leads) && leads(events, UpToWritten(t, w)) && t.lock.None? && pid !in t.processes
    ensures leads(events + [Unlock(w), Spawn(w, pid), RecordPid(w)], Launched(t, w, pid))
  {
    var t4 := t.(record := Some(Fresh(w)), launches := t.launches[w := Reserved]);
    var t5 :=
      t4.(launches := t.launches[w := Spawned(pid)], processes := t.processes[pid := Process(w, Waiting, true)]);
    Extend(leads, events, UpToWritten(t, w), Unlock(w), t4);
    Extend(leads, events + [Unlock(w)], t4, Spawn(w, pid), t5);
    Extend(leads, events + [Unlock(w)] + [Spawn(w, pid)], t5, RecordPid(w), Launched(t, w, pid));
    assert events + [Unlock(w)] + [Spawn(w, pid)] + [RecordPid(w)] == events + [Unlock(w), Spawn(w, pid), RecordPid(w)];
  }

  lemma LaunchRuns(leads: Trace, events: seq<Event>, t: State, w: WorkerId, pid: Pid)
    requires Extends(leads) && leads(events, t)
    requires t.lock.None? && w !in t.launches && pid !in t.processes && !Observed(t).RecordActive()
    ensures leads(events + LaunchOf(w, pid), Launched(t, w, pid))
  {
    LockAndReserve(leads, events, t, w);
    SpawnAndRecord(leads, events + [BeginLaunch(w), Check(w), Reserve(w)], t, w, pid);
    assert events + [BeginLaunch(w), Check(w), Reserve(w)] + [Unlock(w), Spawn(w, pid), RecordPid(w)] ==
      events + LaunchOf(w, pid);
  }

  function AtWork(t: State, w: WorkerId, pid: Pid): State {
    t.(
      record := Some(Record(w, Running, Some(pid), false)),
      launches := t.launches[w := Delivered(pid)],
      processes := t.processes[pid := Process(w, Accepted, true)])
  }

  /** The request of a launched worker is delivered and accepted. */
  lemma AcceptRuns(leads: Trace, events: seq<Event>, t: State, w: WorkerId, pid: Pid)
    requires Extends(leads) && leads(events, Launched(t, w, pid))
    ensures leads(events + [Deliver(w), Accept(pid)], AtWork(t, w, pid))
  {
    var t0 := Launched(t, w, pid);
    var t1 := t0.(launches := t.launches[w := Delivered(pid)]);
    Extend(leads, events, t0, Deliver(w), t1);
    Extend(leads, events + [Deliver(w)], t1, Accept(pid), AtWork(t, w, pid));
    assert events + [Deliver(w)] + [Accept(pid)] == events + [Deliver(w), Accept(pid)];
  }

  /** The first launcher's process died and was replaced before that launcher reported its failure. */
  function LateFailure(): seq<Event> {
    LaunchOf(1, 11) + [Die(11)] + (LaunchOf(2, 12) + [Deliver(2), Accept(12)]) + [FailLaunch(1)]
    + (LaunchOf(3, 13) + [Deliver(3), Accept(13)])
  }

  lemma WorkerRuns(leads: Trace, events: seq<Event>, t: State, w: WorkerId, pid: Pid)
    requires Extends(leads) && leads(events, t)
    requires t.lock.None? && w !in t.launches && pid !in t.processes && !Observed(t).RecordActive()
    ensures leads(events + (LaunchOf(w, pid) + [Deliver(w), Accept(pid)]), AtWork(t, w, pid))
  {
    LaunchRuns(leads, events, t, w, pid);
    AcceptRuns(leads, events + LaunchOf(w, pid), t, w, pid);
    assert events + LaunchOf(w, pid) + [Deliver(w), Accept(pid)] ==
      events + (LaunchOf(w, pid) + [Deliver(w), Accept(pid)]);
  }

  function FirstDead(): State {
    Dead(Launched(NOTHING, 1, 11), 11)
  }

  lemma FirstDies(leads: Trace)
    requires Extends(leads) && leads([], NOTHING)
    ensures leads(LaunchOf(1, 11) + [Die(11)], FirstDead())
  {
    LaunchRuns(leads, [], NOTHING, 1, 11);
    assert [] + LaunchOf(1, 11) == LaunchOf(1, 11);
    Extend(leads, LaunchOf(1, 11), Launched(NOTHING, 1, 11), Die(11), FirstDead());
  }

  lemma LateFailureRuns(leads: Trace) returns (t: State)
    requires Extends(leads) && leads([], NOTHING)
    requires forall events, t :: ExtendsBy(leads, events, t, FailLaunch(1))
    ensures leads(LateFailure(), t) && Inside(t, 12) && Inside(t, 13)
  {
    FirstDies(leads);
    var events := LaunchOf(1, 11) + [Die(11)];
    WorkerRuns(leads, events, FirstDead(), 2, 12);
    events := events + (LaunchOf(2, 12) + [Deliver(2), Accept(12)]);
    var second := AtWork(FirstDead(), 2, 12);
    assert ExtendsBy(leads, events, second, FailLaunch(1));
    WorkerRuns(leads, events + [FailLaunch(1)], GivenUp(second, 1), 3, 13);
    t := AtWork(GivenUp(second, 1), 3, 13);
  }

  /** After one late failure two workers can be inside at once. */
  lemma LateFailureBreaksExclusion() returns (t: State)
    ensures Runs(NOTHING, LateFailure(), t) && Inside(t, 12) && Inside(t, 13)
  {
    var leads: Trace := (events, t) => Runs(NOTHING, events, t);
    forall events, t, e ensures ExtendsBy(leads, events, t, e) {
      if Runs(NOTHING, events, t) && Enabled(t, e) { RunsOn(NOTHING, events, t, e); }
    }
    t := LateFailureRuns(leads);
  }

  lemma {:induction false} RunsOn(s: State, events: seq<Event>, t: State, e: Event)
    requires Runs(s, events, t) && Enabled(t, e)
    ensures Runs(s, events + [e], Next(t, e))
    decreases |events|
  {
    if events == [] {
      assert [e][1..] == [];
    } else {
      RunsOn(Next(s, events[0]), events[1..], t, e);
      assert (events + [e])[1..] == events[1..] + [e];
    }
  }

  // ----- exactly when it fails -----

  /** After that some possible continuation, whose own failures are safe, has two processes inside. */
  ghost predicate CanBreak(s: State) {
    exists events, t, p, q :: SafeRuns(s, events, t) && p != q && Inside(t, p) && Inside(t, q)
  }

  lemma {:induction false} Above(keys: set<nat>) returns (n: nat)
    ensures forall k :: k in keys ==> k < n
  {
    n := 0;
    if keys != {} {
      var k :| k in keys;
      var rest := Above(keys - {k});
      n := if rest <= k then k + 1 else rest;
      assert forall x :: x in keys ==> x == k || x in keys - {k};
    }
  }

  /** The run after a failure that overwrote the record of `x`: nobody active, and the lock can be freed. */
  predicate Overwritten(t: State, x: WorkerId) {
    && !t.RecordActive() && !t.guardPassed && Exposed(t, x)
    && (t.lock.Some? && t.lock.value.Launcher? ==>
          var z := t.lock.value.worker;
          if z == x then t.At(x, Written) else t.At(z, Locked))
    && (t.At(x, Written) ==> t.lock == Some(Launcher(x)))
    && (t.launches[x].Spawned? ==> t.launches[x].pid in t.processes)
  }

  /** Another worker gets inside, and `x` is still on its way or inside. */
  predicate Joined(t: State, u: State, x: WorkerId, q: Pid) {
    && u.lock.None? && q !in t.processes && Inside(u, q)
    && (forall p :: p in t.processes ==> p in u.processes && u.processes[p] == t.processes[p])
    && x in t.launches && u.At(x, if t.launches[x].Written? then Reserved else t.launches[x])
  }

  lemma FirstInside(leads: Trace, events: seq<Event>, t: State, x: WorkerId)
    returns (longer: seq<Event>, u: State, q: Pid)
    requires Extends(leads) && leads(events, t) && Overwritten(t, x)
    ensures leads(longer, u) && Joined(t, u, x, q)
  {
    var y := Above(t.launches.Keys);
    q := Above(t.processes.Keys);
    if t.lock.None? {
      longer, u := events + (LaunchOf(y, q) + [Deliver(y), Accept(q)]), AtWork(t, y, q);
      WorkerRuns(leads, events, t, y, q);
    } else if t.lock.value.Guard? {
      longer, u := GuardGivesWay(leads, events, t, y, q);
    } else if t.lock.value.worker == x {
      longer, u := ReservedGivesWay(leads, events, t, x, y, q);
    } else {
      longer, u := LockedGoesOn(leads, events, t, t.lock.value.worker, q);
    }
  }

  lemma GuardGivesWay(leads: Trace, events: seq<Event>, t: State, y: WorkerId, q: Pid)
    returns (longer: seq<Event>, u: State)
    requires Extends(leads) && leads(events, t) && !t.RecordActive() && !t.guardPassed
    requires t.lock.Some? && t.lock.value.Guard? && y !in t.launches && q !in t.processes
    ensures leads(longer, u) && u == AtWork(t.(lock := None), y, q)
  {
    var passed, free := t.(guardPassed := true), t.(lock := None);
    Extend(leads, events, t, CheckGuard, passed);
    Extend(leads, events + [CheckGuard], passed, EndGuard, free);
    longer := events + [CheckGuard] + [EndGuard];
    WorkerRuns(leads, longer, free, y, q);
    longer, u := longer + (LaunchOf(y, q) + [Deliver(y), Accept(q)]), AtWork(free, y, q);
  }

  lemma ReservedGivesWay(leads: Trace, events: seq<Event>, t: State, x: WorkerId, y: WorkerId, q: Pid)
    returns (longer: seq<Event>, u: State)
    requires Extends(leads) && leads(events, t) && !t.RecordActive() && t.At(x, Written)
    requires y !in t.launches && q !in t.processes
    ensures leads(longer, u) && u == AtWork(t.(lock := None, launches := t.launches[x := Reserved]), y, q)
  {
    var free := t.(lock := None, launches := t.launches[x := Reserved]);
    Extend(leads, events, t, Unlock(x), free);
    longer := events + [Unlock(x)];
    WorkerRuns(leads, longer, free, y, q);
    longer, u := longer + (LaunchOf(y, q) + [Deliver(y), Accept(q)]), AtWork(free, y, q);
  }

  lemma LockedGoesOn(leads: Trace, events: seq<Event>, t: State, z: WorkerId, q: Pid)
    returns (longer: seq<Event>, u: State)
    requires Extends(leads) && leads(events, t) && !t.RecordActive() && t.At(z, Locked)
    requires t.lock == Some(Launcher(z)) && q !in t.processes
    ensures leads(longer, u) && u == AtWork(t.(lock := None), z, q)
  {
    var free, checked := t.(lock := None), t.(launches := t.launches[z := Checked]);
    Extend(leads, events, t, Check(z), checked);
    Extend(leads, events + [Check(z)], checked, Reserve(z), UpToWritten(free, z));
    longer := events + [Check(z)] + [Reserve(z)];
    SpawnAndRecord(leads, longer, free, z, q);
    longer := longer + [Unlock(z), Spawn(z, q), RecordPid(z)];
    AcceptRuns(leads, longer, free, z, q);
    longer, u := longer + [Deliver(z), Accept(q)], AtWork(free, z, q);
  }

  /** The overwritten worker reports a process that is gone, so a third launch finds nobody active. */
  lemma ThirdInside(leads: Trace, events: seq<Event>, u: State, x: WorkerId, q: Pid)
    returns (longer: seq<Event>, v: State, r: Pid)
    requires Extends(leads) && leads(events, u) && u.lock.None? && Inside(u, q)
    requires x in u.launches && u.launches[x].Spawned? && u.launches[x].pid in u.processes && u.launches[x].pid != q
    ensures leads(longer, v) && r != q && Inside(v, q) && Inside(v, r)
  {
    var p := u.launches[x].pid;
    var dead := u.(processes := u.processes[p := u.processes[p].(alive := false)]);
    longer := events;
    if u.Exists(p) {
      Extend(leads, events, u, Die(p), dead);
      longer := events + [Die(p)];
    } else {
      assert dead.processes == u.processes;
    }
    var named := dead.(record := Some(Fresh(x).(pid := Some(p))), launches := dead.launches[x := Recorded(p)]);
    Extend(leads, longer, dead, RecordPid(x), named);
    longer := longer + [RecordPid(x)];
    var z := Above(named.launches.Keys);
    r := Above(named.processes.Keys);
    WorkerRuns(leads, longer, named, z, r);
    longer, v := longer + (LaunchOf(z, r) + [Deliver(z), Accept(r)]), AtWork(named, z, r);
  }

  lemma SecondInside(leads: Trace, events: seq<Event>, t: State, u: State, x: WorkerId, q: Pid)
    returns (longer: seq<Event>, v: State, r: Pid)
    requires Extends(leads) && leads(events, u) && Overwritten(t, x) && Joined(t, u, x, q)
    ensures leads(longer, v) && r != q && Inside(v, q) && Inside(v, r)
  {
    if t.launches[x].Delivered? {
      longer, v, r := events, u, t.launches[x].pid;
    } else if u.launches[x].Reserved? {
      var p := Above(u.processes.Keys);
      var born := u.(launches := u.launches[x := Spawned(p)], processes := u.processes[p := Process(x, Waiting, true)]);
      Extend(leads, events, u, Spawn(x, p), born);
      longer, v, r := ThirdInside(leads, events + [Spawn(x, p)], born, x, q);
    } else {
      longer, v, r := ThirdInside(leads, events, u, x, q);
    }
  }

  /** While the record names a worker on its way, nobody else is past the look at the record. */
  lemma NamedHasNoRival(s: State, x: WorkerId, lost: set<WorkerId>)
    requires ClaimsNamed(s, lost) && LocksOk(s) && Named(s, x)
    ensures !s.guardPassed
    ensures s.lock.Some? && s.lock.value.Launcher? ==>
      s.At(s.lock.value.worker, if s.lock.value.worker == x then s.launches[x] else Locked)
  {
    if s.lock.Some? && s.lock.value.Launcher? {
      var z := s.lock.value.worker;
      assert HoldsLock(s, z);
      assert Claiming(s, z) ==> Held(s, z, lost);
    }
  }

  /** An unsafe failure leaves exactly such a run. */
  lemma UnsafeOverwrites(s: State, w: WorkerId, x: WorkerId, lost: set<WorkerId>)
    requires Inv(s, lost) && Enabled(s, FailLaunch(w)) && x != w && Exposed(s, x)
    ensures Overwritten(Next(s, FailLaunch(w)), x)
  {
    assert Claiming(s, x) && Held(s, x, lost);
    assert HoldsLock(s, x);
    NamedHasNoRival(s, x, lost);
  }

  lemma {:induction false} SafeRunsOn(s: State, events: seq<Event>, t: State, e: Event)
    requires SafeRuns(s, events, t) && Enabled(t, e) && Safe(t, e)
    ensures SafeRuns(s, events + [e], Next(t, e))
    decreases |events|
  {
    if events == [] {
      assert [e][1..] == [];
    } else {
      SafeRunsOn(Next(s, events[0]), events[1..], t, e);
      assert (events + [e])[1..] == events[1..] + [e];
    }
  }

  /** An unsafe failure can be followed by a run, with no further failure, that has two processes inside. */
  lemma UnsafeBreaks(s: State, w: WorkerId, lost: set<WorkerId>)
    requires Inv(s, lost) && Enabled(s, FailLaunch(w)) && !Safe(s, FailLaunch(w))
    ensures CanBreak(Next(s, FailLaunch(w)))
  {
    var x :| x in s.launches && x != w && Exposed(s, x);
    var t := Next(s, FailLaunch(w));
    var leads: Trace := (events, u) => SafeRuns(t, events, u);
    forall events, u, e: Event | !e.FailLaunch? ensures ExtendsBy(leads, events, u, e) {
      if SafeRuns(t, events, u) && Enabled(u, e) { SafeRunsOn(t, events, u, e); }
    }
    UnsafeOverwrites(s, w, x, lost);
    var events, u, q := FirstInside(leads, [], t, x);
    var longer, v, r := SecondInside(leads, events, t, u, x, q);
  }

  /**
   In any safe run, a launcher gives up.  Some continuation then has two processes inside if and
   only if the failure is unsafe: another worker is reserved, spawned or inside at that moment.
   */
  lemma FailureBreaksIff(before: seq<Event>, s: State, w: WorkerId)
    requires SafeRuns(NOTHING, before, s) && Enabled(s, FailLaunch(w))
    ensures CanBreak(Next(s, FailLaunch(w))) <==> !Safe(s, FailLaunch(w))
  {
    var lost := SafeRunsKeep(NOTHING, before, s, {});
    if Safe(s, FailLaunch(w)) {
      SafeFails(s, w, lost);
      var t := Next(s, FailLaunch(w));
      forall events, u, p, q | SafeRuns(t, events, u) && Inside(u, p) && Inside(u, q) ensures p == q {
        var disowned := SafeRunsKeep(t, events, u, s.launches.Keys);
        InsideIsNamed(u, p, disowned);
        InsideIsNamed(u, q, disowned);
      }
    } else {
      UnsafeBreaks(s, w, lost);
    }
  }

  /** A launcher that finds its own record, or an inactive one, can always give up safely. */
  lemma HarmlessIsSafe(before: seq<Event>, s: State, w: WorkerId)
    requires SafeRuns(NOTHING, before, s) && Enabled(s, FailLaunch(w)) && Harmless(s, FailLaunch(w))
    ensures Safe(s, FailLaunch(w))
  {
    var lost := SafeRunsKeep(NOTHING, before, s, {});
    HarmlessFails(s, w, lost);
  }
}
