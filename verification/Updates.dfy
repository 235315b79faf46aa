/** The self-update transaction (`updates.py`): git, pip and the startup check may each fail;
    where the checkout ends up is what is proved. */
module Updates {
  import opened Prelude

  type Sha = string

  /** Every commit with its ancestors, itself included. */
  type History = map<Sha, set<Sha>>

  ghost predicate IsHistory(h: History) {
    forall c :: c in h ==> c in h[c] && forall d :: d in h[c] ==> d in h && h[d] <= h[c]
  }

  // What `git rev-list --left-right --count HEAD...sha` counts on its right side.
  function Behind(h: History, head: Sha, sha: Sha): nat
    requires head in h && sha in h
  {
    |h[sha] - h[head]|
  }

  // `git merge --ff-only sha`: the new head, or `None` when it refuses.
  function FastForward(h: History, head: Sha, sha: Sha): Option<Sha>
    requires head in h && sha in h
  {
    if sha in h[head] then Some(head)
    else if head in h[sha] then Some(sha)
    else None
  }

  // A checkout counted as behind and fast-forwarded without complaint stands exactly at the
  // commit that was asked for, and lost none of its own.
  lemma FastForwardIsExact(h: History, head: Sha, sha: Sha)
    requires IsHistory(h) && head in h && sha in h && Behind(h, head, sha) != 0
    ensures FastForward(h, head, sha).Some? <==> h[head] <= h[sha]
    ensures FastForward(h, head, sha).Some? ==> FastForward(h, head, sha).value == sha != head
  {
    UpToDateMeansContained(h, head, sha);
    if h[head] <= h[sha] {
      assert head in h[sha];
    }
  }

  // Not being behind means having every commit of the target already.
  lemma UpToDateMeansContained(h: History, head: Sha, sha: Sha)
    requires IsHistory(h) && head in h && sha in h
    ensures Behind(h, head, sha) == 0 <==> sha in h[head]
  {
    if sha in h[head] {
      assert h[sha] - h[head] == {};
    } else {
      assert sha in h[sha] - h[head];
    }
  }

  /** The dependency set last installed: the one a commit pins, whatever pip chose for a commit that
      pins none, or what a failed pip left. */
  datatype Deps = Pinned(of: Sha) | Unpinned(of: Sha) | Unknown

  datatype Outcome = PendingCheck | Unwatched | Healthy | Superseded | RolledBack | RollbackUnhealthy | RollbackFailed

  /** The status file. */
  datatype Status = Status(at: int, from_: Sha, to: Sha, outcome: Outcome)

  const WATCHDOG_WINDOW := 2 * (90 + 30 + 15) + 900 + 60

  predicate InFlight(status: Option<Status>, now: real) {
    && status.Some? && status.value.outcome.PendingCheck?
    && 0.0 <= now - status.value.at as real < WATCHDOG_WINDOW as real
  }

  datatype StepName = Preflight | ReadHead | Fetch | Compare | VerifySignature | GitUpdate | PipInstall
                    | CheckStartup | Rollback | RollbackPipInstall | Restart

  datatype Step = Step(name: StepName, ok: bool)

  datatype Mode = WatchedRestart | UnwatchedRestart

  datatype Result = Result(ok: bool, fromRef: Option<Sha>, toRef: Option<Sha>, rolledBack: bool,
                           restart: Option<Mode>, steps: seq<Step>)

  const NO_RESULT := Result(false, None, None, false, None, [])

  /** How restarts can be scheduled on this host. */
  datatype Host = Host(underSystemd: bool, healthUrl: bool, systemctl: bool, systemdRun: bool, unitStarts: bool,
                       shellStarts: bool)

  /** What every command of one run will answer. `trusted` holds the commits whose signature
      this host accepts; `fetched` is what the remote offers. */
  datatype Answers = Answers(blocked: bool, headReads: bool, fetched: Option<Sha>, counts: bool, trusted: set<Sha>,
                             mergeRuns: bool, headReadsAgain: bool, pip: bool, starts: bool, resets: bool,
                                 pipAgain: bool)

  // --- what the steps of a run mean ----------------------------------------------------------

  predicate UpToDate(h: History, head: Sha, a: Answers)
    requires head in h && (a.fetched.Some? ==> a.fetched.value in h)
  {
    a.fetched.Some? && Behind(h, head, a.fetched.value) == 0
  }

  // Whether what a step stands for is the case, for a run started at `head`.
  predicate Holds(step: StepName, h: History, head: Sha, status: Option<Status>, host: Host, a: Answers, now: real)
    requires head in h && (a.fetched.Some? ==> a.fetched.value in h)
  {
    match step
    case Preflight => !a.blocked && !InFlight(status, now)
    case ReadHead => a.headReads
    case Fetch => a.fetched.Some?
    case Compare => a.counts
    case VerifySignature => a.fetched.Some? && a.fetched.value in a.trusted
    case GitUpdate => a.fetched.Some? && a.mergeRuns && h[head] <= h[a.fetched.value]
    case PipInstall => a.pip
    case CheckStartup => a.starts
    case Rollback => a.resets
    case RollbackPipInstall => a.pipAgain
    case Restart => host.systemctl && ((host.healthUrl && host.systemdRun && host.unitStarts) || host.shellStarts)
  }

  // Every recorded step says what is the case.
  ghost predicate Truthful(steps: seq<Step>, h: History, head: Sha, status: Option<Status>, host: Host, a: Answers,
                           now: real)
    requires head in h && (a.fetched.Some? ==> a.fetched.value in h)
  {
    forall i :: 0 <= i < |steps| ==> steps[i].ok == Holds(steps[i].name, h, head, status, host, a, now)
  }

  // Some step other than the restart failed.
  ghost predicate SomeFailed(steps: seq<Step>) {
    exists i :: 0 <= i < |steps| && !steps[i].ok && !steps[i].name.Restart?
  }

  /** One server process and its checkout. */
  class Updater {
    const history: History
    // The commits that carry a constraints file.
    const constrained: set<Sha>
    const requireSigned: bool
    const host: Host
    var head: Sha
    var deps: Deps
    var status: Option<Status>
    var locked: bool

    constructor (history: History, constrained: set<Sha>, requireSigned: bool, host: Host, head: Sha, deps: Deps,
                 status: Option<Status>)
      ensures this.history == history && this.constrained == constrained && this.requireSigned == requireSigned
          && this.host == host
      ensures this.head == head && this.deps == deps && this.status == status && !locked
    {
      this.history, this.constrained, this.requireSigned, this.host := history, constrained, requireSigned, host;
      this.head, this.deps, this.status, this.locked := head, deps, status, false;
    }

    // What a successful `pip install` of a commit leaves: it pins the versions when it can.
    function Installed(sha: Sha): Deps {
      if sha in constrained then Pinned(sha) else Unpinned(sha)
    }

    // `_schedule_restart`.
    method ScheduleRestart() returns (mode: Option<Mode>)
      ensures mode.Some? <==> host.systemctl && ((host.healthUrl && host.systemdRun && host.unitStarts)
                                                 || host.shellStarts)
      ensures mode == Some(WatchedRestart) <==> host.systemctl && host.healthUrl && host.systemdRun && host.unitStarts
    {
      if !host.systemctl {
        return None;
      }
      if host.healthUrl && host.systemdRun && host.unitStarts {
        return Some(WatchedRestart);
      }
      return if host.shellStarts then Some(UnwatchedRestart) else None;
    }

    // `_rollback`: back to where the run started, dependencies included.
    method RollBack(from_: Sha, a: Answers, so: Result) returns (r: Result)
      requires deps == if a.pip then Installed(head) else Unknown
      modifies this`head, this`deps
      ensures Undone(r, from_, old(head), a)
      ensures r == so.(ok := false, rolledBack := a.resets, steps := r.steps) && Continues(so.steps, r.steps, a)
    {
      var n := |so.steps|;
      r := so.(ok := false, rolledBack := a.resets, steps := so.steps + [Step(Rollback, a.resets)]);
      assert r.steps[n] == Step(Rollback, a.resets);
      if a.resets {
        head := from_;
        deps := if a.pipAgain then Installed(head) else Unknown;
        r := r.(steps := r.steps + [Step(RollbackPipInstall, a.pipAgain)]);
        assert r.steps[n + 1] == Step(RollbackPipInstall, a.pipAgain);
      }
    }

    // `after` goes on from `before` with steps that report their commands' answers.
    ghost predicate Continues(before: seq<Step>, after: seq<Step>, a: Answers) {
      && |before| <= |after|
      && (forall i :: 0 <= i < |before| ==> after[i] == before[i])
      && (forall i :: |before| <= i < |after| ==> Told(after[i], a))
    }

    // Everything checked before the checkout moves. No target means that the run is over.
    method Prepare(a: Answers, now: real) returns (r: Result, target: Option<Sha>)
      requires head in history && (a.fetched.Some? ==> a.fetched.value in history)
      ensures Truthful(r.steps, history, head, status, host, a, now)
      ensures !r.rolledBack && r.restart.None?
      ensures target.Some? ==> !SomeFailed(r.steps) && !r.ok && r.fromRef == Some(head) && a.fetched == target
      ensures target.Some? <==> Ready(head, status, a, now)
      ensures target.None? ==> (r.ok <==> !SomeFailed(r.steps)) && (r.ok <==> Idle(head, status, a, now))
    {
      r, target := NO_RESULT, None;
      if a.blocked || InFlight(status, now) {
        r := r.(steps := [Step(Preflight, false)]);
        assert !r.steps[0].ok;
        return;
      }
      r := r.(steps := [Step(Preflight, true)]);
      if !a.headReads {
        r := r.(steps := r.steps + [Step(ReadHead, false)]);
        assert !r.steps[1].ok;
        return;
      }
      r := r.(fromRef := Some(head));
      if a.fetched.None? {
        r := r.(steps := r.steps + [Step(Fetch, false)]);
        assert !r.steps[1].ok;
        return;
      }
      r := r.(steps := r.steps + [Step(Fetch, true)]);
      if !a.counts {
        r := r.(steps := r.steps + [Step(Compare, false)]);
        assert !r.steps[2].ok;
        return;
      }
      if Behind(history, head, a.fetched.value) == 0 {
        r := r.(ok := true, toRef := r.fromRef);
        return;
      }
      if requireSigned {
        r := r.(steps := r.steps + [Step(VerifySignature, a.fetched.value in a.trusted)]);
        if a.fetched.value !in a.trusted {
          assert !r.steps[2].ok;
          return;
        }
      }
      target := a.fetched;
    }

    // Dependencies, then the startup check, at the commit just merged.
    method Install(from_: Sha, a: Answers, so: Result) returns (r: Result)
      modifies this`head, this`deps
      ensures r.ok == (a.pip && a.starts)
      ensures r.ok ==> head == old(head) && deps == Installed(head)
      ensures !r.ok ==> Undone(r, from_, old(head), a)
      ensures r == so.(ok := r.ok, rolledBack := r.rolledBack, steps := r.steps)
      ensures r.ok ==> r.rolledBack == so.rolledBack
      ensures r.ok ==> r.steps == so.steps + [Step(PipInstall, true), Step(CheckStartup, true)]
      ensures !r.ok ==> SomeFailed(r.steps) && Continues(so.steps, r.steps, a)
    {
      var n := |so.steps|;
      if !a.pip {
        deps := Unknown;
        r := RollBack(from_, a, so.(steps := so.steps + [Step(PipInstall, false)]));
        assert r.steps[n] == Step(PipInstall, false);
        return;
      }
      deps := Installed(head);
      r := so.(steps := so.steps + [Step(PipInstall, true)]);
      if !a.starts {
        r := RollBack(from_, a, r.(steps := r.steps + [Step(CheckStartup, false)]));
        assert r.steps[n + 1] == Step(CheckStartup, false);
        return;
      }
      r := r.(ok := true, steps := r.steps + [Step(CheckStartup, true)]);
    }

    // Back at `from_` with its dependencies, or saying which of the two could not be done.
    ghost predicate Undone(r: Result, from_: Sha, to: Sha, a: Answers) reads this {
      && !r.ok && r.rolledBack == a.resets
      && (a.resets ==> head == from_ && deps == if a.pipAgain then Installed(from_) else Unknown)
      && (a.resets && !a.pipAgain ==> Step(RollbackPipInstall, false) in r.steps)
      && (!a.resets ==> head == to && deps == if a.pip then Installed(to) else Unknown)
      && (!a.resets ==> Step(Rollback, false) in r.steps)
    }

    // A step of the second half of a run reports its command's answer.
    predicate Told(step: Step, a: Answers) {
      match step.name
      case PipInstall => step.ok == a.pip
      case CheckStartup => step.ok == a.starts
      case Rollback => step.ok == a.resets
      case RollbackPipInstall => step.ok == a.pipAgain
      case _ => false
    }

    // The fetched commit may be merged: it is news, trusted if it has to be, and nothing is in the way.
    ghost predicate Ready(from_: Sha, was: Option<Status>, a: Answers, now: real)
      requires from_ in history && (a.fetched.Some? ==> a.fetched.value in history)
    {
      && !a.blocked && !InFlight(was, now) && a.headReads && a.fetched.Some? && a.counts
      && !UpToDate(history, from_, a) && (requireSigned ==> a.fetched.value in a.trusted)
    }

    // There is nothing to do.
    ghost predicate Idle(from_: Sha, was: Option<Status>, a: Answers, now: real)
      requires from_ in history && (a.fetched.Some? ==> a.fetched.value in history)
    {
      !a.blocked && !InFlight(was, now) && a.headReads && a.counts && UpToDate(history, from_, a)
    }

    // The checkout is moved, if only for a while.
    ghost predicate Moves(from_: Sha, was: Option<Status>, a: Answers, now: real)
      requires from_ in history && (a.fetched.Some? ==> a.fetched.value in history)
    {
      Ready(from_, was, a, now) && a.mergeRuns && history[from_] <= history[a.fetched.value]
    }

    // Exactly at the commit resolved (and trusted), which is installed and able to start.
    ghost predicate Arrived(from_: Sha, a: Answers)
      requires from_ in history && head in history
      reads this
    {
      && a.fetched == Some(head) && from_ in history[head] && head != from_
      && deps == Installed(head) && a.pip && a.starts && (requireSigned ==> head in a.trusted)
    }

    // Merge, install, check, undo.
    method Advance(sha: Sha, a: Answers, so: Result) returns (r: Result)
      requires IsHistory(history) && head in history && sha in history && Behind(history, head, sha) != 0
      requires !SomeFailed(so.steps) && !so.ok && so.restart.None? && !so.rolledBack
      modifies this`head, this`deps
      ensures r.ok == (a.mergeRuns && history[old(head)] <= history[sha] && a.pip && a.starts)
      ensures r.ok ==> head == sha != old(head) && old(head) in history[head]
      ensures r.ok ==> deps == Installed(head) && r.toRef == Some(head)
      ensures r.ok ==> !r.rolledBack
      ensures !r.ok ==> if a.mergeRuns && history[old(head)] <= history[sha] then Undone(r, old(head), sha, a)
                        else head == old(head) && deps == old(deps) && !r.rolledBack
      ensures r.restart.None? && r.fromRef == so.fromRef && (r.ok <==> !SomeFailed(r.steps))
      ensures |so.steps| < |r.steps| && forall i :: 0 <= i < |so.steps| ==> r.steps[i] == so.steps[i]
      ensures r.steps[|so.steps|] == Step(GitUpdate, a.mergeRuns && history[old(head)] <= history[sha])
      ensures forall i :: |so.steps| < i < |r.steps| ==> Told(r.steps[i], a)
    {
      var from_ := head;
      var n := |so.steps|;
      FastForwardIsExact(history, head, sha);
      var merged := if a.mergeRuns then FastForward(history, head, sha) else None;
      r := so.(steps := so.steps + [Step(GitUpdate, merged.Some?)]);
      if merged.None? {
        assert !r.steps[n].ok;
        return;
      }
      head := merged.value;
      assert from_ in history[head];
      r := Install(from_, a, r.(toRef := Some(if a.headReadsAgain then head else sha)));
    }

    // The last part of a run that moved the checkout.
    method Schedule(from_: Sha, written: real, so: Result) returns (r: Result)
      requires so.toRef == Some(head) && so.restart.None?
      modifies this`status
      ensures r == so.(restart := r.restart, steps := so.steps + [Step(Restart, r.restart.Some?)])
      ensures r.restart.Some? <==> host.systemctl && ((host.healthUrl && host.systemdRun && host.unitStarts)
                                                      || host.shellStarts)
      ensures r.restart == Some(WatchedRestart) <==>
                host.systemctl && host.healthUrl && host.systemdRun && host.unitStarts
      ensures status == if r.restart.None? then old(status)
                        else Some(Status(written.Floor, from_, head, if r.restart.value.WatchedRestart?
                                         then PendingCheck else Unwatched))
    {
      var mode := ScheduleRestart();
      r := so.(restart := mode, steps := so.steps + [Step(Restart, mode.Some?)]);
      if mode.Some? {
        status := Some(Status(written.Floor, from_, r.toRef.value, if mode.value.WatchedRestart? then PendingCheck
                              else Unwatched));
      }
    }

    // What a run that started at `from_` ends in, with `deps0` installed and `was` in the status
    // file: it succeeds exactly when nothing it needs fails; it ends at the commit resolved, or
    // where it started, or undone as far as its steps say; it schedules a restart only of a
    // checkout that moved, and the status file, written at `written`, says how; and every step
    // it records is true.
    ghost predicate Ended(from_: Sha, deps0: Deps, was: Option<Status>, r: Result, a: Answers, restart: bool,
                          now: real, written: real)
      requires from_ in history && (a.fetched.Some? ==> a.fetched.value in history)
      reads this
    {
      && head in history
      && (r.ok <==> Idle(from_, was, a, now) || (Moves(from_, was, a, now) && a.pip && a.starts))
      && (if !Moves(from_, was, a, now) then head == from_ && deps == deps0 && !r.rolledBack
          else if a.pip && a.starts then Arrived(from_, a) && !r.rolledBack
          else Undone(r, from_, a.fetched.value, a) && r.fromRef == Some(from_))
      && (r.restart.Some? <==> && r.ok && !Idle(from_, was, a, now) && restart && host.underSystemd
                               && Holds(Restart, history, from_, was, host, a, now))
      && (r.restart == Some(WatchedRestart) <==>
            r.restart.Some? && host.healthUrl && host.systemdRun && host.unitStarts)
      && status == (if r.restart.None? then was
                    else Some(Status(written.Floor, from_, head, if r.restart.value.WatchedRestart? then PendingCheck
                                     else Unwatched)))
      && (r.ok <==> !SomeFailed(r.steps)) && Truthful(r.steps, history, from_, was, host, a, now)
    }

    // The same with nothing left to definitions: whether the run succeeds, and where the checkout,
    // its dependencies and the status file are after it, whatever the commands answered.
    lemma EndedExactly(from_: Sha, deps0: Deps, was: Option<Status>, r: Result, a: Answers, restart: bool,
                       now: real, written: real)
      requires IsHistory(history) && from_ in history && (a.fetched.Some? ==> a.fetched.value in history)
      requires Ended(from_, deps0, was, r, a, restart, now, written)
      ensures var pending := was.Some? && was.value.outcome == PendingCheck
          && 0.0 <= now - was.value.at as real < 1230.0;
              var compared := !a.blocked && !pending && a.headReads && a.fetched.Some? && a.counts;
              var news := a.fetched.Some? && a.fetched.value !in history[from_];
              var moved := compared && news && (requireSigned ==> a.fetched.value in a.trusted) && a.mergeRuns
                           && from_ in history[a.fetched.value];
              var good := moved && a.pip && a.starts;
              var scheduled := good && restart && host.underSystemd && host.systemctl
                               && ((host.healthUrl && host.systemdRun && host.unitStarts) || host.shellStarts);
              && (r.ok <==> (compared && !news) || good)
              && head == (if moved && (good || !a.resets) then a.fetched.value else from_)
              && deps == (if !moved then deps0 else if good then Installed(a.fetched.value)
                          else if !a.resets then (if a.pip then Installed(a.fetched.value) else Unknown)
                          else if a.pipAgain then Installed(from_) else Unknown)
              && (r.rolledBack <==> moved && !good && a.resets)
              && (r.restart.Some? <==> scheduled)
              && status == (if !scheduled then was
                            else Some(Status(written.Floor, from_, a.fetched.value,
                                             if host.healthUrl && host.systemdRun && host.unitStarts then PendingCheck
                                             else Unwatched)))
    {
      if a.fetched.Some? {
        UpToDateMeansContained(history, from_, a.fetched.value);
        AncestryIsContainment(from_, a.fetched.value);
      }
    }

    lemma AncestryIsContainment(from_: Sha, sha: Sha)
      requires IsHistory(history) && from_ in history && sha in history
      ensures history[from_] <= history[sha] <==> from_ in history[sha]
    {
    }

    // `_apply_update_locked`.
    method ApplyLocked(a: Answers, restart: bool, now: real, written: real) returns (r: Result)
      requires IsHistory(history) && head in history && (a.fetched.Some? ==> a.fetched.value in history)
      modifies this`head, this`deps, this`status
      ensures Ended(old(head), old(deps), old(status), r, a, restart, now, written)
    {
      var target: Option<Sha>;
      r, target := Prepare(a, now);
      if target.None? {
        return;
      }
      var from_, prepared := head, r.steps;
      r := Advance(target.value, a, r);
      TruthfulOn(prepared, r.steps, from_, a, now, target.value);
      if !r.ok || !restart || !host.underSystemd {
        return;
      }
      var advanced := r.steps;
      r := Schedule(from_, written, r);
      assert forall i :: 0 <= i < |advanced| ==> r.steps[i] == advanced[i];
    }

    lemma TruthfulOn(before: seq<Step>, after: seq<Step>, from_: Sha, a: Answers, now: real, sha: Sha)
      requires from_ in history && sha in history && a.fetched == Some(sha)
      requires Truthful(before, history, from_, status, host, a, now)
      requires |before| < |after| && forall i :: 0 <= i < |before| ==> after[i] == before[i]
      requires after[|before|] == Step(GitUpdate, a.mergeRuns && history[from_] <= history[sha])
      requires forall i :: |before| < i < |after| ==> Told(after[i], a)
      ensures Truthful(after, history, from_, status, host, a, now)
    {
      hide UpToDate, InFlight;
    }

    // `apply_update`: a second update is refused, not queued.
    method ApplyUpdate(a: Answers, restart: bool, now: real, written: real) returns (r: Result)
      requires IsHistory(history) && head in history && (a.fetched.Some? ==> a.fetched.value in history)
      modifies this
      ensures locked == old(locked)
      ensures old(locked) ==>
                && !r.ok && !r.rolledBack && r.restart.None? && r.steps == [Step(Preflight, false)]
                && head == old(head) && deps == old(deps) && status == old(status)
      ensures !old(locked) ==> Ended(old(head), old(deps), old(status), r, a, restart, now, written)
    {
      if locked {
        return NO_RESULT.(steps := [Step(Preflight, false)]);
      }
      locked := true;
      r := ApplyLocked(a, restart, now, written);
      locked := false;
    }
  }
}
