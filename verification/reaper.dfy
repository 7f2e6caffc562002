/**
 * The child-process reaper that runs when a Webkit test run is done.
 *
 * On macOS it reads a process listing, takes the pids of the lines that begin with one,
 * and for each pid in order probes it with the zero signal and, when the probe succeeds,
 * sends it SIGHUP. The operating system is an input here: `Os` gives, per pid, what the
 * probe and the hang-up signal answer. The result is the trace of what the reaper did.
 */
module Reaper {
  import Text

  /** The `code` of any other kill error: never one of the two names the reaper compares against. */
  type OtherName = name: string | name != "EPERM" && name != "ESRCH" witness "EINVAL"

  /** The error codes of a failed `process.kill`, as far as the reaper tells them apart. */
  datatype ErrorCode = Eperm | Esrch | OtherCode(name: OtherName)

  datatype SignalResult = Delivered | Failed(code: ErrorCode)

  /** What the operating system answers for one pid to the zero-signal probe and to SIGHUP. */
  datatype Answers = Answers(probe: SignalResult, hangup: SignalResult)

  type Os = string -> Answers

  /** The effects of the reaper: a signal sent, or a warning written to the console. */
  datatype Action = Probe(pid: string) | Warn(pid: string, taskId: string) | Hangup(pid: string)

  /** Whether the reaper went through its whole list or stopped on an unexpected kill error. */
  datatype Status = Finished | Aborted(pid: string, code: ErrorCode)

  datatype Report = Report(actions: seq<Action>, status: Status)

  /** SIGHUP reaches the pid and then fails with anything but "no such process". */
  predicate IsFatal(os: Os, pid: string) {
    os(pid).probe == Delivered && os(pid).hangup.Failed? && os(pid).hangup.code != Esrch
  }

  /* ---------------------------------------------------------------------------
   * One pid
   * ------------------------------------------------------------------------- */

  /**
   * The protocol for one pid: probe; on EPERM warn; on any other probe failure stop
   * quietly; otherwise send SIGHUP, tolerating ESRCH and aborting on any other error.
   */
  function HandlePid(pid: string, taskId: string, os: Os): (r: Report)
    ensures 1 <= |r.actions| <= 2 && r.actions[0] == Probe(pid)
    ensures Hangup(pid) in r.actions <==> os(pid).probe == Delivered
    ensures Warn(pid, taskId) in r.actions <==> os(pid).probe == Failed(Eperm)
    ensures os(pid).probe == Failed(Eperm) ==> r.actions == [Probe(pid), Warn(pid, taskId)]
    ensures os(pid).probe.Failed? && os(pid).probe.code != Eperm ==> r.actions == [Probe(pid)]
    ensures forall a :: a in r.actions ==> a.pid == pid && (a.Warn? ==> a.taskId == taskId)
    ensures r.status.Aborted? <==> IsFatal(os, pid)
    ensures r.status.Aborted? ==> r.status == Aborted(pid, os(pid).hangup.code)
  {
    match os(pid).probe
    case Failed(code) =>
      if code == Eperm then Report([Probe(pid), Warn(pid, taskId)], Finished)
      else Report([Probe(pid)], Finished)
    case Delivered =>
      match os(pid).hangup
      case Delivered => Report([Probe(pid), Hangup(pid)], Finished)
      case Failed(code) =>
        if code == Esrch then Report([Probe(pid), Hangup(pid)], Finished)
        else Report([Probe(pid), Hangup(pid)], Aborted(pid, code))
  }

  /* ---------------------------------------------------------------------------
   * A list of pids
   * ------------------------------------------------------------------------- */

  /** The report of a run that first performed `actions` and then went on as `r` describes. */
  function Prepend(actions: seq<Action>, r: Report): Report {
    Report(actions + r.actions, r.status)
  }

  /** Runs `HandlePid` over `pids` in order, stopping at the first abort. */
  function SignalAll(pids: seq<string>, taskId: string, os: Os): Report
    decreases |pids|
  {
    if pids == [] then Report([], Finished)
    else
      var head := HandlePid(pids[0], taskId, os);
      if head.status.Aborted? then head
      else Prepend(head.actions, SignalAll(pids[1..], taskId, os))
  }

  /** Performing `a` and then `b` before a run is performing `a + b` before it. */
  lemma PrependTwice(a: seq<Action>, b: seq<Action>, r: Report)
    ensures Prepend(a, Prepend(b, r)) == Prepend(a + b, r)
  {
    assert a + (b + r.actions) == (a + b) + r.actions;
  }

  /** One step of the reaper from position `i` of the list. */
  lemma SignalAllFrom(pids: seq<string>, i: nat, taskId: string, os: Os)
    requires i < |pids|
    ensures var step := HandlePid(pids[i], taskId, os);
      SignalAll(pids[i..], taskId, os)
        == if step.status.Aborted? then step else Prepend(step.actions, SignalAll(pids[i + 1..], taskId, os))
  {
    assert pids[i..][0] == pids[i];
    assert pids[i..][1..] == pids[i + 1..];
  }

  /** Index of the first pid whose SIGHUP fails fatally, or `|pids|` when there is none. */
  function FirstFatal(pids: seq<string>, os: Os): (k: nat)
    ensures k <= |pids|
    ensures forall j :: 0 <= j < k ==> !IsFatal(os, pids[j])
    ensures k < |pids| ==> IsFatal(os, pids[k])
  {
    if pids == [] then 0
    else if IsFatal(os, pids[0]) then 0
    else 1 + FirstFatal(pids[1..], os)
  }

  /** How many pids the reaper gets to: all of them, or up to and including the fatal one. */
  function Reached(pids: seq<string>, os: Os): (n: nat)
    ensures n <= |pids|
  {
    var k := FirstFatal(pids, os);
    if k < |pids| then k + 1 else |pids|
  }

  /** Past a pid whose SIGHUP does not fail fatally, the reached pids are it and those reached after it. */
  lemma ReachedPast(pids: seq<string>, os: Os)
    requires pids != [] && !IsFatal(os, pids[0])
    ensures pids[..Reached(pids, os)] == [pids[0]] + pids[1..][..Reached(pids[1..], os)]
  {
    var n := Reached(pids[1..], os);
    assert Reached(pids, os) == 1 + n;
    assert pids[..1 + n] == [pids[0]] + pids[1..][..n];
  }

  /** A fatal first pid is the only one reached. */
  lemma ReachedOnlyFirst(pids: seq<string>, os: Os)
    requires pids != [] && IsFatal(os, pids[0])
    ensures pids[..Reached(pids, os)] == [pids[0]]
  {
    assert Reached(pids, os) == 1;
  }

  /** The pids probed, in the order of the trace. */
  function ProbedPids(actions: seq<Action>): seq<string> {
    if actions == [] then []
    else (if actions[0].Probe? then [actions[0].pid] else []) + ProbedPids(actions[1..])
  }

  lemma {:induction false} ProbedPidsAppend(a: seq<Action>, b: seq<Action>)
    ensures ProbedPids(a + b) == ProbedPids(a) + ProbedPids(b)
  {
    if a == [] {
      assert a + b == b;
    } else {
      assert (a + b)[0] == a[0];
      assert (a + b)[1..] == a[1..] + b;
      ProbedPidsAppend(a[1..], b);
    }
  }

  lemma ProbedPidsOfHandle(pid: string, taskId: string, os: Os)
    ensures ProbedPids(HandlePid(pid, taskId, os).actions) == [pid]
  {
    var acts := HandlePid(pid, taskId, os).actions;
    if |acts| == 2 {
      assert !acts[1].Probe?;
      assert acts[1..][1..] == [];
      assert ProbedPids(acts[1..]) == [];
    } else {
      assert acts[1..] == [];
    }
    assert ProbedPids(acts) == [pid] + ProbedPids(acts[1..]);
  }

  /** The reaper aborts exactly when some pid it reaches fails fatally, naming that pid. */
  lemma {:induction false} SignalAllStatus(pids: seq<string>, taskId: string, os: Os)
    ensures var k := FirstFatal(pids, os);
      SignalAll(pids, taskId, os).status
        == if k < |pids| then Aborted(pids[k], os(pids[k]).hangup.code) else Finished
    decreases |pids|
  {
    if pids != [] && !IsFatal(os, pids[0]) {
      SignalAllStatus(pids[1..], taskId, os);
    }
  }

  /**
   * The pids probed are exactly the pids the reaper reaches, in list order: nothing after
   * a fatal SIGHUP failure is probed or signalled.
   */
  lemma {:induction false} SignalAllProbes(pids: seq<string>, taskId: string, os: Os)
    ensures ProbedPids(SignalAll(pids, taskId, os).actions) == pids[..Reached(pids, os)]
    decreases |pids|
  {
    if pids == [] {
      return;
    }
    var head := HandlePid(pids[0], taskId, os);
    ProbedPidsOfHandle(pids[0], taskId, os);
    if IsFatal(os, pids[0]) {
      ReachedOnlyFirst(pids, os);
    } else {
      var rest := SignalAll(pids[1..], taskId, os);
      SignalAllProbes(pids[1..], taskId, os);
      ProbedPidsAppend(head.actions, rest.actions);
      ReachedPast(pids, os);
    }
  }

  /**
   * SIGHUP goes to exactly the reached pids whose probe succeeded; a warning, naming the task,
   * is written for exactly the reached pids whose probe failed with EPERM.
   */
  lemma {:induction false} SignalAllEffects(pids: seq<string>, taskId: string, os: Os)
    ensures var acts := SignalAll(pids, taskId, os).actions;
      var reached := pids[..Reached(pids, os)];
      && (forall p :: Hangup(p) in acts <==> p in reached && os(p).probe == Delivered)
      && (forall p :: Warn(p, taskId) in acts <==> p in reached && os(p).probe == Failed(Eperm))
      && (forall a :: a in acts && a.Warn? ==> a.taskId == taskId)
    decreases |pids|
  {
    if pids == [] {
      return;
    }
    var head := HandlePid(pids[0], taskId, os);
    if IsFatal(os, pids[0]) {
      ReachedOnlyFirst(pids, os);
    } else {
      var rest := SignalAll(pids[1..], taskId, os);
      SignalAllEffects(pids[1..], taskId, os);
      ReachedPast(pids, os);
    }
  }

  /** Every SIGHUP and every warning comes right after the probe of the same pid. */
  lemma {:induction false} SignalAllOrdering(pids: seq<string>, taskId: string, os: Os)
    ensures var acts := SignalAll(pids, taskId, os).actions;
      forall i :: 0 <= i < |acts| && !acts[i].Probe? ==> 0 < i && acts[i - 1] == Probe(acts[i].pid)
    ensures var acts := SignalAll(pids, taskId, os).actions;
      acts != [] ==> acts[0].Probe?
    decreases |pids|
  {
    if pids != [] {
      var head := HandlePid(pids[0], taskId, os);
      if !IsFatal(os, pids[0]) {
        var rest := SignalAll(pids[1..], taskId, os);
        SignalAllOrdering(pids[1..], taskId, os);
        var acts := head.actions + rest.actions;
        forall i | 0 <= i < |acts| && !acts[i].Probe?
          ensures 0 < i && acts[i - 1] == Probe(acts[i].pid)
        {
          if i >= |head.actions| {
            var j := i - |head.actions|;
            assert acts[i] == rest.actions[j];
            assert 0 < j;
            assert acts[i - 1] == rest.actions[j - 1];
          }
        }
      }
    }
  }

  /**
   * Reaping again once every process is gone (each probe says "no such process") only
   * probes: no warning, no SIGHUP, no error.
   */
  lemma {:induction false} SignalAllWhenAllGone(pids: seq<string>, taskId: string, os: Os)
    requires forall p :: p in pids ==> os(p).probe == Failed(Esrch)
    ensures SignalAll(pids, taskId, os) == Report(seq(|pids|, i requires 0 <= i < |pids| => Probe(pids[i])), Finished)
    decreases |pids|
  {
    if pids != [] {
      SignalAllWhenAllGone(pids[1..], taskId, os);
      var probes := seq(|pids|, i requires 0 <= i < |pids| => Probe(pids[i]));
      var rest := seq(|pids| - 1, i requires 0 <= i < |pids| - 1 => Probe(pids[1..][i]));
      assert probes == [Probe(pids[0])] + rest;
    }
  }

  /* ---------------------------------------------------------------------------
   * The whole cleanup
   * ------------------------------------------------------------------------- */

  /**
   * The pids taken from a process listing: nothing unless the listing mentions both
   * "playwright" and the task id somewhere, and then every match of `^[0-9]+` line by line.
   */
  function CandidatePids(stdout: string, taskId: string): seq<string> {
    if stdout != [] && Text.Includes(stdout, "playwright") && Text.Includes(stdout, taskId) then
      Text.GlobalMatch(stdout, 0)
    else []
  }

  /** The reaper as a whole: it acts only on macOS. */
  function Cleanup(platform: string, taskId: string, stdout: string, os: Os): Report {
    if platform == "darwin" then SignalAll(CandidatePids(stdout, taskId), taskId, os)
    else Report([], Finished)
  }

  /**
   * Pids are taken only when both markers occur in the listing, and then they are exactly
   * the maximal leading digit runs of the lines that begin with a digit, in line order.
   */
  lemma CandidatePidsSpec(stdout: string, taskId: string)
    ensures var pids := CandidatePids(stdout, taskId);
      && (pids != [] ==> Text.Occurs(stdout, "playwright") && Text.Occurs(stdout, taskId))
      && (Text.Occurs(stdout, "playwright") && Text.Occurs(stdout, taskId) ==>
            pids == Text.LeadingDigitRuns(Text.Lines(stdout)))
  {
    Text.IncludesMeansOccurs(stdout, "playwright");
    Text.IncludesMeansOccurs(stdout, taskId);
    Text.PidMatchIsLeadingDigitRuns(stdout);
    if stdout == [] {
      assert Text.Lines(stdout) == [""];
    }
  }

  /** Anywhere but macOS the cleanup does nothing at all. */
  lemma CleanupOffMacOS(platform: string, taskId: string, stdout: string, os: Os)
    requires platform != "darwin"
    ensures Cleanup(platform, taskId, stdout, os) == Report([], Finished)
  {
  }

  /** A listing that lacks either marker leads to no signal and no warning. */
  lemma CleanupWithoutMarkers(platform: string, taskId: string, stdout: string, os: Os)
    requires !Text.Occurs(stdout, "playwright") || !Text.Occurs(stdout, taskId)
    ensures Cleanup(platform, taskId, stdout, os) == Report([], Finished)
  {
    Text.IncludesMeansOccurs(stdout, "playwright");
    Text.IncludesMeansOccurs(stdout, taskId);
  }

  /**
   * Only lines that begin with a digit yield a pid. In a listing whose first line is indented
   * (as `ps` prints a short pid right-aligned) and names both markers, and whose second line
   * begins with a pid of some other process, only that second pid is taken.
   */
  lemma IndentedLineYieldsNoPid(first: string, digits: string, tail: string, taskId: string)
    requires first != [] && first[0] == ' '
    requires forall j :: 0 <= j < |first| ==> !Text.IsLineTerminator(first[j])
    requires Text.Occurs(first, "playwright") && Text.Occurs(first, taskId)
    requires digits != [] && forall j :: 0 <= j < |digits| ==> Text.IsDigit(digits[j])
    requires tail == [] || !Text.IsDigit(tail[0])
    requires forall j :: 0 <= j < |tail| ==> !Text.IsLineTerminator(tail[j])
    ensures CandidatePids(first + "\n" + (digits + tail), taskId) == [digits]
  {
    var second := digits + tail;
    var s := first + "\n" + second;
    assert s == first + ("\n" + second);
    Text.OccursInPrefix(first, "\n" + second, "playwright");
    Text.OccursInPrefix(first, "\n" + second, taskId);
    CandidatePidsSpec(s, taskId);
    forall j | 0 <= j < |second|
      ensures !Text.IsLineTerminator(second[j])
    {
      if j < |digits| {
        assert Text.IsDigit(second[j]);
      } else {
        assert second[j] == tail[j - |digits|];
      }
    }
    Text.LinesOfTwo(first, second);
    Text.NonDigitLineYieldsNothing([], first, [second]);
    assert [] + [first] + [second] == [first, second];
    PidOfLine(digits, tail);
  }

  lemma PidOfLine(digits: string, tail: string)
    requires digits != [] && forall j :: 0 <= j < |digits| ==> Text.IsDigit(digits[j])
    requires tail == [] || !Text.IsDigit(tail[0])
    ensures Text.LeadingDigitRuns([digits + tail]) == [digits]
  {
    Text.DigitRunOf(digits, tail);
    assert (digits + tail)[..|digits|] == digits;
    Text.LeadingDigitRunsOfLine(digits + tail);
  }

  /* ---------------------------------------------------------------------------
   * The loop as the source writes it
   * ------------------------------------------------------------------------- */

  /**
   * The cleanup with the per-pid loop written out: a `forEach` over the candidates that
   * stops at the first unexpected kill error. It agrees with `Cleanup`.
   */
  method ChildProcessCleanup(platform: string, taskId: string, stdout: string, os: Os)
    returns (report: Report)
    ensures report == Cleanup(platform, taskId, stdout, os)
  {
    if platform != "darwin" {
      return Report([], Finished);
    }
    var pids := CandidatePids(stdout, taskId);
    var done: seq<Action> := [];
    var i := 0;
    while i < |pids|
      invariant 0 <= i <= |pids|
      invariant SignalAll(pids, taskId, os) == Prepend(done, SignalAll(pids[i..], taskId, os))
    {
      var step := HandlePid(pids[i], taskId, os);
      SignalAllFrom(pids, i, taskId, os);
      if step.status.Aborted? {
        return Prepend(done, step);
      }
      PrependTwice(done, step.actions, SignalAll(pids[i + 1..], taskId, os));
      done := done + step.actions;
      i := i + 1;
    }
    assert pids[i..] == [];
    assert done + [] == done;
    report := Report(done, Finished);
  }
}
