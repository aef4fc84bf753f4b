/**
  The preflight of a server: a scan issues a challenge, the user confirms its fingerprint, and one inspection follows.
  Every method is cut at its waits; the operations waiting are the tasks of the state.
 */
module ServerPreflight {
  import opened Option
  import HostReport
  import InstallPlan

  const CHALLENGE_LIFETIME := 300000

  /** Ids are fresh and numbered in order of issue. */
  datatype Challenge = Challenge(id: int, target: string, fingerprint: string, key: string, expiresAt: int)

  datatype Point = MakingDirectory | WritingKnownHosts | RunningSsh

  /** `at` is the generation an operation captured, `began` the time an inspection was asked for. */
  datatype Task =
    | SettingIdentity(at: int, path: string)
    | Scanning(at: int, controller: int, target: string)
    | Inspecting(at: int, controller: int, challenge: Challenge, identity: Option<string>, began: int, point: Point)
    | Finished

  /** A log entry: a challenge and the generation it was issued in. */
  datatype Issue = Issue(challenge: Challenge, at: int)

  /** A log entry: an SSH process started for a challenge. */
  datatype SshRun = SshRun(challenge: Challenge, at: int, identity: Option<string>, began: int)

  datatype State = State(
    challenge: Option<Challenge>, inspection: Option<InstallPlan.Inspection>, controller: Option<int>,
    generation: int, identity: Option<string>,
    tasks: seq<Task>, aborted: seq<bool>, issued: seq<Issue>, runs: seq<SshRun>)

  datatype Error = EXPIRED_CHALLENGE | FINGERPRINT_MISMATCH | INVALID_TARGET | INVALID_KEY_FILE | CANCELLED | FAILED

  /** An operation goes on waiting, succeeds, or throws. */
  datatype Reply = Waiting(task: int) | Done | Threw(error: Error)

  datatype Event =
    | Cancel
    | SetIdentity(path: Option<string>, wellFormed: bool)
    | IdentityChecked(task: int, acceptable: bool)
    | Scan(target: Option<string>)
    | Scanned(task: int, key: Option<(string, string)>, now: int)
    | Inspect(id: int, fingerprint: string, now: int)
    | DirectoryMade(task: int, ok: bool)
    | KnownHostsWritten(task: int, ok: bool)
    | SshEnded(task: int, report: Option<HostReport.Report>, now: int)

  function Initial(): State { State(None, None, None, 0, None, [], [], [], []) }

  // ---------------------------------------------------------------- the operations

  function Abort(aborted: seq<bool>, controller: Option<int>): seq<bool> {
    if controller.Some? && 0 <= controller.value < |aborted| then aborted[controller.value := true] else aborted
  }

  function Cancelled(s: State): State {
    s.(generation := s.generation + 1, inspection := None, challenge := None,
       aborted := Abort(s.aborted, s.controller), controller := None)
  }

  /** Cancels what is under way and takes a controller for a new operation. */
  function Operation(s: State): State {
    var c := Cancelled(s);
    c.(controller := Some(|c.aborted|), aborted := c.aborted + [false])
  }

  function Start(s: State, t: Task): (State, Reply) { (s.(tasks := s.tasks + [t]), Waiting(|s.tasks|)) }

  function Finish(s: State, i: int): State
    requires 0 <= i < |s.tasks|
  {
    s.(tasks := s.tasks[i := Finished])
  }

  function SetIdentityCall(s: State, path: Option<string>, wellFormed: bool): (State, Reply) {
    var c := Cancelled(s);
    if path.None? then (c.(identity := None), Done)
    else if !wellFormed then (c, Threw(INVALID_KEY_FILE))
    else Start(c, SettingIdentity(c.generation, path.value))
  }

  function IdentityReply(s: State, i: int, acceptable: bool): (State, Reply)
    requires 0 <= i < |s.tasks| && s.tasks[i].SettingIdentity?
  {
    if !acceptable then (Finish(s, i), Threw(INVALID_KEY_FILE))
    else if s.tasks[i].at != s.generation then (Finish(s, i), Threw(CANCELLED))
    else (Finish(s, i).(identity := Some(s.tasks[i].path)), Done)
  }

  function ScanCall(s: State, target: Option<string>): (State, Reply) {
    if target.None? then (s, Threw(INVALID_TARGET))
    else
      var o := Operation(s);
      Start(o, Scanning(o.generation, |s.aborted|, target.value))
  }

  /** `key` is the fingerprint and the key of the one host key found, None when the scan failed in any way. */
  function ScanReply(s: State, i: int, key: Option<(string, string)>, now: int): (State, Reply)
    requires 0 <= i < |s.tasks| && s.tasks[i].Scanning?
  {
    var t := s.tasks[i];
    if t.at != s.generation then (Finish(s, i), Threw(CANCELLED))
    else if key.None? then (Finish(s, i), Threw(FAILED))
    else
      var c := Challenge(|s.issued|, t.target, key.value.0, key.value.1, now + CHALLENGE_LIFETIME);
      (Finish(s, i).(challenge := Some(c), issued := s.issued + [Issue(c, s.generation)]), Done)
  }

  function InspectCall(s: State, id: int, fingerprint: string, now: int): (State, Reply) {
    if s.challenge.None? || id != s.challenge.value.id || now >= s.challenge.value.expiresAt then (s, Threw(EXPIRED_CHALLENGE))
    else if fingerprint != s.challenge.value.fingerprint then (s, Threw(FINGERPRINT_MISMATCH))
    else
      var o := Operation(s);
      Start(o, Inspecting(o.generation, |s.aborted|, s.challenge.value, s.identity, now, MakingDirectory))
  }

  function DirectoryReply(s: State, i: int, ok: bool): (State, Reply)
    requires 0 <= i < |s.tasks| && s.tasks[i].Inspecting?
  {
    if !ok then (Finish(s, i), Threw(FAILED))
    else (s.(tasks := s.tasks[i := s.tasks[i].(point := WritingKnownHosts)]), Waiting(i))
  }

  function KnownHostsReply(s: State, i: int, ok: bool): (State, Reply)
    requires 0 <= i < |s.tasks| && s.tasks[i].Inspecting?
  {
    var t := s.tasks[i];
    if !ok then (Finish(s, i), Threw(FAILED))
    else if t.at != s.generation then (Finish(s, i), Threw(CANCELLED))
    else (s.(tasks := s.tasks[i := t.(point := RunningSsh)],
             runs := s.runs + [SshRun(t.challenge, t.at, t.identity, t.began)]), Waiting(i))
  }

  /** `report` is the parsed report, None when SSH failed in any way or printed anything else. */
  function SshReply(s: State, i: int, report: Option<HostReport.Report>, now: int): (State, Reply)
    requires 0 <= i < |s.tasks| && s.tasks[i].Inspecting?
  {
    var t := s.tasks[i];
    if t.at != s.generation then (Finish(s, i), Threw(CANCELLED))
    else if report.None? then (Finish(s, i), Threw(FAILED))
    else
      (Finish(s, i).(inspection := Some(InstallPlan.Inspection(t.challenge.target, t.challenge.fingerprint, now, report.value))),
       Done)
  }

  predicate At(s: State, i: int, point: Point) {
    0 <= i < |s.tasks| && s.tasks[i].Inspecting? && s.tasks[i].point == point
  }

  /** A reply no task waits for is no event at all. */
  function Step(s: State, e: Event): State {
    match e
    case Cancel => Cancelled(s)
    case SetIdentity(path, wellFormed) => SetIdentityCall(s, path, wellFormed).0
    case IdentityChecked(i, acceptable) =>
      if 0 <= i < |s.tasks| && s.tasks[i].SettingIdentity? then IdentityReply(s, i, acceptable).0 else s
    case Scan(target) => ScanCall(s, target).0
    case Scanned(i, key, now) => if 0 <= i < |s.tasks| && s.tasks[i].Scanning? then ScanReply(s, i, key, now).0 else s
    case Inspect(id, fingerprint, now) => InspectCall(s, id, fingerprint, now).0
    case DirectoryMade(i, ok) => if At(s, i, MakingDirectory) then DirectoryReply(s, i, ok).0 else s
    case KnownHostsWritten(i, ok) => if At(s, i, WritingKnownHosts) then KnownHostsReply(s, i, ok).0 else s
    case SshEnded(i, report, now) => if At(s, i, RunningSsh) then SshReply(s, i, report, now).0 else s
  }

  function Run(es: seq<Event>): State
    decreases |es|
  {
    if es == [] then Initial() else Step(Run(es[..|es| - 1]), es[|es| - 1])
  }

  // ---------------------------------------------------------------- invariants of every run

  predicate Logged(s: State, c: Challenge) { 0 <= c.id < |s.issued| && s.issued[c.id].challenge == c }

  /** Nothing waits to start, or has started, an SSH process for the challenge. */
  predicate Unused(s: State, id: int) {
    && (forall i :: 0 <= i < |s.tasks| && s.tasks[i].Inspecting? ==> s.tasks[i].challenge.id != id)
    && (forall r :: 0 <= r < |s.runs| ==> s.runs[r].challenge.id != id)
  }

  predicate Ids(s: State) { forall k :: 0 <= k < |s.issued| ==> s.issued[k].challenge.id == k }

  predicate RunsAreBacked(s: State) {
    && (forall r :: 0 <= r < |s.runs| ==>
          Logged(s, s.runs[r].challenge) && s.runs[r].began < s.runs[r].challenge.expiresAt)
    && (forall q, r :: 0 <= q < r < |s.runs| ==> s.runs[q].challenge.id != s.runs[r].challenge.id)
  }

  predicate TaskOk(s: State, t: Task) {
    && (t.SettingIdentity? || t.Scanning? || t.Inspecting? ==> t.at <= s.generation)
    && (t.Scanning? || t.Inspecting? ==>
          0 <= t.controller < |s.aborted| && (t.at == s.generation <==> !s.aborted[t.controller])
          && (t.at == s.generation ==> s.controller == Some(t.controller)))
    && (t.Inspecting? ==>
          && Logged(s, t.challenge) && t.began < t.challenge.expiresAt
          && (t.at == s.generation ==> t.identity == s.identity)
          && (if t.point == RunningSsh then SshRun(t.challenge, t.at, t.identity, t.began) in s.runs
              else forall r :: 0 <= r < |s.runs| ==> s.runs[r].challenge.id != t.challenge.id))
  }

  predicate TasksAreApart(s: State) {
    && (forall i, j :: 0 <= i < j < |s.tasks| && !s.tasks[i].Finished? && !s.tasks[j].Finished?
                       ==> s.tasks[i].at != s.tasks[j].at)
    && (forall i, j :: 0 <= i < j < |s.tasks| && s.tasks[i].Inspecting? && s.tasks[j].Inspecting?
                       ==> s.tasks[i].challenge.id != s.tasks[j].challenge.id)
  }

  /** No task of the current generation is waiting. */
  predicate Quiet(s: State) { forall i :: 0 <= i < |s.tasks| && !s.tasks[i].Finished? ==> s.tasks[i].at != s.generation }

  predicate StageOk(s: State) {
    && (s.challenge.Some? ==>
          Quiet(s) && s.inspection.None? && Logged(s, s.challenge.value) && Unused(s, s.challenge.value.id)
          && s.issued[s.challenge.value.id].at == s.generation)
    && (s.inspection.Some? ==> Quiet(s) && exists r :: 0 <= r < |s.runs| && Backs(s.runs[r], s))
  }

  /** The run behind the present inspection. */
  predicate Backs(run: SshRun, s: State)
    requires s.inspection.Some?
  {
    && run.at == s.generation && run.identity == s.identity
    && run.challenge.target == s.inspection.value.target && run.challenge.fingerprint == s.inspection.value.fingerprint
  }

  predicate ControllerOk(s: State) { s.controller.Some? ==> 0 <= s.controller.value < |s.aborted| }

  predicate Inv(s: State) {
    && Ids(s) && RunsAreBacked(s) && (forall t :: t in s.tasks ==> TaskOk(s, t)) && TasksAreApart(s) && StageOk(s)
    && ControllerOk(s)
  }

  lemma CancelledKeeps(s: State)
    requires Inv(s)
    ensures Inv(Cancelled(s)) && Quiet(Cancelled(s))
  {
    var c := Cancelled(s);
    forall t | t in c.tasks
      ensures TaskOk(c, t) && (t.Finished? || t.at < c.generation)
    {
      assert TaskOk(s, t);
    }
  }

  lemma OperationKeeps(s: State)
    requires Inv(s)
    ensures Inv(Operation(s)) && Quiet(Operation(s))
  {
    hide Inv, Quiet;
    CancelledKeeps(s);
    NewController(Cancelled(s));
  }

  lemma NewController(c: State)
    requires Inv(c) && Quiet(c) && c.challenge.None? && c.inspection.None?
    ensures var o := c.(controller := Some(|c.aborted|), aborted := c.aborted + [false]); Inv(o) && Quiet(o)
  {
    var o := c.(controller := Some(|c.aborted|), aborted := c.aborted + [false]);
    forall t | t in o.tasks
      ensures TaskOk(o, t)
    {
      assert TaskOk(c, t);
    }
  }

  lemma StartKeeps(s: State, t: Task)
    requires Inv(s) && Quiet(s) && s.challenge.None? && s.inspection.None?
    requires TaskOk(s, t) && !t.Finished? && t.at == s.generation && (t.Inspecting? ==> Unused(s, t.challenge.id))
    ensures Inv(Start(s, t).0)
  {
    var n := Start(s, t).0;
    forall u | u in n.tasks
      ensures TaskOk(n, u)
    {
      assert TaskOk(s, u);
    }
  }

  lemma FinishKeeps(s: State, i: int)
    requires Inv(s) && 0 <= i < |s.tasks|
    ensures Inv(Finish(s, i))
    ensures !s.tasks[i].Finished? && s.tasks[i].at == s.generation ==>
      Quiet(Finish(s, i)) && s.challenge.None? && s.inspection.None?
  {
    hide Logged, RunsAreBacked, Ids, TaskOk;
    var n := Finish(s, i);
    forall t | t in n.tasks
      ensures TaskOk(n, t)
    {
      SameTaskOk(s, n, t);
    }
    if s.challenge.Some? {
      assert Unused(n, s.challenge.value.id);
      SameLogged(s, n, s.challenge.value);
    }
    if s.inspection.Some? {
      var r :| 0 <= r < |s.runs| && Backs(s.runs[r], s);
      assert Backs(n.runs[r], n);
    }
    SameRuns(s, n);
  }

  lemma SameRuns(s: State, n: State)
    requires s.issued == n.issued && s.runs == n.runs
    ensures Ids(s) == Ids(n) && RunsAreBacked(s) == RunsAreBacked(n)
  {
  }

  lemma SameLogged(s: State, n: State, c: Challenge)
    requires s.issued == n.issued
    ensures Logged(s, c) == Logged(n, c)
  {
  }

  lemma SameTaskOk(s: State, n: State, t: Task)
    requires n == s.(tasks := n.tasks)
    requires t == Finished || TaskOk(s, t)
    ensures TaskOk(n, t)
  {
  }

  lemma IdentityKeeps(s: State, identity: Option<string>)
    requires Inv(s) && Quiet(s) && s.challenge.None? && s.inspection.None?
    ensures Inv(s.(identity := identity))
  {
    var n := s.(identity := identity);
    forall t | t in n.tasks
      ensures TaskOk(n, t)
    {
      assert TaskOk(s, t);
    }
  }

  lemma IssueKeeps(s: State, c: Challenge)
    requires Inv(s) && Quiet(s) && s.challenge.None? && s.inspection.None? && c.id == |s.issued|
    ensures Inv(s.(challenge := Some(c), issued := s.issued + [Issue(c, s.generation)]))
  {
    var n := s.(challenge := Some(c), issued := s.issued + [Issue(c, s.generation)]);
    forall t | t in n.tasks
      ensures TaskOk(n, t) && (t.Inspecting? ==> t.challenge.id != c.id)
    {
      assert TaskOk(s, t);
    }
  }

  lemma InspectionKeeps(s: State, i: InstallPlan.Inspection, run: SshRun)
    requires Inv(s) && Quiet(s) && s.challenge.None? && run in s.runs
    requires run.at == s.generation && run.identity == s.identity
    requires run.challenge.target == i.target && run.challenge.fingerprint == i.fingerprint
    ensures Inv(s.(inspection := Some(i)))
  {
    var n := s.(inspection := Some(i));
    forall t | t in n.tasks
      ensures TaskOk(n, t)
    {
      assert TaskOk(s, t);
    }
    var r :| 0 <= r < |s.runs| && s.runs[r] == run;
    assert Backs(n.runs[r], n);
  }

  lemma SetIdentityKeeps(s: State, path: Option<string>, wellFormed: bool)
    requires Inv(s)
    ensures Inv(SetIdentityCall(s, path, wellFormed).0)
  {
    CancelledKeeps(s);
    hide Inv, Quiet;
    var c := Cancelled(s);
    if path.None? {
      IdentityKeeps(c, None);
    } else if wellFormed {
      StartKeeps(c, SettingIdentity(c.generation, path.value));
    }
  }

  lemma IdentityReplyKeeps(s: State, i: int, acceptable: bool)
    requires Inv(s) && 0 <= i < |s.tasks| && s.tasks[i].SettingIdentity?
    ensures Inv(IdentityReply(s, i, acceptable).0)
  {
    hide Inv, Quiet;
    FinishKeeps(s, i);
    if acceptable && s.tasks[i].at == s.generation {
      IdentityKeeps(Finish(s, i), Some(s.tasks[i].path));
    }
  }

  lemma ScanCallKeeps(s: State, target: Option<string>)
    requires Inv(s)
    ensures Inv(ScanCall(s, target).0)
  {
    hide Inv, Quiet;
    if target.Some? {
      OperationKeeps(s);
      var o := Operation(s);
      StartKeeps(o, Scanning(o.generation, |s.aborted|, target.value));
    }
  }

  lemma ScanReplyKeeps(s: State, i: int, key: Option<(string, string)>, now: int)
    requires Inv(s) && 0 <= i < |s.tasks| && s.tasks[i].Scanning?
    ensures Inv(ScanReply(s, i, key, now).0)
  {
    hide Inv, Quiet;
    FinishKeeps(s, i);
    if key.Some? && s.tasks[i].at == s.generation {
      IssueKeeps(Finish(s, i), Challenge(|s.issued|, s.tasks[i].target, key.value.0, key.value.1, now + CHALLENGE_LIFETIME));
    }
  }

  lemma PresentChallenge(s: State)
    requires Inv(s) && s.challenge.Some?
    ensures var c := s.challenge.value; Logged(s, c) && Unused(s, c.id)
  {
  }

  lemma InspectCallKeeps(s: State, id: int, fingerprint: string, now: int)
    requires Inv(s)
    ensures Inv(InspectCall(s, id, fingerprint, now).0)
  {
    hide Inv, Quiet;
    if s.challenge.Some? && id == s.challenge.value.id && now < s.challenge.value.expiresAt
       && fingerprint == s.challenge.value.fingerprint {
      PresentChallenge(s);
      OperationKeeps(s);
      var o := Operation(s);
      StartKeeps(o, Inspecting(o.generation, |s.aborted|, s.challenge.value, s.identity, now, MakingDirectory));
    }
  }

  lemma DirectoryReplyKeeps(s: State, i: int, ok: bool)
    requires Inv(s) && At(s, i, MakingDirectory)
    ensures Inv(DirectoryReply(s, i, ok).0)
  {
    if !ok {
      hide Inv;
      FinishKeeps(s, i);
    } else {
      MoveKeeps(s, i, s.tasks[i].(point := WritingKnownHosts), s.runs);
    }
  }

  /** An inspection moves on, perhaps logging its own SSH run. */
  lemma MoveKeeps(s: State, i: int, t: Task, runs: seq<SshRun>)
    requires Inv(s) && 0 <= i < |s.tasks| && s.tasks[i].Inspecting? && s.tasks[i].point != RunningSsh
    requires t.Inspecting? && t == s.tasks[i].(point := t.point)
    requires runs == if t.point == RunningSsh then s.runs + [SshRun(t.challenge, t.at, t.identity, t.began)] else s.runs
    ensures Inv(s.(tasks := s.tasks[i := t], runs := runs))
  {
    var n := s.(tasks := s.tasks[i := t], runs := runs);
    assert TaskOk(s, s.tasks[i]);
    forall j | 0 <= j < |n.tasks|
      ensures TaskOk(n, n.tasks[j])
    {
      assert TaskOk(s, s.tasks[j]);
      if t.point == RunningSsh && j == i {
        assert n.runs[|s.runs|] == SshRun(t.challenge, t.at, t.identity, t.began);
      }
    }
    MoveKeepsStage(s, i, t, runs);
  }

  lemma MoveKeepsStage(s: State, i: int, t: Task, runs: seq<SshRun>)
    requires Inv(s) && 0 <= i < |s.tasks| && s.tasks[i].Inspecting?
    requires t.Inspecting? && t == s.tasks[i].(point := t.point)
    requires runs == s.runs || runs == s.runs + [SshRun(t.challenge, t.at, t.identity, t.began)]
    ensures StageOk(s.(tasks := s.tasks[i := t], runs := runs))
  {
    hide TaskOk, RunsAreBacked, Ids;
    var n := s.(tasks := s.tasks[i := t], runs := runs);
    if s.inspection.Some? {
      var r :| 0 <= r < |s.runs| && Backs(s.runs[r], s);
      assert Backs(n.runs[r], n);
    }
  }

  lemma KnownHostsReplyKeeps(s: State, i: int, ok: bool)
    requires Inv(s) && At(s, i, WritingKnownHosts)
    ensures Inv(KnownHostsReply(s, i, ok).0)
  {
    hide Inv;
    var t := s.tasks[i];
    if !ok || t.at != s.generation {
      FinishKeeps(s, i);
    } else {
      MoveKeeps(s, i, t.(point := RunningSsh), s.runs + [SshRun(t.challenge, t.at, t.identity, t.began)]);
    }
  }

  lemma RunningInspection(s: State, i: int)
    requires Inv(s) && At(s, i, RunningSsh)
    ensures var t := s.tasks[i];
            SshRun(t.challenge, t.at, t.identity, t.began) in s.runs && (t.at == s.generation ==> t.identity == s.identity)
  {
    assert TaskOk(s, s.tasks[i]);
  }

  lemma SshReplyKeeps(s: State, i: int, report: Option<HostReport.Report>, now: int)
    requires Inv(s) && At(s, i, RunningSsh)
    ensures Inv(SshReply(s, i, report, now).0)
  {
    hide Inv, Quiet;
    FinishKeeps(s, i);
    RunningInspection(s, i);
    var t := s.tasks[i];
    if t.at == s.generation && report.Some? {
      InspectionKeeps(Finish(s, i), InstallPlan.Inspection(t.challenge.target, t.challenge.fingerprint, now, report.value),
                      SshRun(t.challenge, t.at, t.identity, t.began));
    }
  }

  lemma StepKeeps(s: State, e: Event)
    requires Inv(s)
    ensures Inv(Step(s, e))
  {
    hide Inv, Cancelled, SetIdentityCall, IdentityReply, ScanCall, ScanReply, InspectCall, DirectoryReply, KnownHostsReply, SshReply;
    match e
    case Cancel => CancelledKeeps(s);
    case SetIdentity(path, wellFormed) => SetIdentityKeeps(s, path, wellFormed);
    case IdentityChecked(i, ok) =>
      if 0 <= i < |s.tasks| && s.tasks[i].SettingIdentity? { IdentityReplyKeeps(s, i, ok); }
    case Scan(target) => ScanCallKeeps(s, target);
    case Scanned(i, key, now) => if 0 <= i < |s.tasks| && s.tasks[i].Scanning? { ScanReplyKeeps(s, i, key, now); }
    case Inspect(id, fingerprint, now) => InspectCallKeeps(s, id, fingerprint, now);
    case DirectoryMade(i, ok) => if At(s, i, MakingDirectory) { DirectoryReplyKeeps(s, i, ok); }
    case KnownHostsWritten(i, ok) => if At(s, i, WritingKnownHosts) { KnownHostsReplyKeeps(s, i, ok); }
    case SshEnded(i, report, now) => if At(s, i, RunningSsh) { SshReplyKeeps(s, i, report, now); }
  }

  lemma {:induction false} RunKeeps(es: seq<Event>)
    ensures Inv(Run(es))
    decreases |es|
  {
    if es != [] {
      hide Inv, Step;
      RunKeeps(es[..|es| - 1]);
      StepKeeps(Run(es[..|es| - 1]), es[|es| - 1]);
    }
  }

  // ---------------------------------------------------------------- what every run promises

  /** A challenge and an inspection are never both there, nor is either while an operation of its generation waits. */
  lemma StagesExclude(es: seq<Event>)
    ensures var s := Run(es);
            && !(s.challenge.Some? && s.inspection.Some?)
            && (s.challenge.Some? || s.inspection.Some? ==> Quiet(s))
  {
    RunKeeps(es);
  }

  /** Each challenge feeds at most one SSH process, started before the challenge expired. */
  lemma OneRunPerChallenge(es: seq<Event>, q: int, r: int)
    requires 0 <= q < |Run(es).runs| && 0 <= r < |Run(es).runs|
    ensures var runs := Run(es).runs;
            && Logged(Run(es), runs[q].challenge) && runs[q].began < runs[q].challenge.expiresAt
            && (runs[q].challenge.id == runs[r].challenge.id ==> q == r)
  {
    RunKeeps(es);
  }

  /** Of the scans and inspections waiting, exactly those of the current generation are not aborted: at most one. */
  lemma SupersededIsAborted(es: seq<Event>, i: int, j: int)
    requires var tasks := Run(es).tasks;
             && 0 <= i < j < |tasks| && (tasks[i].Scanning? || tasks[i].Inspecting?) && (tasks[j].Scanning? || tasks[j].Inspecting?)
    ensures var s := Run(es);
            && 0 <= s.tasks[i].controller < |s.aborted| && 0 <= s.tasks[j].controller < |s.aborted|
            && (s.aborted[s.tasks[i].controller] <==> s.tasks[i].at != s.generation)
            && (s.aborted[s.tasks[i].controller] || s.aborted[s.tasks[j].controller])
  {
    RunKeeps(es);
    var s := Run(es);
    assert TaskOk(s, s.tasks[i]) && TaskOk(s, s.tasks[j]);
  }

  /** Whether an event begins an operation, superseding whatever went before. */
  predicate Begins(s: State, e: Event) {
    match e
    case Cancel => true
    case SetIdentity(_, _) => true
    case Scan(target) => target.Some?
    case Inspect(id, fingerprint, now) =>
      s.challenge.Some? && id == s.challenge.value.id && now < s.challenge.value.expiresAt
      && fingerprint == s.challenge.value.fingerprint
    case _ => false
  }

  lemma GenerationCounts(s: State, e: Event)
    ensures Step(s, e).generation == s.generation + if Begins(s, e) then 1 else 0
  {
  }

  /** Event k asked for the inspection that captured generation and identity, confirming the challenge's fingerprint. */
  predicate BegunBy(es: seq<Event>, c: Challenge, at: int, began: int, identity: Option<string>, k: int) {
    && 0 <= k < |es| && es[k] == Inspect(c.id, c.fingerprint, began)
    && Begins(Run(es[..k]), es[k]) && Run(es[..k]).generation + 1 == at && Run(es[..k]).identity == identity
  }

  ghost predicate Begun(es: seq<Event>, c: Challenge, at: int, began: int, identity: Option<string>) {
    exists k :: BegunBy(es, c, at, began, identity, k)
  }

  ghost predicate AllBegun(es: seq<Event>, s: State) {
    && (forall t :: t in s.tasks && t.Inspecting? ==> Begun(es, t.challenge, t.at, t.began, t.identity))
    && (forall r :: r in s.runs ==> Begun(es, r.challenge, r.at, r.began, r.identity))
  }

  lemma BegunLonger(es: seq<Event>, e: Event, c: Challenge, at: int, began: int, identity: Option<string>)
    requires Begun(es, c, at, began, identity)
    ensures Begun(es + [e], c, at, began, identity)
  {
    var k :| BegunBy(es, c, at, began, identity, k);
    assert (es + [e])[..k] == es[..k];
    assert BegunBy(es + [e], c, at, began, identity, k);
  }

  lemma StepAddsBegun(es: seq<Event>, e: Event)
    requires AllBegun(es, Run(es))
    ensures AllBegun(es + [e], Step(Run(es), e))
  {
    hide Begun, Run;
    var s, n := Run(es), Step(Run(es), e);
    forall c, at, began, identity | Begun(es, c, at, began, identity)
      ensures Begun(es + [e], c, at, began, identity)
    {
      BegunLonger(es, e, c, at, began, identity);
    }
    if e.Inspect? && Begins(s, e) {
      assert (es + [e])[..|es|] == es;
      NewlyBegun(es, e, s.challenge.value);
    }
    forall t | t in n.tasks && t.Inspecting?
      ensures Begun(es + [e], t.challenge, t.at, t.began, t.identity)
    {
      NewTaskIsOldOrBegun(s, e, t);
    }
    forall r | r in n.runs
      ensures Begun(es + [e], r.challenge, r.at, r.began, r.identity)
    {
      if r !in s.runs {
        NewRunIsOfTask(s, e, r);
      }
    }
  }

  lemma NewlyBegun(es: seq<Event>, e: Event, c: Challenge)
    requires e.Inspect? && Begins(Run(es), e) && Run(es).challenge == Some(c)
    ensures Begun(es + [e], c, Run(es).generation + 1, e.now, Run(es).identity)
  {
    assert (es + [e])[..|es|] == es;
    assert BegunBy(es + [e], c, Run(es).generation + 1, e.now, Run(es).identity, |es|);
  }

  predicate SameStart(u: Task, t: Task)
    requires u.Inspecting? && t.Inspecting?
  {
    u.challenge == t.challenge && u.at == t.at && u.began == t.began && u.identity == t.identity
  }

  lemma NewTaskIsOldOrBegun(s: State, e: Event, t: Task)
    requires t in Step(s, e).tasks && t.Inspecting?
    ensures (exists u :: u in s.tasks && u.Inspecting? && SameStart(u, t))
            || (e.Inspect? && Begins(s, e) && t.challenge == s.challenge.value && t.at == s.generation + 1 && t.began == e.now
                && t.identity == s.identity)
  {
    if t in s.tasks {
    } else if e.DirectoryMade? || e.KnownHostsWritten? {
      assert s.tasks[e.task] in s.tasks;
    }
  }

  lemma NewRunIsOfTask(s: State, e: Event, r: SshRun)
    requires r in Step(s, e).runs && r !in s.runs
    ensures exists u :: u in s.tasks && u.Inspecting? && r == SshRun(u.challenge, u.at, u.identity, u.began)
  {
    assert e.KnownHostsWritten?;
    assert s.tasks[e.task] in s.tasks;
  }

  lemma {:induction false} EveryInspectionWasBegun(es: seq<Event>)
    ensures AllBegun(es, Run(es))
    decreases |es|
  {
    if es != [] {
      hide AllBegun, Step;
      EveryInspectionWasBegun(es[..|es| - 1]);
      StepAddsBegun(es[..|es| - 1], es[|es| - 1]);
      assert es[..|es| - 1] + [es[|es| - 1]] == es;
    }
  }

  lemma {:induction false} GenerationGrows(es: seq<Event>, k: int, l: int)
    requires 0 <= k <= l <= |es|
    ensures Run(es[..k]).generation <= Run(es[..l]).generation
    decreases l
  {
    hide Run, Step, Begins;
    if k < l {
      GenerationGrows(es, k, l - 1);
      RunOfPrefix(es, l - 1);
      GenerationCounts(Run(es[..l - 1]), es[l - 1]);
    }
  }

  // ---------------------------------------------------------------- where challenges come from

  /** Event q is the call whose scan is task i. */
  predicate ScanCalled(es: seq<Event>, target: string, i: int, q: int) {
    0 <= q < |es| && es[q] == Event.Scan(Some(target)) && |Run(es[..q]).tasks| == i
  }

  /** Event j is the reply that issued the challenge, to the scan of its target that event q called. */
  predicate IssuedBy(es: seq<Event>, c: Challenge, q: int, j: int) {
    && 0 <= q < j < |es| && es[j].Scanned? && ScanCalled(es, c.target, es[j].task, q)
    && es[j].key == Some((c.fingerprint, c.key)) && c.expiresAt == es[j].now + CHALLENGE_LIFETIME
    && |Run(es[..j]).issued| == c.id
  }

  ghost predicate ScanIsCalled(es: seq<Event>, target: string, i: int) { exists q :: ScanCalled(es, target, i, q) }

  ghost predicate IsIssued(es: seq<Event>, c: Challenge) { exists q, j :: IssuedBy(es, c, q, j) }

  ghost predicate AllCalled(es: seq<Event>, s: State) {
    && (forall i :: 0 <= i < |s.tasks| && s.tasks[i].Scanning? ==> ScanIsCalled(es, s.tasks[i].target, i))
    && (forall n :: 0 <= n < |s.issued| ==> IsIssued(es, s.issued[n].challenge))
  }

  lemma ScanCalledLonger(es: seq<Event>, e: Event, target: string, i: int)
    requires ScanIsCalled(es, target, i)
    ensures ScanIsCalled(es + [e], target, i)
  {
    var q :| ScanCalled(es, target, i, q);
    assert (es + [e])[..q] == es[..q];
    assert ScanCalled(es + [e], target, i, q);
  }

  lemma IssuedLonger(es: seq<Event>, e: Event, c: Challenge)
    requires IsIssued(es, c)
    ensures IsIssued(es + [e], c)
  {
    var q, j :| IssuedBy(es, c, q, j);
    assert (es + [e])[..q] == es[..q] && (es + [e])[..j] == es[..j];
    assert IssuedBy(es + [e], c, q, j);
  }

  lemma NewlyCalled(es: seq<Event>, target: string)
    ensures ScanIsCalled(es + [Event.Scan(Some(target))], target, |Run(es).tasks|)
  {
    var more := es + [Event.Scan(Some(target))];
    assert more[..|es|] == es;
    assert ScanCalled(more, target, |Run(es).tasks|, |es|);
  }

  lemma NewlyIssued(es: seq<Event>, e: Event, c: Challenge)
    requires e.Scanned? && ScanIsCalled(es, c.target, e.task) && e.key == Some((c.fingerprint, c.key))
    requires c.expiresAt == e.now + CHALLENGE_LIFETIME && |Run(es).issued| == c.id
    ensures IsIssued(es + [e], c)
  {
    var q :| ScanCalled(es, c.target, e.task, q);
    assert (es + [e])[..q] == es[..q] && (es + [e])[..|es|] == es;
    assert IssuedBy(es + [e], c, q, |es|);
  }

  /** How a step changes scans and issued challenges. */
  lemma StepScans(s: State, e: Event)
    ensures var n := Step(s, e);
            && (forall i :: 0 <= i < |n.tasks| && n.tasks[i].Scanning? ==>
                  (i < |s.tasks| && n.tasks[i] == s.tasks[i])
                  || (i == |s.tasks| && e == Event.Scan(Some(n.tasks[i].target))))
            && |n.issued| >= |s.issued| && (forall k :: 0 <= k < |s.issued| ==> n.issued[k] == s.issued[k])
            && (forall k :: |s.issued| <= k < |n.issued| ==>
                  var c := n.issued[k].challenge;
                  && k == c.id == |s.issued| && e.Scanned? && 0 <= e.task < |s.tasks| && s.tasks[e.task].Scanning?
                  && s.tasks[e.task].target == c.target && e.key == Some((c.fingerprint, c.key))
                  && c.expiresAt == e.now + CHALLENGE_LIFETIME)
  {
  }

  lemma StepAddsCalled(es: seq<Event>, e: Event)
    requires AllCalled(es, Run(es))
    ensures AllCalled(es + [e], Step(Run(es), e))
  {
    hide ScanIsCalled, IsIssued, Run, Step;
    var s, n := Run(es), Step(Run(es), e);
    StepScans(s, e);
    forall i | 0 <= i < |n.tasks| && n.tasks[i].Scanning?
      ensures ScanIsCalled(es + [e], n.tasks[i].target, i)
    {
      if i < |s.tasks| {
        ScanCalledLonger(es, e, n.tasks[i].target, i);
      } else {
        NewlyCalled(es, n.tasks[i].target);
      }
    }
    forall k | 0 <= k < |n.issued|
      ensures IsIssued(es + [e], n.issued[k].challenge)
    {
      if k < |s.issued| {
        IssuedLonger(es, e, n.issued[k].challenge);
      } else {
        NewlyIssued(es, e, n.issued[k].challenge);
      }
    }
  }

  lemma {:induction false} EveryChallengeWasScanned(es: seq<Event>)
    ensures AllCalled(es, Run(es))
    decreases |es|
  {
    if es != [] {
      hide AllCalled, Step;
      EveryChallengeWasScanned(es[..|es| - 1]);
      StepAddsCalled(es[..|es| - 1], es[|es| - 1]);
      assert es[..|es| - 1] + [es[|es| - 1]] == es;
    }
  }

  lemma {:induction false} IssuedGrows(es: seq<Event>, k: int, l: int)
    requires 0 <= k <= l <= |es|
    ensures |Run(es[..k]).issued| <= |Run(es[..l]).issued|
    decreases l
  {
    hide Run, Step;
    if k < l {
      IssuedGrows(es, k, l - 1);
      RunOfPrefix(es, l - 1);
      StepScans(Run(es[..l - 1]), es[l - 1]);
    }
  }

  /**
    Behind a present inspection stand three events in this order: a scan was called for its target; the reply to that
    scan issued a challenge; and inspect was called, confirming the challenge's fingerprint before it expired. No
    operation began since, and the identity in force is the one the SSH process used.
   */
  lemma InspectionIsTrusted(es: seq<Event>) returns (q: int, j: int, k: int, run: SshRun)
    requires Run(es).inspection.Some?
    ensures var s := Run(es);
            && run in s.runs && Logged(s, run.challenge) && run.identity == s.identity
            && run.challenge.target == s.inspection.value.target
            && run.challenge.fingerprint == s.inspection.value.fingerprint
            && 0 <= q < j < k < |es| && IssuedBy(es, run.challenge, q, j)
            && es[k] == Inspect(run.challenge.id, s.inspection.value.fingerprint, run.began)
            && run.began < run.challenge.expiresAt
    ensures forall l :: k < l < |es| ==> !Begins(Run(es[..l]), es[l])
  {
    hide Run, Begins, IssuedBy;
    RunKeeps(es);
    var s := Run(es);
    var r :| 0 <= r < |s.runs| && Backs(s.runs[r], s);
    run := s.runs[r];
    EveryInspectionWasBegun(es);
    assert Begun(es, run.challenge, run.at, run.began, run.identity);
    k :| BegunBy(es, run.challenge, run.at, run.began, run.identity, k);
    forall l | k < l < |es|
      ensures !Begins(Run(es[..l]), es[l])
    {
      NothingBeganSince(es, k, l);
    }
    EveryChallengeWasScanned(es);
    assert IsIssued(es, run.challenge);
    q, j :| IssuedBy(es, run.challenge, q, j);
    IssuedBefore(es, run.challenge, q, j, k);
  }

  lemma IssuedBefore(es: seq<Event>, c: Challenge, q: int, j: int, k: int)
    requires IssuedBy(es, c, q, j) && 0 <= k < |es| && es[k].Inspect? && es[k].id == c.id && Begins(Run(es[..k]), es[k])
    ensures 0 <= q < j < k
  {
    hide Run;
    RunKeeps(es[..k]);
    PresentChallenge(Run(es[..k]));
    if k <= j {
      IssuedGrows(es, k, j);
    }
  }

  lemma NothingBeganSince(es: seq<Event>, k: int, l: int)
    requires 0 <= k < l < |es| && Begins(Run(es[..k]), es[k]) && Run(es[..k]).generation + 1 == Run(es).generation
    ensures !Begins(Run(es[..l]), es[l])
  {
    hide Begins, Step;
    RunOfPrefix(es, k);
    RunOfPrefix(es, l);
    GenerationCounts(Run(es[..k]), es[k]);
    GenerationCounts(Run(es[..l]), es[l]);
    GenerationGrows(es, k + 1, l);
    GenerationGrows(es, l + 1, |es|);
    assert es[..|es|] == es;
  }

  lemma RunOfPrefix(es: seq<Event>, k: int)
    requires 0 <= k < |es|
    ensures Run(es[..k + 1]) == Step(Run(es[..k]), es[k])
  {
    assert es[..k + 1][..k] == es[..k];
  }

  /** An installation is planned only for the target and the fingerprint of a challenge the user confirmed. */
  lemma PlansAreTrusted(es: seq<Event>, targetOk: bool, options: Option<InstallPlan.Options>, now: int,
                        releases: seq<InstallPlan.Release>) returns (run: SshRun)
    requires InstallPlan.Preview(Run(es).inspection, targetOk, options, now, releases).Planned?
    ensures var plan := InstallPlan.Preview(Run(es).inspection, targetOk, options, now, releases).plan;
            && run in Run(es).runs && Logged(Run(es), run.challenge) && run.began < run.challenge.expiresAt
            && plan.target == run.challenge.target && plan.fingerprint == run.challenge.fingerprint
            && plan.checkedAt == Run(es).inspection.value.checkedAt && now < plan.expiresAt
  {
    hide Run, Begins;
    InstallPlan.PlanExpiry(Run(es).inspection, targetOk, options, now, releases);
    var q, j, k: int;
    q, j, k, run := InspectionIsTrusted(es);
  }

  lemma StagesOf(s: State)
    requires Inv(s)
    ensures !(s.challenge.Some? && s.inspection.Some?)
  {
  }

  // ---------------------------------------------------------------- the object

  class ServerPreflight {
    var challenge: Option<Challenge>
    var controller: Option<int>
    var generation: int
    var inspection: Option<InstallPlan.Inspection>
    var identity: Option<string>
    /** The operations at their waits and the abort signals handed out. */
    var tasks: seq<Task>
    var aborted: seq<bool>
    ghost var issued: seq<Issue>
    ghost var runs: seq<SshRun>
    var ids: int

    /** The counter of ids is that of the challenges issued. */
    ghost predicate Counted()
      reads this
    {
      ids == |issued|
    }

    /** The invariant of the protocol, which every call and reply keeps. */
    ghost predicate Valid()
      reads this
    {
      Counted() && Inv(Abs())
    }

    ghost function Abs(): State
      reads this
    {
      State(challenge, inspection, controller, generation, identity, tasks, aborted, issued, runs)
    }

    constructor ()
      ensures Valid() && Abs() == Initial()
    {
      challenge, controller, generation, inspection, identity := None, None, 0, None, None;
      tasks, aborted, issued, runs, ids := [], [], [], [], 0;
    }

    method AbortController()
      modifies this`aborted
      ensures aborted == Abort(old(aborted), controller)
    {
      if controller.Some? && 0 <= controller.value < |aborted| {
        aborted := aborted[controller.value := true];
      }
    }

    method Supersede()
      requires Counted()
      modifies this
      ensures Counted() && Abs() == Cancelled(old(Abs()))
    {
      generation := generation + 1;
      inspection := None;
      challenge := None;
      AbortController();
      controller := None;
    }

    method Cancel()
      requires Valid()
      modifies this
      ensures Valid() && Abs() == Cancelled(old(Abs()))
    {
      hide Inv, Cancelled;
      CancelledKeeps(Abs());
      Supersede();
    }

    method BeginOperation() returns (at: int, signal: int)
      requires Counted()
      modifies this
      ensures Counted() && Abs() == Operation(old(Abs())) && at == generation && signal == |old(aborted)|
    {
      Supersede();
      controller, aborted := Some(|aborted|), aborted + [false];
      at, signal := generation, |aborted| - 1;
    }

    method Await(t: Task) returns (r: Reply)
      requires Counted()
      modifies this`tasks
      ensures Counted() && (Abs(), r) == Start(old(Abs()), t)
    {
      tasks, r := tasks + [t], Waiting(|tasks|);
    }

    method Settle(i: int)
      requires Counted() && 0 <= i < |tasks|
      modifies this`tasks
      ensures Counted() && Abs() == Finish(old(Abs()), i)
    {
      tasks := tasks[i := Finished];
    }

    method SetIdentity(path: Option<string>, wellFormed: bool) returns (r: Reply)
      requires Valid()
      modifies this
      ensures Valid() && (Abs(), r) == SetIdentityCall(old(Abs()), path, wellFormed)
    {
      hide Cancelled, Inv;
      SetIdentityKeeps(Abs(), path, wellFormed);
      Supersede();
      var at := generation;
      if path.Some? {
        if !wellFormed {
          return Threw(INVALID_KEY_FILE);
        }
        r := Await(SettingIdentity(at, path.value));
      } else {
        identity := None;
        r := Done;
      }
    }

    method IdentityChecked(i: int, acceptable: bool) returns (r: Reply)
      requires Valid() && 0 <= i < |tasks| && tasks[i].SettingIdentity?
      modifies this
      ensures Valid() && (Abs(), r) == IdentityReply(old(Abs()), i, acceptable)
      ensures var current := old(tasks)[i].at == generation;
              && identity == (if acceptable && current then Some(old(tasks)[i].path) else old(identity))
              && r == (if !acceptable then Threw(INVALID_KEY_FILE) else if current then Done else Threw(CANCELLED))
    {
      hide Inv;
      IdentityReplyKeeps(Abs(), i, acceptable);
      var t := tasks[i];
      Settle(i);
      if !acceptable {
        return Threw(INVALID_KEY_FILE);
      }
      if t.at != generation {
        return Threw(CANCELLED);
      }
      identity := Some(t.path);
      r := Done;
    }

    method Scan(target: Option<string>) returns (r: Reply)
      requires Valid()
      modifies this
      ensures Valid() && (Abs(), r) == ScanCall(old(Abs()), target)
    {
      hide Operation, Inv;
      ScanCallKeeps(Abs(), target);
      if target.None? {
        return Threw(INVALID_TARGET);
      }
      var at, signal := BeginOperation();
      r := Await(Scanning(at, signal, target.value));
    }

    method Scanned(i: int, key: Option<(string, string)>, now: int) returns (r: Reply)
      requires Valid() && 0 <= i < |tasks| && tasks[i].Scanning?
      modifies this
      ensures Valid() && (Abs(), r) == ScanReply(old(Abs()), i, key, now)
      ensures r.Done? <==> old(tasks)[i].at == generation && key.Some?
      ensures challenge == if r.Done? then Some(Challenge(old(ids), old(tasks)[i].target, key.value.0, key.value.1, now + 300000))
                           else old(challenge)
    {
      hide Inv;
      ScanReplyKeeps(Abs(), i, key, now);
      var t := tasks[i];
      Settle(i);
      if t.at != generation {
        return Threw(CANCELLED);
      }
      if key.None? {
        return Threw(FAILED);
      }
      var c := Challenge(ids, t.target, key.value.0, key.value.1, now + CHALLENGE_LIFETIME);
      challenge := Some(c);
      ids, issued := ids + 1, issued + [Issue(c, generation)];
      r := Done;
    }

    method Inspect(id: int, fingerprint: string, now: int) returns (r: Reply)
      requires Valid()
      modifies this
      ensures Valid() && (Abs(), r) == InspectCall(old(Abs()), id, fingerprint, now)
    {
      hide Operation, Inv;
      InspectCallKeeps(Abs(), id, fingerprint, now);
      if challenge.None? || id != challenge.value.id || now >= challenge.value.expiresAt {
        return Threw(EXPIRED_CHALLENGE);
      }
      if fingerprint != challenge.value.fingerprint {
        return Threw(FINGERPRINT_MISMATCH);
      }
      var confirmed, own := challenge.value, identity;
      var at, signal := BeginOperation();
      r := Await(Inspecting(at, signal, confirmed, own, now, MakingDirectory));
    }

    method DirectoryMade(i: int, ok: bool) returns (r: Reply)
      requires Valid() && At(Abs(), i, MakingDirectory)
      modifies this
      ensures Valid() && (Abs(), r) == DirectoryReply(old(Abs()), i, ok)
    {
      hide Inv;
      DirectoryReplyKeeps(Abs(), i, ok);
      if !ok {
        Settle(i);
        return Threw(FAILED);
      }
      tasks := tasks[i := tasks[i].(point := WritingKnownHosts)];
      r := Waiting(i);
    }

    method KnownHostsWritten(i: int, ok: bool) returns (r: Reply)
      requires Valid() && At(Abs(), i, WritingKnownHosts)
      modifies this
      ensures Valid() && (Abs(), r) == KnownHostsReply(old(Abs()), i, ok)
    {
      hide Inv;
      KnownHostsReplyKeeps(Abs(), i, ok);
      var t := tasks[i];
      if !ok {
        Settle(i);
        return Threw(FAILED);
      }
      if t.at != generation {
        Settle(i);
        return Threw(CANCELLED);
      }
      tasks := tasks[i := t.(point := RunningSsh)];
      runs := runs + [SshRun(t.challenge, t.at, t.identity, t.began)];
      r := Waiting(i);
    }

    method SshEnded(i: int, report: Option<HostReport.Report>, now: int) returns (r: Reply)
      requires Valid() && At(Abs(), i, RunningSsh)
      modifies this
      ensures Valid() && (Abs(), r) == SshReply(old(Abs()), i, report, now)
      ensures r.Done? <==> old(tasks)[i].at == generation && report.Some?
      ensures var c := old(tasks)[i].challenge;
              inspection == if r.Done? then Some(InstallPlan.Inspection(c.target, c.fingerprint, now, report.value))
                            else old(inspection)
    {
      hide Inv;
      SshReplyKeeps(Abs(), i, report, now);
      var t := tasks[i];
      Settle(i);
      if t.at != generation {
        return Threw(CANCELLED);
      }
      if report.None? {
        return Threw(FAILED);
      }
      inspection := Some(InstallPlan.Inspection(t.challenge.target, t.challenge.fingerprint, now, report.value));
      r := Done;
    }

    method PreviewInstall(targetOk: bool, options: Option<InstallPlan.Options>, now: int,
                          releases: seq<InstallPlan.Release>) returns (r: InstallPlan.Outcome)
      ensures r == InstallPlan.Preview(inspection, targetOk, options, now, releases)
    {
      r := InstallPlan.PreviewInstallation(inspection, targetOk, options, now, releases);
    }

    predicate IsAt(i: int, point: Point)
      reads this
    {
      0 <= i < |tasks| && tasks[i].Inspecting? && tasks[i].point == point
    }

    /** Any event, and so any run, takes the object where the model goes. */
    method Handle(e: Event)
      requires Valid()
      modifies this
      ensures Valid() && Abs() == Step(old(Abs()), e)
      ensures !(challenge.Some? && inspection.Some?)
    {
      StepKeeps(Abs(), e);
      StagesOf(Step(Abs(), e));
      hide Inv, SetIdentityCall, IdentityReply, ScanCall, ScanReply, InspectCall, DirectoryReply, KnownHostsReply, SshReply;
      match e
      case Cancel => Cancel();
      case SetIdentity(path, wellFormed) => var r := SetIdentity(path, wellFormed);
      case IdentityChecked(i, ok) => if 0 <= i < |tasks| && tasks[i].SettingIdentity? { var r := IdentityChecked(i, ok); }
      case Scan(target) => var r := Scan(target);
      case Scanned(i, key, now) => if 0 <= i < |tasks| && tasks[i].Scanning? { var r := Scanned(i, key, now); }
      case Inspect(id, fingerprint, now) => var r := Inspect(id, fingerprint, now);
      case DirectoryMade(i, ok) => if IsAt(i, MakingDirectory) { var r := DirectoryMade(i, ok); }
      case KnownHostsWritten(i, ok) => if IsAt(i, WritingKnownHosts) { var r := KnownHostsWritten(i, ok); }
      case SshEnded(i, report, now) => if IsAt(i, RunningSsh) { var r := SshEnded(i, report, now); }
    }
  }
}
