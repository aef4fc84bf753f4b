/** What each event of the preflight changes, exactly, and where the identity in force and those SSH used come from. */
module PreflightTraces {
  import opened Option
  import opened ServerPreflight
  import InstallPlan

  // ---------------------------------------------------------------- the effects of one event

  predicate Known(s: State, i: int) { 0 <= i < |s.tasks| }

  /** The reply accepts the file that a call nothing superseded asked for. */
  predicate Takes(s: State, e: Event) {
    && e.IdentityChecked? && e.acceptable
    && Known(s, e.task) && s.tasks[e.task].SettingIdentity? && s.tasks[e.task].at == s.generation
  }

  /** The reply has the key that a scan nothing superseded asked for. */
  predicate Issues(s: State, e: Event) {
    && e.Scanned? && e.key.Some?
    && Known(s, e.task) && s.tasks[e.task].Scanning? && s.tasks[e.task].at == s.generation
  }

  /** An inspection nothing superseded has written its known hosts and runs SSH. */
  predicate StartsSsh(s: State, e: Event) {
    e.KnownHostsWritten? && e.ok && At(s, e.task, WritingKnownHosts) && s.tasks[e.task].at == s.generation
  }

  /** SSH printed a report for an inspection that nothing superseded. */
  predicate Reports(s: State, e: Event) {
    e.SshEnded? && e.report.Some? && At(s, e.task, RunningSsh) && s.tasks[e.task].at == s.generation
  }

  /** A call that begins an operation and has to wait. */
  predicate Starts(s: State, e: Event) {
    (e.SetIdentity? && e.path.Some? && e.wellFormed) || ((e.Scan? || e.Inspect?) && Begins(s, e))
  }

  /** Field by field: which events change it, and to what; every other event leaves it alone. */
  lemma FieldsMoveIff(s: State, e: Event)
    ensures var n := Step(s, e);
            && n.generation == s.generation + (if Begins(s, e) then 1 else 0)
            && n.identity == (if Takes(s, e) then Some(s.tasks[e.task].path)
                              else if e.SetIdentity? && e.path.None? then None else s.identity)
            && n.challenge == (if Issues(s, e) then
                                 Some(Challenge(|s.issued|, s.tasks[e.task].target, e.key.value.0, e.key.value.1, e.now + 300000))
                               else if Begins(s, e) then None else s.challenge)
            && n.inspection == (if Reports(s, e) then
                                  var c := s.tasks[e.task].challenge;
                                  Some(InstallPlan.Inspection(c.target, c.fingerprint, e.now, e.report.value))
                                else if Begins(s, e) then None else s.inspection)
            && n.runs == s.runs + (if StartsSsh(s, e) then
                                     var t := s.tasks[e.task]; [SshRun(t.challenge, t.at, t.identity, t.began)]
                                   else [])
  {
  }

  /** The signal of the operation that is superseded is aborted, and no other; a new scan or inspection gets a fresh one. */
  lemma SignalsMoveIff(s: State, e: Event)
    requires ControllerOk(s)
    ensures var n := Step(s, e);
            && |n.aborted| == |s.aborted| + (if e.SetIdentity? || !Starts(s, e) then 0 else 1)
            && (forall i :: 0 <= i < |s.aborted| ==>
                  n.aborted[i] == (s.aborted[i] || (Begins(s, e) && s.controller == Some(i))))
            && (forall i :: |s.aborted| <= i < |n.aborted| ==> !n.aborted[i] && n.controller == Some(i))
  {
  }

  /** The event is the reply that task i waits for. */
  predicate RepliesTo(s: State, e: Event, i: int) {
    && Known(s, i)
    && match s.tasks[i]
       case SettingIdentity(_, _) => e.IdentityChecked? && e.task == i
       case Scanning(_, _, _) => e.Scanned? && e.task == i
       case Inspecting(_, _, _, _, _, MakingDirectory) => e.DirectoryMade? && e.task == i
       case Inspecting(_, _, _, _, _, WritingKnownHosts) => e.KnownHostsWritten? && e.task == i
       case Inspecting(_, _, _, _, _, RunningSsh) => e.SshEnded? && e.task == i
       case Finished => false
  }

  /** The inspection waits once more after the reply. */
  predicate WaitsAgain(s: State, e: Event) {
    StartsSsh(s, e) || (e.DirectoryMade? && e.ok && At(s, e.task, MakingDirectory))
  }

  /** A task is moved by its own reply only; that reply ends it, except that an inspection waits three times. */
  lemma TasksMoveIff(s: State, e: Event)
    ensures var n := Step(s, e);
            && |n.tasks| == |s.tasks| + (if Starts(s, e) then 1 else 0)
            && (forall i :: Known(s, i) ==>
                  n.tasks[i] == (if !RepliesTo(s, e, i) then s.tasks[i]
                                 else if !WaitsAgain(s, e) then Finished
                                 else s.tasks[i].(point := if e.DirectoryMade? then WritingKnownHosts else RunningSsh)))
  {
  }

  /** What the caller of the operation that the event belongs to gets. */
  function Answer(s: State, e: Event): Reply
    requires e.SetIdentity? || e.Scan? || e.Inspect? || exists i :: RepliesTo(s, e, i)
  {
    match e
    case SetIdentity(path, wellFormed) => SetIdentityCall(s, path, wellFormed).1
    case IdentityChecked(i, acceptable) => IdentityReply(s, i, acceptable).1
    case Scan(target) => ScanCall(s, target).1
    case Scanned(i, key, now) => ScanReply(s, i, key, now).1
    case Inspect(id, fingerprint, now) => InspectCall(s, id, fingerprint, now).1
    case DirectoryMade(i, ok) => DirectoryReply(s, i, ok).1
    case KnownHostsWritten(i, ok) => KnownHostsReply(s, i, ok).1
    case SshEnded(i, report, now) => SshReply(s, i, report, now).1
  }

  /**
    Success is reported exactly for a change that was made, and a cancellation exactly to an operation that another one
    superseded; a refused confirmation names its reason.
   */
  lemma RepliesAreHonest(s: State, e: Event)
    requires e.SetIdentity? || e.Scan? || e.Inspect? || exists i :: RepliesTo(s, e, i)
    ensures var r := Answer(s, e);
            && (r.Done? <==> Takes(s, e) || Issues(s, e) || Reports(s, e) || (e.SetIdentity? && e.path.None?))
            && (r.Waiting? <==> Starts(s, e) || WaitsAgain(s, e))
            && (r == Threw(CANCELLED) <==>
                  && (e.IdentityChecked? || e.Scanned? || e.KnownHostsWritten? || e.SshEnded?)
                  && s.tasks[e.task].at != s.generation
                  && !(e.IdentityChecked? && !e.acceptable) && !(e.KnownHostsWritten? && !e.ok))
            && (r == Threw(INVALID_KEY_FILE) <==>
                  (e.SetIdentity? && e.path.Some? && !e.wellFormed) || (e.IdentityChecked? && !e.acceptable))
            && (e.Inspect? && !Begins(s, e) ==>
                  r == Threw(if s.challenge.Some? && s.challenge.value.id == e.id && e.now < s.challenge.value.expiresAt
                             then FINGERPRINT_MISMATCH else EXPIRED_CHALLENGE))
  {
  }

  // ---------------------------------------------------------------- where the identity comes from

  /** Event q is the call whose check of the path is task i. */
  predicate IdentityCalled(es: seq<Event>, path: string, i: int, q: int) {
    0 <= q < |es| && es[q] == SetIdentity(Some(path), true) && |Run(es[..q]).tasks| == i
  }

  predicate Answered(es: seq<Event>, i: int, q: int, j: int)
    requires 0 <= q <= j <= |es|
  {
    exists l :: q < l < j && es[l].IdentityChecked? && es[l].task == i
  }

  /** No operation begins between the two events. */
  predicate Undisturbed(es: seq<Event>, q: int, j: int)
    requires 0 <= q <= j <= |es|
  {
    forall l :: q < l < j ==> !Begins(Run(es[..l]), es[l])
  }

  /** Event j is the first reply to the call of event q; it accepts the file, and no operation began in between. */
  predicate AcceptedBy(es: seq<Event>, path: string, q: int, j: int) {
    && 0 <= q < j < |es| && es[j].IdentityChecked? && es[j].acceptable
    && IdentityCalled(es, path, es[j].task, q) && !Answered(es, es[j].task, q, j) && Undisturbed(es, q, j)
  }

  ghost predicate Accepts(es: seq<Event>, path: string, j: int) { exists q :: AcceptedBy(es, path, q, j) }

  /** From its call to its reply a check waits with the generation its call began. */
  lemma {:induction false} CheckWaits(es: seq<Event>, path: string, i: int, q: int, k: int)
    requires IdentityCalled(es, path, i, q) && q < k <= |es|
    ensures Known(Run(es[..k]), i)
    ensures Run(es[..k]).tasks[i] ==
            if Answered(es, i, q, k) then Finished else SettingIdentity(Run(es[..q]).generation + 1, path)
    decreases k
  {
    hide Run, Step;
    RunOfPrefix(es, k - 1);
    if k == q + 1 {
      FreshCheck(Run(es[..q]), path);
    } else {
      CheckWaits(es, path, i, q, k - 1);
      TasksMoveIff(Run(es[..k - 1]), es[k - 1]);
      assert Answered(es, i, q, k) <==> Answered(es, i, q, k - 1) || (es[k - 1].IdentityChecked? && es[k - 1].task == i);
    }
  }

  lemma FreshCheck(s: State, path: string)
    ensures var n := Step(s, SetIdentity(Some(path), true));
            |n.tasks| == |s.tasks| + 1 && n.tasks[|s.tasks|] == SettingIdentity(s.generation + 1, path)
  {
  }

  /** Since event q, which began an operation, the generation has moved on exactly if another operation began. */
  lemma {:induction false} GenerationSince(es: seq<Event>, q: int, k: int)
    requires 0 <= q < k <= |es| && Begins(Run(es[..q]), es[q])
    ensures Run(es[..k]).generation > Run(es[..q]).generation
    ensures Run(es[..k]).generation == Run(es[..q]).generation + 1 <==> Undisturbed(es, q, k)
    decreases k
  {
    hide Run, Step, Begins;
    RunOfPrefix(es, k - 1);
    GenerationCounts(Run(es[..k - 1]), es[k - 1]);
    if k > q + 1 {
      GenerationSince(es, q, k - 1);
      assert Undisturbed(es, q, k) <==> Undisturbed(es, q, k - 1) && !Begins(Run(es[..k - 1]), es[k - 1]);
    }
  }

  ghost predicate CheckIsCalled(es: seq<Event>, path: string, i: int) { exists q :: IdentityCalled(es, path, i, q) }

  /** Every waiting check was called for its path. */
  lemma {:induction false} EveryCheckWasCalled(es: seq<Event>, i: int)
    requires Known(Run(es), i) && Run(es).tasks[i].SettingIdentity?
    ensures CheckIsCalled(es, Run(es).tasks[i].path, i)
    decreases |es|
  {
    hide Step;
    var before, e := es[..|es| - 1], es[|es| - 1];
    var s := Run(before);
    var path := Run(es).tasks[i].path;
    TasksMoveIff(s, e);
    if i < |s.tasks| {
      EveryCheckWasCalled(before, i);
      var q :| IdentityCalled(before, path, i, q);
      assert before[..q] == es[..q];
      assert IdentityCalled(es, path, i, q);
    } else {
      NewCheckWasCalled(s, e);
      assert IdentityCalled(es, path, i, |es| - 1);
    }
  }

  lemma NewCheckWasCalled(s: State, e: Event)
    requires |Step(s, e).tasks| > |s.tasks| && Step(s, e).tasks[|s.tasks|].SettingIdentity?
    ensures e == SetIdentity(Some(Step(s, e).tasks[|s.tasks|].path), true)
  {
  }

  /** A reply makes the path the identity exactly when it accepts the file of a call that nothing superseded. */
  lemma AcceptsIff(es: seq<Event>, j: int, path: string)
    requires 0 <= j < |es|
    ensures Accepts(es, path, j) <==> Takes(Run(es[..j]), es[j]) && Run(es[..j]).tasks[es[j].task].path == path
  {
    hide Run, Begins;
    var s, e := Run(es[..j]), es[j];
    if q :| AcceptedBy(es, path, q, j) {
      CallBegins(es, path, e.task, q);
      CheckWaits(es, path, e.task, q, j);
      GenerationSince(es, q, j);
    }
    if Takes(s, e) && s.tasks[e.task].path == path {
      EveryCheckWasCalled(es[..j], e.task);
      var q :| IdentityCalled(es[..j], path, e.task, q);
      assert es[..j][..q] == es[..q];
      assert IdentityCalled(es, path, e.task, q);
      CallBegins(es, path, e.task, q);
      CheckWaits(es, path, e.task, q, j);
      GenerationSince(es, q, j);
      assert AcceptedBy(es, path, q, j);
    }
  }

  lemma CallBegins(es: seq<Event>, path: string, i: int, q: int)
    requires IdentityCalled(es, path, i, q)
    ensures Begins(Run(es[..q]), es[q])
  {
  }

  /** The identity is cleared, or another one accepted. */
  ghost predicate Replaces(es: seq<Event>, l: int)
    requires 0 <= l < |es|
  {
    (es[l].SetIdentity? && es[l].path.None?) || exists path :: Accepts(es, path, l)
  }

  /** Event j accepted the identity, and no later event cleared or replaced it. */
  ghost predicate LastAccepted(es: seq<Event>, path: string, j: int) {
    Accepts(es, path, j) && 0 <= j < |es| && forall l :: j < l < |es| ==> !Replaces(es, l)
  }

  lemma AcceptsInPrefix(es: seq<Event>, n: int, path: string, j: int)
    requires 0 <= j < n <= |es|
    ensures Accepts(es[..n], path, j) == Accepts(es, path, j)
  {
    hide Run, Begins;
    AcceptsIff(es, j, path);
    AcceptsIff(es[..n], j, path);
    assert es[..n][..j] == es[..j];
  }

  /**
    The identity in force is a path exactly when a call for it was answered by an accepting reply with no operation begun
    in between, and no later event cleared or replaced it. Every other reply leaves the identity as it was.
   */
  lemma {:induction false} IdentityIff(es: seq<Event>, path: string)
    ensures Run(es).identity == Some(path) <==> exists j :: LastAccepted(es, path, j)
    decreases |es|
  {
    hide Run, Step, Accepts;
    if es == [] {
      NoIdentityYet(es);
    } else {
      var n := |es| - 1;
      var before, e := es[..n], es[n];
      RunOfPrefix(es, n);
      assert es[..|es|] == es;
      IdentityIff(before, path);
      FieldsMoveIff(Run(before), e);
      AcceptedNow(es, n, path);
      forall j | 0 <= j < n
        ensures LastAccepted(es, path, j) <==> LastAccepted(before, path, j) && !Replaces(es, n)
      {
        LastAcceptedLonger(es, n, path, j);
      }
      assert LastAccepted(es, path, n) <==> Accepts(es, path, n);
      if Run(es).identity == Some(path) {
        if Accepts(es, path, n) {
          assert LastAccepted(es, path, n);
        } else {
          var j :| LastAccepted(before, path, j);
          assert LastAccepted(es, path, j);
        }
      }
    }
  }

  lemma NoIdentityYet(es: seq<Event>)
    requires es == []
    ensures Run(es).identity == None
  {
  }

  /** What the last event does to the identity, in terms of the calls and replies of the run. */
  lemma AcceptedNow(es: seq<Event>, n: int, path: string)
    requires 0 <= n < |es|
    ensures Accepts(es, path, n) <==> Takes(Run(es[..n]), es[n]) && Run(es[..n]).tasks[es[n].task].path == path
    ensures Replaces(es, n) <==> (es[n].SetIdentity? && es[n].path.None?) || Takes(Run(es[..n]), es[n])
  {
    hide Run, Accepts, Begins;
    AcceptsIff(es, n, path);
    if Takes(Run(es[..n]), es[n]) {
      AcceptsIff(es, n, Run(es[..n]).tasks[es[n].task].path);
    }
    if other :| Accepts(es, other, n) {
      AcceptsIff(es, n, other);
    }
  }

  lemma LastAcceptedLonger(es: seq<Event>, n: int, path: string, j: int)
    requires n == |es| - 1 && 0 <= j < n
    ensures LastAccepted(es, path, j) <==> LastAccepted(es[..n], path, j) && !Replaces(es, n)
  {
    hide Accepts;
    AcceptsInPrefix(es, n, path, j);
    forall l | j < l < n
      ensures Replaces(es[..n], l) == Replaces(es, l)
    {
      forall other
        ensures Accepts(es[..n], other, l) == Accepts(es, other, l)
      {
        AcceptsInPrefix(es, n, other, l);
      }
    }
  }

  /** The identity given to an SSH process was in force, accepted and not replaced, when its inspection was called. */
  lemma SshIdentityWasAccepted(es: seq<Event>, run: SshRun) returns (k: int)
    requires run in Run(es).runs
    ensures 0 <= k < |es| && es[k] == Inspect(run.challenge.id, run.challenge.fingerprint, run.began)
    ensures Begins(Run(es[..k]), es[k])
    ensures match run.identity
            case Some(path) => exists j :: LastAccepted(es[..k], path, j)
            case None => forall path, j :: !LastAccepted(es[..k], path, j)
  {
    hide Run, Begins, LastAccepted;
    EveryInspectionWasBegun(es);
    assert Begun(es, run.challenge, run.at, run.began, run.identity);
    k :| BegunBy(es, run.challenge, run.at, run.began, run.identity, k);
    if run.identity.Some? {
      IdentityIff(es[..k], run.identity.value);
    } else {
      forall path, j
        ensures !LastAccepted(es[..k], path, j)
      {
        IdentityIff(es[..k], path);
      }
    }
  }

  /** The inspection that plans rest on was made under the identity in force, which was accepted and not replaced since. */
  lemma InspectionUsedTheIdentity(es: seq<Event>) returns (run: SshRun)
    requires Run(es).inspection.Some?
    ensures run in Run(es).runs && run.identity == Run(es).identity
    ensures run.challenge.target == Run(es).inspection.value.target
    ensures run.identity.Some? ==> exists j :: LastAccepted(es, run.identity.value, j)
  {
    hide Run, Begins, LastAccepted;
    var q, j, k: int;
    q, j, k, run := InspectionIsTrusted(es);
    if run.identity.Some? {
      IdentityIff(es, run.identity.value);
    }
  }
}
