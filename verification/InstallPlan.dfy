/** The review of an installation: which release is offered, what blocks it, and until when the plan stands. */
module InstallPlan {
  import opened Option
  import HostReport

  const PREFLIGHT_LIFETIME := 300000
  const MINIMUM_DISK_KIB := 2 * 1024 * 1024

  datatype Inspection = Inspection(target: string, fingerprint: string, checkedAt: int, report: HostReport.Report)

  /** A release of the catalogue; `images` maps a platform to its image, absent platforms having none. */
  datatype Release = Release(sequence: int, issuedAt: int, expiresAt: int, images: map<string, string>, minimumDiskKiB: int)

  datatype Options = Options(domain: string, name: string)

  datatype Error = INVALID_INSTALL_OPTIONS | PREFLIGHT_REQUIRED | EXPIRED_PREFLIGHT | INVALID_CATALOG | INVALID_TARGET

  datatype Plan = Plan(target: string, fingerprint: string, checkedAt: int, options: Options, platform: Option<string>,
                       release: Option<Release>, expiresAt: int, blockers: seq<string>)

  datatype Outcome = Planned(plan: Plan) | Refused(error: Error)

  predicate SafeInteger(n: int) { -HostReport.MAX_SAFE_INTEGER <= n <= HostReport.MAX_SAFE_INTEGER }

  predicate IsBase64(c: char) { HostReport.IsLetter(c) || HostReport.IsDigit(c) || c == '+' || c == '/' }

  predicate Fingerprint(s: string) {
    |s| == 50 && s[..7] == "SHA256:" && forall i :: 7 <= i < 50 ==> IsBase64(s[i])
  }

  function Platform(r: HostReport.Report): Option<string> {
    if r.os != "Linux" then None
    else if r.arch == "x86_64" then Some("linux/amd64")
    else if r.arch in ["aarch64", "arm64"] then Some("linux/arm64")
    else None
  }

  // ---------------------------------------------------------------- selection

  predicate DistinctSequences(releases: seq<Release>) {
    forall i, j :: 0 <= i < j < |releases| ==> releases[i].sequence != releases[j].sequence
  }

  /** Current and available for the platform; an empty image name counts as none. */
  predicate Candidate(r: Release, now: int, platform: Option<string>) {
    && r.issuedAt <= now < r.expiresAt
    && platform.Some? && platform.value in r.images && r.images[platform.value] != ""
  }

  function Candidates(releases: seq<Release>, now: int, platform: Option<string>): seq<Release> {
    if releases == [] then []
    else (if Candidate(releases[0], now, platform) then [releases[0]] else []) + Candidates(releases[1..], now, platform)
  }

  function Insert(r: Release, sorted: seq<Release>): seq<Release> {
    if sorted == [] || r.sequence >= sorted[0].sequence then [r] + sorted else [sorted[0]] + Insert(r, sorted[1..])
  }

  function HighestFirst(releases: seq<Release>): seq<Release> {
    if releases == [] then [] else Insert(releases[0], HighestFirst(releases[1..]))
  }

  function Selected(releases: seq<Release>, now: int, platform: Option<string>): Option<Release> {
    var sorted := HighestFirst(Candidates(releases, now, platform));
    if sorted == [] then None else Some(sorted[0])
  }

  predicate IsHighest(best: Release, releases: seq<Release>, now: int, platform: Option<string>) {
    && best in releases && Candidate(best, now, platform)
    && forall r :: r in releases && Candidate(r, now, platform) ==> r.sequence <= best.sequence
  }

  lemma {:induction false} CandidatesAre(releases: seq<Release>, now: int, platform: Option<string>)
    ensures forall r :: r in Candidates(releases, now, platform) <==> r in releases && Candidate(r, now, platform)
  {
    if releases != [] {
      CandidatesAre(releases[1..], now, platform);
    }
  }

  lemma {:induction false} InsertKeeps(r: Release, sorted: seq<Release>)
    requires sorted != [] ==> forall x :: x in sorted ==> x.sequence <= sorted[0].sequence
    ensures var all := Insert(r, sorted);
            && all != [] && (forall x :: x in all <==> x == r || x in sorted)
            && forall x :: x in all ==> x.sequence <= all[0].sequence
  {
    if sorted != [] && r.sequence < sorted[0].sequence {
      InsertOnlyAdds(r, sorted[1..]);
    }
  }

  lemma {:induction false} InsertOnlyAdds(r: Release, sorted: seq<Release>)
    ensures forall x :: x in Insert(r, sorted) <==> x == r || x in sorted
  {
    if sorted != [] && r.sequence < sorted[0].sequence {
      InsertOnlyAdds(r, sorted[1..]);
    }
  }

  lemma {:induction false} HighestIsFirst(releases: seq<Release>)
    ensures var all := HighestFirst(releases);
            && (forall x :: x in all <==> x in releases)
            && (all != [] ==> forall x :: x in all ==> x.sequence <= all[0].sequence)
  {
    if releases != [] {
      HighestIsFirst(releases[1..]);
      InsertKeeps(releases[0], HighestFirst(releases[1..]));
    }
  }

  /** The release offered is a current one of the platform with the highest sequence; none is offered iff there is none. */
  lemma SelectedIsHighest(releases: seq<Release>, now: int, platform: Option<string>)
    ensures match Selected(releases, now, platform)
            case Some(best) => IsHighest(best, releases, now, platform)
            case None => forall r :: r in releases ==> !Candidate(r, now, platform)
  {
    var candidates := Candidates(releases, now, platform);
    CandidatesAre(releases, now, platform);
    HighestIsFirst(candidates);
    var sorted := HighestFirst(candidates);
    if sorted != [] {
      assert sorted[0] in sorted;
    } else {
      assert forall r :: r in candidates ==> r in sorted;
    }
  }

  lemma HighestIsUnique(a: Release, b: Release, releases: seq<Release>, now: int, platform: Option<string>)
    requires DistinctSequences(releases) && IsHighest(a, releases, now, platform) && IsHighest(b, releases, now, platform)
    ensures a == b
  {
  }

  // ---------------------------------------------------------------- the plan

  function When(condition: bool, blocker: string): seq<string> { if condition then [blocker] else [] }

  function SystemBlockers(r: HostReport.Report): seq<string> {
    When(r.os != "Linux" || r.arch == "other", "unsupported_platform")
    + When(r.bash != "available", "bash_missing")
    + When(r.engine != "local_linux", "docker_" + r.engine)
    + When(r.compose != "available", "compose_missing")
    + When(r.home != "writable", "home_" + r.home)
    + When(r.installation != "absent", "installation_" + r.installation)
  }

  /** What the host itself lacks. */
  function HostBlockers(r: HostReport.Report): seq<string> {
    SystemBlockers(r)
    + When(r.diskKiB.None?, "disk_unknown")
    + When(r.diskKiB.Some? && r.diskKiB.value < MINIMUM_DISK_KIB, "disk_low")
  }

  function Blockers(r: HostReport.Report, releases: seq<Release>, selected: Option<Release>): seq<string> {
    HostBlockers(r)
    + (if releases == [] then ["release_unavailable"] else When(selected.None?, "release_platform_unavailable"))
    + ReleaseDiskBlocker(r, selected)
    + ["execution_not_enabled"]
  }

  function ReleaseDiskBlocker(r: HostReport.Report, selected: Option<Release>): seq<string> {
    When(selected.Some? && r.diskKiB.Some? && r.diskKiB.value < selected.value.minimumDiskKiB
         && "disk_low" !in HostBlockers(r),
         "release_disk_low")
  }

  predicate Expired(checkedAt: int, now: int) {
    !SafeInteger(now) || !SafeInteger(checkedAt) || checkedAt > now || now - checkedAt >= PREFLIGHT_LIFETIME
  }

  function Min(a: int, b: int): int { if a <= b then a else b }

  /**
    `targetOk` says whether the target of the inspection passes the target check, `options` is None when the requested
    options are refused.
   */
  function Preview(inspection: Option<Inspection>, targetOk: bool, options: Option<Options>, now: int,
                   releases: seq<Release>): Outcome {
    if inspection.None? then Refused(PREFLIGHT_REQUIRED)
    else
      var i := inspection.value;
      if Expired(i.checkedAt, now) then Refused(EXPIRED_PREFLIGHT)
      else if !targetOk then Refused(INVALID_TARGET)
      else if options.None? then Refused(INVALID_INSTALL_OPTIONS)
      else if !Fingerprint(i.fingerprint) then Refused(PREFLIGHT_REQUIRED)
      else if !DistinctSequences(releases) then Refused(INVALID_CATALOG)
      else
        var platform := Platform(i.report);
        var selected := Selected(releases, now, platform);
        var end := i.checkedAt + PREFLIGHT_LIFETIME;
        Planned(Plan(i.target, i.fingerprint, i.checkedAt, options.value, platform, selected,
                     if selected.Some? then Min(end, selected.value.expiresAt) else end,
                     Blockers(i.report, releases, selected)))
  }

  method HasDuplicate(releases: seq<Release>) returns (duplicate: bool)
    ensures duplicate <==> !DistinctSequences(releases)
  {
    var seen: set<int> := {};
    var i := 0;
    while i < |releases|
      invariant 0 <= i <= |releases|
      invariant forall n :: n in seen <==> exists j :: 0 <= j < i && releases[j].sequence == n
      invariant DistinctSequences(releases[..i])
    {
      if releases[i].sequence in seen {
        return true;
      }
      seen := seen + {releases[i].sequence};
      i := i + 1;
    }
    assert releases[..i] == releases;
    return false;
  }

  method PushWhen(blockers: seq<string>, condition: bool, blocker: string) returns (pushed: seq<string>)
    ensures pushed == blockers + When(condition, blocker)
  {
    pushed := blockers;
    if condition {
      pushed := pushed + [blocker];
    }
  }

  method HostSummary(r: HostReport.Report) returns (blockers: seq<string>)
    ensures blockers == HostBlockers(r)
  {
    hide When;
    blockers := PushWhen([], r.os != "Linux" || r.arch == "other", "unsupported_platform");
    assert blockers == When(r.os != "Linux" || r.arch == "other", "unsupported_platform");
    blockers := PushWhen(blockers, r.bash != "available", "bash_missing");
    blockers := PushWhen(blockers, r.engine != "local_linux", "docker_" + r.engine);
    blockers := PushWhen(blockers, r.compose != "available", "compose_missing");
    blockers := PushWhen(blockers, r.home != "writable", "home_" + r.home);
    blockers := PushWhen(blockers, r.installation != "absent", "installation_" + r.installation);
    blockers := PushWhen(blockers, r.diskKiB.None?, "disk_unknown");
    blockers := PushWhen(blockers, r.diskKiB.Some? && r.diskKiB.value < MINIMUM_DISK_KIB, "disk_low");
  }

  method PreviewInstallation(inspection: Option<Inspection>, targetOk: bool, options: Option<Options>, now: int,
                             releases: seq<Release>) returns (r: Outcome)
    ensures r == Preview(inspection, targetOk, options, now, releases)
  {
    hide Selected, HostBlockers, DistinctSequences, Fingerprint, Platform;
    if inspection.None? {
      return Refused(PREFLIGHT_REQUIRED);
    }
    var i := inspection.value;
    if !SafeInteger(now) || !SafeInteger(i.checkedAt) || i.checkedAt > now || now - i.checkedAt >= PREFLIGHT_LIFETIME {
      return Refused(EXPIRED_PREFLIGHT);
    }
    if !targetOk {
      return Refused(INVALID_TARGET);
    }
    if options.None? {
      return Refused(INVALID_INSTALL_OPTIONS);
    }
    if !Fingerprint(i.fingerprint) {
      return Refused(PREFLIGHT_REQUIRED);
    }
    var platform := Platform(i.report);
    var duplicate := HasDuplicate(releases);
    if duplicate {
      return Refused(INVALID_CATALOG);
    }
    var selected := Selected(releases, now, platform);
    var blockers := HostSummary(i.report);
    if releases == [] {
      blockers := blockers + ["release_unavailable"];
    } else if selected.None? {
      blockers := blockers + ["release_platform_unavailable"];
    }
    if selected.Some? && i.report.diskKiB.Some? && i.report.diskKiB.value < selected.value.minimumDiskKiB
       && "disk_low" !in blockers {
      blockers := blockers + ["release_disk_low"];
    }
    blockers := blockers + ["execution_not_enabled"];
    var end := i.checkedAt + PREFLIGHT_LIFETIME;
    return Planned(Plan(i.target, i.fingerprint, i.checkedAt, options.value, platform, selected,
                        if selected.Some? then Min(end, selected.value.expiresAt) else end, blockers));
  }

  // ---------------------------------------------------------------- what a plan promises

  /** A plan expires after now, within five minutes of the inspection, and with its release. */
  lemma PlanExpiry(inspection: Option<Inspection>, targetOk: bool, options: Option<Options>, now: int,
                   releases: seq<Release>)
    requires Preview(inspection, targetOk, options, now, releases).Planned?
    ensures var plan := Preview(inspection, targetOk, options, now, releases).plan;
            && now < plan.expiresAt <= plan.checkedAt + PREFLIGHT_LIFETIME <= now + PREFLIGHT_LIFETIME
            && (plan.release.Some? ==> plan.expiresAt <= plan.release.value.expiresAt)
            && (plan.expiresAt == plan.checkedAt + PREFLIGHT_LIFETIME
                || (plan.release.Some? && plan.expiresAt == plan.release.value.expiresAt))
  {
    hide Selected, Blockers, DistinctSequences;
    SelectedIsHighest(releases, now, Platform(inspection.value.report));
  }

  lemma SequencesAreOrderFree(xs: seq<Release>, ys: seq<Release>)
    requires multiset(xs) == multiset(ys) && DistinctSequences(xs)
    ensures DistinctSequences(ys)
  {
    forall i, j | 0 <= i < j < |ys|
      ensures ys[i].sequence != ys[j].sequence
    {
      if ys[i] == ys[j] {
        TwiceInMultiset(ys, i, j);
        OnceInMultiset(xs, ys[i]);
      } else {
        assert ys[i] in multiset(ys) && ys[j] in multiset(ys);
        assert ys[i] in xs && ys[j] in xs;
      }
    }
  }

  lemma TwiceInMultiset(ys: seq<Release>, i: int, j: int)
    requires 0 <= i < j < |ys| && ys[i] == ys[j]
    ensures multiset(ys)[ys[i]] >= 2
  {
    assert ys == ys[..j] + [ys[j]] + ys[j + 1..];
    assert ys[..j][i] == ys[j];
    assert ys[i] in multiset(ys[..j]);
  }

  lemma {:induction false} OnceInMultiset(xs: seq<Release>, r: Release)
    requires DistinctSequences(xs)
    ensures multiset(xs)[r] <= 1
  {
    if xs != [] {
      OnceInMultiset(xs[1..], r);
      assert xs == [xs[0]] + xs[1..];
      if r == xs[0] {
        assert r !in xs[1..];
      }
    }
  }

  /** The order of the catalogue plays no part: it changes neither the refusal nor anything in the plan. */
  lemma CatalogueOrderIsIrrelevant(inspection: Option<Inspection>, targetOk: bool, options: Option<Options>, now: int,
                                   xs: seq<Release>, ys: seq<Release>)
    requires multiset(xs) == multiset(ys)
    ensures Preview(inspection, targetOk, options, now, xs) == Preview(inspection, targetOk, options, now, ys)
  {
    hide Selected, DistinctSequences, Fingerprint, HostBlockers, Platform;
    if DistinctSequences(xs) {
      SequencesAreOrderFree(xs, ys);
    }
    if DistinctSequences(ys) {
      SequencesAreOrderFree(ys, xs);
    }
    if inspection.Some? && DistinctSequences(xs) {
      SelectedIsOrderFree(xs, ys, now, Platform(inspection.value.report));
    }
    assert |xs| == |multiset(xs)| == |multiset(ys)| == |ys|;
  }

  lemma SelectedIsOrderFree(xs: seq<Release>, ys: seq<Release>, now: int, platform: Option<string>)
    requires multiset(xs) == multiset(ys) && DistinctSequences(xs)
    ensures Selected(xs, now, platform) == Selected(ys, now, platform)
  {
    hide Selected, DistinctSequences, Candidate;
    SelectedIsHighest(xs, now, platform);
    SelectedIsHighest(ys, now, platform);
    assert forall r :: r in xs <==> r in multiset(xs);
    assert forall r :: r in ys <==> r in multiset(ys);
    if Selected(xs, now, platform).Some? && Selected(ys, now, platform).Some? {
      HighestIsUnique(Selected(xs, now, platform).value, Selected(ys, now, platform).value, xs, now, platform);
    }
  }

  /** Begins as "disk..." or "release..." do. */
  predicate DiskName(s: string) { |s| >= 2 && ((s[0] == 'd' && s[1] == 'i') || s[0] == 'r') }

  lemma SystemBlockersAreNotDisk(r: HostReport.Report)
    ensures forall b :: b in SystemBlockers(r) ==> !DiskName(b)
  {
    hide When, DiskName;
    NotDisk(r.os != "Linux" || r.arch == "other", "unsupported_platform");
    NotDisk(r.bash != "available", "bash_missing");
    NotDisk(r.engine != "local_linux", "docker_" + r.engine);
    NotDisk(r.compose != "available", "compose_missing");
    NotDisk(r.home != "writable", "home_" + r.home);
    NotDisk(r.installation != "absent", "installation_" + r.installation);
  }

  lemma NotDisk(condition: bool, blocker: string)
    requires |blocker| >= 2 && (blocker[0] != 'd' || blocker[1] != 'i') && blocker[0] != 'r'
    ensures forall b :: b in When(condition, blocker) ==> !DiskName(b)
  {
  }

  lemma HostDiskBlockers(r: HostReport.Report)
    ensures "disk_unknown" in HostBlockers(r) <==> r.diskKiB.None?
    ensures "disk_low" in HostBlockers(r) <==> r.diskKiB.Some? && r.diskKiB.value < MINIMUM_DISK_KIB
    ensures "release_disk_low" !in HostBlockers(r)
  {
    hide SystemBlockers;
    SystemBlockersAreNotDisk(r);
    assert DiskName("disk_unknown") && DiskName("disk_low") && DiskName("release_disk_low");
    assert |"disk_unknown"| == 12 && |"disk_low"| == 8 && |"release_disk_low"| == 16;
  }

  /** The disk blockers are all absent exactly when the free space is known and meets both minimums. */
  lemma DiskBlockers(r: HostReport.Report, releases: seq<Release>, selected: Option<Release>)
    ensures var b := Blockers(r, releases, selected);
            ("disk_unknown" !in b && "disk_low" !in b && "release_disk_low" !in b)
            <==> (r.diskKiB.Some? && r.diskKiB.value >= MINIMUM_DISK_KIB
                  && (selected.Some? ==> r.diskKiB.value >= selected.value.minimumDiskKiB))
  {
    hide HostBlockers;
    HostDiskBlockers(r);
    assert |"disk_unknown"| == 12 && |"disk_low"| == 8 && |"release_disk_low"| == 16;
    assert |"release_unavailable"| == 19 && |"release_platform_unavailable"| == 28 && |"execution_not_enabled"| == 21;
  }

  /** A plan is never free of blockers, and has one only iff the host lacks nothing and a release fits its free space. */
  lemma NeverUnblocked(r: HostReport.Report, releases: seq<Release>, selected: Option<Release>)
    ensures "execution_not_enabled" in Blockers(r, releases, selected)
    ensures |Blockers(r, releases, selected)| == 1
            <==> (HostBlockers(r) == [] && selected.Some? && releases != []
                  && r.diskKiB.Some? && r.diskKiB.value >= selected.value.minimumDiskKiB)
  {
    hide SystemBlockers;
    if HostBlockers(r) == [] {
      assert r.diskKiB.Some?;
    }
  }

  // ---------------------------------------------------------------- what is refused, and what is planned

  /** The host has everything an installation needs. */
  predicate Fits(r: HostReport.Report) {
    && r.os == "Linux" && r.arch != "other" && r.bash == "available" && r.engine == "local_linux"
    && r.compose == "available" && r.home == "writable" && r.installation == "absent"
    && r.diskKiB.Some? && r.diskKiB.value >= 2097152
  }

  function Count(condition: bool): int { if condition then 1 else 0 }

  /** A host has one blocker for each thing it lacks, and none exactly when it lacks nothing. */
  lemma HostBlockersCount(r: HostReport.Report)
    ensures HostBlockers(r) == [] <==> Fits(r)
    ensures |HostBlockers(r)| ==
            Count(r.os != "Linux" || r.arch == "other") + Count(r.bash != "available") + Count(r.engine != "local_linux")
            + Count(r.compose != "available") + Count(r.home != "writable") + Count(r.installation != "absent")
            + Count(r.diskKiB.None? || r.diskKiB.value < 2097152)
  {
  }

  /** The inspection is at most five minutes old. */
  predicate Current(i: Inspection, now: int) {
    SafeInteger(now) && SafeInteger(i.checkedAt) && 0 <= now - i.checkedAt < 300000
  }

  /**
    There is a plan exactly when there is a current inspection with a good target and fingerprint, the options are
    accepted, and no two releases share a number. Otherwise the first of these that is missing is named.
   */
  lemma PreviewIff(inspection: Option<Inspection>, targetOk: bool, options: Option<Options>, now: int, releases: seq<Release>)
    ensures var r := Preview(inspection, targetOk, options, now, releases);
            && (r.Planned? <==> inspection.Some? && Current(inspection.value, now) && targetOk && options.Some?
                                && Fingerprint(inspection.value.fingerprint) && DistinctSequences(releases))
            && (r == Refused(EXPIRED_PREFLIGHT) <==> inspection.Some? && !Current(inspection.value, now))
            && (r == Refused(INVALID_TARGET) <==> inspection.Some? && Current(inspection.value, now) && !targetOk)
            && (r == Refused(INVALID_INSTALL_OPTIONS) <==>
                  inspection.Some? && Current(inspection.value, now) && targetOk && options.None?)
            && (r == Refused(PREFLIGHT_REQUIRED) <==>
                  || inspection.None?
                  || (Current(inspection.value, now) && targetOk && options.Some?
                      && !Fingerprint(inspection.value.fingerprint)))
  {
    hide Selected, Blockers, DistinctSequences, Fingerprint, Platform;
  }

  /** A plan is for what was inspected and asked for; its release is a highest current one of the host's platform. */
  lemma PlanFollows(inspection: Option<Inspection>, targetOk: bool, options: Option<Options>, now: int, releases: seq<Release>)
    requires Preview(inspection, targetOk, options, now, releases).Planned?
    ensures var plan, i := Preview(inspection, targetOk, options, now, releases).plan, inspection.value;
            && plan.target == i.target && plan.fingerprint == i.fingerprint && plan.checkedAt == i.checkedAt
            && Some(plan.options) == options
            && plan.platform == (if i.report.os == "Linux" && i.report.arch == "x86_64" then Some("linux/amd64")
                                 else if i.report.os == "Linux" && (i.report.arch == "aarch64" || i.report.arch == "arm64")
                                 then Some("linux/arm64") else None)
            && (match plan.release
                case Some(best) => IsHighest(best, releases, now, plan.platform)
                case None => forall r :: r in releases ==> !Candidate(r, now, plan.platform))
            && "execution_not_enabled" in plan.blockers
            && (|plan.blockers| == 1 <==>
                  && Fits(i.report) && plan.release.Some?
                  && i.report.diskKiB.value >= plan.release.value.minimumDiskKiB)
  {
    var i := inspection.value;
    var selected := Selected(releases, now, Platform(i.report));
    SelectedIsHighest(releases, now, Platform(i.report));
    HostBlockersCount(i.report);
    NeverUnblocked(i.report, releases, selected);
    hide Selected, HostBlockers, DistinctSequences, Fingerprint, Blockers, Candidate;
    if selected.Some? {
      assert releases != [];
    }
  }
}
