/** Comparing the installed package version with the latest published one
    (mantidimaging/core/utility/version_check.py). A version string reads
    "1.2.3_45": a dotted release, '_', and the commits made since it. */
module VersionCheck {
  import opened Wrappers
  import opened PyRuntime
  import opened PyText

  /** Messages of the errors unpacking a split into two names raises. */
  const TooFewMessage := "not enough values to unpack (expected 2, got 1)"
  const TooManyMessage := "too many values to unpack (expected 2)"

  /** `(tuple_of_release_numbers, commits_since_last)` */
  datatype Version = Version(release: seq<int>, commits: int)

  // ---------------------------------------------------------------------
  // Parsing and formatting
  // ---------------------------------------------------------------------

  /** `_parse_version`: exactly one '_' separates the release from the
      commit count; the release is split on '.' and every part, like the
      count, must be an integer. */
  function ParseVersion(s: string): (r: Result<Version, PyError>)
    ensures Count(s, '_') == 0 ==> r == Failure(ValueError(TooFewMessage))
    ensures Count(s, '_') > 1 ==> r == Failure(ValueError(TooManyMessage))
    ensures r.Success? <==> Count(s, '_') == 1
                            && ParseInts(Split(Split(s, '_')[0], '.')).Success?
                            && ParseInt(Split(s, '_')[1]).Some?
    ensures r.Success? ==> |r.value.release| == Count(Split(s, '_')[0], '.') + 1
                           && (forall i :: 0 <= i < |r.value.release| ==>
                                 ParseInt(Split(Split(s, '_')[0], '.')[i]) == Some(r.value.release[i]))
                           && ParseInt(Split(s, '_')[1]) == Some(r.value.commits)
    ensures r.Failure? ==> r.error.ValueError?
  {
    var halves := Split(s, '_');
    if |halves| < 2 then Failure(ValueError(TooFewMessage))
    else if |halves| > 2 then Failure(ValueError(TooManyMessage))
    else
      match ParseInts(Split(halves[0], '.'))
      case Failure(bad) => Failure(InvalidIntLiteral(bad))
      case Success(release) =>
        match ParseInt(halves[1])
        case None => Failure(InvalidIntLiteral(halves[1]))
        case Some(commits) => Success(Version(release, commits))
  }

  /** The string a version is published as: dotted release, '_', count. */
  function FormatVersion(v: Version): string
  {
    Join(IntStrings(v.release), '.') + "_" + IntToString(v.commits)
  }

  /** A joined list of pieces contains a character only if a piece or the
      separator is it. */
  lemma {:induction false} JoinHasNo(parts: seq<string>, sep: char, c: char)
    requires c != sep
    requires forall i :: 0 <= i < |parts| ==> c !in parts[i]
    ensures c !in Join(parts, sep)
    decreases |parts|
  {
    if |parts| > 1 {
      JoinHasNo(parts[1..], sep, c);
    }
  }

  /** Parsing a published version string gives the version back. */
  lemma ParseFormatVersion(v: Version)
    requires |v.release| > 0
    ensures ParseVersion(FormatVersion(v)) == Success(v)
  {
    var pieces := IntStrings(v.release);
    forall i | 0 <= i < |pieces| ensures '_' !in pieces[i] && '.' !in pieces[i] {
      IntToStringHasNo(v.release[i], '_');
      IntToStringHasNo(v.release[i], '.');
    }
    var release := Join(pieces, '.');
    var commits := IntToString(v.commits);
    JoinHasNo(pieces, '.', '_');
    IntToStringHasNo(v.commits, '_');
    assert FormatVersion(v) == release + ['_'] + commits;
    SplitAtFirstSeparator(release, commits, '_');
    SplitNoSeparator(commits, '_');
    assert Split(FormatVersion(v), '_') == [release, commits];
    SplitOfJoin(pieces, '.');
    ParseIntsOfIntStrings(v.release);
    ParseIntOfIntToString(v.commits);
  }

  // ---------------------------------------------------------------------
  // Comparison
  // ---------------------------------------------------------------------

  /** Python's `a < b` on tuples of ints: the first differing element
      decides, and a proper prefix is smaller. */
  predicate TupleLess(a: seq<int>, b: seq<int>)
    decreases |a|
  {
    if |a| == 0 then |b| > 0
    else if |b| == 0 then false
    else if a[0] != b[0] then a[0] < b[0]
    else TupleLess(a[1..], b[1..])
  }

  lemma {:induction false} TupleLessIrreflexive(a: seq<int>)
    ensures !TupleLess(a, a)
    decreases |a|
  {
    if |a| > 0 {
      TupleLessIrreflexive(a[1..]);
    }
  }

  lemma {:induction false} TupleLessTransitive(a: seq<int>, b: seq<int>, c: seq<int>)
    requires TupleLess(a, b) && TupleLess(b, c)
    ensures TupleLess(a, c)
    decreases |a|
  {
    if |a| > 0 && a[0] == b[0] && b[0] == c[0] {
      TupleLessTransitive(a[1..], b[1..], c[1..]);
    }
  }

  lemma {:induction false} TupleLessTotal(a: seq<int>, b: seq<int>)
    ensures a == b || TupleLess(a, b) || TupleLess(b, a)
    decreases |a|
  {
    if |a| > 0 && |b| > 0 && a[0] == b[0] {
      TupleLessTotal(a[1..], b[1..]);
      if a[1..] == b[1..] {
        assert a == [a[0]] + a[1..] && b == [b[0]] + b[1..];
      }
    }
  }

  /** The condition on line 33 as written: the local build is "not the
      latest" when its release is older OR it has fewer commits, comparing
      the commit counts even across different releases. */
  predicate NotLatestAsWritten(local: Version, remote: Version)
  {
    TupleLess(local.release, remote.release) || local.commits < remote.commits
  }

  /** As written, two builds can each be "not the latest" relative to the
      other: release 1.2 with no commits is newer than release 1.1 with
      five, yet is reported as behind it. */
  lemma NotLatestAsWrittenIsNotAnOrder()
    ensures NotLatestAsWritten(Version([1, 2], 0), Version([1, 1], 5))
    ensures NotLatestAsWritten(Version([1, 1], 5), Version([1, 2], 0))
  {
    assert TupleLess([1, 1], [1, 2]) by {
      assert [1, 1][1..] == [1] && [1, 2][1..] == [2];
    }
  }

  /** The evidently intended check: the local build is behind when its
      (release, commits) pair is smaller, the commit counts only deciding
      between equal releases. */
  predicate Outdated(local: Version, remote: Version)
  {
    TupleLess(local.release, remote.release)
    || (local.release == remote.release && local.commits < remote.commits)
  }

  /** `Outdated` is a strict total order on versions: never both ways,
      transitive, and any two different versions are ordered. */
  lemma OutdatedIsStrictTotalOrder(a: Version, b: Version, c: Version)
    ensures !(Outdated(a, b) && Outdated(b, a))
    ensures Outdated(a, b) && Outdated(b, c) ==> Outdated(a, c)
    ensures a == b || Outdated(a, b) || Outdated(b, a)
  {
    TupleLessIrreflexive(a.release);
    TupleLessIrreflexive(b.release);
    if TupleLess(a.release, b.release) && TupleLess(b.release, a.release) {
      TupleLessTransitive(a.release, b.release, a.release);
    }
    if TupleLess(a.release, b.release) && TupleLess(b.release, c.release) {
      TupleLessTransitive(a.release, b.release, c.release);
    }
    TupleLessTotal(a.release, b.release);
  }

  /** A local build with a newer release is never reported as behind. */
  lemma NewerReleaseIsNotOutdated(local: Version, remote: Version)
    requires TupleLess(remote.release, local.release)
    ensures !Outdated(local, remote)
  {
    OutdatedIsStrictTotalOrder(local, remote, local);
  }

  /** What `find_if_latest_version` reports. */
  datatype Status = DevelopmentBuild | RemoteUnavailable | NotLatest | Latest

  /** The decision of `find_if_latest_version` once both version strings
      are known: an empty local version is reported first, then an empty
      remote one; only then are both parsed (local first) and compared. */
  function FindIfLatestVersion(local: string, remote: string): (r: Result<Status, PyError>)
    ensures local == "" ==> r == Success(DevelopmentBuild)
    ensures local != "" && remote == "" ==> r == Success(RemoteUnavailable)
    ensures local != "" && remote != "" ==>
              (r.Success? <==> ParseVersion(local).Success? && ParseVersion(remote).Success?)
    ensures local != "" && remote != "" && ParseVersion(local).Failure? ==> r == Failure(ParseVersion(local).error)
    ensures r == Success(NotLatest) <==>
              local != "" && remote != "" && ParseVersion(local).Success? && ParseVersion(remote).Success?
              && Outdated(ParseVersion(local).value, ParseVersion(remote).value)
    ensures r == Success(Latest) <==>
              local != "" && remote != "" && ParseVersion(local).Success? && ParseVersion(remote).Success?
              && !Outdated(ParseVersion(local).value, ParseVersion(remote).value)
  {
    if local == "" then Success(DevelopmentBuild)
    else if remote == "" then Success(RemoteUnavailable)
    else
      var l :- ParseVersion(local);
      var r :- ParseVersion(remote);
      if Outdated(l, r) then Success(NotLatest) else Success(Latest)
  }

  /** `find_if_latest_version` exactly as written, deciding with line 33's
      condition. */
  function FindIfLatestVersionAsWritten(local: string, remote: string): (r: Result<Status, PyError>)
    ensures local == "" ==> r == Success(DevelopmentBuild)
    ensures local != "" && remote == "" ==> r == Success(RemoteUnavailable)
    ensures r == Success(NotLatest) <==>
              local != "" && remote != "" && ParseVersion(local).Success? && ParseVersion(remote).Success?
              && NotLatestAsWritten(ParseVersion(local).value, ParseVersion(remote).value)
  {
    if local == "" then Success(DevelopmentBuild)
    else if remote == "" then Success(RemoteUnavailable)
    else
      var l :- ParseVersion(local);
      var r :- ParseVersion(remote);
      if NotLatestAsWritten(l, r) then Success(NotLatest) else Success(Latest)
  }

  /** End to end, the check as written reports each of the builds "1.2_0"
      and "1.1_5" as not the latest when compared with the other, while the
      corrected check reports only the older 1.1_5 as behind. */
  lemma AsWrittenReportsBothBehind()
    ensures FindIfLatestVersionAsWritten(FormatVersion(Version([1, 2], 0)), FormatVersion(Version([1, 1], 5)))
            == Success(NotLatest)
    ensures FindIfLatestVersionAsWritten(FormatVersion(Version([1, 1], 5)), FormatVersion(Version([1, 2], 0)))
            == Success(NotLatest)
    ensures FindIfLatestVersion(FormatVersion(Version([1, 2], 0)), FormatVersion(Version([1, 1], 5)))
            == Success(Latest)
    ensures FindIfLatestVersion(FormatVersion(Version([1, 1], 5)), FormatVersion(Version([1, 2], 0)))
            == Success(NotLatest)
  {
    var newer, older := Version([1, 2], 0), Version([1, 1], 5);
    ParseFormatVersion(newer);
    ParseFormatVersion(older);
    NotLatestAsWrittenIsNotAnOrder();
    assert FormatVersion(newer) != "" && FormatVersion(older) != "";
    NewerReleaseIsNotOutdated(newer, older);
  }

  /** Comparing a published version with itself reports the latest. */
  lemma SameVersionIsLatest(v: Version)
    requires |v.release| > 0
    ensures FindIfLatestVersion(FormatVersion(v), FormatVersion(v)) == Success(Latest)
  {
    ParseFormatVersion(v);
    TupleLessIrreflexive(v.release);
  }
}
