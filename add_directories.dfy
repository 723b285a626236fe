/**
 * The `/directory add` subcommand and `finishAddingDirectories`: parse a comma-separated
 * list of paths, skip those already in the workspace, sort the rest by stored trust, add the
 * trusted ones one at a time, and either hand the undecided ones to the trust dialog or report.
 */
module AddDirectories {
  import opened Wrappers
  import opened Sequences
  import opened JsStrings
  import opened Messages
  import opened Environment

  /** The `(added, errors)` pair handed to `finishAddingDirectories`. */
  datatype Report = Report(added: seq<string>, errors: seq<ErrorEntry>)

  /** The props of the `MultiFolderTrustDialog` the command returns. */
  datatype DialogProps = DialogProps(folders: seq<string>, trustedDirs: seq<string>, errors: seq<ErrorEntry>)

  /** What the action returns: nothing, an error message, or a custom dialog. */
  datatype ActionResult = NoValue | ErrorMessage(content: string) | CustomDialog(props: DialogProps)

  /** `isFolderTrustEnabled(settings.merged)` and `isWorkspaceTrusted(settings.merged).isTrusted`. */
  datatype TrustSettings = TrustSettings(folderTrustEnabled: bool, workspaceTrusted: Option<bool>)

  /** Per-folder trust is consulted only when folder trust is on and the workspace is trusted. */
  predicate Gated(s: TrustSettings) {
    s.folderTrustEnabled && s.workspaceTrusted == Some(true)
  }

  // ---------------------------------------------------------------- parsing

  predicate NonEmpty(p: string) {
    p != ""
  }

  /**
   * `args.split(' ')`, re-joined with `' '`, split on `','`, empty pieces dropped. The split
   * and re-join on spaces gives the argument back, so the candidates are the argument cut at
   * every comma, in order, without the empty pieces.
   */
  function ParsePaths(args: string): (candidates: seq<string>)
    ensures candidates == Keep(Split(args, ','), NonEmpty, true)
    ensures forall p :: p in candidates ==> p != "" && ',' !in p
  {
    JoinSplit(args, ' ');
    var rest := Split(args, ' ');
    var pieces := Split(Join(rest, " "), ',');
    var r := Keep(pieces, NonEmpty, true);
    assert forall p :: p in r ==> p != "" && ',' !in p by {
      forall p | p in r ensures p != "" && ',' !in p {
        KeepMembers(pieces, NonEmpty, true, p);
      }
    }
    r
  }

  lemma {:induction false} ConcatDropsEmpty(parts: seq<string>)
    ensures Concat(Keep(parts, NonEmpty, true)) == Concat(parts)
  {
    if parts != [] {
      var init, last := parts[..|parts| - 1], parts[|parts| - 1];
      assert parts == init + [last];
      ConcatDropsEmpty(init);
      ConcatAppend(init, [last]);
      ConcatAppend(Keep(init, NonEmpty, true), if NonEmpty(last) then [last] else []);
    }
  }

  /** The candidates are exactly the text of the argument with its commas taken out, cut at the commas. */
  lemma ParsePathsKeepsText(args: string)
    ensures Concat(ParsePaths(args)) == Without(args, ',')
  {
    JoinSplit(args, ' ');
    assert Join(Split(args, ' '), " ") == args;
    ConcatSplit(args, ',');
    ConcatDropsEmpty(Split(args, ','));
  }

  lemma {:induction false} WithoutEmpty(s: string, c: char)
    ensures Without(s, c) == "" <==> forall i :: 0 <= i < |s| ==> s[i] == c
  {
    if s != [] {
      WithoutEmpty(s[1..], c);
      assert forall i :: 1 <= i < |s| ==> s[i] == s[1..][i - 1];
    }
  }

  lemma {:induction false} ConcatOfNonEmpty(parts: seq<string>)
    requires forall p :: p in parts ==> p != ""
    ensures Concat(parts) == "" <==> parts == []
  {
    if parts != [] {
      assert parts[0] in parts;
    }
  }

  /** There is no candidate exactly when the argument consists of commas only (or is empty). */
  lemma NoCandidatesIffOnlyCommas(args: string)
    ensures ParsePaths(args) == [] <==> forall i :: 0 <= i < |args| ==> args[i] == ','
  {
    ParsePathsKeepsText(args);
    ConcatOfNonEmpty(ParsePaths(args));
    WithoutEmpty(args, ',');
  }

  /**
   * Empty pieces are dropped before trimming, so a piece of blanks is a candidate
   * and becomes the empty path once trimmed.
   */
  lemma BlankPieceSurvives(args: string, piece: string)
    requires piece in Split(args, ',') && piece != ""
    requires forall i :: 0 <= i < |piece| ==> IsWhitespace(piece[i])
    ensures piece in ParsePaths(args) && Trim(piece) == ""
  {
    JoinSplit(args, ' ');
    assert Join(Split(args, ' '), " ") == args;
    KeepMembers(Split(args, ','), NonEmpty, true, piece);
    TrimSpec(piece);
  }

  // ------------------------------------------------- already in the workspace

  /** Whether `expandHomeDir(p)` is in the snapshot of workspace directories. */
  function InSnapshot(snapshot: set<string>, expand: string -> string): string -> bool {
    p => expand(p) in snapshot
  }

  /**
   * The first loop of the action: each trimmed candidate goes to `alreadyAdded` when its
   * expansion is in `current` (one snapshot taken before the loop) and to `pathsToProcess`
   * otherwise, in input order, duplicates kept.
   */
  method SplitAgainstWorkspace(pathsToAdd: seq<string>, current: set<string>, expand: string -> string)
    returns (alreadyAdded: seq<string>, pathsToProcess: seq<string>)
    ensures alreadyAdded == Keep(MapSeq(pathsToAdd, Trim), InSnapshot(current, expand), true)
    ensures pathsToProcess == Keep(MapSeq(pathsToAdd, Trim), InSnapshot(current, expand), false)
    ensures multiset(alreadyAdded) + multiset(pathsToProcess) == multiset(MapSeq(pathsToAdd, Trim))
  {
    alreadyAdded, pathsToProcess := [], [];
    for i := 0 to |pathsToAdd|
      invariant alreadyAdded == Keep(MapSeq(pathsToAdd[..i], Trim), InSnapshot(current, expand), true)
      invariant pathsToProcess == Keep(MapSeq(pathsToAdd[..i], Trim), InSnapshot(current, expand), false)
    {
      var trimmed := Trim(pathsToAdd[i]);
      var expandedPath := expand(trimmed);
      assert MapSeq(pathsToAdd[..i + 1], Trim) == MapSeq(pathsToAdd[..i], Trim) + [trimmed];
      KeepSnoc(MapSeq(pathsToAdd[..i], Trim), trimmed, InSnapshot(current, expand), true);
      KeepSnoc(MapSeq(pathsToAdd[..i], Trim), trimmed, InSnapshot(current, expand), false);
      if expandedPath in current {
        alreadyAdded := alreadyAdded + [trimmed];
      } else {
        pathsToProcess := pathsToProcess + [trimmed];
      }
    }
    assert pathsToAdd[..|pathsToAdd|] == pathsToAdd;
    SplitTwoWays(MapSeq(pathsToAdd, Trim), InSnapshot(current, expand));
  }

  // ------------------------------------------------------------ trust buckets

  datatype TrustBucket = Untrusted | UndefinedTrust | Trusted

  /** `isTrusted === false`, `isTrusted === undefined`, anything else. */
  function BucketOf(isTrusted: Option<bool>): TrustBucket {
    if isTrusted == Some(false) then Untrusted
    else if isTrusted == None then UndefinedTrust
    else Trusted
  }

  function TrustOf(isPathTrusted: string -> Option<bool>, expand: string -> string): string -> TrustBucket {
    p => BucketOf(isPathTrusted(expand(p)))
  }

  /** The second loop: each path (trimmed again) lands in the bucket its trust lookup selects. */
  method ClassifyByTrust(pathsToProcess: seq<string>, isPathTrusted: string -> Option<bool>, expand: string -> string)
    returns (untrustedDirs: seq<string>, undefinedTrustDirs: seq<string>, trustedDirs: seq<string>)
    ensures untrustedDirs == Keep(MapSeq(pathsToProcess, Trim), TrustOf(isPathTrusted, expand), Untrusted)
    ensures undefinedTrustDirs == Keep(MapSeq(pathsToProcess, Trim), TrustOf(isPathTrusted, expand), UndefinedTrust)
    ensures trustedDirs == Keep(MapSeq(pathsToProcess, Trim), TrustOf(isPathTrusted, expand), Trusted)
  {
    var trust := TrustOf(isPathTrusted, expand);
    untrustedDirs, undefinedTrustDirs, trustedDirs := [], [], [];
    for i := 0 to |pathsToProcess|
      invariant untrustedDirs == Keep(MapSeq(pathsToProcess[..i], Trim), trust, Untrusted)
      invariant undefinedTrustDirs == Keep(MapSeq(pathsToProcess[..i], Trim), trust, UndefinedTrust)
      invariant trustedDirs == Keep(MapSeq(pathsToProcess[..i], Trim), trust, Trusted)
    {
      var trimmed := Trim(pathsToProcess[i]);
      var isTrusted := isPathTrusted(expand(trimmed));
      assert MapSeq(pathsToProcess[..i + 1], Trim) == MapSeq(pathsToProcess[..i], Trim) + [trimmed];
      KeepSnoc(MapSeq(pathsToProcess[..i], Trim), trimmed, trust, Untrusted);
      KeepSnoc(MapSeq(pathsToProcess[..i], Trim), trimmed, trust, UndefinedTrust);
      KeepSnoc(MapSeq(pathsToProcess[..i], Trim), trimmed, trust, Trusted);
      if isTrusted == Some(false) {
        untrustedDirs := untrustedDirs + [trimmed];
      } else if isTrusted == None {
        undefinedTrustDirs := undefinedTrustDirs + [trimmed];
      } else {
        trustedDirs := trustedDirs + [trimmed];
      }
    }
    assert pathsToProcess[..|pathsToProcess|] == pathsToProcess;
  }

  /** The three buckets together hold every path exactly as often as the input does. */
  lemma BucketsPartition(paths: seq<string>, isPathTrusted: string -> Option<bool>, expand: string -> string)
    ensures var trust := TrustOf(isPathTrusted, expand);
      multiset(Keep(paths, trust, Untrusted)) + multiset(Keep(paths, trust, UndefinedTrust))
        + multiset(Keep(paths, trust, Trusted)) == multiset(paths)
  {
    ThreeWay(paths, TrustOf(isPathTrusted, expand));
  }

  /** Any labelling with the three trust buckets partitions its input. */
  lemma ThreeWay(paths: seq<string>, trust: string -> TrustBucket)
    ensures multiset(Keep(paths, trust, Untrusted)) + multiset(Keep(paths, trust, UndefinedTrust))
              + multiset(Keep(paths, trust, Trusted)) == multiset(paths)
  {
    var buckets := multiset(Keep(paths, trust, Untrusted)) + multiset(Keep(paths, trust, UndefinedTrust))
                     + multiset(Keep(paths, trust, Trusted));
    forall x ensures buckets[x] == multiset(paths)[x] {
      KeepCount(paths, trust, Untrusted, x);
      KeepCount(paths, trust, UndefinedTrust, x);
      KeepCount(paths, trust, Trusted, x);
      match trust(x)
      case Untrusted =>
      case UndefinedTrust =>
      case Trusted =>
    }
    assert buckets == multiset(paths);
  }

  /** A path is in the bucket named by its trust lookup, and in no other. */
  lemma BucketMembership(paths: seq<string>, isPathTrusted: string -> Option<bool>, expand: string -> string, p: string)
    ensures var trust := TrustOf(isPathTrusted, expand);
      (p in Keep(paths, trust, Untrusted) <==> p in paths && isPathTrusted(expand(p)) == Some(false))
      && (p in Keep(paths, trust, UndefinedTrust) <==> p in paths && isPathTrusted(expand(p)) == None)
      && (p in Keep(paths, trust, Trusted) <==> p in paths && isPathTrusted(expand(p)) == Some(true))
  {
    var trust := TrustOf(isPathTrusted, expand);
    KeepMembers(paths, trust, Untrusted, p);
    KeepMembers(paths, trust, UndefinedTrust, p);
    KeepMembers(paths, trust, Trusted, p);
    var answer := isPathTrusted(expand(p));
    assert trust(p) == BucketOf(answer);
    match answer
    case None =>
    case Some(b) => assert b || !b;
  }

  // ------------------------------------------------------- adding, one by one

  /** What a run of `addDirectory` attempts produced, and the state it left behind. */
  datatype Run = Run(added: seq<string>, errors: seq<ErrorEntry>, events: seq<Event>,
                     directories: set<string>, trustedFolders: set<string>)

  /**
   * One pass of the per-path `try` block: when `remember` holds (the dialog's
   * YES_AND_REMEMBER), trust is written first; then the directory is added. The first call
   * that throws ends the block with one `Error adding` entry.
   */
  function AttemptOne(b: Behaviour, dirs: set<string>, trusted: set<string>, path: string,
                      remember: bool, expand: string -> string): Run
  {
    var expanded := expand(path);
    var writeFailure := if remember then b.setValueFailure(expanded) else None;
    var writes := if remember then [SetTrustCall(expanded)] else [];
    if writeFailure.Some? then
      Run([], [AddFailed(path, writeFailure.value)], writes, dirs, trusted)
    else
      var trusted' := if remember then trusted + {expanded} else trusted;
      var addFailure := b.addFailure(dirs, expanded);
      if addFailure.Some? then
        Run([], [AddFailed(path, addFailure.value)], writes + [AddDirectoryCall(expanded)], dirs, trusted')
      else
        Run([path], [], writes + [AddDirectoryCall(expanded)], dirs + {expanded}, trusted')
  }

  /** The whole loop: every path is attempted, in order, each against the state the previous one left. */
  function Attempt(b: Behaviour, dirs: set<string>, trusted: set<string>, paths: seq<string>,
                   remember: bool, expand: string -> string): Run
    decreases |paths|
  {
    if paths == [] then Run([], [], [], dirs, trusted)
    else
      var done := Attempt(b, dirs, trusted, paths[..|paths| - 1], remember, expand);
      var last := AttemptOne(b, done.directories, done.trustedFolders, paths[|paths| - 1], remember, expand);
      Run(done.added + last.added, done.errors + last.errors, done.events + last.events,
          last.directories, last.trustedFolders)
  }

  lemma {:induction false} FailedPathsAppend(xs: seq<ErrorEntry>, ys: seq<ErrorEntry>)
    ensures FailedPaths(xs + ys) == FailedPaths(xs) + FailedPaths(ys)
  {
    if xs == [] {
      assert xs + ys == ys;
    } else {
      assert (xs + ys)[0] == xs[0] && (xs + ys)[1..] == xs[1..] + ys;
      FailedPathsAppend(xs[1..], ys);
      AppendAssoc(if xs[0].AddFailed? then [xs[0].path] else [], FailedPaths(xs[1..]), FailedPaths(ys));
    }
  }

  /** A single attempt ends with the path either added or named by one `Error adding` entry. */
  lemma AttemptOneAccounting(b: Behaviour, dirs: set<string>, trusted: set<string>, path: string,
                             remember: bool, expand: string -> string)
    ensures var one := AttemptOne(b, dirs, trusted, path, remember, expand);
      (one.added == [path] && one.errors == []) || (one.added == [] && one.errors == [AddFailed(path, one.errors[0].message)])
  {
  }

  /** Each attempted path yields exactly one outcome, and the loop produces no kind of error but `Error adding`. */
  lemma {:induction false} AttemptOutcomes(b: Behaviour, dirs: set<string>, trusted: set<string>,
                                           paths: seq<string>, remember: bool, expand: string -> string)
    decreases |paths|
    ensures var run := Attempt(b, dirs, trusted, paths, remember, expand);
      |run.added| + |run.errors| == |paths| && forall e :: e in run.errors ==> e.AddFailed?
  {
    if paths != [] {
      var init, p := paths[..|paths| - 1], paths[|paths| - 1];
      var done := Attempt(b, dirs, trusted, init, remember, expand);
      var last := AttemptOne(b, done.directories, done.trustedFolders, p, remember, expand);
      AttemptOutcomes(b, dirs, trusted, init, remember, expand);
      assert |done.added| + |done.errors| == |init| && forall e :: e in done.errors ==> e.AddFailed?;
      AttemptOneAccounting(b, done.directories, done.trustedFolders, p, remember, expand);
    }
  }

  lemma AttemptOneMultiset(b: Behaviour, dirs: set<string>, trusted: set<string>, path: string,
                            remember: bool, expand: string -> string)
    ensures var one := AttemptOne(b, dirs, trusted, path, remember, expand);
      multiset(one.added) + multiset(FailedPaths(one.errors)) == multiset{path}
  {
    var one := AttemptOne(b, dirs, trusted, path, remember, expand);
    AttemptOneAccounting(b, dirs, trusted, path, remember, expand);
    if one.errors != [] {
      assert FailedPaths(one.errors) == [path];
    }
  }

  /**
   * Every path ends up either in `added` or in an `Error adding` entry, as often as it was
   * given: the two outcomes partition the input, multiplicities included.
   */
  lemma {:induction false} AttemptAccounting(b: Behaviour, dirs: set<string>, trusted: set<string>,
                                             paths: seq<string>, remember: bool, expand: string -> string)
    decreases |paths|
    ensures var run := Attempt(b, dirs, trusted, paths, remember, expand);
      multiset(run.added) + multiset(FailedPaths(run.errors)) == multiset(paths)
  {
    if paths != [] {
      var init, p := paths[..|paths| - 1], paths[|paths| - 1];
      var done := Attempt(b, dirs, trusted, init, remember, expand);
      var last := AttemptOne(b, done.directories, done.trustedFolders, p, remember, expand);
      AttemptAccounting(b, dirs, trusted, init, remember, expand);
      AttemptOneMultiset(b, done.directories, done.trustedFolders, p, remember, expand);
      AccountingStep(done.added, done.errors, last.added, last.errors, init, p);
      MultisetSnoc(paths);
    }
  }

  lemma AccountingStep(added: seq<string>, errors: seq<ErrorEntry>, added': seq<string>, errors': seq<ErrorEntry>,
                       init: seq<string>, p: string)
    requires multiset(added) + multiset(FailedPaths(errors)) == multiset(init)
    requires multiset(added') + multiset(FailedPaths(errors')) == multiset{p}
    ensures multiset(added + added') + multiset(FailedPaths(errors + errors')) == multiset(init) + multiset{p}
  {
    FailedPathsAppend(errors, errors');
  }

  /**
   * Without trust writes, the loop calls `addDirectory` once per path, in input order, on the
   * expanded path, and makes no other call; the trust store is untouched.
   */
  lemma {:induction false} AttemptCallsEveryPath(b: Behaviour, dirs: set<string>, trusted: set<string>,
                                                 paths: seq<string>, expand: string -> string)
    decreases |paths|
    ensures var run := Attempt(b, dirs, trusted, paths, false, expand);
      AddCalls(run.events) == MapSeq(paths, expand) && |run.events| == |paths|
  {
    if paths != [] {
      var init, p := paths[..|paths| - 1], paths[|paths| - 1];
      var done := Attempt(b, dirs, trusted, init, false, expand);
      var last := AttemptOne(b, done.directories, done.trustedFolders, p, false, expand);
      AttemptCallsEveryPath(b, dirs, trusted, init, expand);
      assert AddCalls(done.events) == MapSeq(init, expand) && |done.events| == |init|;
      AddCallsAppend(done.events, last.events);
      assert last.events == [AddDirectoryCall(expand(p))];
      assert AddCalls(last.events) == [expand(p)] by {
        assert last.events[1..] == [];
      }
      MapSeqSnoc(paths, expand);
    }
  }

  /**
   * With trust writes, every `addDirectory` call is immediately preceded by the
   * `setValue(…, TRUST_FOLDER)` call for the same path.
   */
  lemma {:induction false} AttemptTrustBeforeAdd(b: Behaviour, dirs: set<string>, trusted: set<string>,
                                                 paths: seq<string>, expand: string -> string)
    decreases |paths|
    ensures var events := Attempt(b, dirs, trusted, paths, true, expand).events;
      forall i :: 0 <= i < |events| && events[i].AddDirectoryCall? ==>
        0 < i && events[i - 1] == SetTrustCall(events[i].path)
  {
    if paths != [] {
      var init, p := paths[..|paths| - 1], paths[|paths| - 1];
      var done := Attempt(b, dirs, trusted, init, true, expand);
      var last := AttemptOne(b, done.directories, done.trustedFolders, p, true, expand);
      AttemptTrustBeforeAdd(b, dirs, trusted, init, expand);
      assert var ev := Attempt(b, dirs, trusted, init, true, expand).events;
        forall j :: 0 <= j < |ev| && ev[j].AddDirectoryCall? ==> 0 < j && ev[j - 1] == SetTrustCall(ev[j].path);
      var events := done.events + last.events;
      var n := |done.events|;
      forall i | 0 <= i < |events| && events[i].AddDirectoryCall?
        ensures 0 < i && events[i - 1] == SetTrustCall(events[i].path)
      {
        if i < n {
          assert events[i] == done.events[i];
          assert 0 < i && done.events[i - 1] == SetTrustCall(done.events[i].path);
          assert events[i - 1] == done.events[i - 1];
        } else {
          assert events[i] == last.events[i - n];
          assert i - n == 1 && last.events[0] == SetTrustCall(last.events[1].path);
          assert events[i - 1] == last.events[0];
        }
      }
    }
  }

  /**
   * The workspace and the trust store only grow; every added path's expansion is in the
   * workspace afterwards and, with trust writes, in the trust store too. Without trust writes
   * the store is unchanged.
   */
  lemma {:induction false} AttemptRecordsAdded(b: Behaviour, dirs: set<string>, trusted: set<string>,
                                               paths: seq<string>, remember: bool, expand: string -> string)
    decreases |paths|
    ensures var run := Attempt(b, dirs, trusted, paths, remember, expand);
      dirs <= run.directories && trusted <= run.trustedFolders
      && (!remember ==> run.trustedFolders == trusted)
      && forall p :: p in run.added ==> expand(p) in run.directories && (remember ==> expand(p) in run.trustedFolders)
  {
    if paths != [] {
      var init := paths[..|paths| - 1];
      AttemptRecordsAdded(b, dirs, trusted, init, remember, expand);
    }
  }

  /** When the workspace accepts every directory, a loop without trust writes adds them all, error-free. */
  lemma {:induction false} AttemptAllAccepted(b: Behaviour, dirs: set<string>, trusted: set<string>,
                                              paths: seq<string>, expand: string -> string)
    requires forall d, p :: b.addFailure(d, p) == None
    decreases |paths|
    ensures var run := Attempt(b, dirs, trusted, paths, false, expand);
      run.added == paths && run.errors == []
      && forall i :: 0 <= i < |paths| ==> expand(paths[i]) in run.directories
  {
    if paths != [] {
      var init := paths[..|paths| - 1];
      AttemptAllAccepted(b, dirs, trusted, init, expand);
      assert paths == init + [paths[|paths| - 1]];
      var run := Attempt(b, dirs, trusted, paths, false, expand);
      forall i | 0 <= i < |paths| ensures expand(paths[i]) in run.directories {
        if i < |paths| - 1 {
          assert paths[i] == init[i];
        }
      }
    }
  }

  /** One more path, with or without trust writes: the run so far followed by one attempt from where it left off. */
  lemma AttemptStep(b: Behaviour, dirs: set<string>, trusted: set<string>, paths: seq<string>, i: nat,
                    remember: bool, expand: string -> string)
    requires i < |paths|
    ensures var done := Attempt(b, dirs, trusted, paths[..i], remember, expand);
      var one := AttemptOne(b, done.directories, done.trustedFolders, paths[i], remember, expand);
      Attempt(b, dirs, trusted, paths[..i + 1], remember, expand)
        == Run(done.added + one.added, done.errors + one.errors, done.events + one.events,
               one.directories, one.trustedFolders)
  {
    assert paths[..i + 1][..i] == paths[..i];
  }

  /** The loop makes no call but `addDirectory` and, with trust writes only, `setValue`. */
  lemma {:induction false} AttemptEventKinds(b: Behaviour, dirs: set<string>, trusted: set<string>,
                                             paths: seq<string>, remember: bool, expand: string -> string)
    decreases |paths|
    ensures forall e :: e in Attempt(b, dirs, trusted, paths, remember, expand).events ==>
      e.AddDirectoryCall? || (remember && e.SetTrustCall?)
  {
    if paths != [] {
      AttemptEventKinds(b, dirs, trusted, paths[..|paths| - 1], remember, expand);
    }
  }

  /**
   * Which attempts of the loop succeed, in order: the one for a path succeeds when its trust
   * write (if any) and then `addDirectory` both return, against the workspace the earlier
   * attempts left.
   */
  function Succeeded(b: Behaviour, dirs: set<string>, trusted: set<string>, paths: seq<string>,
                     remember: bool, expand: string -> string): (ok: seq<bool>)
    ensures |ok| == |paths|
    decreases |paths|
  {
    if paths == [] then []
    else
      var init := paths[..|paths| - 1];
      var e := expand(paths[|paths| - 1]);
      var done := Attempt(b, dirs, trusted, init, remember, expand);
      Succeeded(b, dirs, trusted, init, remember, expand)
        + [(!remember || b.setValueFailure(e).None?) && b.addFailure(done.directories, e).None?]
  }

  /**
   * The added paths are the paths whose attempt succeeded and the `Error adding` entries name
   * the others, both in input order: each path is in exactly one of the two lists.
   */
  lemma {:induction false} AttemptInOrder(b: Behaviour, dirs: set<string>, trusted: set<string>,
                                          paths: seq<string>, remember: bool, expand: string -> string)
    decreases |paths|
    ensures var run := Attempt(b, dirs, trusted, paths, remember, expand);
      var ok := Succeeded(b, dirs, trusted, paths, remember, expand);
      run.added == Pick(paths, ok, true) && FailedPaths(run.errors) == Pick(paths, ok, false)
  {
    if paths != [] {
      var init, p := paths[..|paths| - 1], paths[|paths| - 1];
      var done := Attempt(b, dirs, trusted, init, remember, expand);
      var last := AttemptOne(b, done.directories, done.trustedFolders, p, remember, expand);
      var ok := Succeeded(b, dirs, trusted, paths, remember, expand);
      AttemptInOrder(b, dirs, trusted, init, remember, expand);
      assert ok[..|paths| - 1] == Succeeded(b, dirs, trusted, init, remember, expand);
      FailedPathsAppend(done.errors, last.errors);
      if ok[|paths| - 1] {
        assert last.errors == [];
      } else {
        assert FailedPaths(last.errors) == [p];
      }
    }
  }

  /** With trust writes, every path's expansion gets exactly one `setValue` call, in input order. */
  lemma {:induction false} AttemptTrustWrites(b: Behaviour, dirs: set<string>, trusted: set<string>,
                                              paths: seq<string>, expand: string -> string)
    decreases |paths|
    ensures TrustCalls(Attempt(b, dirs, trusted, paths, true, expand).events) == MapSeq(paths, expand)
  {
    if paths != [] {
      var init, p := paths[..|paths| - 1], paths[|paths| - 1];
      var done := Attempt(b, dirs, trusted, init, true, expand);
      var last := AttemptOne(b, done.directories, done.trustedFolders, p, true, expand);
      AttemptTrustWrites(b, dirs, trusted, init, expand);
      TrustCallsAppend(done.events, last.events);
      assert TrustCalls(last.events) == [expand(p)] by {
        assert last.events[0] == SetTrustCall(expand(p));
        assert TrustCalls(last.events[1..]) == [] by {
          NoTrustCalls(last.events[1..]);
        }
      }
      MapSeqSnoc(paths, expand);
    }
  }

  /** The trust-gated loop over `trustedDirs`, after the entries `errors0` collected so far. */
  method AddTrustedDirs(session: Session, trustedDirs: seq<string>, expand: string -> string, errors0: seq<ErrorEntry>)
    returns (added: seq<string>, errors: seq<ErrorEntry>)
    modifies session
    ensures var run := Attempt(session.behaviour, old(session.directories), old(session.trustedFolders), trustedDirs, false, expand);
      added == run.added && errors == errors0 + run.errors
      && session.events == old(session.events) + run.events
      && session.directories == run.directories && session.trustedFolders == run.trustedFolders
  {
    ghost var dirs0, trusted0, events0 := session.directories, session.trustedFolders, session.events;
    added, errors := [], errors0;
    for i := 0 to |trustedDirs|
      invariant var run := Attempt(session.behaviour, dirs0, trusted0, trustedDirs[..i], false, expand);
        added == run.added && errors == errors0 + run.errors
        && session.events == events0 + run.events
        && session.directories == run.directories && session.trustedFolders == run.trustedFolders
    {
      var pathToAdd := trustedDirs[i];
      ghost var done := Attempt(session.behaviour, dirs0, trusted0, trustedDirs[..i], false, expand);
      AttemptStep(session.behaviour, dirs0, trusted0, trustedDirs, i, false, expand);
      AppendAssoc(events0, done.events, [AddDirectoryCall(expand(pathToAdd))]);
      var failure := session.AddDirectory(expand(pathToAdd));
      match failure
      case None =>
        added := added + [pathToAdd];
      case Some(m) =>
        AppendAssoc(errors0, done.errors, [AddFailed(pathToAdd, m)]);
        errors := errors + [AddFailed(pathToAdd, m)];
    }
    assert trustedDirs[..|trustedDirs|] == trustedDirs;
  }

  /** The ungated loop over `pathsToProcess`, trimming each path again as the command does. */
  method AddAllDirs(session: Session, pathsToProcess: seq<string>, expand: string -> string)
    returns (added: seq<string>, errors: seq<ErrorEntry>)
    modifies session
    ensures var run := Attempt(session.behaviour, old(session.directories), old(session.trustedFolders),
                               MapSeq(pathsToProcess, Trim), false, expand);
      added == run.added && errors == run.errors
      && session.events == old(session.events) + run.events
      && session.directories == run.directories && session.trustedFolders == run.trustedFolders
  {
    ghost var dirs0, trusted0, events0 := session.directories, session.trustedFolders, session.events;
    ghost var trimmed := MapSeq(pathsToProcess, Trim);
    added, errors := [], [];
    for i := 0 to |pathsToProcess|
      invariant var run := Attempt(session.behaviour, dirs0, trusted0, trimmed[..i], false, expand);
        added == run.added && errors == run.errors
        && session.events == events0 + run.events
        && session.directories == run.directories && session.trustedFolders == run.trustedFolders
    {
      var trimmedPath := Trim(pathsToProcess[i]);
      assert trimmedPath == trimmed[i];
      ghost var done := Attempt(session.behaviour, dirs0, trusted0, trimmed[..i], false, expand);
      AttemptStep(session.behaviour, dirs0, trusted0, trimmed, i, false, expand);
      AppendAssoc(events0, done.events, [AddDirectoryCall(expand(trimmedPath))]);
      var failure := session.AddDirectory(expand(trimmedPath));
      match failure
      case None => added := added + [trimmedPath];
      case Some(m) => errors := errors + [AddFailed(trimmedPath, m)];
    }
    assert trimmed[..|pathsToProcess|] == trimmed;
  }

  // ------------------------------------------------------- finishing the batch

  /** What `finishAddingDirectories` does: the calls it makes, and the caller's `errors` afterwards. */
  datatype Finished = Finished(events: seq<Event>, errors: seq<ErrorEntry>)

  /**
   * The `try` block: the memory refresh when include directories feed memory, then the
   * GEMINI.md item (shown even for an empty `added`); a throw skips the item and appends one
   * `Error refreshing memory` entry.
   */
  function RefreshStage(c: Config, b: Behaviour, added: seq<string>, errors: seq<ErrorEntry>): Finished {
    if !c.loadMemoryFromIncludeDirectories then Finished([HistoryItem(Info, MemoryFilesAdded(added))], errors)
    else if b.refreshFailure.None? then Finished([MemoryRefresh, HistoryItem(Info, MemoryFilesAdded(added))], errors)
    else Finished([MemoryRefresh], errors + [RefreshFailed(b.refreshFailure.value)])
  }

  /** For a non-empty `added`: the directory context (when there is a model client), then the success item. */
  function AddedStage(c: Config, added: seq<string>): seq<Event> {
    if |added| == 0 then []
    else if c.hasGeminiClient then [DirectoryContext, HistoryItem(Info, DirectoriesAdded(added))]
    else [HistoryItem(Info, DirectoriesAdded(added))]
  }

  /** One error item joining all entries, when there are any. */
  function ErrorStage(errors: seq<ErrorEntry>): seq<Event> {
    if |errors| == 0 then [] else [HistoryItem(Error, ErrorList(errors))]
  }

  /** The whole of `finishAddingDirectories`; without a config, one error item and nothing else. */
  function Finish(config: Option<Config>, b: Behaviour, added: seq<string>, errors: seq<ErrorEntry>): Finished
  {
    if config.None? then Finished([HistoryItem(Error, ConfigUnavailable)], errors)
    else
      var r := RefreshStage(config.value, b, added, errors);
      Finished(r.events + AddedStage(config.value, added) + ErrorStage(r.errors), r.errors)
  }

  /** `finishAddingDirectories(config, addItem, added, errors)`; `errors` is pushed to, so the new array is returned. */
  method FinishAddingDirectories(session: Session, config: Option<Config>, added: seq<string>, errors: seq<ErrorEntry>)
    returns (errorsAfter: seq<ErrorEntry>)
    modifies session
    ensures var f := Finish(config, session.behaviour, added, errors);
      session.events == old(session.events) + f.events && errorsAfter == f.errors
    ensures session.directories == old(session.directories) && session.trustedFolders == old(session.trustedFolders)
  {
    errorsAfter := errors;
    if config.None? {
      session.AddItem(Error, ConfigUnavailable);
      return;
    }
    var c := config.value;
    var failure: Option<string> := None;
    if c.loadMemoryFromIncludeDirectories {
      failure := session.RefreshMemory();
    }
    if failure.None? {
      session.AddItem(Info, MemoryFilesAdded(added));
    } else {
      errorsAfter := errorsAfter + [RefreshFailed(failure.value)];
    }
    ghost var r := RefreshStage(c, session.behaviour, added, errors);
    assert session.events == old(session.events) + r.events && errorsAfter == r.errors;
    if |added| > 0 {
      if c.hasGeminiClient {
        session.AddDirectoryContext();
      }
      session.AddItem(Info, DirectoriesAdded(added));
    }
    ghost var middle := session.events;
    assert middle == old(session.events) + r.events + AddedStage(c, added);
    if |errorsAfter| > 0 {
      session.AddItem(Error, ErrorList(errorsAfter));
    }
    assert session.events == middle + ErrorStage(r.errors);
    AppendAssoc(old(session.events), r.events, AddedStage(c, added));
    AppendAssoc(old(session.events), r.events + AddedStage(c, added), ErrorStage(r.errors));
  }

  /** The success item appears exactly when there is a config and something was added. */
  lemma FinishReportsAdded(config: Option<Config>, b: Behaviour, added: seq<string>, errors: seq<ErrorEntry>)
    ensures HistoryItem(Info, DirectoriesAdded(added)) in Finish(config, b, added, errors).events
            <==> config.Some? && |added| > 0
  {
    if config.Some? {
      var r := RefreshStage(config.value, b, added, errors);
      var tail := AddedStage(config.value, added);
      assert Finish(config, b, added, errors).events == r.events + tail + ErrorStage(r.errors);
      if |added| > 0 {
        assert tail[|tail| - 1] == HistoryItem(Info, DirectoriesAdded(added));
      }
    }
  }

  /**
   * At most one error item is shown: the missing config, or all entries joined, and the latter
   * exactly when the final entry list is non-empty.
   */
  lemma FinishErrorItem(config: Option<Config>, b: Behaviour, added: seq<string>, errors: seq<ErrorEntry>)
    ensures var f := Finish(config, b, added, errors);
      ErrorNotices(f.events) == if config.None? then [ConfigUnavailable]
                                else if |f.errors| > 0 then [ErrorList(f.errors)] else []
  {
    if config.Some? {
      var r := RefreshStage(config.value, b, added, errors);
      var tail := AddedStage(config.value, added);
      var last := ErrorStage(r.errors);
      StagesShowNoError(config.value, b, added, errors);
      assert ErrorNotices(last) == if |r.errors| > 0 then [ErrorList(r.errors)] else [] by {
        if |r.errors| > 0 {
          assert last[1..] == [];
        }
      }
      ErrorNoticesAppend(r.events + tail, last);
      ErrorNoticesAppend(r.events, tail);
    }
  }

  /** The refresh and success stages show no error item. */
  lemma StagesShowNoError(c: Config, b: Behaviour, added: seq<string>, errors: seq<ErrorEntry>)
    ensures ErrorNotices(RefreshStage(c, b, added, errors).events) == []
    ensures ErrorNotices(AddedStage(c, added)) == []
  {
    NoErrorNotices(RefreshStage(c, b, added, errors).events);
    NoErrorNotices(AddedStage(c, added));
  }


  /**
   * The caller's entries are kept as a prefix; at most one entry is appended, an
   * `Error refreshing memory` one, and exactly when the refresh ran and threw.
   */
  lemma FinishKeepsErrors(config: Option<Config>, b: Behaviour, added: seq<string>, errors: seq<ErrorEntry>)
    ensures var f := Finish(config, b, added, errors);
      errors <= f.errors
      && (|f.errors| == |errors| + 1 <==> config.Some? && config.value.loadMemoryFromIncludeDirectories && b.refreshFailure.Some?)
      && (|f.errors| != |errors| + 1 ==> f.errors == errors)
      && (|f.errors| == |errors| + 1 ==> f.errors[|errors|] == RefreshFailed(b.refreshFailure.value))
  {
  }

  /** No event that changes the workspace, the trust store or the dialog. */
  predicate Quiet(events: seq<Event>) {
    forall e :: e in events ==> !e.AddDirectoryCall? && !e.SetTrustCall? && !e.Completed?
  }

  lemma QuietConcat(xs: seq<Event>, ys: seq<Event>, zs: seq<Event>)
    requires Quiet(xs) && Quiet(ys) && Quiet(zs)
    ensures Quiet(xs + ys + zs)
  {
  }

  /** Finishing never touches the workspace or the trust store, and does not take the dialog down. */
  lemma FinishAddsNothing(config: Option<Config>, b: Behaviour, added: seq<string>, errors: seq<ErrorEntry>)
    ensures var f := Finish(config, b, added, errors);
      AddCalls(f.events) == [] && forall e :: e in f.events ==> !e.SetTrustCall? && !e.Completed?
  {
    var f := Finish(config, b, added, errors);
    if config.Some? {
      var r := RefreshStage(config.value, b, added, errors);
      var tail := AddedStage(config.value, added);
      var last := ErrorStage(r.errors);
      assert Quiet(r.events);
      assert Quiet(tail);
      assert Quiet(last);
      QuietConcat(r.events, tail, last);
    }
    assert Quiet(f.events);
    NoAddCalls(f.events);
  }

  // --------------------------------------------------------------- the action

  /**
   * What one `/directory add` leaves behind: the action's return value, the `(added, errors)`
   * handed to `finishAddingDirectories` if it was called, every call made on the session, and
   * the workspace and trust store afterwards.
   */
  datatype Outcome = Outcome(result: ActionResult, report: Option<Report>, events: seq<Event>,
                             directories: set<string>, trustedFolders: set<string>)

  /**
   * After the trust check: the trusted bucket added after the entries collected so far, then
   * the dialog for the undecided paths, or the completion when there are none.
   */
  function Decide(config: Config, expand: string -> string, b: Behaviour, dirs: set<string>, trusted: set<string>,
                  errors0: seq<ErrorEntry>, trustedDirs: seq<string>, undefined: seq<string>): Outcome
  {
    var run := Attempt(b, dirs, trusted, trustedDirs, false, expand);
    var errors := errors0 + run.errors;
    if |undefined| > 0 then
      Outcome(CustomDialog(DialogProps(undefined, run.added, errors)), None, run.events,
              run.directories, run.trustedFolders)
    else
      Outcome(NoValue, Some(Report(run.added, errors)),
              run.events + Finish(Some(config), b, run.added, errors).events,
              run.directories, run.trustedFolders)
  }

  /** The entry listing the explicitly untrusted paths, when there are any. */
  function UntrustedEntries(untrusted: seq<string>): seq<ErrorEntry> {
    if |untrusted| > 0 then [ExplicitlyUntrusted(untrusted)] else []
  }

  /**
   * Gated by folder trust: the three buckets, one entry for the untrusted ones, the trusted
   * ones added, then the dialog for the undecided ones or the completion.
   */
  function GatedOutcome(config: Config, expand: string -> string, isPathTrusted: string -> Option<bool>,
                        b: Behaviour, dirs: set<string>, trusted: set<string>, toProcess: seq<string>): Outcome
  {
    var trust := TrustOf(isPathTrusted, expand);
    Decide(config, expand, b, dirs, trusted, UntrustedEntries(Keep(toProcess, trust, Untrusted)),
           Keep(toProcess, trust, Trusted), Keep(toProcess, trust, UndefinedTrust))
  }

  /** Not gated: every path added, then the completion. */
  function UngatedOutcome(config: Config, expand: string -> string, b: Behaviour,
                          dirs: set<string>, trusted: set<string>, toProcess: seq<string>): Outcome
  {
    var run := Attempt(b, dirs, trusted, toProcess, false, expand);
    Outcome(NoValue, Some(Report(run.added, run.errors)),
            run.events + Finish(Some(config), b, run.added, run.errors).events,
            run.directories, run.trustedFolders)
  }

  /** The action from the point where `pathsToProcess` is known and non-empty. */
  function ProcessOutcome(config: Config, settings: TrustSettings, expand: string -> string,
                          isPathTrusted: string -> Option<bool>, b: Behaviour,
                          dirs: set<string>, trusted: set<string>, toProcess: seq<string>): Outcome
  {
    if Gated(settings) then GatedOutcome(config, expand, isPathTrusted, b, dirs, trusted, toProcess)
    else UngatedOutcome(config, expand, b, dirs, trusted, toProcess)
  }

  /** The paths that reach the trust check or the add loop: trimmed candidates not yet in the workspace. */
  function ToProcess(args: string, dirs: set<string>, expand: string -> string): seq<string> {
    Keep(MapSeq(ParsePaths(args), Trim), InSnapshot(dirs, expand), false)
  }

  /** The paths reported as already present. */
  function AlreadyAdded(args: string, dirs: set<string>, expand: string -> string): seq<string> {
    Keep(MapSeq(ParsePaths(args), Trim), InSnapshot(dirs, expand), true)
  }

  /** The whole `add` action, with the early exits and the already-present notice. */
  function AddOutcome(args: string, config: Option<Config>, settings: TrustSettings, expand: string -> string,
                      isPathTrusted: string -> Option<bool>, b: Behaviour,
                      dirs: set<string>, trusted: set<string>): Outcome
  {
    if config.None? then Outcome(NoValue, None, [HistoryItem(Error, ConfigUnavailable)], dirs, trusted)
    else if config.value.restrictiveSandbox then Outcome(ErrorMessage(SandboxUnsupported), None, [], dirs, trusted)
    else if ParsePaths(args) == [] then Outcome(NoValue, None, [HistoryItem(Error, NoPaths)], dirs, trusted)
    else
      var alreadyAdded := AlreadyAdded(args, dirs, expand);
      var toProcess := ToProcess(args, dirs, expand);
      var notice := if |alreadyAdded| > 0 then [HistoryItem(Info, AlreadyInWorkspace(alreadyAdded))] else [];
      if toProcess == [] then Outcome(NoValue, None, notice, dirs, trusted)
      else
        var o := ProcessOutcome(config.value, settings, expand, isPathTrusted, b, dirs, trusted, toProcess);
        o.(events := notice + o.events)
  }

  /** Re-trimming already trimmed paths changes nothing. */
  lemma TrimmedSelection<L>(xs: seq<string>, tag: string -> L, want: L)
    ensures var sel := Keep(MapSeq(xs, Trim), tag, want);
      MapSeq(sel, Trim) == sel
  {
    var sel := Keep(MapSeq(xs, Trim), tag, want);
    forall i | 0 <= i < |sel| ensures Trim(sel[i]) == sel[i] {
      KeepMembers(MapSeq(xs, Trim), tag, want, sel[i]);
      var j :| 0 <= j < |xs| && MapSeq(xs, Trim)[j] == sel[i];
      TrimIdempotent(xs[j]);
    }
  }

  /**
   * The branch with per-folder trust (`directoryCommand.js`, lines 109-130): the trust check,
   * then the rest of the gated branch.
   */
  method AddGated(session: Session, config: Config, expand: string -> string,
                  isPathTrusted: string -> Option<bool>, pathsToProcess: seq<string>)
    returns (result: ActionResult, report: Option<Report>)
    requires MapSeq(pathsToProcess, Trim) == pathsToProcess
    modifies session
    ensures var o := GatedOutcome(config, expand, isPathTrusted, session.behaviour,
                                  old(session.directories), old(session.trustedFolders), pathsToProcess);
      result == o.result && report == o.report && session.events == old(session.events) + o.events
      && session.directories == o.directories && session.trustedFolders == o.trustedFolders
  {
    var errors: seq<ErrorEntry> := [];
    var untrustedDirs, undefinedTrustDirs, trustedDirs := ClassifyByTrust(pathsToProcess, isPathTrusted, expand);
    if |untrustedDirs| > 0 {
      errors := errors + [ExplicitlyUntrusted(untrustedDirs)];
    }
    assert errors == UntrustedEntries(untrustedDirs);
    result, report := AddTrustedAndDecide(session, config, expand, errors, trustedDirs, undefinedTrustDirs);
  }

  /**
   * After the trust check (`directoryCommand.js`, lines 131-146 and 160-161): the trusted
   * bucket added, then the dialog or the completion.
   */
  method AddTrustedAndDecide(session: Session, config: Config, expand: string -> string,
                             errors0: seq<ErrorEntry>, trustedDirs: seq<string>, undefinedTrustDirs: seq<string>)
    returns (result: ActionResult, report: Option<Report>)
    modifies session
    ensures var o := Decide(config, expand, session.behaviour, old(session.directories), old(session.trustedFolders),
                            errors0, trustedDirs, undefinedTrustDirs);
      result == o.result && report == o.report && session.events == old(session.events) + o.events
      && session.directories == o.directories && session.trustedFolders == o.trustedFolders
  {
    ghost var run := Attempt(session.behaviour, session.directories, session.trustedFolders, trustedDirs, false, expand);
    var added, errors := AddTrustedDirs(session, trustedDirs, expand, errors0);
    if |undefinedTrustDirs| > 0 {
      return CustomDialog(DialogProps(undefinedTrustDirs, added, errors)), None;
    }
    ghost var f := Finish(Some(config), session.behaviour, added, errors);
    var _ := FinishAddingDirectories(session, Some(config), added, errors);
    AppendAssoc(old(session.events), run.events, f.events);
    return NoValue, Some(Report(added, errors));
  }

  /** The branch without per-folder trust (`directoryCommand.js`, lines 148-161). */
  method AddUngated(session: Session, config: Config, expand: string -> string, pathsToProcess: seq<string>)
    returns (result: ActionResult, report: Option<Report>)
    requires MapSeq(pathsToProcess, Trim) == pathsToProcess
    modifies session
    ensures var o := UngatedOutcome(config, expand, session.behaviour,
                                    old(session.directories), old(session.trustedFolders), pathsToProcess);
      result == o.result && report == o.report && session.events == old(session.events) + o.events
      && session.directories == o.directories && session.trustedFolders == o.trustedFolders
  {
    ghost var run := Attempt(session.behaviour, session.directories, session.trustedFolders, pathsToProcess, false, expand);
    var added, errors := AddAllDirs(session, pathsToProcess, expand);
    var _ := FinishAddingDirectories(session, Some(config), added, errors);
    AppendAssoc(old(session.events), run.events, Finish(Some(config), session.behaviour, added, errors).events);
    return NoValue, Some(Report(added, errors));
  }

  /** `directoryCommand.subCommands[0].action(context, args)`. */
  method Add(session: Session, config: Option<Config>, settings: TrustSettings, expand: string -> string,
             isPathTrusted: string -> Option<bool>, args: string)
    returns (result: ActionResult, report: Option<Report>)
    modifies session
    ensures var o := AddOutcome(args, config, settings, expand, isPathTrusted, session.behaviour,
                                old(session.directories), old(session.trustedFolders));
      result == o.result && report == o.report && session.events == old(session.events) + o.events
      && session.directories == o.directories && session.trustedFolders == o.trustedFolders
  {
    var rest := Split(args, ' ');
    if config.None? {
      session.AddItem(Error, ConfigUnavailable);
      return NoValue, None;
    }
    if config.value.restrictiveSandbox {
      return ErrorMessage(SandboxUnsupported), None;
    }
    var pathsToAdd := Keep(Split(Join(rest, " "), ','), NonEmpty, true);
    if |pathsToAdd| == 0 {
      session.AddItem(Error, NoPaths);
      return NoValue, None;
    }
    assert pathsToAdd == ParsePaths(args);
    var currentWorkspaceDirs := session.directories;
    var alreadyAdded, pathsToProcess := SplitAgainstWorkspace(pathsToAdd, currentWorkspaceDirs, expand);
    assert alreadyAdded == AlreadyAdded(args, old(session.directories), expand);
    assert pathsToProcess == ToProcess(args, old(session.directories), expand);
    if |alreadyAdded| > 0 {
      session.AddItem(Info, AlreadyInWorkspace(alreadyAdded));
    }
    ghost var notice := session.events[|old(session.events)|..];
    assert session.events == old(session.events) + notice;
    if |pathsToProcess| == 0 {
      return NoValue, None;
    }
    TrimmedSelection(pathsToAdd, InSnapshot(currentWorkspaceDirs, expand), false);
    ghost var o := ProcessOutcome(config.value, settings, expand, isPathTrusted, session.behaviour,
                                  session.directories, session.trustedFolders, pathsToProcess);
    if Gated(settings) {
      result, report := AddGated(session, config.value, expand, isPathTrusted, pathsToProcess);
    } else {
      result, report := AddUngated(session, config.value, expand, pathsToProcess);
    }
    AppendAssoc(old(session.events), notice, o.events);
  }

  // ------------------------------------------------------ what the action promises

  /**
   * A missing config, a restrictive sandbox or an argument without candidates ends the action
   * with exactly one error (a history item, or the returned message for the sandbox), no
   * `addDirectory` call and no completion.
   */
  lemma AddEarlyExits(args: string, config: Option<Config>, settings: TrustSettings, expand: string -> string,
                      isPathTrusted: string -> Option<bool>, b: Behaviour, dirs: set<string>, trusted: set<string>)
    requires config.None? || config.value.restrictiveSandbox || ParsePaths(args) == []
    ensures var o := AddOutcome(args, config, settings, expand, isPathTrusted, b, dirs, trusted);
      o.report == None && AddCalls(o.events) == [] && o.directories == dirs && o.trustedFolders == trusted
      && |ErrorNotices(o.events)| + (if o.result.ErrorMessage? then 1 else 0) == 1
      && (o.result.ErrorMessage? <==> config.Some? && config.value.restrictiveSandbox)
  {
    var o := AddOutcome(args, config, settings, expand, isPathTrusted, b, dirs, trusted);
  }

  /** Which candidates count as already present: those whose expansion is in the snapshot. */
  lemma SnapshotMembership(args: string, dirs: set<string>, expand: string -> string, p: string)
    ensures p in AlreadyAdded(args, dirs, expand) <==> p in MapSeq(ParsePaths(args), Trim) && expand(p) in dirs
    ensures p in ToProcess(args, dirs, expand) <==> p in MapSeq(ParsePaths(args), Trim) && expand(p) !in dirs
  {
    KeepMembers(MapSeq(ParsePaths(args), Trim), InSnapshot(dirs, expand), true, p);
    KeepMembers(MapSeq(ParsePaths(args), Trim), InSnapshot(dirs, expand), false, p);
  }

  /**
   * When every candidate is already present, the action lists them all, in order, in one
   * info item and returns without adds, trust checks or a completion.
   */
  lemma AddAllPresent(args: string, config: Option<Config>, settings: TrustSettings, expand: string -> string,
                      isPathTrusted: string -> Option<bool>, b: Behaviour, dirs: set<string>, trusted: set<string>)
    requires config.Some? && !config.value.restrictiveSandbox && ParsePaths(args) != []
    requires forall p :: p in ParsePaths(args) ==> expand(Trim(p)) in dirs
    ensures var o := AddOutcome(args, config, settings, expand, isPathTrusted, b, dirs, trusted);
      o == Outcome(NoValue, None, [HistoryItem(Info, AlreadyInWorkspace(MapSeq(ParsePaths(args), Trim)))], dirs, trusted)
  {
    var trimmed := MapSeq(ParsePaths(args), Trim);
    forall i | 0 <= i < |trimmed| ensures InSnapshot(dirs, expand)(trimmed[i]) == true {
      assert ParsePaths(args)[i] in ParsePaths(args);
    }
    KeepAll(trimmed, InSnapshot(dirs, expand), true);
    KeepNone(trimmed, InSnapshot(dirs, expand), false);
  }

  /** The only `addDirectory` calls of a gated run are those of the trusted bucket, in order. */
  lemma GatedAddCalls(config: Config, expand: string -> string, isPathTrusted: string -> Option<bool>,
                      b: Behaviour, dirs: set<string>, trusted: set<string>, toProcess: seq<string>)
    ensures var o := GatedOutcome(config, expand, isPathTrusted, b, dirs, trusted, toProcess);
      AddCalls(o.events) == MapSeq(Keep(toProcess, TrustOf(isPathTrusted, expand), Trusted), expand)
  {
    var trust := TrustOf(isPathTrusted, expand);
    var untrusted := Keep(toProcess, trust, Untrusted);
    var run := Attempt(b, dirs, trusted, Keep(toProcess, trust, Trusted), false, expand);
    var errors := UntrustedEntries(untrusted) + run.errors;
    AttemptCallsEveryPath(b, dirs, trusted, Keep(toProcess, trust, Trusted), expand);
    FinishAddsNothing(Some(config), b, run.added, errors);
    AddCallsAppend(run.events, Finish(Some(config), b, run.added, errors).events);
  }

  /** Every path the trusted bucket hands to `addDirectory` answered `true` to the trust lookup. */
  lemma BucketImageTrusted(paths: seq<string>, isPathTrusted: string -> Option<bool>, expand: string -> string)
    ensures forall p :: p in MapSeq(Keep(paths, TrustOf(isPathTrusted, expand), Trusted), expand) ==>
      isPathTrusted(p) == Some(true)
  {
    var bucket := Keep(paths, TrustOf(isPathTrusted, expand), Trusted);
    forall p | p in MapSeq(bucket, expand) ensures isPathTrusted(p) == Some(true) {
      var i :| 0 <= i < |bucket| && MapSeq(bucket, expand)[i] == p;
      BucketMembership(paths, isPathTrusted, expand, bucket[i]);
    }
  }

  /**
   * With folder trust on and the workspace trusted, `addDirectory` is only ever called on a
   * path whose stored trust is `true`: untrusted and undecided paths are never added.
   */
  lemma GatedAddsOnlyTrusted(args: string, config: Option<Config>, settings: TrustSettings, expand: string -> string,
                             isPathTrusted: string -> Option<bool>, b: Behaviour, dirs: set<string>, trusted: set<string>)
    requires Gated(settings)
    ensures var o := AddOutcome(args, config, settings, expand, isPathTrusted, b, dirs, trusted);
      forall p :: p in AddCalls(o.events) ==> isPathTrusted(p) == Some(true)
  {
    var o := AddOutcome(args, config, settings, expand, isPathTrusted, b, dirs, trusted);
    if config.Some? && !config.value.restrictiveSandbox && ParsePaths(args) != [] && ToProcess(args, dirs, expand) != [] {
      var toProcess := ToProcess(args, dirs, expand);
      var trust := TrustOf(isPathTrusted, expand);
      var bucket := Keep(toProcess, trust, Trusted);
      var inner := GatedOutcome(config.value, expand, isPathTrusted, b, dirs, trusted, toProcess);
      GatedAddCalls(config.value, expand, isPathTrusted, b, dirs, trusted, toProcess);
      var alreadyAdded := AlreadyAdded(args, dirs, expand);
      var notice := if |alreadyAdded| > 0 then [HistoryItem(Info, AlreadyInWorkspace(alreadyAdded))] else [];
      AddCallsAppend(notice, inner.events);
      assert AddCalls(notice) == [];
      BucketImageTrusted(toProcess, isPathTrusted, expand);
    } else {
      assert AddCalls(o.events) == [] by {
        if config.None? || config.value.restrictiveSandbox || ParsePaths(args) == [] {
          AddEarlyExits(args, config, settings, expand, isPathTrusted, b, dirs, trusted);
        }
      }
    }
  }

  /** The `(added, errors)` a run hands on: to the dialog, or to `finishAddingDirectories`. */
  function Handed(o: Outcome): Report {
    if o.result.CustomDialog? then Report(o.result.props.trustedDirs, o.result.props.errors)
    else o.report.GetOr(Report([], []))
  }

  /**
   * After the trust check the action ends in exactly one of two ways: the dialog, carrying the
   * undecided paths, exactly when there are any, or the completion. Either way what is handed
   * on is the trusted paths that were added and the entries so far followed by the add errors.
   */
  lemma DecideDialogOrReport(config: Config, expand: string -> string, b: Behaviour, dirs: set<string>, trusted: set<string>,
                             errors0: seq<ErrorEntry>, trustedDirs: seq<string>, undefined: seq<string>)
    ensures var o := Decide(config, expand, b, dirs, trusted, errors0, trustedDirs, undefined);
      var run := Attempt(b, dirs, trusted, trustedDirs, false, expand);
      (o.result.CustomDialog? <==> |undefined| > 0)
      && (o.result.CustomDialog? ==> o.report == None && o.result.props.folders == undefined && o.events == run.events)
      && (!o.result.CustomDialog? ==> o.result == NoValue && o.report.Some?)
      && Handed(o) == Report(run.added, errors0 + run.errors)
  {
  }

  /** The entries of a run that starts with `head` are `head` followed by `Error adding` entries only. */
  lemma HandedErrors(head: seq<ErrorEntry>, runErrors: seq<ErrorEntry>)
    requires forall e :: e in runErrors ==> e.AddFailed?
    ensures forall i :: |head| <= i < |head + runErrors| ==> (head + runErrors)[i].AddFailed?
  {
    forall i | |head| <= i < |head + runErrors| ensures (head + runErrors)[i].AddFailed? {
      assert (head + runErrors)[i] == runErrors[i - |head|];
    }
  }

  /**
   * In a gated run the entries handed on start with one `explicitly untrusted` entry listing
   * the untrusted bucket (when it is non-empty) and are otherwise `Error adding` entries; with
   * the added paths they account for the trusted bucket exactly.
   */
  lemma DecideHanded(config: Config, expand: string -> string, b: Behaviour, dirs: set<string>, trusted: set<string>,
                     untrusted: seq<string>, bucket: seq<string>, undefined: seq<string>)
    ensures var handed := Handed(Decide(config, expand, b, dirs, trusted, UntrustedEntries(untrusted), bucket, undefined));
      var k := if |untrusted| > 0 then 1 else 0;
      k <= |handed.errors|
      && (k == 1 ==> handed.errors[0] == ExplicitlyUntrusted(untrusted))
      && (forall i :: k <= i < |handed.errors| ==> handed.errors[i].AddFailed?)
      && multiset(handed.added) + multiset(FailedPaths(handed.errors)) == multiset(bucket)
  {
    var run := Attempt(b, dirs, trusted, bucket, false, expand);
    var head := UntrustedEntries(untrusted);
    DecideDialogOrReport(config, expand, b, dirs, trusted, head, bucket, undefined);
    AttemptOutcomes(b, dirs, trusted, bucket, false, expand);
    AttemptAccounting(b, dirs, trusted, bucket, false, expand);
    FailedPathsAppend(head, run.errors);
    assert FailedPaths(head) == [];
    HandedErrors(head, run.errors);
  }

  /** `DecideHanded` for the buckets of a gated run. */
  lemma GatedHanded(config: Config, expand: string -> string, isPathTrusted: string -> Option<bool>,
                    b: Behaviour, dirs: set<string>, trusted: set<string>, toProcess: seq<string>)
    ensures var handed := Handed(GatedOutcome(config, expand, isPathTrusted, b, dirs, trusted, toProcess));
      var trust := TrustOf(isPathTrusted, expand);
      var untrusted := Keep(toProcess, trust, Untrusted);
      var k := if |untrusted| > 0 then 1 else 0;
      k <= |handed.errors|
      && (k == 1 ==> handed.errors[0] == ExplicitlyUntrusted(untrusted))
      && (forall i :: k <= i < |handed.errors| ==> handed.errors[i].AddFailed?)
      && multiset(handed.added) + multiset(FailedPaths(handed.errors)) == multiset(Keep(toProcess, trust, Trusted))
  {
    var trust := TrustOf(isPathTrusted, expand);
    DecideHanded(config, expand, b, dirs, trusted, Keep(toProcess, trust, Untrusted),
                 Keep(toProcess, trust, Trusted), Keep(toProcess, trust, UndefinedTrust));
  }

  /**
   * Without per-folder trust every path to process is attempted, in order, on its expansion,
   * the completion always follows, and the report accounts for every path: added, or named by
   * exactly one `Error adding` entry.
   */
  lemma UngatedAttemptsEveryPath(config: Config, expand: string -> string, b: Behaviour,
                                 dirs: set<string>, trusted: set<string>, toProcess: seq<string>)
    ensures var o := UngatedOutcome(config, expand, b, dirs, trusted, toProcess);
      o.result == NoValue && o.report.Some? && o.trustedFolders == trusted
      && AddCalls(o.events) == MapSeq(toProcess, expand)
      && multiset(o.report.value.added) + multiset(FailedPaths(o.report.value.errors)) == multiset(toProcess)
      && forall e :: e in o.report.value.errors ==> e.AddFailed?
  {
    var run := Attempt(b, dirs, trusted, toProcess, false, expand);
    AttemptCallsEveryPath(b, dirs, trusted, toProcess, expand);
    AttemptRecordsAdded(b, dirs, trusted, toProcess, false, expand);
    AttemptOutcomes(b, dirs, trusted, toProcess, false, expand);
    AttemptAccounting(b, dirs, trusted, toProcess, false, expand);
    FinishAddsNothing(Some(config), b, run.added, run.errors);
    AddCallsAppend(run.events, Finish(Some(config), b, run.added, run.errors).events);
  }
}
