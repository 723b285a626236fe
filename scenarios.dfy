/**
 * Concrete runs of the add workflow: the situations the project's own tests set up, worked
 * through the model.
 */
module Scenarios {
  import opened Wrappers
  import opened Sequences
  import opened Messages
  import opened Environment
  import opened AddDirectories

  /** Home-directory expansion that leaves these absolute paths alone. */
  function Identity(p: string): string { p }

  /** A workspace that accepts everything, a trust store that accepts every write, a refresh that succeeds. */
  const Accepting := Behaviour((dirs: set<string>, p: string) => None, (p: string) => None, None)

  /** `/trusted` is trusted, `/untrusted` explicitly untrusted, anything else undecided. */
  function Lookup(p: string): Option<bool> {
    if p == "/trusted" then Some(true) else if p == "/untrusted" then Some(false) else None
  }

  /**
   * With folder trust on, one trusted, one explicitly untrusted and one undecided path: the
   * trusted one is added, the untrusted one yields the explicitly-untrusted entry, and the
   * undecided one opens the dialog.
   */
  lemma MixedTrustOpensDialog(config: Config, t: string, u: string, d: string, isPathTrusted: string -> Option<bool>,
                              expand: string -> string, b: Behaviour, dirs: set<string>, trusted: set<string>)
    requires isPathTrusted(expand(t)) == Some(true) && isPathTrusted(expand(u)) == Some(false)
    requires isPathTrusted(expand(d)) == None
    requires b.addFailure(dirs, expand(t)) == None
    ensures var o := GatedOutcome(config, expand, isPathTrusted, b, dirs, trusted, [t, u, d]);
      o.result == CustomDialog(DialogProps([d], [t], [ExplicitlyUntrusted([u])]))
      && AddCalls(o.events) == [expand(t)]
      && o.directories == dirs + {expand(t)} && o.trustedFolders == trusted
  {
    var trust := TrustOf(isPathTrusted, expand);
    assert trust(t) == Trusted && trust(u) == Untrusted && trust(d) == UndefinedTrust;
    ThreeBuckets(t, u, d, trust);
    SingleAccepted(b, dirs, trusted, t, expand);
    var run := Attempt(b, dirs, trusted, [t], false, expand);
    assert AddCalls(run.events) == [expand(t)] by {
      assert run.events[1..] == [];
    }
    assert UntrustedEntries([u]) == [ExplicitlyUntrusted([u])];
    var o := Decide(config, expand, b, dirs, trusted, [ExplicitlyUntrusted([u])], [t], [d]);
    assert o.result == CustomDialog(DialogProps([d], [t], [ExplicitlyUntrusted([u])])) && o.events == run.events;
  }

  /** One path the workspace accepts: one `addDirectory` call, and the path added. */
  lemma SingleAccepted(b: Behaviour, dirs: set<string>, trusted: set<string>, t: string, expand: string -> string)
    requires b.addFailure(dirs, expand(t)) == None
    ensures Attempt(b, dirs, trusted, [t], false, expand)
      == Run([t], [], [AddDirectoryCall(expand(t))], dirs + {expand(t)}, trusted)
  {
    assert [t][..0] == [];
  }

  /** The same with the paths `/trusted`, `/untrusted` and `/undefined`. */
  lemma TestPathsOpenDialog(config: Config, dirs: set<string>, trusted: set<string>)
    ensures var o := GatedOutcome(config, Identity, Lookup, Accepting, dirs, trusted,
                                  ["/trusted", "/untrusted", "/undefined"]);
      o.result == CustomDialog(DialogProps(["/undefined"], ["/trusted"], [ExplicitlyUntrusted(["/untrusted"])]))
      && AddCalls(o.events) == ["/trusted"]
    ensures Bullets(["/untrusted"]) == "/untrusted"
  {
    assert "/untrusted" != "/trusted" && "/undefined" != "/trusted" && "/undefined" != "/untrusted" by {
      assert "/untrusted"[3] != "/trusted"[3] && "/undefined"[3] != "/trusted"[3] && "/undefined"[3] != "/untrusted"[3];
    }
    assert Identity("/trusted") == "/trusted" && Identity("/untrusted") == "/untrusted" && Identity("/undefined") == "/undefined";
    MixedTrustOpensDialog(config, "/trusted", "/untrusted", "/undefined", Lookup, Identity, Accepting, dirs, trusted);
  }

  /** Three paths, one per bucket, in the order trusted, untrusted, undecided. */
  lemma ThreeBuckets(t: string, u: string, d: string, trust: string -> TrustBucket)
    requires trust(t) == Trusted && trust(u) == Untrusted && trust(d) == UndefinedTrust
    ensures Keep([t, u, d], trust, Trusted) == [t]
    ensures Keep([t, u, d], trust, Untrusted) == [u]
    ensures Keep([t, u, d], trust, UndefinedTrust) == [d]
  {
    assert [t, u, d][..2] == [t, u] && [t, u][..1] == [t] && [t][..0] == [];
    assert Keep([t], trust, Trusted) == [t] && Keep([t], trust, Untrusted) == [] && Keep([t], trust, UndefinedTrust) == [];
    assert Keep([t, u], trust, Trusted) == [t] && Keep([t, u], trust, Untrusted) == [u]
      && Keep([t, u], trust, UndefinedTrust) == [];
  }

  /** Throws for `/dir2` with the message `Test error`, accepts everything else. */
  const RejectsDir2 := Behaviour((dirs: set<string>, p: string) => if p == "/dir2" then Some("Test error") else None,
                                 (p: string) => None, None)

  /**
   * With folder trust off: both paths are tried, `/dir1` is added, and `/dir2` is reported
   * as `Error adding '/dir2': Test error` in the one error item shown.
   */
  lemma FailureIsReported(dirs: set<string>, trusted: set<string>)
    ensures var config := Config(false, false, true);
      var o := UngatedOutcome(config, Identity, RejectsDir2, dirs, trusted, ["/dir1", "/dir2"]);
      AddCalls(o.events) == ["/dir1", "/dir2"]
      && o.report == Some(Report(["/dir1"], [AddFailed("/dir2", "Test error")]))
      && HistoryItem(Error, ErrorList([AddFailed("/dir2", "Test error")])) in o.events
  {
    var config := Config(false, false, true);
    var paths := ["/dir1", "/dir2"];
    assert "/dir1" != "/dir2" by {
      assert "/dir1"[4] != "/dir2"[4];
    }
    assert paths[..0] == [] && paths[..2] == paths;
    AttemptStep(RejectsDir2, dirs, trusted, paths, 0, false, Identity);
    AttemptStep(RejectsDir2, dirs, trusted, paths, 1, false, Identity);
    var run := Attempt(RejectsDir2, dirs, trusted, paths, false, Identity);
    assert run.added == ["/dir1"] && run.errors == [AddFailed("/dir2", "Test error")];
    AttemptCallsEveryPath(RejectsDir2, dirs, trusted, paths, Identity);
    assert MapSeq(paths, Identity) == paths;
    var f := Finish(Some(config), RejectsDir2, run.added, run.errors);
    FinishAddsNothing(Some(config), RejectsDir2, run.added, run.errors);
    AddCallsAppend(run.events, f.events);
    assert f.events[|f.events| - 1] == HistoryItem(Error, ErrorList(run.errors));
    assert (run.events + f.events)[|run.events| + |f.events| - 1] in run.events + f.events;
  }

  /** How that failure reads as an error entry. */
  lemma FailureText()
    ensures EntryText(AddFailed("/dir2", "Test error")) == "Error adding '/dir2': Test error"
  {
  }

  /** The error item holding only that entry reads the same: the item's whole text is the one entry. */
  lemma FailureItemText()
    ensures NoticeText(ErrorList([AddFailed("/dir2", "Test error")])) == "Error adding '/dir2': Test error"
  {
    FailureText();
  }
}
