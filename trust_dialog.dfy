/**
 * The multi-folder trust dialog: it asks whether the folders whose trust is undecided may
 * join the workspace, applies the answer, hands what came of the whole `/directory add` to
 * `finishAddingDirectories`, and takes itself down. A `submitted` flag makes it answer once.
 */
module TrustDialog {
  import opened Wrappers
  import opened Sequences
  import opened Messages
  import opened Environment
  import opened AddDirectories

  /** `MultiFolderTrustChoice`: the three options of the radio list, in display order. */
  datatype Choice = Yes | YesAndRemember | No

  /**
   * How the dialog closed: the `(added, errors)` handed to `finishAddingDirectories` (none
   * when it was not called), every call made on the session, and the workspace and trust
   * store afterwards.
   */
  datatype Closing = Closing(handed: Option<Report>, events: seq<Event>,
                             directories: set<string>, trustedFolders: set<string>)

  /** `handleSelect(choice)` from the given workspace and trust store. */
  function SelectOutcome(props: DialogProps, config: Option<Config>, b: Behaviour, expand: string -> string,
                         dirs: set<string>, trusted: set<string>, choice: Choice): Closing
  {
    if config.None? then
      Closing(None, [HistoryItem(Error, ConfigUnavailable), Completed], dirs, trusted)
    else if choice == No then
      var handed := Report(props.trustedDirs, props.errors + [NotTrusted(props.folders)]);
      Closing(Some(handed), Finish(config, b, handed.added, handed.errors).events + [Completed], dirs, trusted)
    else
      var run := Attempt(b, dirs, trusted, props.folders, choice == YesAndRemember, expand);
      var handed := Report(props.trustedDirs + run.added, props.errors + run.errors);
      Closing(Some(handed), run.events + Finish(config, b, handed.added, handed.errors).events + [Completed],
              run.directories, run.trustedFolders)
  }

  /** `handleCancel()`: it does not look at `config` before finishing. */
  function CancelOutcome(props: DialogProps, config: Option<Config>, b: Behaviour,
                         dirs: set<string>, trusted: set<string>): Closing
  {
    var handed := Report(props.trustedDirs, props.errors + [Cancelled(props.folders)]);
    Closing(Some(handed), Finish(config, b, handed.added, handed.errors).events + [Completed], dirs, trusted)
  }

  /** One pass of the `try` block in the loop over `folders`. */
  method TryAdd(session: Session, dir: string, remember: bool, expand: string -> string)
    returns (failure: Option<string>)
    modifies session
    ensures var one := AttemptOne(session.behaviour, old(session.directories), old(session.trustedFolders),
                                  dir, remember, expand);
      session.events == old(session.events) + one.events
      && session.directories == one.directories && session.trustedFolders == one.trustedFolders
      && (failure.None? ==> one.added == [dir] && one.errors == [])
      && (failure.Some? ==> one.added == [] && one.errors == [AddFailed(dir, failure.value)])
  {
    var expandedPath := expand(dir);
    failure := None;
    if remember {
      failure := session.SetTrustFolder(expandedPath);
    }
    if failure.None? {
      failure := session.AddDirectory(expandedPath);
    }
  }

  /** The loop over `folders`, appending to the `added` and `errors` copies it was given. */
  method AddFolders(session: Session, folders: seq<string>, remember: bool, expand: string -> string,
                    added0: seq<string>, errors0: seq<ErrorEntry>)
    returns (added: seq<string>, errors: seq<ErrorEntry>)
    modifies session
    ensures var run := Attempt(session.behaviour, old(session.directories), old(session.trustedFolders),
                               folders, remember, expand);
      added == added0 + run.added && errors == errors0 + run.errors
      && session.events == old(session.events) + run.events
      && session.directories == run.directories && session.trustedFolders == run.trustedFolders
  {
    ghost var dirs0, trusted0, events0 := session.directories, session.trustedFolders, session.events;
    added, errors := added0, errors0;
    for i := 0 to |folders|
      invariant var run := Attempt(session.behaviour, dirs0, trusted0, folders[..i], remember, expand);
        added == added0 + run.added && errors == errors0 + run.errors
        && session.events == events0 + run.events
        && session.directories == run.directories && session.trustedFolders == run.trustedFolders
    {
      var dir := folders[i];
      ghost var done := Attempt(session.behaviour, dirs0, trusted0, folders[..i], remember, expand);
      ghost var one := AttemptOne(session.behaviour, done.directories, done.trustedFolders, dir, remember, expand);
      AttemptStep(session.behaviour, dirs0, trusted0, folders, i, remember, expand);
      AppendAssoc(events0, done.events, one.events);
      var failure := TryAdd(session, dir, remember, expand);
      match failure
      case None =>
        AppendAssoc(added0, done.added, [dir]);
        added := added + [dir];
      case Some(m) =>
        AppendAssoc(errors0, done.errors, [AddFailed(dir, m)]);
        errors := errors + [AddFailed(dir, m)];
    }
    assert folders[..|folders|] == folders;
  }

  /** One key press or list selection reaching the dialog. */
  datatype Input = Escape | Select(choice: Choice)

  class MultiFolderTrustDialog {
    const props: DialogProps
    const config: Option<Config>
    const expand: string -> string   // expandHomeDir
    const session: Session
    var submitted: bool

    constructor (props: DialogProps, config: Option<Config>, expand: string -> string, session: Session)
      ensures this.props == props && this.config == config && this.expand == expand && this.session == session
      ensures !submitted
    {
      this.props := props;
      this.config := config;
      this.expand := expand;
      this.session := session;
      submitted := false;
    }

    /** The escape listener is active, and the radio list focused, until an answer is submitted. */
    predicate Listening()
      reads this
    {
      !submitted
    }

    /** `handleCancel`: the folders are reported as not added, and the dialog closes. */
    method HandleCancel()
      modifies this, session
      ensures submitted
      ensures var c := CancelOutcome(props, config, session.behaviour, old(session.directories), old(session.trustedFolders));
        session.events == old(session.events) + c.events
        && session.directories == c.directories && session.trustedFolders == c.trustedFolders
    {
      submitted := true;
      var errors := props.errors + [Cancelled(props.folders)];
      ghost var before := session.events;
      ghost var f := Finish(config, session.behaviour, props.trustedDirs, errors);
      var _ := FinishAddingDirectories(session, config, props.trustedDirs, errors);
      session.Complete();
      AppendAssoc(before, f.events, [Completed]);
    }

    /** `handleSelect(choice)`: the answer is applied, then the dialog closes. */
    method HandleSelect(choice: Choice)
      modifies this, session
      ensures submitted
      ensures var c := SelectOutcome(props, config, session.behaviour, expand,
                                     old(session.directories), old(session.trustedFolders), choice);
        session.events == old(session.events) + c.events
        && session.directories == c.directories && session.trustedFolders == c.trustedFolders
    {
      submitted := true;
      if config.None? {
        session.AddItem(Error, ConfigUnavailable);
        session.Complete();
        return;
      }
      ghost var before := session.events;
      ghost var run := Attempt(session.behaviour, session.directories, session.trustedFolders, props.folders,
                               choice == YesAndRemember, expand);
      var errors := props.errors;
      var added := props.trustedDirs;
      if choice == No {
        errors := errors + [NotTrusted(props.folders)];
      } else {
        added, errors := AddFolders(session, props.folders, choice == YesAndRemember, expand, added, errors);
      }
      ghost var middle := session.events;
      ghost var f := Finish(config, session.behaviour, added, errors);
      var _ := FinishAddingDirectories(session, config, added, errors);
      session.Complete();
      if choice == No {
        AppendAssoc(before, f.events, [Completed]);
      } else {
        assert middle == before + run.events;
        AppendAssoc(before, run.events, f.events);
        AppendAssoc(before, run.events + f.events, [Completed]);
      }
    }

    /** The escape key: `handleCancel`, while the listener is active. */
    method PressEscape()
      modifies this, session
      ensures old(submitted) ==> submitted && unchanged(session)
      ensures !old(submitted) ==>
        submitted
        && var c := CancelOutcome(props, config, session.behaviour, old(session.directories), old(session.trustedFolders));
          session.events == old(session.events) + c.events
          && session.directories == c.directories && session.trustedFolders == c.trustedFolders
    {
      if Listening() {
        HandleCancel();
      }
    }

    /** A selection in the radio list: `handleSelect`, while the list is focused. */
    method Choose(choice: Choice)
      modifies this, session
      ensures old(submitted) ==> submitted && unchanged(session)
      ensures !old(submitted) ==>
        submitted
        && var c := SelectOutcome(props, config, session.behaviour, expand,
                                  old(session.directories), old(session.trustedFolders), choice);
          session.events == old(session.events) + c.events
          && session.directories == c.directories && session.trustedFolders == c.trustedFolders
    {
      if Listening() {
        HandleSelect(choice);
      }
    }

    /**
     * Any sequence of inputs on a fresh dialog: only the first is acted on, so the dialog
     * closes exactly once whatever the user keeps pressing.
     */
    method Drive(inputs: seq<Input>)
      requires !submitted
      modifies this, session
      ensures inputs == [] ==>
        !submitted && session.events == old(session.events)
        && session.directories == old(session.directories) && session.trustedFolders == old(session.trustedFolders)
      ensures inputs != [] ==>
        submitted
        && var c := Respond(inputs[0], old(session.directories), old(session.trustedFolders));
          session.events == old(session.events) + c.events
          && session.directories == c.directories && session.trustedFolders == c.trustedFolders
    {
      ghost var dirs0, trusted0, events0 := session.directories, session.trustedFolders, session.events;
      for i := 0 to |inputs|
        invariant i == 0 ==>
          !submitted && session.events == events0 && session.directories == dirs0 && session.trustedFolders == trusted0
        invariant i > 0 ==>
          submitted
          && var c := Respond(inputs[0], dirs0, trusted0);
            session.events == events0 + c.events
            && session.directories == c.directories && session.trustedFolders == c.trustedFolders
      {
        match inputs[i]
        case Escape => PressEscape();
        case Select(choice) => Choose(choice);
      }
    }

    /** What the first input does to a fresh dialog. */
    function Respond(input: Input, dirs: set<string>, trusted: set<string>): Closing
      reads this, session
    {
      match input
      case Escape => CancelOutcome(props, config, session.behaviour, dirs, trusted)
      case Select(choice) => SelectOutcome(props, config, session.behaviour, expand, dirs, trusted, choice)
    }
  }

  // ------------------------------------------------------------------ properties

  /** The dialog's last call is `onComplete`, and it is made once. */
  predicate ClosesOnce(events: seq<Event>) {
    |events| > 0 && events[|events| - 1] == Completed && Completed !in events[..|events| - 1]
  }

  /**
   * A selection made without a config shows one error item and closes: nothing is added,
   * no trust is written, nothing is handed to `finishAddingDirectories`.
   */
  lemma SelectWithoutConfig(props: DialogProps, b: Behaviour, expand: string -> string,
                            dirs: set<string>, trusted: set<string>, choice: Choice)
    ensures var c := SelectOutcome(props, None, b, expand, dirs, trusted, choice);
      c == Closing(None, [HistoryItem(Error, ConfigUnavailable), Completed], dirs, trusted)
      && AddCalls(c.events) == [] && TrustCalls(c.events) == []
  {
    var c := SelectOutcome(props, None, b, expand, dirs, trusted, choice);
    NoAddCalls(c.events);
    NoTrustCalls(c.events);
  }

  /** Whatever is chosen, the dialog closes exactly once, as its last act. */
  lemma SelectClosesOnce(props: DialogProps, config: Option<Config>, b: Behaviour, expand: string -> string,
                         dirs: set<string>, trusted: set<string>, choice: Choice)
    ensures ClosesOnce(SelectOutcome(props, config, b, expand, dirs, trusted, choice).events)
  {
    var c := SelectOutcome(props, config, b, expand, dirs, trusted, choice);
    if config.None? {
      assert c.events[..|c.events| - 1] == [HistoryItem(Error, ConfigUnavailable)];
    } else if choice == No {
      var handed := c.handed.value;
      var f := Finish(config, b, handed.added, handed.errors);
      FinishAddsNothing(config, b, handed.added, handed.errors);
      assert c.events[..|c.events| - 1] == f.events;
    } else {
      var handed := c.handed.value;
      var run := Attempt(b, dirs, trusted, props.folders, choice == YesAndRemember, expand);
      var f := Finish(config, b, handed.added, handed.errors);
      FinishAddsNothing(config, b, handed.added, handed.errors);
      AttemptEventKinds(b, dirs, trusted, props.folders, choice == YesAndRemember, expand);
      assert c.events[..|c.events| - 1] == run.events + f.events;
    }
  }

  /** Cancelling closes the dialog exactly once, as its last act. */
  lemma CancelClosesOnce(props: DialogProps, config: Option<Config>, b: Behaviour, dirs: set<string>, trusted: set<string>)
    ensures ClosesOnce(CancelOutcome(props, config, b, dirs, trusted).events)
  {
    var c := CancelOutcome(props, config, b, dirs, trusted);
    var handed := c.handed.value;
    var f := Finish(config, b, handed.added, handed.errors);
    FinishAddsNothing(config, b, handed.added, handed.errors);
    assert c.events[..|c.events| - 1] == f.events;
  }

  /**
   * Answering No adds nothing and trusts nothing: the earlier additions and entries are
   * handed on with one more entry naming the folders as not trusted.
   */
  lemma SelectNoAddsNothing(props: DialogProps, config: Option<Config>, b: Behaviour, expand: string -> string,
                            dirs: set<string>, trusted: set<string>)
    ensures var c := SelectOutcome(props, config, b, expand, dirs, trusted, No);
      c.directories == dirs && c.trustedFolders == trusted
      && AddCalls(c.events) == [] && (forall e :: e in c.events ==> !e.SetTrustCall?)
      && c.handed == if config.None? then None
                     else Some(Report(props.trustedDirs, props.errors + [NotTrusted(props.folders)]))
  {
    var c := SelectOutcome(props, config, b, expand, dirs, trusted, No);
    if config.Some? {
      var handed := c.handed.value;
      var f := Finish(config, b, handed.added, handed.errors);
      FinishAddsNothing(config, b, handed.added, handed.errors);
      CompletionAddsNothing(f.events);
    } else {
      NoAddCalls(c.events);
    }
  }

  /**
   * Cancelling adds nothing and trusts nothing: the earlier additions and entries are handed
   * on with one more entry naming the folders as not added, even without a configuration.
   */
  lemma CancelAddsNothing(props: DialogProps, config: Option<Config>, b: Behaviour, dirs: set<string>, trusted: set<string>)
    ensures var c := CancelOutcome(props, config, b, dirs, trusted);
      c.directories == dirs && c.trustedFolders == trusted
      && AddCalls(c.events) == [] && (forall e :: e in c.events ==> !e.SetTrustCall?)
      && c.handed == Some(Report(props.trustedDirs, props.errors + [Cancelled(props.folders)]))
  {
    var c := CancelOutcome(props, config, b, dirs, trusted);
    var handed := c.handed.value;
    var f := Finish(config, b, handed.added, handed.errors);
    FinishAddsNothing(config, b, handed.added, handed.errors);
    CompletionAddsNothing(f.events);
  }

  /** Closing the dialog after events without `addDirectory` calls adds none. */
  lemma CompletionAddsNothing(events: seq<Event>)
    requires AddCalls(events) == []
    ensures AddCalls(events + [Completed]) == []
  {
    AddCallsAppend(events, [Completed]);
    assert AddCalls([Completed]) == [];
  }

  /**
   * Yes adds every folder the workspace accepts, calling `addDirectory` once per folder in
   * order on its expansion, and never writes to the trust store.
   */
  lemma SelectYesLeavesTrust(props: DialogProps, config: Option<Config>, b: Behaviour, expand: string -> string,
                             dirs: set<string>, trusted: set<string>)
    ensures var c := SelectOutcome(props, config, b, expand, dirs, trusted, Yes);
      c.trustedFolders == trusted && (forall e :: e in c.events ==> !e.SetTrustCall?)
      && (config.Some? ==> AddCalls(c.events) == MapSeq(props.folders, expand))
  {
    var c := SelectOutcome(props, config, b, expand, dirs, trusted, Yes);
    if config.Some? {
      var handed := c.handed.value;
      var run := Attempt(b, dirs, trusted, props.folders, false, expand);
      var f := Finish(config, b, handed.added, handed.errors);
      AttemptRecordsAdded(b, dirs, trusted, props.folders, false, expand);
      AttemptEventKinds(b, dirs, trusted, props.folders, false, expand);
      AttemptCallsEveryPath(b, dirs, trusted, props.folders, expand);
      FinishAddsNothing(config, b, handed.added, handed.errors);
      AddCallsAppend(run.events + f.events, [Completed]);
      AddCallsAppend(run.events, f.events);
      assert AddCalls([Completed]) == [];
    }
  }

  /** Every `addDirectory` call comes right after the `setValue` call for the same path. */
  predicate TrustPrecedesAdds(events: seq<Event>) {
    forall i :: 0 <= i < |events| && events[i].AddDirectoryCall? ==>
      0 < i && events[i - 1] == SetTrustCall(events[i].path)
  }

  lemma TrustPrecedesAddsAppend(xs: seq<Event>, ys: seq<Event>)
    requires TrustPrecedesAdds(xs) && forall e :: e in ys ==> !e.AddDirectoryCall?
    ensures TrustPrecedesAdds(xs + ys)
  {
  }

  /** Yes, and remember writes each folder's trust immediately before adding it. */
  lemma SelectRememberTrustsFirst(props: DialogProps, config: Option<Config>, b: Behaviour, expand: string -> string,
                                  dirs: set<string>, trusted: set<string>)
    ensures TrustPrecedesAdds(SelectOutcome(props, config, b, expand, dirs, trusted, YesAndRemember).events)
  {
    var c := SelectOutcome(props, config, b, expand, dirs, trusted, YesAndRemember);
    if config.Some? {
      var handed := c.handed.value;
      var run := Attempt(b, dirs, trusted, props.folders, true, expand);
      var f := Finish(config, b, handed.added, handed.errors);
      AttemptTrustBeforeAdd(b, dirs, trusted, props.folders, expand);
      assert var ev := Attempt(b, dirs, trusted, props.folders, true, expand).events;
        forall j :: 0 <= j < |ev| && ev[j].AddDirectoryCall? ==> 0 < j && ev[j - 1] == SetTrustCall(ev[j].path);
      assert TrustPrecedesAdds(run.events);
      FinishAddsNothing(config, b, handed.added, handed.errors);
      NoAddCalls(f.events);
      TrustPrecedesAddsAppend(run.events, f.events + [Completed]);
      AppendAssoc(run.events, f.events, [Completed]);
    }
  }

  /** With Yes, and remember, every folder that was added is in the workspace and recorded as trusted. */
  lemma SelectRememberRecordsTrust(props: DialogProps, config: Option<Config>, b: Behaviour, expand: string -> string,
                                   dirs: set<string>, trusted: set<string>)
    ensures var c := SelectOutcome(props, config, b, expand, dirs, trusted, YesAndRemember);
      dirs <= c.directories && trusted <= c.trustedFolders
      && (c.handed.Some? ==> forall i :: |props.trustedDirs| <= i < |c.handed.value.added| ==>
            expand(c.handed.value.added[i]) in c.trustedFolders && expand(c.handed.value.added[i]) in c.directories)
  {
    var c := SelectOutcome(props, config, b, expand, dirs, trusted, YesAndRemember);
    if config.Some? {
      var handed := c.handed.value;
      var run := Attempt(b, dirs, trusted, props.folders, true, expand);
      AttemptRecordsAdded(b, dirs, trusted, props.folders, true, expand);
      forall i | |props.trustedDirs| <= i < |handed.added|
        ensures expand(handed.added[i]) in c.trustedFolders && expand(handed.added[i]) in c.directories
      {
        assert handed.added[i] == run.added[i - |props.trustedDirs|];
      }
    }
  }

  /**
   * After either Yes, what is handed on extends what the command handed in: every folder
   * ends up either among the added paths or in an `Error adding` entry, as often as it was
   * listed, and no other kind of entry is appended.
   */
  lemma SelectYesAccountsForFolders(props: DialogProps, config: Option<Config>, b: Behaviour, expand: string -> string,
                                    dirs: set<string>, trusted: set<string>, choice: Choice)
    requires config.Some? && choice != No
    ensures var c := SelectOutcome(props, config, b, expand, dirs, trusted, choice);
      c.handed.Some?
      && var h := c.handed.value;
      props.trustedDirs <= h.added && props.errors <= h.errors
      && multiset(h.added[|props.trustedDirs|..]) + multiset(FailedPaths(h.errors[|props.errors|..])) == multiset(props.folders)
      && forall e :: e in h.errors[|props.errors|..] ==> e.AddFailed?
    ensures var c := SelectOutcome(props, config, b, expand, dirs, trusted, choice);
      var ok := Succeeded(b, dirs, trusted, props.folders, choice == YesAndRemember, expand);
      c.handed.Some?
      && c.handed.value.added == props.trustedDirs + Pick(props.folders, ok, true)
      && FailedPaths(c.handed.value.errors) == FailedPaths(props.errors) + Pick(props.folders, ok, false)
  {
    var c := SelectOutcome(props, config, b, expand, dirs, trusted, choice);
    var h := c.handed.value;
    var remember := choice == YesAndRemember;
    var run := Attempt(b, dirs, trusted, props.folders, remember, expand);
    assert h.added[|props.trustedDirs|..] == run.added;
    assert h.errors[|props.errors|..] == run.errors;
    AttemptAccounting(b, dirs, trusted, props.folders, remember, expand);
    AttemptOutcomes(b, dirs, trusted, props.folders, remember, expand);
    AttemptInOrder(b, dirs, trusted, props.folders, remember, expand);
    FailedPathsAppend(props.errors, run.errors);
  }

  /**
   * With Yes, and remember, every folder's trust is written once, in the order the folders are
   * listed; without a config nothing is written.
   */
  lemma SelectRememberWritesEveryFolder(props: DialogProps, config: Option<Config>, b: Behaviour,
                                        expand: string -> string, dirs: set<string>, trusted: set<string>)
    ensures TrustCalls(SelectOutcome(props, config, b, expand, dirs, trusted, YesAndRemember).events)
      == if config.None? then [] else MapSeq(props.folders, expand)
  {
    var c := SelectOutcome(props, config, b, expand, dirs, trusted, YesAndRemember);
    if config.None? {
      NoTrustCalls(c.events);
      return;
    }
    var handed := c.handed.value;
    var run := Attempt(b, dirs, trusted, props.folders, true, expand);
    var f := Finish(config, b, handed.added, handed.errors);
    AttemptTrustWrites(b, dirs, trusted, props.folders, expand);
    FinishAddsNothing(config, b, handed.added, handed.errors);
    NoTrustCalls(f.events + [Completed]);
    TrustCallsAppend(run.events, f.events + [Completed]);
    AppendAssoc(run.events, f.events, [Completed]);
  }
}
