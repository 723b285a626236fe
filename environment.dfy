/**
 * What the directory command and the trust dialog act on but do not own: the workspace
 * context, the trusted-folders store and the history list. Every call they make on it is
 * recorded, in order, in `events`.
 */
module Environment {
  import opened Wrappers
  import opened Sequences
  import opened Messages

  /** The parts of `config` the workflow consults. */
  datatype Config = Config(restrictiveSandbox: bool, loadMemoryFromIncludeDirectories: bool, hasGeminiClient: bool)

  /**
   * How the collaborators whose code is not part of this model answer: `None` means the call
   * returned normally, `Some(m)` that it threw an error whose message is `m`.
   */
  datatype Behaviour = Behaviour(
    addFailure: (set<string>, string) -> Option<string>,  // WorkspaceContext.addDirectory, given the current directories
    setValueFailure: string -> Option<string>,            // trustedFolders.setValue(path, TRUST_FOLDER)
    refreshFailure: Option<string>)                       // refreshServerHierarchicalMemory(config)

  datatype Event =
    | AddDirectoryCall(path: string)
    | SetTrustCall(path: string)
    | HistoryItem(kind: MessageType, notice: Notice)
    | MemoryRefresh
    | DirectoryContext
    | Completed

  /** Only the paths of the `addDirectory` calls, in order. */
  function AddCalls(events: seq<Event>): (r: seq<string>)
    ensures |r| <= |events|
    ensures forall p :: p in r ==> AddDirectoryCall(p) in events
  {
    if events == [] then []
    else (if events[0].AddDirectoryCall? then [events[0].path] else []) + AddCalls(events[1..])
  }

  lemma {:induction false} AddCallsAppend(xs: seq<Event>, ys: seq<Event>)
    ensures AddCalls(xs + ys) == AddCalls(xs) + AddCalls(ys)
  {
    if xs == [] {
      assert xs + ys == ys;
    } else {
      assert (xs + ys)[0] == xs[0] && (xs + ys)[1..] == xs[1..] + ys;
      AddCallsAppend(xs[1..], ys);
      AppendAssoc(if xs[0].AddDirectoryCall? then [xs[0].path] else [], AddCalls(xs[1..]), AddCalls(ys));
    }
  }

  /** There is no `addDirectory` path exactly when there is no `addDirectory` call. */
  lemma {:induction false} NoAddCalls(events: seq<Event>)
    ensures AddCalls(events) == [] <==> forall e :: e in events ==> !e.AddDirectoryCall?
  {
    if events != [] {
      assert events[0] in events;
      assert forall e :: e in events ==> e == events[0] || e in events[1..];
      assert forall e :: e in events[1..] ==> e in events;
      NoAddCalls(events[1..]);
    }
  }

  /** Only the paths of the `setValue(…, TRUST_FOLDER)` calls, in order. */
  function TrustCalls(events: seq<Event>): (r: seq<string>)
    ensures |r| <= |events|
    ensures forall p :: p in r ==> SetTrustCall(p) in events
  {
    if events == [] then []
    else (if events[0].SetTrustCall? then [events[0].path] else []) + TrustCalls(events[1..])
  }

  lemma {:induction false} TrustCallsAppend(xs: seq<Event>, ys: seq<Event>)
    ensures TrustCalls(xs + ys) == TrustCalls(xs) + TrustCalls(ys)
  {
    if xs == [] {
      assert xs + ys == ys;
    } else {
      assert (xs + ys)[0] == xs[0] && (xs + ys)[1..] == xs[1..] + ys;
      TrustCallsAppend(xs[1..], ys);
      AppendAssoc(if xs[0].SetTrustCall? then [xs[0].path] else [], TrustCalls(xs[1..]), TrustCalls(ys));
    }
  }

  lemma {:induction false} NoTrustCalls(events: seq<Event>)
    requires forall e :: e in events ==> !e.SetTrustCall?
    ensures TrustCalls(events) == []
  {
    if events != [] {
      assert events[0] in events;
      assert forall e :: e in events[1..] ==> e in events;
      NoTrustCalls(events[1..]);
    }
  }

  /** The notices shown as errors, in order. */
  function ErrorNotices(events: seq<Event>): (r: seq<Notice>)
    ensures |r| <= |events|
  {
    if events == [] then []
    else (if events[0].HistoryItem? && events[0].kind == Error then [events[0].notice] else []) + ErrorNotices(events[1..])
  }

  /** Events none of which is an error item show no error notice. */
  lemma {:induction false} NoErrorNotices(events: seq<Event>)
    requires forall e :: e in events ==> !(e.HistoryItem? && e.kind == Error)
    ensures ErrorNotices(events) == []
  {
    if events != [] {
      assert events[0] in events;
      assert forall e :: e in events[1..] ==> e in events;
      NoErrorNotices(events[1..]);
    }
  }

  lemma {:induction false} ErrorNoticesAppend(xs: seq<Event>, ys: seq<Event>)
    ensures ErrorNotices(xs + ys) == ErrorNotices(xs) + ErrorNotices(ys)
  {
    if xs == [] {
      assert xs + ys == ys;
    } else {
      assert (xs + ys)[0] == xs[0] && (xs + ys)[1..] == xs[1..] + ys;
      ErrorNoticesAppend(xs[1..], ys);
      AppendAssoc(if xs[0].HistoryItem? && xs[0].kind == Error then [xs[0].notice] else [],
                  ErrorNotices(xs[1..]), ErrorNotices(ys));
    }
  }

  class Session {
    var directories: set<string>    // the workspace directories
    var trustedFolders: set<string> // the paths recorded as TRUST_FOLDER
    var events: seq<Event>
    const behaviour: Behaviour

    constructor (directories: set<string>, trustedFolders: set<string>, behaviour: Behaviour)
      ensures this.directories == directories && this.trustedFolders == trustedFolders
      ensures this.behaviour == behaviour && events == []
    {
      this.directories := directories;
      this.trustedFolders := trustedFolders;
      this.behaviour := behaviour;
      events := [];
    }

    /** `workspaceContext.addDirectory(path)`: throws, or adds `path` to the workspace. */
    method AddDirectory(path: string) returns (failure: Option<string>)
      modifies this
      ensures failure == behaviour.addFailure(old(directories), path)
      ensures directories == if failure.None? then old(directories) + {path} else old(directories)
      ensures trustedFolders == old(trustedFolders)
      ensures events == old(events) + [AddDirectoryCall(path)]
    {
      failure := behaviour.addFailure(directories, path);
      if failure.None? {
        directories := directories + {path};
      }
      events := events + [AddDirectoryCall(path)];
    }

    /** `trustedFolders.setValue(path, TrustLevel.TRUST_FOLDER)`: throws, or records the trust. */
    method SetTrustFolder(path: string) returns (failure: Option<string>)
      modifies this
      ensures failure == behaviour.setValueFailure(path)
      ensures trustedFolders == if failure.None? then old(trustedFolders) + {path} else old(trustedFolders)
      ensures directories == old(directories)
      ensures events == old(events) + [SetTrustCall(path)]
    {
      failure := behaviour.setValueFailure(path);
      if failure.None? {
        trustedFolders := trustedFolders + {path};
      }
      events := events + [SetTrustCall(path)];
    }

    /** `addItem({type, text}, Date.now())`. */
    method AddItem(kind: MessageType, notice: Notice)
      modifies this
      ensures events == old(events) + [HistoryItem(kind, notice)]
      ensures directories == old(directories) && trustedFolders == old(trustedFolders)
    {
      events := events + [HistoryItem(kind, notice)];
    }

    /** `await refreshServerHierarchicalMemory(config)`. */
    method RefreshMemory() returns (failure: Option<string>)
      modifies this
      ensures failure == behaviour.refreshFailure
      ensures events == old(events) + [MemoryRefresh]
      ensures directories == old(directories) && trustedFolders == old(trustedFolders)
    {
      failure := behaviour.refreshFailure;
      events := events + [MemoryRefresh];
    }

    /** `await gemini.addDirectoryContext()`. */
    method AddDirectoryContext()
      modifies this
      ensures events == old(events) + [DirectoryContext]
      ensures directories == old(directories) && trustedFolders == old(trustedFolders)
    {
      events := events + [DirectoryContext];
    }

    /** `onComplete()` / `removeComponent()`: the dialog is taken down. */
    method Complete()
      modifies this
      ensures events == old(events) + [Completed]
      ensures directories == old(directories) && trustedFolders == old(trustedFolders)
    {
      events := events + [Completed];
    }
  }
}
