/**
 * The texts the directory-add workflow shows. Error entries and history notices are
 * kept structured, and `EntryText` / `NoticeText` render them exactly as the command does.
 */
module Messages {
  import JsStrings

  /** One element of the `errors` array built by the command and the trust dialog. */
  datatype ErrorEntry =
    | ExplicitlyUntrusted(paths: seq<string>)
    | AddFailed(path: string, message: string)
    | RefreshFailed(message: string)
    | NotTrusted(folders: seq<string>)
    | Cancelled(folders: seq<string>)

  /** The payload of one `addItem` call. */
  datatype Notice =
    | ConfigUnavailable
    | NoPaths
    | AlreadyInWorkspace(paths: seq<string>)
    | MemoryFilesAdded(paths: seq<string>)
    | DirectoriesAdded(paths: seq<string>)
    | ErrorList(entries: seq<ErrorEntry>)

  datatype MessageType = Info | Error

  const SandboxUnsupported: string :=
    "The /directory add command is not supported in restrictive sandbox profiles. Please use --include-directories when starting the session instead."

  /** `paths.join('\n- ')`. */
  function Bullets(paths: seq<string>): string {
    JsStrings.Join(paths, "\n- ")
  }

  // The fixed wording in front of each list of paths.
  const UntrustedHead := "The following directories are explicitly untrusted and cannot be added to a trusted workspace:\n- "
  const UntrustedTail := "\nPlease use the permissions command to modify their trust level."
  const NotTrustedHead := "The following directories were not added because they were not trusted:\n- "
  const CancelledHead := "Operation cancelled. The following directories were not added:\n- "
  const AlreadyHead := "The following directories are already in the workspace:\n- "
  const MemoryHead := "Successfully added GEMINI.md files from the following directories if there are:\n- "
  const AddedHead := "Successfully added directories:\n- "

  /** The line an error entry contributes to the error item: its kind's fixed wording, then its data. */
  function EntryText(e: ErrorEntry): (r: string)
    ensures e.ExplicitlyUntrusted? ==> UntrustedHead <= r
    ensures e.AddFailed? ==> "Error adding '" + e.path + "': " <= r && |e.message| <= |r| && r[|r| - |e.message|..] == e.message
    ensures e.RefreshFailed? ==> "Error refreshing memory: " <= r && |e.message| <= |r| && r[|r| - |e.message|..] == e.message
    ensures e.NotTrusted? ==> NotTrustedHead <= r
    ensures e.Cancelled? ==> CancelledHead <= r
  {
    match e
    case ExplicitlyUntrusted(ps) => UntrustedHead + Bullets(ps) + UntrustedTail
    case AddFailed(p, m) => "Error adding '" + p + "': " + m
    case RefreshFailed(m) => "Error refreshing memory: " + m
    case NotTrusted(fs) => NotTrustedHead + Bullets(fs)
    case Cancelled(fs) => CancelledHead + Bullets(fs)
  }

  /**
   * The text of one `addItem` call; an error list shows its entries one per line, so a list of
   * one entry shows just that entry.
   */
  function NoticeText(n: Notice): (r: string)
    ensures n.ConfigUnavailable? ==> r == "Configuration is not available."
    ensures n.NoPaths? ==> r == "Please provide at least one path to add."
    ensures n.AlreadyInWorkspace? ==> AlreadyHead <= r
    ensures n.MemoryFilesAdded? ==> MemoryHead <= r
    ensures n.DirectoriesAdded? ==> AddedHead <= r
    ensures n.ErrorList? && |n.entries| == 1 ==> r == EntryText(n.entries[0])
    ensures n.ErrorList? && n.entries == [] ==> r == ""
  {
    match n
    case ConfigUnavailable => "Configuration is not available."
    case NoPaths => "Please provide at least one path to add."
    case AlreadyInWorkspace(ps) => AlreadyHead + Bullets(ps)
    case MemoryFilesAdded(ps) => MemoryHead + Bullets(ps)
    case DirectoriesAdded(ps) => AddedHead + Bullets(ps)
    case ErrorList(es) =>
      var lines := seq(|es|, i requires 0 <= i < |es| => EntryText(es[i]));
      assert |es| == 1 ==> lines == [EntryText(es[0])];
      JsStrings.Join(lines, "\n")
  }

  /** One more entry in a non-empty error item goes on a line of its own, after the others. */
  lemma ErrorListSnoc(es: seq<ErrorEntry>, e: ErrorEntry)
    requires es != []
    ensures NoticeText(ErrorList(es + [e])) == NoticeText(ErrorList(es)) + "\n" + EntryText(e)
  {
    var lines := seq(|es|, i requires 0 <= i < |es| => EntryText(es[i]));
    var all := es + [e];
    assert seq(|all|, i requires 0 <= i < |all| => EntryText(all[i])) == lines + [EntryText(e)];
    JsStrings.JoinSnoc(lines, EntryText(e), "\n");
  }

  /** The paths named by the `Error adding` entries, in order. */
  function FailedPaths(errors: seq<ErrorEntry>): (r: seq<string>)
    ensures |r| <= |errors|
  {
    if errors == [] then []
    else (if errors[0].AddFailed? then [errors[0].path] else []) + FailedPaths(errors[1..])
  }
}
