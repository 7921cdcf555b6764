/**
  The error that `_copytree` raises and the lines it logs: what the message
  names, when it carries the symlink hint, and when the Windows privilege
  line is logged.
*/
module DeployMessages {
  import opened Wrappers
  import opened FileTree
  import opened MergedDeploy
  import opened DeployRecords

  predicate EndsWith(s: string, suffix: string)
  {
    |suffix| <= |s| && s[|s| - |suffix|..] == suffix
  }

  /** The fixed head of every copy error for `ref`. */
  function ErrorHead(ref: Ref): string
  {
    Scope + ": Copying of '" + ref.display + "' files failed: "
  }

  lemma {:induction false} ContainsInfix(pre: string, pattern: string, post: string)
    ensures Contains(pre + pattern + post, pattern)
    decreases |pre|
  {
    if pre == [] {
      assert pre + pattern + post == pattern + post;
    } else {
      ContainsInfix(pre[1..], pattern, post);
      assert (pre + pattern + post)[1..] == pre[1..] + pattern + post;
    }
  }

  lemma HintAtEnd(body: string, symlinks: bool)
    ensures EndsWith(if symlinks then body + "." + SymlinkHint else body + ".", SymlinkHint) <==> symlinks
  {
    if !symlinks {
      var msg := body + ".";
      assert msg[|msg| - 1] == '.';
      assert SymlinkHint[|SymlinkHint| - 1] == 's';
    }
  }

  /** The error names the scope and the dependency, carries the cause's
      text, and ends with the symlink hint exactly when symlinks are on. */
  lemma CopyErrorContents(ref: Ref, cause: Cause, symlinks: bool)
    ensures ErrorHead(ref) <= CopyErrorMessage(ref, cause, symlinks)
    ensures Contains(CopyErrorMessage(ref, cause, symlinks), CauseText(cause))
    ensures EndsWith(CopyErrorMessage(ref, cause, symlinks), SymlinkHint) <==> symlinks
  {
    var head := ErrorHead(ref);
    var tail := if symlinks then "." + SymlinkHint else ".";
    SeqAssoc3(head + CauseText(cause), ".", SymlinkHint);
    SeqAssoc3(head, CauseText(cause), tail);
    assert CopyErrorMessage(ref, cause, symlinks) == head + CauseText(cause) + tail;
    ContainsInfix(head, CauseText(cause), tail);
    HintAtEnd(head + CauseText(cause), symlinks);
  }

  /** With the conf unset the hint is there; only an explicit `False`
      leaves it out. */
  lemma HintFollowsConf(ref: Ref, cause: Cause, conf: Option<bool>)
    ensures EndsWith(CopyErrorMessage(ref, cause, SymlinksSetting(conf)), SymlinkHint) <==> conf != Some(false)
  {
    CopyErrorContents(ref, cause, SymlinksSetting(conf));
  }

  /** The message of an aborted deployment is the error for one
      dependency that has a package folder, with the hint exactly when the
      conf does not turn symlinks off. */
  lemma AbortMessage(g: Graph, env: Env, folders: map<DepId, string>, log: seq<LogLine>)
    requires DeployResult(g, env, folders, log).outcome.Aborted?
    ensures exists c: Context, j: nat ::
      j < |DepsOf(g, c)| && DepsOf(g, c)[j].package.Some?
      && ErrorHead(DepsOf(g, c)[j].ref) <= DeployResult(g, env, folders, log).outcome.message
    ensures EndsWith(DeployResult(g, env, folders, log).outcome.message, SymlinkHint) <==> env.symlinksConf != Some(false)
  {
    AbortedRecords(g, env, folders, log);
    var c: Context, j: nat :| FailedAt(g, env, folders, log, c, j);
    var cause :| DeployResult(g, env, folders, log).outcome
                 == Aborted(CopyErrorMessage(DepsOf(g, c)[j].ref, cause, SymlinksSetting(env.symlinksConf)));
    HintFollowsConf(DepsOf(g, c)[j].ref, cause, env.symlinksConf);
    CopyErrorContents(DepsOf(g, c)[j].ref, cause, SymlinksSetting(env.symlinksConf));
  }

  lemma {:induction false} NoMarkerWithoutW(s: string)
    requires 'W' !in s
    ensures !Contains(s, PrivilegeMarker)
    decreases |s|
  {
    if |s| > 0 {
      assert s == [s[0]] + s[1..];
      assert s[0] != PrivilegeMarker[0];
      NoMarkerWithoutW(s[1..]);
    }
  }

  lemma NotADirectoryText()
    ensures 'W' !in CauseText(NotADirectory)
  {
  }

  lemma BlockedText(at: set<Path>)
    ensures 'W' !in CauseText(DestinationBlocked(at))
  {
  }

  lemma ClashText(at: set<Path>)
    ensures 'W' !in CauseText(EntryClashes(at))
  {
  }

  /** Only an error whose text mentions `WinError 1314` logs the privilege
      line; the copy failures the model itself detects never do. */
  lemma PrivilegeLineOnlyForMarker(cause: Cause)
    ensures PrivilegeLog(cause) != [] <==> Contains(CauseText(cause), PrivilegeMarker)
    ensures PrivilegeLog(cause) != [] ==> PrivilegeLog(cause) == [ErrorLine(PrivilegeMessage)]
    ensures !cause.OsError? ==> PrivilegeLog(cause) == []
  {
    match cause
    case OsError(_) =>
    case NotADirectory => NotADirectoryText(); NoMarkerWithoutW(CauseText(cause));
    case DestinationBlocked(at) => BlockedText(at); NoMarkerWithoutW(CauseText(cause));
    case EntryClashes(at) => ClashText(at); NoMarkerWithoutW(CauseText(cause));
  }

  /** The Windows error for a symlink without privilege, `[WinError 1314]
      A required privilege is not held by the client`, does log the line. */
  lemma WindowsPrivilegeError()
    ensures PrivilegeLog(OsError("[" + "WinError 1314" + "] A required privilege is not held by the client"))
            == [ErrorLine(PrivilegeMessage)]
  {
    ContainsInfix("[", PrivilegeMarker, "] A required privilege is not held by the client");
  }
}
