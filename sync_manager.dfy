/**
 * The gating of database synchronisation (SyncManager): whether sync is active and
 * allowed on the current network, the guard chain that decides whether the sync
 * service is started, the comparison of local and remote file names, and the
 * "local file changed" flag kept in the recent-databases metadata.
 */
module Sync {
  import opened Nullable

  /** An entry of the recent-databases list (DatabaseMetadata). */
  datatype DatabaseMetadata = DatabaseMetadata(localPath: Option<string>, remotePath: Option<string>, isLocalFileChanged: bool)

  /** What NetworkUtils reports about the connection. */
  datatype Network = Network(online: bool, onWiFi: bool)

  /** The part of SyncPreferences the gating reads. */
  datatype SyncPreferences = SyncPreferences(syncOnlyOnWiFi: bool)

  /** SyncConstants.INTENT_ACTION_SYNC, _DOWNLOAD and _UPLOAD. */
  datatype Action = ActionSync | ActionDownload | ActionUpload

  /** The work handed to SyncService.enqueueWork: the action and the current database's files. */
  datatype SyncRequest = SyncRequest(action: Action, localPath: Option<string>, remotePath: Option<string>)

  /** The toasts triggerSynchronization can show (R.string.filenames_differ, R.string.select_remote_file). */
  datatype Toast = FilenamesDiffer | SelectRemoteFile

  /** How triggerSynchronization ended: at which guard it returned, or having invoked the service. */
  datatype TriggerResult = CannotSync | NoLocalPath | NoRemotePath | Invoked

  // ---------------------------------------------------------------------------
  // File names

  function StripTrailingSlashes(path: string): (r: string)
    ensures |r| <= |path| && r == path[..|r|]
    ensures |r| == 0 || r[|r| - 1] != '/'
    ensures forall i :: |r| <= i < |path| ==> path[i] == '/'
  {
    if |path| > 0 && path[|path| - 1] == '/' then StripTrailingSlashes(path[..|path| - 1]) else path
  }

  /** The characters after the last '/', or the whole text when there is none. */
  function AfterLastSlash(path: string): (r: string)
    ensures '/' !in r
    ensures |r| <= |path| && r == path[|path| - |r|..]
    ensures |r| < |path| ==> path[|path| - |r| - 1] == '/'
  {
    if |path| == 0 || path[|path| - 1] == '/' then ""
    else AfterLastSlash(path[..|path| - 1]) + [path[|path| - 1]]
  }

  /**
   * java.io.File(path).getName() on a Unix path: trailing separators are dropped and the
   * name is what follows the last '/'. File also collapses doubled separators, which
   * does not change the last component.
   */
  function FileName(path: string): (r: string)
    ensures '/' !in r
  {
    AfterLastSlash(StripTrailingSlashes(path))
  }

  lemma {:induction false} AfterLastSlashOfJoined(dir: string, name: string)
    requires '/' !in name
    ensures AfterLastSlash(dir + "/" + name) == name
    decreases |name|
  {
    var path := dir + "/" + name;
    if |name| == 0 {
      assert path[|path| - 1] == '/';
    } else {
      var last := name[|name| - 1];
      assert path[|path| - 1] == last;
      assert path[..|path| - 1] == dir + "/" + name[..|name| - 1];
      AfterLastSlashOfJoined(dir, name[..|name| - 1]);
      assert name == name[..|name| - 1] + [last];
    }
  }

  /** A name without '/' keeps its name whatever directory it is put in. */
  lemma FileNameOfJoined(dir: string, name: string)
    requires '/' !in name && |name| > 0
    ensures FileName(dir + "/" + name) == name
  {
    var path := dir + "/" + name;
    assert path[|path| - 1] == name[|name| - 1];
    assert StripTrailingSlashes(path) == path;
    AfterLastSlashOfJoined(dir, name);
  }

  function ToUpperAscii(c: char): char
  {
    if 'a' <= c <= 'z' then (c as int - 'a' as int + 'A' as int) as char else c
  }

  function ToLowerAscii(c: char): char
  {
    if 'A' <= c <= 'Z' then (c as int - 'A' as int + 'a' as int) as char else c
  }

  /** String.equalsIgnoreCase's test for one pair of characters (on the ASCII letters). */
  predicate CharsEqualIgnoreCase(a: char, b: char)
  {
    || a == b
    || ToUpperAscii(a) == ToUpperAscii(b)
    || ToLowerAscii(ToUpperAscii(a)) == ToLowerAscii(ToUpperAscii(b))
  }

  /** String.equalsIgnoreCase: same length and every pair of characters equal up to case. */
  predicate EqualsIgnoreCase(a: string, b: string): (eq: bool)
    ensures a == b ==> eq
    ensures eq <==> |a| == |b| && forall i :: 0 <= i < |a| ==> ToLowerAscii(ToUpperAscii(a[i])) == ToLowerAscii(ToUpperAscii(b[i]))
  {
    |a| == |b| && forall i :: 0 <= i < |a| ==> CharsEqualIgnoreCase(a[i], b[i])
  }

  /**
   * areFileNamesSame: false when either path is empty; otherwise the names after the
   * last '/' are compared ignoring case.
   */
  function AreFileNamesSame(localPath: Option<string>, remotePath: Option<string>): (same: bool)
    ensures IsEmpty(localPath) || IsEmpty(remotePath) ==> !same
  {
    if IsEmpty(localPath) then false
    else if IsEmpty(remotePath) then false
    else EqualsIgnoreCase(FileName(localPath.value), FileName(remotePath.value))
  }

  /** The comparison does not depend on which path is the local one. */
  lemma FileNamesSameSymmetric(localPath: Option<string>, remotePath: Option<string>)
    ensures AreFileNamesSame(localPath, remotePath) == AreFileNamesSame(remotePath, localPath)
  {
  }

  /**
   * Only the last component counts: a database file and its cloud copy match whatever
   * folders they sit in and however the case of the name differs, and differing names
   * never match.
   */
  lemma FileNamesSameIgnoresDirectories(localDir: string, remoteDir: string, localName: string, remoteName: string)
    requires '/' !in localName && '/' !in remoteName && |localName| > 0 && |remoteName| > 0
    ensures AreFileNamesSame(Some(localDir + "/" + localName), Some(remoteDir + "/" + remoteName))
        <==> EqualsIgnoreCase(localName, remoteName)
  {
    FileNameOfJoined(localDir, localName);
    FileNameOfJoined(remoteDir, remoteName);
  }

  /** A database opened from the device matches its cloud copy in another folder with the name in another case. */
  lemma FileNamesSameExample()
    ensures AreFileNamesSame(Some("/sdcard/data.mmb"), Some("/Dropbox/Data.MMB"))
  {
    var a, b := "data.mmb", "Data.MMB";
    assert '/' !in a && '/' !in b;
    assert EqualsIgnoreCase(a, b) by {
      forall i | 0 <= i < |a| ensures CharsEqualIgnoreCase(a[i], b[i]) {
        assert ToUpperAscii(a[i]) == ToUpperAscii(b[i]);
      }
    }
    assert "/sdcard" + "/" + a == "/sdcard/data.mmb";
    assert "/Dropbox" + "/" + b == "/Dropbox/Data.MMB";
    FileNamesSameIgnoresDirectories("/sdcard", "/Dropbox", a, b);
  }

  // ---------------------------------------------------------------------------
  // Gating

  /** getRemotePath: null without a current database, otherwise its remote path. */
  function GetRemotePath(current: Option<DatabaseMetadata>): (r: Option<string>)
    ensures current.None? ==> r.None?
    ensures current.Some? ==> r == current.value.remotePath
  {
    if current.None? then None else current.value.remotePath
  }

  /** isActive: online, and a remote file is set. */
  function IsActive(network: Network, current: Option<DatabaseMetadata>): (active: bool)
    ensures active <==> network.online && current.Some? && !IsEmpty(current.value.remotePath)
  {
    if !network.online then false else !IsEmpty(GetRemotePath(current))
  }

  /** canSync: active, and on WiFi when the preferences ask for WiFi only. */
  function CanSync(network: Network, preferences: SyncPreferences, current: Option<DatabaseMetadata>): (can: bool)
    ensures can ==> IsActive(network, current)
    ensures preferences.syncOnlyOnWiFi ==> (can <==> IsActive(network, current) && network.onWiFi)
    ensures !preferences.syncOnlyOnWiFi ==> can == IsActive(network, current)
  {
    if !IsActive(network, current) then false
    else if preferences.syncOnlyOnWiFi && !network.onWiFi then false
    else true
  }

  /** What invokeSyncService enqueues: nothing without a remote file, else one request for the current database. */
  function RequestFor(action: Action, current: Option<DatabaseMetadata>): (r: seq<SyncRequest>)
    ensures IsEmpty(GetRemotePath(current)) <==> r == []
    ensures r != [] ==> current.Some? && r == [SyncRequest(action, current.value.localPath, current.value.remotePath)]
  {
    if IsEmpty(GetRemotePath(current)) then []
    else [SyncRequest(action, current.value.localPath, current.value.remotePath)]
  }

  /** triggerSynchronization's guards, in order: canSync, a local database path, a remote path. */
  function TriggerDecision(network: Network, preferences: SyncPreferences, current: Option<DatabaseMetadata>,
                           localPath: Option<string>): (r: TriggerResult)
    ensures r == Invoked <==> CanSync(network, preferences, current) && !IsEmpty(localPath) && !IsEmpty(GetRemotePath(current))
    ensures r == CannotSync <==> !CanSync(network, preferences, current)
    ensures r == NoLocalPath <==> CanSync(network, preferences, current) && IsEmpty(localPath)
  {
    if !CanSync(network, preferences, current) then CannotSync
    else if IsEmpty(localPath) then NoLocalPath
    else if IsEmpty(GetRemotePath(current)) then NoRemotePath
    else Invoked
  }

  /** The toast shown for each way triggerSynchronization can end. */
  function ToastFor(result: TriggerResult): (toasts: seq<Toast>)
    ensures toasts == [FilenamesDiffer] <==> result == NoLocalPath
    ensures toasts == [SelectRemoteFile] <==> result == NoRemotePath
    ensures toasts == [] <==> result == CannotSync || result == Invoked
  {
    match result
    case NoLocalPath => [FilenamesDiffer]
    case NoRemotePath => [SelectRemoteFile]
    case _ => []
  }

  /**
   * The third guard never fires: canSync already requires a remote path, so a sync that
   * passes the first two guards always reaches the service, and the service's own
   * early exit is not taken.
   */
  lemma RemotePathGuardUnreachable(network: Network, preferences: SyncPreferences,
                                   current: Option<DatabaseMetadata>, localPath: Option<string>)
    ensures TriggerDecision(network, preferences, current, localPath) != NoRemotePath
    ensures TriggerDecision(network, preferences, current, localPath) == Invoked
      ==> |RequestFor(ActionSync, current)| == 1
  {
  }

  /** The entries after setting one entry's "local file changed" flag. */
  function WithLocalFileChanged(entries: map<string, DatabaseMetadata>, path: string, changed: bool): (r: map<string, DatabaseMetadata>)
    requires path in entries
    ensures r.Keys == entries.Keys
    ensures r[path].isLocalFileChanged == changed
    ensures r[path].localPath == entries[path].localPath && r[path].remotePath == entries[path].remotePath
    ensures forall p :: p in entries && p != path ==> r[p] == entries[p]
  {
    entries[path := entries[path].(isLocalFileChanged := changed)]
  }

  /** Setting the flag to the value it already has leaves the entries as they are; setting it twice is setting it once. */
  lemma LocalFileChangedIdempotent(entries: map<string, DatabaseMetadata>, path: string, changed: bool)
    requires path in entries
    ensures entries[path].isLocalFileChanged == changed ==> WithLocalFileChanged(entries, path, changed) == entries
    ensures WithLocalFileChanged(WithLocalFileChanged(entries, path, changed), path, changed)
         == WithLocalFileChanged(entries, path, changed)
  {
    if entries[path].isLocalFileChanged == changed {
      assert entries[path].(isLocalFileChanged := changed) == entries[path];
    }
  }

  // ---------------------------------------------------------------------------
  // State

  /** RecentDatabasesProvider: the recent databases by local path, the current one, and what save() last wrote. */
  class RecentDatabases {
    var entries: map<string, DatabaseMetadata>
    var currentPath: Option<string>
    var saved: map<string, DatabaseMetadata>
    var saves: nat

    constructor (entries: map<string, DatabaseMetadata>, currentPath: Option<string>)
      ensures this.entries == entries && this.currentPath == currentPath
      ensures saved == entries && saves == 0
    {
      this.entries := entries;
      this.currentPath := currentPath;
      saved := entries;
      saves := 0;
    }

    /** getCurrent: the entry of the current database, if there is one. */
    function Current(): (c: Option<DatabaseMetadata>)
      reads this
      ensures c.Some? <==> currentPath.Some? && currentPath.value in entries
      ensures c.Some? ==> c.value == entries[currentPath.value]
    {
      if currentPath.Some? && currentPath.value in entries then Some(entries[currentPath.value]) else None
    }

    /** save: persist the entries. */
    method Save()
      modifies this`saved, this`saves
      ensures saved == entries && saves == old(saves) + 1
    {
      saved := entries;
      saves := saves + 1;
    }
  }

  class SyncManager {
    /** The injected recent-databases provider. */
    const databases: RecentDatabases
    /** What new SyncPreferences(context) reads from the stored preferences. */
    const stored: SyncPreferences
    /** mPreferences: null until first used. */
    var preferences: Option<SyncPreferences>
    /** Toasts shown, in order. */
    var toasts: seq<Toast>
    /** Work handed to the sync service, in order. */
    var queue: seq<SyncRequest>

    constructor (databases: RecentDatabases, stored: SyncPreferences)
      ensures this.databases == databases && this.stored == stored
      ensures preferences.None? && toasts == [] && queue == []
    {
      this.databases := databases;
      this.stored := stored;
      preferences := None;
      toasts := [];
      queue := [];
    }

    /** The preferences getPreferences returns: the loaded ones, or those it would load. */
    function EffectivePreferences(): (p: SyncPreferences)
      reads this
      ensures preferences.Some? ==> p == preferences.value
      ensures preferences.None? ==> p == stored
    {
      if preferences.Some? then preferences.value else stored
    }

    /** getPreferences: load the preferences on first use, then keep returning the same ones. */
    method GetPreferences() returns (p: SyncPreferences)
      modifies this`preferences
      ensures p == old(EffectivePreferences())
      ensures preferences == Some(p)
    {
      if preferences.None? {
        preferences := Some(stored);
      }
      p := preferences.value;
    }

    /** canSync; the preferences are only loaded when the sync is active. */
    method CheckCanSync(network: Network) returns (can: bool)
      modifies this`preferences
      ensures can == CanSync(network, old(EffectivePreferences()), databases.Current())
      ensures preferences == if IsActive(network, databases.Current()) then Some(old(EffectivePreferences())) else old(preferences)
    {
      if !IsActive(network, databases.Current()) {
        return false;
      }
      var prefs := GetPreferences();
      if prefs.syncOnlyOnWiFi {
        if !network.onWiFi {
          return false;
        }
      }
      return true;
    }

    /** invokeSyncService: nothing without a remote file, otherwise enqueue the action for the current database. */
    method InvokeSyncService(action: Action)
      modifies this`queue
      ensures queue == old(queue) + RequestFor(action, databases.Current())
    {
      var remoteFile := GetRemotePath(databases.Current());
      if IsEmpty(remoteFile) {
        return;
      }
      var current := databases.Current();
      queue := queue + [SyncRequest(action, current.value.localPath, current.value.remotePath)];
    }

    /** triggerSynchronization: check the guards in order, show the toast of the one that fails, else start the sync. */
    method TriggerSynchronization(network: Network, localPath: Option<string>) returns (result: TriggerResult)
      modifies this`preferences, this`toasts, this`queue
      ensures result == TriggerDecision(network, old(EffectivePreferences()), databases.Current(), localPath)
      ensures toasts == old(toasts) + ToastFor(result)
      ensures queue == old(queue) + (if result == Invoked then RequestFor(ActionSync, databases.Current()) else [])
      ensures preferences == if IsActive(network, databases.Current()) then Some(old(EffectivePreferences())) else old(preferences)
    {
      var can := CheckCanSync(network);
      if !can {
        return CannotSync;
      }
      if IsEmpty(localPath) {
        toasts := toasts + [FilenamesDiffer];
        return NoLocalPath;
      }
      var remotePath := GetRemotePath(databases.Current());
      if IsEmpty(remotePath) {
        // The source shows SelectRemoteFile here, but canSync already demanded a remote
        // path (see RemotePathGuardUnreachable), so this branch is dead.
        assert false;
      }
      InvokeSyncService(ActionSync);
      return Invoked;
    }

    /** triggerDownload. */
    method TriggerDownload()
      modifies this`queue
      ensures queue == old(queue) + RequestFor(ActionDownload, databases.Current())
    {
      InvokeSyncService(ActionDownload);
    }

    /** triggerUpload. */
    method TriggerUpload()
      modifies this`queue
      ensures queue == old(queue) + RequestFor(ActionUpload, databases.Current())
    {
      InvokeSyncService(ActionUpload);
    }

    /**
     * markLocalFileChanged: set the flag on the entry of the open database and save,
     * but only if the flag changes; the entry must exist (the source dereferences it).
     */
    method MarkLocalFileChanged(localPath: string, changed: bool)
      requires localPath in databases.entries
      modifies databases`entries, databases`saved, databases`saves
      ensures databases.entries == WithLocalFileChanged(old(databases.entries), localPath, changed)
      ensures databases.entries[localPath].isLocalFileChanged == changed
      ensures old(databases.entries[localPath].isLocalFileChanged) == changed
        ==> databases.entries == old(databases.entries) && databases.saves == old(databases.saves)
            && databases.saved == old(databases.saved)
      ensures old(databases.entries[localPath].isLocalFileChanged) != changed
        ==> databases.saves == old(databases.saves) + 1 && databases.saved == databases.entries
    {
      var entry := databases.entries[localPath];
      if entry.isLocalFileChanged == changed {
        LocalFileChangedIdempotent(databases.entries, localPath, changed);
        return;
      }
      databases.entries := databases.entries[localPath := entry.(isLocalFileChanged := changed)];
      databases.Save();
    }
  }
}
