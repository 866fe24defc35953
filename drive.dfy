/**
 * The Drive folder namespace main.py writes to, kept in memory (`find_or_create_folder`,
 * `create_lancamento_folder`, `upload_file_to_drive`). A remote call that raises is modelled by a
 * `fault` argument: when it is present the call fails with that text and the store is unchanged.
 */
module Drive {
  import opened Wrappers
  import opened Extraction
  import opened Naming
  import opened Calendar

  type FileId = nat

  /** The mime type Drive gives folders; `find_or_create_folder` searches and creates with it. */
  const FolderMimeType := "application/vnd.google-apps.folder"

  /** One file or folder of the store. */
  datatype Entry = Entry(id: FileId, name: string, parent: FileId, mimeType: string, trashed: bool,
                         content: seq<bv8>)

  /** What the Drive query of `find_or_create_folder` selects. */
  predicate IsFolderNamed(e: Entry, name: string, parent: FileId) {
    e.name == name && e.parent == parent && e.mimeType == FolderMimeType && !e.trashed
  }

  /** The position of the first entry the query selects, in listing order, or `|entries|`. */
  function FirstFolder(entries: seq<Entry>, name: string, parent: FileId): (i: nat)
    ensures i <= |entries|
    ensures forall j :: 0 <= j < i ==> !IsFolderNamed(entries[j], name, parent)
    ensures i < |entries| ==> IsFolderNamed(entries[i], name, parent)
  {
    if entries == [] then 0
    else if IsFolderNamed(entries[0], name, parent) then 0
    else 1 + FirstFolder(entries[1..], name, parent)
  }

  /** The id `files[0]["id"]` of the query's first result, if any. */
  function FindFolder(entries: seq<Entry>, name: string, parent: FileId): (r: Option<FileId>)
  {
    var i := FirstFolder(entries, name, parent);
    if i < |entries| then Some(entries[i].id) else None
  }

  /**
   * The query finds nothing exactly when no entry is selected, and otherwise the id of the first
   * selected entry in listing order.
   */
  lemma FindFolderFirst(entries: seq<Entry>, name: string, parent: FileId)
    ensures FindFolder(entries, name, parent).None? <==>
              forall i :: 0 <= i < |entries| ==> !IsFolderNamed(entries[i], name, parent)
    ensures FindFolder(entries, name, parent).Some? ==>
              exists i :: 0 <= i < |entries| && IsFolderNamed(entries[i], name, parent)
                          && entries[i].id == FindFolder(entries, name, parent).value
                          && forall j :: 0 <= j < i ==> !IsFolderNamed(entries[j], name, parent)
  {
    var i := FirstFolder(entries, name, parent);
    if i < |entries| {
      assert IsFolderNamed(entries[i], name, parent);
    }
  }

  /** A folder appended after a list where the query found nothing is what the query finds next. */
  lemma {:induction false} FindAfterAppend(entries: seq<Entry>, e: Entry)
    requires FindFolder(entries, e.name, e.parent).None?
    requires e.mimeType == FolderMimeType && !e.trashed
    ensures FindFolder(entries + [e], e.name, e.parent) == Some(e.id)
  {
    var all := entries + [e];
    var n := |entries|;
    assert FirstFolder(entries, e.name, e.parent) == n;
    assert forall j :: 0 <= j < n ==> all[j] == entries[j];
    assert IsFolderNamed(all[n], e.name, e.parent);
  }

  /** Appending entries never changes what an earlier successful query finds. */
  lemma {:induction false} FindStableUnderAppend(entries: seq<Entry>, more: seq<Entry>, name: string, parent: FileId)
    requires FindFolder(entries, name, parent).Some?
    ensures FindFolder(entries + more, name, parent) == FindFolder(entries, name, parent)
  {
    var all := entries + more;
    var i := FirstFolder(entries, name, parent);
    assert forall j :: 0 <= j <= i ==> all[j] == entries[j];
    assert IsFolderNamed(all[i], name, parent);
  }

  class DriveStore {
    /** Every file and folder, in the order Drive lists them. */
    var entries: seq<Entry>
    /**
     * The next id Drive hands out. Every id Drive has issued is below it, and so is every parent,
     * since a file can only be placed in a folder that exists; a fresh id is nobody's parent.
     */
    var nextId: FileId

    ghost predicate Valid()
      reads this
    {
      forall i :: 0 <= i < |entries| ==> entries[i].id < nextId && entries[i].parent < nextId
    }

    constructor (initial: seq<Entry>, next: FileId)
      requires forall i :: 0 <= i < |initial| ==> initial[i].id < next && initial[i].parent < next
      ensures Valid() && entries == initial && nextId == next
    {
      entries := initial;
      nextId := next;
    }

    /**
     * `find_or_create_folder`: the first non-trashed folder with that exact name under that parent,
     * or else one new folder appended to the store.
     */
    method FindOrCreateFolder(name: string, parent: FileId, fault: Option<string>) returns (r: Result<FileId>)
      requires Valid() && parent < nextId
      modifies this
      ensures Valid()
      ensures fault.Some? ==> r == Failure(fault.value) && entries == old(entries) && nextId == old(nextId)
      ensures fault.None? && FindFolder(old(entries), name, parent).Some? ==>
                r == Success(FindFolder(old(entries), name, parent).value)
                && entries == old(entries) && nextId == old(nextId)
      ensures fault.None? && FindFolder(old(entries), name, parent).None? ==>
                r == Success(old(nextId))
                && (forall i :: 0 <= i < |old(entries)| ==> old(entries)[i].id != r.value)
                && entries == old(entries) + [Entry(old(nextId), name, parent, FolderMimeType, false, [])]
                && nextId == old(nextId) + 1
      ensures r.Success? ==> FindFolder(entries, name, parent) == Some(r.value)
    {
      if fault.Some? {
        return Failure(fault.value);
      }
      var found := FindFolder(entries, name, parent);
      if found.Some? {
        return Success(found.value);
      }
      var folder := Entry(nextId, name, parent, FolderMimeType, false, []);
      FindAfterAppend(entries, folder);
      entries := entries + [folder];
      r := Success(nextId);
      nextId := nextId + 1;
    }

    /** The `files().create` of `upload_file_to_drive`: one new file in the folder. */
    method UploadFile(folder: FileId, content: seq<bv8>, fileName: string, mimeType: string, fault: Option<string>)
      returns (r: Result<FileId>)
      requires Valid() && folder < nextId
      modifies this
      ensures Valid()
      ensures fault.Some? ==> r == Failure(fault.value) && entries == old(entries) && nextId == old(nextId)
      ensures fault.None? ==>
                r == Success(old(nextId))
                && entries == old(entries) + [Entry(old(nextId), fileName, folder, mimeType, false, content)]
                && nextId == old(nextId) + 1
    {
      if fault.Some? {
        return Failure(fault.value);
      }
      entries := entries + [Entry(nextId, fileName, folder, mimeType, false, content)];
      r := Success(nextId);
      nextId := nextId + 1;
    }
  }

  /** An immediate second `find_or_create_folder` for the same name and parent returns the same id and adds nothing. */
  method FindOrCreateTwice(drive: DriveStore, name: string, parent: FileId) returns (first: FileId, second: FileId)
    requires drive.Valid() && parent < drive.nextId
    modifies drive
    ensures drive.Valid()
    ensures first == second && FindFolder(drive.entries, name, parent) == Some(first)
    ensures FindFolder(old(drive.entries), name, parent).Some? ==> drive.entries == old(drive.entries)
    ensures FindFolder(old(drive.entries), name, parent).None? ==> |drive.entries| == |old(drive.entries)| + 1
  {
    var r1 := drive.FindOrCreateFolder(name, parent, None);
    ghost var once := drive.entries;
    var r2 := drive.FindOrCreateFolder(name, parent, None);
    assert drive.entries == once;
    first, second := r1.value, r2.value;
  }

  /** The exception the folder steps end in, if any: the first call, in call order, that raises. */
  function FirstFolderFault(faults: FolderFaults): Option<string> {
    if faults.month.Some? then faults.month else if faults.entry.Some? then faults.entry else faults.link
  }

  /** `folder` is what a lookup finds for `entryName` inside what a lookup finds for `monthName` under `root`. */
  predicate InFolderPath(entries: seq<Entry>, root: FileId, monthName: string, entryName: string, folder: FileId) {
    FindFolder(entries, monthName, root).Some?
    && FindFolder(entries, entryName, FindFolder(entries, monthName, root).value) == Some(folder)
  }

  /** Entries added later do not move a resolved folder path. */
  lemma InFolderPathStable(entries: seq<Entry>, more: seq<Entry>, root: FileId, monthName: string, entryName: string,
                           folder: FileId)
    requires InFolderPath(entries, root, monthName, entryName, folder)
    ensures InFolderPath(entries + more, root, monthName, entryName, folder)
  {
    FindStableUnderAppend(entries, more, monthName, root);
    FindStableUnderAppend(entries, more, entryName, FindFolder(entries, monthName, root).value);
  }

  /** `folder_meta.get("webViewLink", "")`. */
  function LinkText(link: Option<string>): string {
    match link case Some(l) => l case None => ""
  }

  /** The faults the remote calls of `create_lancamento_folder` may raise, in call order. */
  datatype FolderFaults = FolderFaults(month: Option<string>, entry: Option<string>, link: Option<string>)

  /**
   * The folders the two lookups of `create_lancamento_folder` add when neither raises: nothing when
   * both folders exist, the entry folder when only the month folder exists, and otherwise the month
   * folder followed by the entry folder inside it. `next` is the first id Drive hands out.
   */
  function PathCreates(entries: seq<Entry>, next: FileId, root: FileId, monthName: string, entryName: string)
    : (r: seq<Entry>)
    ensures |r| <= 2
    ensures r == [] <==> exists folder :: InFolderPath(entries, root, monthName, entryName, folder)
  {
    match FindFolder(entries, monthName, root)
    case Some(month) =>
      if FindFolder(entries, entryName, month).Some? then
        assert InFolderPath(entries, root, monthName, entryName, FindFolder(entries, entryName, month).value);
        []
      else [Entry(next, entryName, month, FolderMimeType, false, [])]
    case None =>
      [Entry(next, monthName, root, FolderMimeType, false, []), Entry(next + 1, entryName, next, FolderMimeType, false, [])]
  }

  /**
   * The folders the folder steps add when a call may raise: nothing when the month lookup raises,
   * the month folder if it was missing when the entry lookup raises, and otherwise the whole path.
   */
  function FolderStepEntries(entries: seq<Entry>, next: FileId, root: FileId, monthName: string, entryName: string,
                             faults: FolderFaults): (r: seq<Entry>)
    ensures r <= PathCreates(entries, next, root, monthName, entryName)
    ensures faults.month.Some? ==> r == []
    ensures faults.month.None? && faults.entry.None? ==> r == PathCreates(entries, next, root, monthName, entryName)
  {
    if faults.month.Some? then []
    else if faults.entry.Some? then
      (if FindFolder(entries, monthName, root).None? then [Entry(next, monthName, root, FolderMimeType, false, [])] else [])
    else PathCreates(entries, next, root, monthName, entryName)
  }

  /** The entry folder the two lookups end at: the one found, or the one created, whose id follows the month folder's when both are new. */
  function PathFolder(entries: seq<Entry>, next: FileId, root: FileId, monthName: string, entryName: string): FileId {
    match FindFolder(entries, monthName, root)
    case Some(month) =>
      (match FindFolder(entries, entryName, month) case Some(folder) => folder case None => next)
    case None => next + 1
  }

  /** When the path already resolves, the folder steps add nothing and end at the folder found. */
  lemma PathFolderExisting(entries: seq<Entry>, next: FileId, root: FileId, monthName: string, entryName: string,
                           folder: FileId)
    requires InFolderPath(entries, root, monthName, entryName, folder)
    ensures PathCreates(entries, next, root, monthName, entryName) == []
    ensures PathFolder(entries, next, root, monthName, entryName) == folder
  {
  }

  /** A folder nobody has as parent yet is empty, so a lookup inside it finds nothing. */
  lemma FreshFolderEmpty(entries: seq<Entry>, name: string, parent: FileId)
    requires forall i :: 0 <= i < |entries| ==> entries[i].parent != parent
    ensures FindFolder(entries, name, parent).None?
  {
    assert forall i :: 0 <= i < |entries| ==> !IsFolderNamed(entries[i], name, parent);
  }

  /**
   * Once the folders are added, the path resolves, and resolving it again adds nothing: the folder
   * steps are idempotent.
   */
  lemma {:induction false} PathCreatesIdempotent(entries: seq<Entry>, next: FileId, root: FileId, monthName: string,
                                                 entryName: string)
    requires forall i :: 0 <= i < |entries| ==> entries[i].id < next && entries[i].parent < next
    requires root < next
    ensures var created := PathCreates(entries, next, root, monthName, entryName);
            var after := entries + created;
            InFolderPath(after, root, monthName, entryName, PathFolder(entries, next, root, monthName, entryName))
            && PathCreates(after, next + |created|, root, monthName, entryName) == []
  {
    var created := PathCreates(entries, next, root, monthName, entryName);
    var after := entries + created;
    match FindFolder(entries, monthName, root)
    case Some(month) =>
      if FindFolder(entries, entryName, month).Some? {
        assert after == entries;
      } else {
        FindAfterAppend(entries, created[0]);
        FindStableUnderAppend(entries, created, monthName, root);
        assert InFolderPath(after, root, monthName, entryName, next);
      }
    case None =>
      var monthEntry := created[0];
      var withMonth := entries + [monthEntry];
      FindAfterAppend(entries, monthEntry);
      FreshFolderEmpty(withMonth, entryName, next);
      FindAfterAppend(withMonth, created[1]);
      assert after == withMonth + [created[1]];
      FindStableUnderAppend(withMonth, [created[1]], monthName, root);
      assert InFolderPath(after, root, monthName, entryName, next + 1);
  }

  /** The month step followed by the entry step adds exactly the folders of the path that are missing. */
  lemma PathStepsAdd(start: seq<Entry>, next: FileId, root: FileId, monthName: string, entryName: string,
                     month: FileId, afterMonth: seq<Entry>, entry: FileId, final: seq<Entry>)
    requires forall i :: 0 <= i < |start| ==> start[i].id < next && start[i].parent < next
    requires root < next
    requires FindFolder(afterMonth, monthName, root) == Some(month)
    requires FindFolder(start, monthName, root).Some? ==> afterMonth == start
    requires FindFolder(start, monthName, root).None? ==>
               month == next && afterMonth == start + [Entry(next, monthName, root, FolderMimeType, false, [])]
    requires FindFolder(final, entryName, month) == Some(entry)
    requires FindFolder(afterMonth, entryName, month).Some? ==> final == afterMonth
    requires FindFolder(afterMonth, entryName, month).None? ==>
               final == afterMonth + [Entry(next + |afterMonth| - |start|, entryName, month, FolderMimeType, false, [])]
    ensures final == start + PathCreates(start, next, root, monthName, entryName)
    ensures InFolderPath(final, root, monthName, entryName, entry)
    ensures entry == PathFolder(start, next, root, monthName, entryName)
  {
    var created := PathCreates(start, next, root, monthName, entryName);
    if FindFolder(start, monthName, root).None? {
      FreshFolderEmpty(afterMonth, entryName, month);
      assert created == [afterMonth[|start|], final[|afterMonth|]];
      FindStableUnderAppend(afterMonth, [final[|afterMonth|]], monthName, root);
      assert final == afterMonth + [final[|afterMonth|]];
    } else if FindFolder(start, entryName, month).None? {
      assert created == [final[|start|]];
      FindStableUnderAppend(start, created, monthName, root);
    } else {
      assert created == [];
    }
  }

  /**
   * The folder steps of `create_lancamento_folder` for given names: the month folder under the
   * root, the entry folder under it, then the entry folder's `webViewLink` (`""` when Drive returns
   * none).
   */
  method CreateFolderPath(drive: DriveStore, monthName: string, entryName: string, root: FileId,
                          linkOf: FileId -> Option<string>, faults: FolderFaults)
    returns (r: Result<(FileId, string)>)
    requires drive.Valid() && root < drive.nextId
    modifies drive
    ensures drive.Valid()
    ensures old(drive.entries) <= drive.entries && |drive.entries| <= |old(drive.entries)| + 2
    ensures faults.month.None? && faults.entry.None? ==>
              drive.entries == old(drive.entries)
                               + PathCreates(old(drive.entries), old(drive.nextId), root, monthName, entryName)
    ensures drive.entries == old(drive.entries)
                             + FolderStepEntries(old(drive.entries), old(drive.nextId), root, monthName, entryName, faults)
    ensures drive.nextId
            == old(drive.nextId) + |FolderStepEntries(old(drive.entries), old(drive.nextId), root, monthName, entryName, faults)|
    ensures r.Success? ==> InFolderPath(drive.entries, root, monthName, entryName, r.value.0)
    ensures r.Success? ==> r.value.0 == PathFolder(old(drive.entries), old(drive.nextId), root, monthName, entryName)
                           && r.value.0 < drive.nextId
    ensures r.Success? ==> r.value.1 == LinkText(linkOf(r.value.0))
    ensures r.Failure? ==> Some(r.error) == FirstFolderFault(faults)
    ensures faults.month.Some? ==> r == Failure(faults.month.value) && drive.entries == old(drive.entries)
    ensures r.Success? <==> FirstFolderFault(faults).None?
  {
    ghost var start := drive.entries;
    ghost var next := drive.nextId;
    var month := drive.FindOrCreateFolder(monthName, root, faults.month);
    if month.Failure? {
      return Failure(month.error);
    }
    ghost var afterMonth := drive.entries;
    assert start <= afterMonth && |afterMonth| <= |start| + 1;
    assert drive.nextId == next + |afterMonth| - |start|;
    var entry := drive.FindOrCreateFolder(entryName, month.value, faults.entry);
    assert drive.nextId == next + |drive.entries| - |start|;
    if entry.Failure? {
      return Failure(entry.error);
    }
    PathStepsAdd(start, next, root, monthName, entryName, month.value, afterMonth, entry.value, drive.entries);
    if faults.link.Some? {
      return Failure(faults.link.value);
    }
    var link := LinkText(linkOf(entry.value));
    r := Success((entry.value, link));
  }

  /**
   * Running the folder steps a second time with no failures finds the same folder with the same
   * link and adds nothing.
   */
  method CreateFolderPathTwice(drive: DriveStore, monthName: string, entryName: string, root: FileId,
                               linkOf: FileId -> Option<string>)
    returns (first: Result<(FileId, string)>, second: Result<(FileId, string)>)
    requires drive.Valid() && root < drive.nextId
    modifies drive
    ensures drive.Valid()
    ensures first.Success? && first == second
    ensures drive.entries == old(drive.entries)
                             + PathCreates(old(drive.entries), old(drive.nextId), root, monthName, entryName)
  {
    var none := FolderFaults(None, None, None);
    first := CreateFolderPath(drive, monthName, entryName, root, linkOf, none);
    ghost var once := drive.entries;
    second := CreateFolderPath(drive, monthName, entryName, root, linkOf, none);
    assert PathCreates(once, drive.nextId, root, monthName, entryName) == [] by {
      assert InFolderPath(once, root, monthName, entryName, first.value.0);
    }
    assert drive.entries == once;
  }

  /** `create_lancamento_folder`: the folders named after the record, dated by the clock reading `now`. */
  method CreateEntryFolder(drive: DriveStore, f: Fields, root: FileId, now: Date,
                           linkOf: FileId -> Option<string>, faults: FolderFaults)
    returns (r: Result<(FileId, string)>)
    requires drive.Valid() && root < drive.nextId && ValidDate(now)
    modifies drive
    ensures drive.Valid()
    ensures old(drive.entries) <= drive.entries && |drive.entries| <= |old(drive.entries)| + 2
    ensures faults.month.None? && faults.entry.None? ==>
              drive.entries == old(drive.entries) + PathCreates(old(drive.entries), old(drive.nextId), root,
                                                                MonthFolderName(f, now), BuildFolderName(f))
    ensures drive.entries == old(drive.entries) + FolderStepEntries(old(drive.entries), old(drive.nextId), root,
                                                                    MonthFolderName(f, now), BuildFolderName(f), faults)
    ensures r.Success? ==> InFolderPath(drive.entries, root, MonthFolderName(f, now), BuildFolderName(f), r.value.0)
    ensures r.Success? ==> r.value.0 == PathFolder(old(drive.entries), old(drive.nextId), root,
                                                   MonthFolderName(f, now), BuildFolderName(f))
    ensures r.Success? ==> r.value.1 == LinkText(linkOf(r.value.0))
    ensures r.Failure? ==> Some(r.error) == FirstFolderFault(faults)
    ensures r.Success? <==> FirstFolderFault(faults).None?
  {
    var monthName := MonthFolderName(f, now);
    var entryName := BuildFolderName(f);
    r := CreateFolderPath(drive, monthName, entryName, root, linkOf, faults);
  }
}
