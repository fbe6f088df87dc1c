// Skill synchronisation: the diff between the skill folders found in the
// local skills directory and the skill rows stored in the database, the
// detection of a single root folder in an uploaded ZIP's entry names, the
// SKILL.md presence check on upload, and the metadata defaults. Directory
// scans, ZIP extraction and the reading of SKILL.md are inputs.

module Skills {
  import opened Text

  // ---------------------------------------------------------------- metadata

  datatype SkillMetadata = SkillMetadata(name: string, description: string, version: string, author: string)

  /** What the patterns found in a SKILL.md: the first heading, the first paragraph after a
      heading and a version number, each None when it did not match. */
  datatype Parsed = Parsed(heading: Option<string>, paragraph: Option<string>, version: Option<string>)

  /** The metadata used when SKILL.md says nothing: named after the folder. */
  function DefaultMetadata(dirName: string): SkillMetadata
  {
    SkillMetadata(dirName, "Skill: " + dirName, "1.0.0", "unknown")
  }

  /** extract_skill_metadata: every field found in SKILL.md (None when the file is missing)
      replaces its default; the author is always "unknown". */
  function ExtractMetadata(dirName: string, parsed: Option<Parsed>): (m: SkillMetadata)
    ensures m.author == "unknown"
    ensures parsed.None? ==> m == DefaultMetadata(dirName)
    ensures parsed.Some? && parsed.value.heading.None? ==> m.name == dirName
    ensures parsed.Some? && parsed.value.paragraph.None? ==> m.description == "Skill: " + dirName
    ensures parsed.Some? && parsed.value.version.None? ==> m.version == "1.0.0"
  {
    var d := DefaultMetadata(dirName);
    match parsed
    case None => d
    case Some(p) =>
      SkillMetadata(
        if p.heading.Some? then Strip(p.heading.value) else d.name,
        if p.paragraph.Some? then Strip(p.paragraph.value) else d.description,
        if p.version.Some? then p.version.value else d.version,
        d.author)
  }

  /** A SKILL.md in which no pattern matches gives the same metadata as a missing one. */
  lemma NothingParsedIsDefault(dirName: string)
    ensures ExtractMetadata(dirName, Some(Parsed(None, None, None))) == ExtractMetadata(dirName, None)
  {
  }

  // ---------------------------------------------------------------- ZIP checks

  /** The part of an entry name before its first '/' (all of it when there is none). */
  function FirstSegment(s: string): (r: string)
    ensures '/' !in r && StartsWith(s, r)
    ensures '/' in s ==> |r| < |s| && s[|r|] == '/'
    ensures '/' !in s ==> r == s
    decreases |s|
  {
    if s == [] || s[0] == '/' then []
    else
      var t := FirstSegment(s[1..]);
      assert '/' in s ==> '/' in s[1..] by {
        if '/' in s {
          var i :| 0 <= i < |s| && s[i] == '/';
          assert s[1..][i - 1] == '/';
        }
      }
      [s[0]] + t
  }

  /** An entry that sits inside a top-level folder, as `len(name.split('/')) > 1 and parts[0]`. */
  predicate InFolder(name: string)
  {
    '/' in name && FirstSegment(name) != ""
  }

  /** The top-level folders the entries sit in. */
  function RootFolders(names: seq<string>): (roots: set<string>)
    decreases |names|
  {
    if names == [] then {}
    else
      var n := names[|names| - 1];
      RootFolders(names[..|names| - 1]) + (if InFolder(n) then {FirstSegment(n)} else {})
  }

  /** A folder is a root folder exactly when some entry sits inside it. */
  lemma {:induction false} RootFoldersAreEntryFolders(names: seq<string>, r: string)
    ensures r in RootFolders(names) <==>
              exists i :: 0 <= i < |names| && InFolder(names[i]) && FirstSegment(names[i]) == r
    decreases |names|
  {
    if names != [] {
      var init := names[..|names| - 1];
      RootFoldersAreEntryFolders(init, r);
      assert forall i :: 0 <= i < |init| ==> init[i] == names[i];
    }
  }

  /** The root-folder detection of extract_zip_to_directory: the single folder every
      foldered entry sits in, or None when there are none or several. */
  method SingleRootFolder(names: seq<string>) returns (root: Option<string>)
    ensures root.Some? <==> |RootFolders(names)| == 1
    ensures root.Some? ==> RootFolders(names) == {root.value}
  {
    var roots: set<string> := {};
    for i := 0 to |names|
      invariant roots == RootFolders(names[..i])
    {
      assert names[..i + 1][..i] == names[..i];
      var name := names[i];
      if '/' in name && FirstSegment(name) != "" {
        roots := roots + {FirstSegment(name)};
      }
    }
    assert names[..|names|] == names;
    if |roots| == 1 {
      var r :| r in roots;
      assert |roots - {r}| == 0;
      assert roots == {r};
      root := Some(r);
    } else {
      root := None;
    }
  }

  /** Two entries in different top-level folders mean the ZIP is not single-rooted. */
  lemma TwoFoldersNoSingleRoot(names: seq<string>, i: nat, j: nat)
    requires i < |names| && j < |names| && InFolder(names[i]) && InFolder(names[j])
    requires FirstSegment(names[i]) != FirstSegment(names[j])
    ensures |RootFolders(names)| != 1
  {
    var a, b := FirstSegment(names[i]), FirstSegment(names[j]);
    RootFoldersAreEntryFolders(names, a);
    RootFoldersAreEntryFolders(names, b);
    var roots := RootFolders(names);
    assert b in roots - {a};
    assert roots == (roots - {a}) + {a};
  }

  const SkillFile: string := "SKILL.md"

  /** The check of upload_skill_package: some entry's name ends in SKILL.md. */
  function HasSkillFile(names: seq<string>): (ok: bool)
    ensures ok <==> exists i :: 0 <= i < |names| && EndsWith(names[i], SkillFile)
    decreases |names|
  {
    if names == [] then false
    else EndsWith(names[|names| - 1], SkillFile) || HasSkillFile(names[..|names| - 1])
  }

  /** upload_skill_package rejects a package without SKILL.md before extracting anything. */
  function CheckPackage(names: seq<string>): (r: Result<(), string>)
    ensures r.Ok? <==> HasSkillFile(names)
    ensures r.Err? ==> r.error == "ZIP must contain a SKILL.md file"
  {
    if HasSkillFile(names) then Ok(()) else Err("ZIP must contain a SKILL.md file")
  }

  /** The suffix test also accepts an entry whose file is not called SKILL.md. */
  lemma SuffixTestAcceptsOtherFiles()
    ensures CheckPackage(["MYSKILL.md"]).Ok?
    ensures LastSegment("MYSKILL.md", '/') != SkillFile
  {
    assert EndsWith("MYSKILL.md", SkillFile);
    assert LastSegment("MYSKILL.md", '/') == "MYSKILL.md";
  }

  // ---------------------------------------------------------------- refresh

  /** A skill row from the database (the keys refresh reads; None when a key is absent). */
  datatype DbSkill = DbSkill(folderName: Option<string>, name: Option<string>,
                             sourceType: Option<string>, localPath: Option<string>)

  /** A skill folder found locally: its name and its path. */
  datatype LocalSkill = LocalSkill(folder: string, path: string)

  /** The folder a row is keyed by: its folder_name, or else its name lowercased with spaces
      turned into dashes. */
  function FolderKey(s: DbSkill): (k: string)
    ensures Truthy(s.folderName) ==> k == s.folderName.value
    ensures !Truthy(s.folderName) ==> ' ' !in k && |k| == |if s.name.Some? then s.name.value else ""|
  {
    if Truthy(s.folderName) then s.folderName.value
    else ReplaceChar(Lower(if s.name.Some? then s.name.value else ""), ' ', '-')
  }

  /** Without a folder name, the key is the name character by character: spaces become dashes and
      upper-case letters are lowered. */
  lemma FolderKeyFromName(s: DbSkill)
    requires !Truthy(s.folderName)
    ensures var n := if s.name.Some? then s.name.value else "";
            |FolderKey(s)| == |n|
            && forall i :: 0 <= i < |n| ==> FolderKey(s)[i] == if n[i] == ' ' then '-' else LowerChar(n[i])
  {
  }

  predicate IsPlugin(s: DbSkill)
  {
    s.sourceType == Some("plugin")
  }

  /** The source of a user row: "user" when the row has none. */
  function SourceOf(s: DbSkill): string
  {
    if s.sourceType.Some? then s.sourceType.value else "user"
  }

  predicate Distinct(xs: seq<string>)
  {
    forall i, j :: 0 <= i < j < |xs| ==> xs[i] != xs[j]
  }

  /** The rows by folder: user rows (with their folders in first-insertion order, as a dict keeps
      them) and plugin rows; a later row replaces an earlier one with the same folder, and a row
      with an empty folder is dropped. */
  datatype Index = Index(user: map<string, DbSkill>, order: seq<string>, plugins: map<string, DbSkill>)

  ghost predicate WellOrdered(ix: Index)
  {
    Distinct(ix.order) && (forall k :: k in ix.order <==> k in ix.user)
  }

  function IndexOf(db: seq<DbSkill>): (ix: Index)
    ensures WellOrdered(ix)
    decreases |db|
  {
    if db == [] then Index(map[], [], map[])
    else
      var ix := IndexOf(db[..|db| - 1]);
      var s := db[|db| - 1];
      var k := FolderKey(s);
      if k == "" then ix
      else if IsPlugin(s) then ix.(plugins := ix.plugins[k := s])
      else ix.(user := ix.user[k := s], order := if k in ix.user then ix.order else ix.order + [k])
  }

  /** The row is a user row keyed by k. */
  predicate UserRow(s: DbSkill, k: string)
  {
    FolderKey(s) == k && k != "" && !IsPlugin(s)
  }

  /** The row is a plugin row keyed by k. */
  predicate PluginRow(s: DbSkill, k: string)
  {
    FolderKey(s) == k && k != "" && IsPlugin(s)
  }

  /** A folder is indexed as a user skill exactly when some user row is keyed by it. */
  lemma {:induction false} UserFolders(db: seq<DbSkill>, k: string)
    ensures k in IndexOf(db).user <==> exists i :: 0 <= i < |db| && UserRow(db[i], k)
    decreases |db|
  {
    if db != [] {
      var init := db[..|db| - 1];
      UserFolders(init, k);
      if !UserRow(db[|db| - 1], k) {
        assert (exists i :: 0 <= i < |db| && UserRow(db[i], k))
               == (exists i :: 0 <= i < |init| && UserRow(init[i], k)) by {
          assert forall i :: 0 <= i < |init| ==> init[i] == db[i];
        }
      }
    }
  }

  /** A folder is indexed as a plugin skill exactly when some plugin row is keyed by it. */
  lemma {:induction false} PluginFolders(db: seq<DbSkill>, k: string)
    ensures k in IndexOf(db).plugins <==> exists i :: 0 <= i < |db| && PluginRow(db[i], k)
    decreases |db|
  {
    if db != [] {
      var init := db[..|db| - 1];
      PluginFolders(init, k);
      var last := db[|db| - 1];
      if !PluginRow(last, k) {
        assert k in IndexOf(db).plugins <==> k in IndexOf(init).plugins by {
          var fk := FolderKey(last);
          if fk != "" && IsPlugin(last) {
            assert fk != k;
          }
        }
        assert (exists i :: 0 <= i < |db| && PluginRow(db[i], k))
               == (exists i :: 0 <= i < |init| && PluginRow(init[i], k)) by {
          assert forall i :: 0 <= i < |init| ==> init[i] == db[i];
        }
      }
    }
  }

  /** The local folders, as the set refresh tests membership in. */
  function Folders(local: seq<LocalSkill>): (fs: set<string>)
    ensures forall i :: 0 <= i < |local| ==> local[i].folder in fs
    ensures forall f :: f in fs ==> exists i :: 0 <= i < |local| && local[i].folder == f
  {
    set l | l in local :: l.folder
  }

  predicate DistinctFolders(local: seq<LocalSkill>)
  {
    forall i, j :: 0 <= i < j < |local| ==> local[i].folder != local[j].folder
  }

  /** The folders of the local skills satisfying keep, in order. */
  function Select(local: seq<LocalSkill>, keep: LocalSkill -> bool): (r: seq<string>)
    ensures |r| <= |local|
    ensures forall j :: 0 <= j < |r| ==> exists i :: 0 <= i < |local| && local[i].folder == r[j] && keep(local[i])
    ensures DistinctFolders(local) ==> Distinct(r)
    decreases |local|
  {
    if local == [] then []
    else
      var init := local[..|local| - 1];
      var l := local[|local| - 1];
      var r := Select(init, keep);
      if keep(l) then
        assert forall j :: 0 <= j < |r| ==> exists i :: 0 <= i < |init| && init[i].folder == r[j];
        r + [l.folder]
      else r
  }

  lemma {:induction false} SelectIff(local: seq<LocalSkill>, keep: LocalSkill -> bool, i: nat)
    requires i < |local|
    ensures keep(local[i]) ==> local[i].folder in Select(local, keep)
    decreases |local|
  {
    if i < |local| - 1 {
      var init := local[..|local| - 1];
      assert init[i] == local[i];
      SelectIff(init, keep, i);
    }
  }

  /** A local skill that is new: neither a plugin's folder nor already stored. */
  function IsNew(ix: Index): LocalSkill -> bool
  {
    (l: LocalSkill) => l.folder !in ix.plugins && l.folder !in ix.user
  }

  /** A stored user skill whose local path changed. */
  function IsMoved(ix: Index): LocalSkill -> bool
  {
    (l: LocalSkill) => l.folder !in ix.plugins && l.folder in ix.user && ix.user[l.folder].localPath != Some(l.path)
  }

  /** A new local skill whose metadata could be read. */
  function IsReadable(ix: Index, meta: string -> Option<SkillMetadata>): LocalSkill -> bool
  {
    (l: LocalSkill) => IsNew(ix)(l) && meta(l.folder).Some?
  }

  /** A new local skill whose metadata could not be read. */
  function IsUnreadable(ix: Index, meta: string -> Option<SkillMetadata>): LocalSkill -> bool
  {
    (l: LocalSkill) => IsNew(ix)(l) && meta(l.folder).None?
  }

  function Added(local: seq<LocalSkill>, ix: Index, meta: string -> Option<SkillMetadata>): seq<string>
  {
    Select(local, IsReadable(ix, meta))
  }

  function Failed(local: seq<LocalSkill>, ix: Index, meta: string -> Option<SkillMetadata>): seq<string>
  {
    Select(local, IsUnreadable(ix, meta))
  }

  function Updated(local: seq<LocalSkill>, ix: Index): seq<string>
  {
    Select(local, IsMoved(ix))
  }

  /** The rows to insert for the new local skills: one per added folder, in order, marked as
      local and created by the sync. */
  function NewRecords(local: seq<LocalSkill>, ix: Index, meta: string -> Option<SkillMetadata>): (r: seq<NewSkill>)
    ensures |r| == |Added(local, ix, meta)|
    ensures forall j :: 0 <= j < |r| ==>
              r[j].folderName == Added(local, ix, meta)[j] && r[j].sourceType == "local"
              && r[j].createdBy == "sync" && !r[j].isSystem
              && meta(r[j].folderName).Some? && r[j].name == meta(r[j].folderName).value.name
    decreases |local|
  {
    if local == [] then []
    else
      var l := local[|local| - 1];
      var r := NewRecords(local[..|local| - 1], ix, meta);
      if l.folder !in ix.plugins && l.folder !in ix.user && meta(l.folder).Some?
      then r + [NewRecord(l, meta(l.folder).value)] else r
  }

  /** A row to insert for a local skill. */
  datatype NewSkill = NewSkill(name: string, folderName: string, description: string, version: string,
                               localPath: string, sourceType: string, isSystem: bool, createdBy: string)

  function NewRecord(l: LocalSkill, m: SkillMetadata): NewSkill
  {
    NewSkill(m.name, l.folder, m.description, m.version, l.path, "local", false, "sync")
  }

  /** The user folders with no local folder whose source is "user" or "local", in map order. */
  function Removed(order: seq<string>, user: map<string, DbSkill>, folders: set<string>): (r: seq<string>)
    requires forall k :: k in order ==> k in user
    ensures forall j :: 0 <= j < |r| ==> r[j] in order && r[j] !in folders
    ensures Distinct(order) ==> Distinct(r)
    decreases |order|
  {
    if order == [] then []
    else
      var init := order[..|order| - 1];
      var k := order[|order| - 1];
      var r := Removed(init, user, folders);
      assert forall j :: 0 <= j < |r| ==> r[j] in init;
      if k !in folders && SourceOf(user[k]) in {"user", "local"} then r + [k] else r
  }

  lemma {:induction false} RemovedIff(order: seq<string>, user: map<string, DbSkill>, folders: set<string>, k: string)
    requires forall x :: x in order ==> x in user
    ensures k in Removed(order, user, folders) <==>
              k in order && k !in folders && SourceOf(user[k]) in {"user", "local"}
    decreases |order|
  {
    if order != [] {
      var init := order[..|order| - 1];
      RemovedIff(init, user, folders, k);
      assert order == init + [order[|order| - 1]];
    }
  }

  /** The outcome of refresh; errors names the skills whose metadata could not be read. */
  datatype SyncResult = SyncResult(added: seq<string>, updated: seq<string>, removed: seq<string>,
                                   errors: seq<string>, totalLocal: nat, totalPlugins: nat, totalDb: nat)

  /** The first loop of refresh: the rows by folder. */
  method IndexRows(db: seq<DbSkill>) returns (ix: Index)
    ensures ix == IndexOf(db)
  {
    var user: map<string, DbSkill> := map[];
    var order: seq<string> := [];
    var plugins: map<string, DbSkill> := map[];
    for i := 0 to |db|
      invariant Index(user, order, plugins) == IndexOf(db[..i])
    {
      assert db[..i + 1][..i] == db[..i];
      var s := db[i];
      var folder := FolderKey(s);
      if folder != "" {
        if IsPlugin(s) {
          plugins := plugins[folder := s];
        } else {
          if folder !in user {
            order := order + [folder];
          }
          user := user[folder := s];
        }
      }
    }
    assert db[..|db|] == db;
    ix := Index(user, order, plugins);
  }

  /** The second loop of refresh: each local skill is skipped (a plugin's), added (with its row
      to insert), reported as an error when its metadata cannot be read, or, when its stored path
      differs, updated. */
  method ClassifyLocal(local: seq<LocalSkill>, ix: Index, meta: string -> Option<SkillMetadata>)
    returns (added: seq<string>, updated: seq<string>, errors: seq<string>, toAdd: seq<NewSkill>)
    ensures added == Added(local, ix, meta) && updated == Updated(local, ix)
    ensures errors == Failed(local, ix, meta)
    ensures toAdd == NewRecords(local, ix, meta)
  {
    added, updated, errors, toAdd := [], [], [], [];
    for i := 0 to |local|
      invariant added == Added(local[..i], ix, meta) && updated == Updated(local[..i], ix)
      invariant errors == Failed(local[..i], ix, meta)
      invariant toAdd == NewRecords(local[..i], ix, meta)
    {
      assert local[..i + 1][..i] == local[..i];
      var l := local[i];
      if l.folder in ix.plugins {
        continue;
      }
      if l.folder !in ix.user {
        var m := meta(l.folder);
        if m.None? {
          errors := errors + [l.folder];
        } else {
          toAdd := toAdd + [NewRecord(l, m.value)];
          added := added + [l.folder];
        }
      } else if ix.user[l.folder].localPath != Some(l.path) {
        updated := updated + [l.folder];
      }
    }
    assert local[..|local|] == local;
  }

  /** The third loop of refresh: stored user skills without a local folder, when their source
      is "user" or "local". */
  method CollectRemoved(order: seq<string>, user: map<string, DbSkill>, folders: set<string>)
    returns (removed: seq<string>)
    requires forall k :: k in order ==> k in user
    ensures removed == Removed(order, user, folders)
  {
    removed := [];
    for i := 0 to |order|
      invariant removed == Removed(order[..i], user, folders)
    {
      assert order[..i + 1][..i] == order[..i];
      var k := order[i];
      if k !in folders {
        var source := SourceOf(user[k]);
        if source == "user" || source == "local" {
          removed := removed + [k];
        }
      }
    }
    assert order[..|order|] == order;
  }

  /** refresh: indexes the rows, classifies each local skill and then each stored user skill.
      meta gives the metadata read from a local folder, None when reading it failed. */
  method Refresh(local: seq<LocalSkill>, db: seq<DbSkill>, meta: string -> Option<SkillMetadata>)
    returns (result: SyncResult, toAdd: seq<NewSkill>)
    ensures var ix := IndexOf(db);
            result.added == Added(local, ix, meta) && result.updated == Updated(local, ix)
            && result.removed == Removed(ix.order, ix.user, Folders(local))
            && result.errors == Failed(local, ix, meta)
            && toAdd == NewRecords(local, ix, meta)
    ensures result.totalLocal == |local| && result.totalPlugins == |IndexOf(db).plugins|
            && result.totalDb == |db|
  {
    var ix := IndexRows(db);
    var added, updated, errors;
    added, updated, errors, toAdd := ClassifyLocal(local, ix, meta);
    var removed := CollectRemoved(ix.order, ix.user, Folders(local));
    result := SyncResult(added, updated, removed, errors, |local|, |ix.plugins|, |db|);
  }

  /** A local skill is added exactly when no plugin and no stored user skill has its folder and
      its metadata could be read. */
  lemma AddedIff(local: seq<LocalSkill>, db: seq<DbSkill>, meta: string -> Option<SkillMetadata>, i: nat)
    requires i < |local|
    ensures var ix := IndexOf(db);
            local[i].folder in Added(local, ix, meta) <==>
              local[i].folder !in ix.plugins && local[i].folder !in ix.user && meta(local[i].folder).Some?
  {
    SelectIff(local, IsReadable(IndexOf(db), meta), i);
  }

  /** A local skill is reported as an error exactly when it is new and its metadata could not be
      read; it is then not added. */
  lemma FailedIff(local: seq<LocalSkill>, db: seq<DbSkill>, meta: string -> Option<SkillMetadata>, i: nat)
    requires i < |local|
    ensures var ix := IndexOf(db);
            local[i].folder in Failed(local, ix, meta) <==>
              local[i].folder !in ix.plugins && local[i].folder !in ix.user && meta(local[i].folder).None?
    ensures local[i].folder in Failed(local, IndexOf(db), meta) ==> local[i].folder !in Added(local, IndexOf(db), meta)
  {
    SelectIff(local, IsUnreadable(IndexOf(db), meta), i);
    AddedIff(local, db, meta, i);
  }

  /** A local skill is reported updated exactly when it is stored as a user skill, is not a
      plugin's folder, and its stored path differs. Local folders are directory entries, so no
      two share a name. */
  lemma UpdatedIff(local: seq<LocalSkill>, db: seq<DbSkill>, i: nat)
    requires i < |local| && DistinctFolders(local)
    ensures var ix := IndexOf(db);
            local[i].folder in Updated(local, ix) <==>
              local[i].folder !in ix.plugins && local[i].folder in ix.user
              && ix.user[local[i].folder].localPath != Some(local[i].path)
  {
    var moved := IsMoved(IndexOf(db));
    SelectIff(local, moved, i);
    if local[i].folder in Updated(local, IndexOf(db)) {
      var j :| 0 <= j < |local| && local[j].folder == local[i].folder && moved(local[j]);
      assert j == i;
    }
  }

  /** Plugin folders are never added or updated. */
  lemma PluginsAreSkipped(local: seq<LocalSkill>, db: seq<DbSkill>, meta: string -> Option<SkillMetadata>, f: string)
    requires f in IndexOf(db).plugins
    ensures f !in Added(local, IndexOf(db), meta) && f !in Updated(local, IndexOf(db))
    ensures f !in Failed(local, IndexOf(db), meta)
  {
  }

  /** No folder is both added and removed, nor both added and updated. */
  lemma AddedIsDisjoint(local: seq<LocalSkill>, db: seq<DbSkill>, meta: string -> Option<SkillMetadata>, f: string)
    requires f in Added(local, IndexOf(db), meta)
    ensures f !in Removed(IndexOf(db).order, IndexOf(db).user, Folders(local))
    ensures f !in Updated(local, IndexOf(db))
  {
  }

  /** A stored user skill is removed exactly when its folder is gone locally and its source is
      "user" or "local". */
  lemma RemovedIffOrphaned(local: seq<LocalSkill>, db: seq<DbSkill>, k: string)
    ensures var ix := IndexOf(db);
            k in Removed(ix.order, ix.user, Folders(local)) <==>
              k in ix.user && k !in Folders(local) && SourceOf(ix.user[k]) in {"user", "local"}
  {
    var ix := IndexOf(db);
    RemovedIff(ix.order, ix.user, Folders(local), k);
  }
}
