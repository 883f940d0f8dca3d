/** The Google Drive loader (`scripts/fetch_audio.py`): the folder id is taken
    from the share link with the pattern `folders/([^?]+)`, and every file the
    directory walk finds after the download becomes one `resources` row under
    `resources/Guitar`. The download and the walk are inputs here. */
module FetchAudio {
  import opened Wrappers
  import opened Seqs
  import opened Text
  import opened Paths
  import opened Database

  /** The literal part of the pattern. */
  const Marker: string := "folders/"
  /** The script's share link, written in its four parts:
      `https://drive.google.com/drive/folders/1CH7arPsru4ejyj_Wm7dlPY0Np60YJeI7?usp=sharing`. */
  const LinkHead: string := "https://drive.google.com/drive/"
  const LinkFolderId: string := "1CH7arPsru4ejyj_Wm7dlPY0Np60YJeI7"
  const LinkQuery: string := "?usp=sharing"
  const FolderLink: string := LinkHead + Marker + LinkFolderId + LinkQuery
  const FolderName: string := "Guitar"
  const Description: string := "File downloaded from public Google Drive folder to static directory"

  /** Length of the run of characters other than `?` that starts at `i`:
      what the greedy `[^?]+` consumes. */
  function RunLength(s: string, i: nat): (n: nat)
    requires i <= |s|
    ensures i + n <= |s|
    ensures forall k :: i <= k < i + n ==> s[k] != '?'
    ensures i + n == |s| || s[i + n] == '?'
    decreases |s| - i
  {
    if i == |s| || s[i] == '?' then 0 else 1 + RunLength(s, i + 1)
  }

  /** The pattern matches at `p`: the marker, then at least one character
      other than `?`. */
  predicate MatchesAt(s: string, p: nat) {
    p + |Marker| < |s| && s[p..p + |Marker|] == Marker && s[p + |Marker|] != '?'
  }

  /** `id` is the group of a match at `p`: a non-empty run without `?`, right
      after the marker, that stops at a `?` or at the end. */
  predicate GroupAt(s: string, p: nat, id: string) {
    var start := p + |Marker|;
    && id != []
    && start + |id| <= |s|
    && s[start..start + |id|] == id
    && '?' !in id
    && (start + |id| == |s| || s[start + |id|] == '?')
  }

  /** The group of a match is determined by where the match starts. */
  lemma GroupAtUnique(s: string, p: nat, a: string, b: string)
    requires GroupAt(s, p, a) && GroupAt(s, p, b)
    ensures a == b
  {
    assert |a| == |b|;
  }

  /** `re.search` from position `p`: the leftmost match at or after `p`. */
  function SearchFrom(s: string, p: nat): (r: Option<nat>)
    requires p <= |s|
    ensures r.None? ==> forall q :: p <= q < |s| ==> !MatchesAt(s, q)
    ensures r.Some? ==>
      && p <= r.value < |s| && MatchesAt(s, r.value)
      && (forall q :: p <= q < r.value ==> !MatchesAt(s, q))
    decreases |s| - p
  {
    if p == |s| then None
    else if MatchesAt(s, p) then Some(p)
    else SearchFrom(s, p + 1)
  }

  /** `match.group(1)`, or `None` when the link does not match. */
  function ExtractFolderId(link: string): (id: Option<string>)
    ensures id.None? <==> forall p :: 0 <= p < |link| ==> !MatchesAt(link, p)
    ensures id.Some? ==> exists p ::
      && 0 <= p < |link| && MatchesAt(link, p) && GroupAt(link, p, id.value)
      && (forall q :: 0 <= q < p ==> !MatchesAt(link, q))
  {
    match SearchFrom(link, 0)
    case None => None
    case Some(p) =>
      var start := p + |Marker|;
      var id := link[start..start + RunLength(link, start)];
      assert link[start] in id;
      assert GroupAt(link, p, id);
      Some(id)
  }

  /** Where the parts of the script's link lie. */
  lemma LinkLayout()
    ensures |FolderLink| == 84
    ensures FolderLink[..31] == LinkHead && FolderLink[31..39] == Marker
    ensures FolderLink[39..72] == LinkFolderId && FolderLink[72] == '?'
  {
    var s := FolderLink;
    assert s == LinkHead + Marker + LinkFolderId + LinkQuery;
    assert s[72] == LinkQuery[0];
  }

  /** The link's head holds no `f`, so no match starts in it. */
  lemma NoMatchInHead()
    ensures forall q :: 0 <= q < 31 ==> !MatchesAt(FolderLink, q)
  {
    LinkLayout();
    forall q | 0 <= q < 31
      ensures !MatchesAt(FolderLink, q)
    {
      assert FolderLink[q] == LinkHead[q];
      assert FolderLink[q..q + |Marker|][0] == FolderLink[q];
    }
  }

  /** The script's own link yields the folder id that follows `folders/`. */
  lemma FolderIdOfLink()
    ensures ExtractFolderId(FolderLink) == Some(LinkFolderId)
  {
    var s, id := FolderLink, LinkFolderId;
    LinkLayout();
    NoMatchInHead();
    assert s[39] == id[0];
    assert MatchesAt(s, 31);
    assert GroupAt(s, 31, id);
    var r := ExtractFolderId(s);
    var p :| 0 <= p < |s| && MatchesAt(s, p) && GroupAt(s, p, r.value)
      && forall q :: 0 <= q < p ==> !MatchesAt(s, q);
    assert p == 31;
    GroupAtUnique(s, 31, r.value, id);
  }

  /** The row recorded for one file: `os.path.join("resources", folder_name, file)`. */
  function DriveRecord(file: string): ResourceRecord {
    ResourceRecord(file, Join(Join("resources", FolderName), file), Description)
  }

  /** A file name (which never starts with the separator) is stored under
      `resources/Guitar/` with the fixed description. */
  lemma DriveRecordShape(file: string)
    requires file == [] || file[0] != Sep
    ensures DriveRecord(file).filename == file
    ensures DriveRecord(file).folderPath == "resources/Guitar/" + file
    ensures DriveRecord(file).description == Description
  {
    var dir := Join("resources", FolderName);
    assert dir == "resources/Guitar" by {
      JoinName("resources", FolderName);
      assert "resources" + [Sep] + "Guitar" == "resources/Guitar";
    }
    JoinName(dir, file);
    assert dir + [Sep] == "resources/Guitar/";
  }

  /** The inner `for file in files` loop over one directory. */
  method AppendDirectory(records: seq<ResourceRecord>, ghost done: seq<string>, files: seq<string>)
    returns (records': seq<ResourceRecord>)
    requires records == Map(done, DriveRecord)
    ensures records' == Map(done + files, DriveRecord)
  {
    records' := records;
    assert done + files[..0] == done;
    for j := 0 to |files|
      invariant records' == Map(done + files[..j], DriveRecord)
    {
      MapSnoc(done + files[..j], files[j], DriveRecord);
      assert done + files[..j + 1] == done + files[..j] + [files[j]];
      records' := records' + [DriveRecord(files[j])];
    }
    assert files[..|files|] == files;
  }

  /** The nested `for root, dirs, files in os.walk(...)` / `for file in files`
      loops: one row per file, directory by directory in walk order. */
  method CollectRecords(walk: seq<seq<string>>) returns (records: seq<ResourceRecord>)
    ensures records == Map(Flatten(walk), DriveRecord)
  {
    records := [];
    for d := 0 to |walk|
      invariant records == Map(Flatten(walk[..d]), DriveRecord)
    {
      records := AppendDirectory(records, Flatten(walk[..d]), walk[d]);
      assert walk[..d + 1] == walk[..d] + [walk[d]];
      FlattenSnoc(walk[..d], walk[d]);
    }
    assert walk[..|walk|] == walk;
  }

  /** The stored path depends on the file name only: two walked files with
      the same name, in whatever directories, get the same path. */
  lemma SameNameSamePath(walk: seq<seq<string>>, i: nat, j: nat)
    requires i < |Flatten(walk)| && j < |Flatten(walk)|
    requires Flatten(walk)[i] == Flatten(walk)[j]
    ensures Map(Flatten(walk), DriveRecord)[i].folderPath == Map(Flatten(walk), DriveRecord)[j].folderPath
  {
    MapAt(Flatten(walk), DriveRecord);
  }

  /** The script: a link without a folder id exits with code 1, a walk that
      finds no file exits with code 0, and otherwise all rows are appended to
      `resources` at once. */
  method Run(db: Db, link: string, walk: seq<seq<string>>) returns (outcome: ScriptOutcome)
    modifies db`resources
    ensures ExtractFolderId(link).None? ==>
      outcome == Exited(1, "Invalid folder link provided!") && db.resources == old(db.resources)
    ensures ExtractFolderId(link).Some? && Flatten(walk) == [] ==>
      outcome == Exited(0, "No files found in the destination directory.")
      && db.resources == old(db.resources)
    ensures ExtractFolderId(link).Some? && Flatten(walk) != [] ==>
      outcome == Inserted(InsertedMessage)
      && db.resources == old(db.resources) + Map(Flatten(walk), DriveRecord)
  {
    var folderId := ExtractFolderId(link);
    if folderId.None? {
      return Exited(1, "Invalid folder link provided!");
    }
    var records := CollectRecords(walk);
    if records == [] {
      return Exited(0, "No files found in the destination directory.");
    }
    db.AppendResources(records);
    outcome := Inserted(InsertedMessage);
  }
}
