/** The S3 loader (`scripts/fetch_audio_s3.py`): every object key under the
    `Guitar/` prefix that is not a directory placeholder becomes one
    `resources` row naming the file and a path under `resources/Guitar`. The
    S3 listing is an input; the bucket is never read. */
module FetchAudioS3 {
  import opened Wrappers
  import opened Seqs
  import opened Text
  import opened Paths
  import opened Database

  const BucketName: string := "dataset-guitar"
  const Prefix: string := "Guitar/"
  const FolderName: string := "Guitar"
  const Description: string := "S3 file reference (no local download)"

  /** A key ending in `/` is a directory placeholder. */
  predicate IsDirectoryKey(key: string) {
    EndsWith(key, "/")
  }

  /** The keys that are recorded. */
  predicate IsFileKey(key: string) {
    !IsDirectoryKey(key)
  }

  /** The row recorded for one key. */
  function S3Record(key: string): ResourceRecord {
    var filename := Basename(key);
    ResourceRecord(filename, Join(Join("resources", FolderName), filename), Description)
  }

  /** The rows the loop collects: one per file key, in listing order. */
  function S3Records(keys: seq<string>): seq<ResourceRecord> {
    FilterMap(keys, IsFileKey, S3Record)
  }

  /** A recorded key that is not empty names a non-empty, separator-free file
      that ends the key, stored under `resources/Guitar/`. */
  lemma S3RecordShape(key: string)
    requires key != [] && !IsDirectoryKey(key)
    ensures var r := S3Record(key);
      && r.filename != [] && Sep !in r.filename && EndsWith(key, r.filename)
      && r.folderPath == "resources/Guitar/" + r.filename
      && r.description == Description
  {
    var filename := Basename(key);
    assert key[|key| - 1] != Sep by {
      assert key[|key| - 1..] == [key[|key| - 1]];
    }
    BasenameEmpty(key);
    assert filename[0] in filename;
    var dir := Join("resources", FolderName);
    assert dir == "resources/Guitar" by {
      JoinName("resources", FolderName);
      assert "resources" + [Sep] + "Guitar" == "resources/Guitar";
    }
    JoinName(dir, filename);
    assert dir + [Sep] == "resources/Guitar/";
  }

  /** Every row comes from a key of the listing that is not a directory
      placeholder. */
  lemma S3RecordsFromFiles(keys: seq<string>)
    ensures forall r :: r in S3Records(keys) ==>
      exists k :: k in keys && !IsDirectoryKey(k) && r == S3Record(k)
  {
    FilterMapFrom(keys, IsFileKey, S3Record);
  }

  /** One row per file key, in listing order: row `i` is the row of the
      `i`-th key that is not a directory placeholder. */
  lemma S3RecordsPerFileKey(keys: seq<string>)
    ensures |S3Records(keys)| == |Filter(keys, IsFileKey)|
    ensures forall i :: 0 <= i < |S3Records(keys)| ==> S3Records(keys)[i] == S3Record(Filter(keys, IsFileKey)[i])
    ensures forall k :: k in Filter(keys, IsFileKey) <==> k in keys && !IsDirectoryKey(k)
  {
    FilterMapAt(keys, IsFileKey, S3Record);
    FilterMembers(keys, IsFileKey);
  }

  /** The `for obj in objects_response["Contents"]` loop. */
  method BuildRecords(keys: seq<string>) returns (records: seq<ResourceRecord>)
    ensures records == S3Records(keys)
  {
    records := [];
    for j := 0 to |keys|
      invariant records == FilterMap(keys[..j], IsFileKey, S3Record)
    {
      assert keys[..j + 1][..j] == keys[..j];
      var key := keys[j];
      if !IsDirectoryKey(key) {
        records := records + [S3Record(key)];
      }
    }
    assert keys[..|keys|] == keys;
  }

  /** The script: a listing without `Contents`, or with no file keys, exits
      with code 0 and inserts nothing; otherwise all rows are appended to
      `resources` at once. */
  method Run(db: Db, contents: Option<seq<string>>) returns (outcome: ScriptOutcome)
    modifies db`resources
    ensures contents.None? ==>
      outcome == Exited(0, "No objects found at s3://" + BucketName + "/" + Prefix)
      && db.resources == old(db.resources)
    ensures contents.Some? && Filter(contents.value, IsFileKey) == [] ==>
      outcome == Exited(0, "No files found under prefix " + Prefix + ".")
      && db.resources == old(db.resources)
    ensures contents.Some? && Filter(contents.value, IsFileKey) != [] ==>
      outcome == Inserted(InsertedMessage)
      && db.resources == old(db.resources) + S3Records(contents.value)
  {
    if contents.None? {
      return Exited(0, "No objects found at s3://" + BucketName + "/" + Prefix);
    }
    var records := BuildRecords(contents.value);
    FilterMapAt(contents.value, IsFileKey, S3Record);
    if records == [] {
      return Exited(0, "No files found under prefix " + Prefix + ".");
    }
    db.AppendResources(records);
    outcome := Inserted(InsertedMessage);
  }
}
