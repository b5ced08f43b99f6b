/** The storage service (`server/app/services/storage.py`): paths under the
    configured storage directory, chunk writes at an offset, the streamed
    SHA-256 of a file, and the rename that finalizes an upload.

    The file system is a map from paths to byte contents together with the
    set of existing directories; a path is the sequence of its components,
    so `dir / name` appends one component. */
module Storage {
  import opened Base
  import opened Digest

  type Path = seq<string>

  /** What the storage functions read from their surroundings: the configured
      `settings.storage_dir`, and the SHA-256 compression function, which the
      model leaves uninterpreted. */
  datatype Env = Env(storageDir: Path, hash: Bytes -> Bytes)

  /** Block size of the streamed digest: 1 MiB per `read`. */
  const BlockSize: nat := 1024 * 1024

  /** `path.parent`; the root is its own parent. */
  function Parent(p: Path): Path {
    if p == [] then [] else p[..|p| - 1]
  }

  /** `dir / name` for a single component `name`. */
  function Join(dir: Path, name: string): (p: Path)
    ensures Parent(p) == dir && |p| == |dir| + 1 && p[|dir|] == name
  {
    dir + [name]
  }

  /** `get_upload_path(upload_id)`: the staging file of an upload. */
  function UploadPath(storageDir: Path, uploadId: Uuid): (p: Path)
    ensures |p| == |storageDir| + 2 && p[..|storageDir|] == storageDir
    ensures p[|storageDir|] == "uploads" && p[|storageDir| + 1] == uploadId
  {
    Join(Join(storageDir, "uploads"), uploadId)
  }

  /** `storage_dir / "segments" / str(segment_id)`: where a segment's
      published files live. */
  function SegmentDir(storageDir: Path, segmentId: Uuid): Path {
    Join(Join(storageDir, "segments"), segmentId)
  }

  /** Distinct uploads stage into distinct files, and a staging file is never
      the destination of a published file. */
  lemma StagingPathsSeparate(root: Path, a: Uuid, b: Uuid, segmentId: Uuid, name: string)
    ensures UploadPath(root, a) == UploadPath(root, b) <==> a == b
    ensures UploadPath(root, a) != Join(SegmentDir(root, segmentId), name)
  {
    if UploadPath(root, a) == UploadPath(root, b) {
      assert UploadPath(root, a)[|root| + 1] == a;
    }
    assert UploadPath(root, a)[|root|] == "uploads";
    assert Join(SegmentDir(root, segmentId), name)[|root|] == "segments";
  }

  /** `path.relative_to(base)`: the components after `base`, or the
      `ValueError` raised when `path` is not under `base`. */
  function RelativeTo(p: Path, base: Path): (r: Option<Path>)
    ensures r.Some? <==> |base| <= |p| && p[..|base|] == base
    ensures r.Some? ==> base + r.value == p
  {
    if |base| <= |p| && p[..|base|] == base then Some(p[|base|..]) else None
  }

  /** `str(path)` of a relative path: components joined by "/", and "." for
      the empty path. */
  function PathString(p: Path): (s: string)
    ensures p == [] ==> s == "."
    ensures p != [] ==> |s| >= |p[0]| && s[..|p[0]|] == p[0]
  {
    if p == [] then "."
    else if |p| == 1 then p[0]
    else p[0] + "/" + PathString(p[1..])
  }

  /** The number of slashes in a string. */
  function Slashes(s: string): nat {
    if s == [] then 0 else (if s[0] == '/' then 1 else 0) + Slashes(s[1..])
  }

  lemma {:induction false} SlashesAppend(a: string, b: string)
    ensures Slashes(a + b) == Slashes(a) + Slashes(b)
  {
    if a != [] {
      assert (a + b)[1..] == a[1..] + b;
      SlashesAppend(a[1..], b);
    } else {
      assert a + b == b;
    }
  }

  /** Components without a slash of their own are separated by exactly one
      slash each: a path of `n` components renders with `n - 1` slashes. */
  lemma {:induction false} PathStringSeparators(p: Path)
    requires p != [] && forall i :: 0 <= i < |p| ==> Slashes(p[i]) == 0
    ensures Slashes(PathString(p)) == |p| - 1
  {
    if |p| > 1 {
      PathStringSeparators(p[1..]);
      SlashesAppend(p[0], "/");
      SlashesAppend(p[0] + "/", PathString(p[1..]));
      assert Slashes("/") == 1;
    }
  }

  /** The `storage_uri` of a file published under a segment is
      `segments/<segment_id>/<name>`, relative to the storage directory. */
  lemma SegmentFileUri(root: Path, segmentId: Uuid, name: string)
    ensures RelativeTo(Join(SegmentDir(root, segmentId), name), root) == Some(["segments", segmentId, name])
    ensures PathString(["segments", segmentId, name]) == "segments/" + segmentId + "/" + name
  {
    var p := Join(SegmentDir(root, segmentId), name);
    assert p == root + ["segments", segmentId, name];
    assert p[..|root|] == root;
    assert p[|root|..] == ["segments", segmentId, name];
    var rel: Path := ["segments", segmentId, name];
    assert rel[1..] == [segmentId, name] && rel[1..][1..] == [name];
    assert PathString([segmentId, name]) == segmentId + "/" + name;
  }

  /** Every directory that `mkdir(parents=True)` on `d` leaves existing: `d`
      and all its ancestors. */
  function Ancestry(d: Path): (a: set<Path>)
    ensures d in a && Parent(d) in a
  {
    assert d == d[..|d|];
    assert Parent(d) == d[..if d == [] then 0 else |d| - 1];
    set k | 0 <= k <= |d| :: d[..k]
  }

  /** The bytes of a file after `seek(offset)` and `write(data)` on a file
      opened without truncation: `data` replaces the window it covers, bytes
      outside the window keep their values, and a gap between the old end
      and `offset` reads as zeros. Writing nothing leaves the file as it is,
      even when `offset` lies past its end: a seek alone does not extend a
      file. */
  function WriteAt(content: Bytes, offset: nat, data: Bytes): (r: Bytes)
    ensures |r| == if data == [] then |content| else Max(|content|, offset + |data|)
    ensures forall i :: 0 <= i < |data| ==> r[offset + i] == data[i]
    ensures forall i :: 0 <= i < offset && i < |content| ==> r[i] == content[i]
    ensures forall i :: |content| <= i < offset && data != [] ==> r[i] == 0
    ensures forall i :: offset + |data| <= i < |content| ==> r[i] == content[i]
  {
    if data == [] then content
    else
    var padded := if offset <= |content| then content else content + Zeros(offset - |content|);
    var tail := if offset + |data| < |content| then content[offset + |data|..] else [];
    padded[..offset] + data + tail
  }

  /** Writing nothing changes nothing, wherever the seek went: a file of 2
      bytes written with no data at offset 5 stays 2 bytes long. */
  lemma EmptyWriteKeepsFile(content: Bytes, offset: nat)
    ensures WriteAt(content, offset, []) == content
    ensures |WriteAt([1, 2], 5, [])| == 2
  {
  }

  /** A write at the current end of a file appends. */
  lemma WriteAtEnd(content: Bytes, data: Bytes)
    ensures WriteAt(content, |content|, data) == content + data
  {
    var r := WriteAt(content, |content|, data);
    assert r[..|content|] == content;
    assert r == r[..|content|] + r[|content|..|content| + |data|];
  }

  /** The state of the file system: file contents and existing directories. */
  datatype FsState = FsState(files: map<Path, Bytes>, dirs: set<Path>)

  /** The contents a file is opened with: none when it does not exist. */
  function ContentOf(s: FsState, p: Path): Bytes {
    if p in s.files then s.files[p] else []
  }

  /** Every file sits in an existing directory. */
  predicate WellFormed(s: FsState) {
    forall p :: p in s.files ==> Parent(p) in s.dirs
  }

  function MakeDirsSpec(s: FsState, d: Path): FsState {
    s.(dirs := s.dirs + Ancestry(d))
  }

  function WriteChunkSpec(s: FsState, p: Path, data: Bytes, offset: nat): FsState {
    FsState(s.files[p := WriteAt(ContentOf(s, p), offset, data)], s.dirs + Ancestry(Parent(p)))
  }

  function FinalizeSpec(s: FsState, src: Path, dest: Path): FsState
    requires src in s.files
  {
    FsState((s.files - {src})[dest := s.files[src]], s.dirs + Ancestry(Parent(dest)))
  }

  function UnlinkSpec(s: FsState, p: Path): FsState {
    s.(files := s.files - {p})
  }

  /** The storage-touching operations keep every file inside an existing
      directory. */
  lemma SpecsKeepWellFormed(s: FsState, p: Path, q: Path, data: Bytes, offset: nat)
    requires WellFormed(s)
    ensures WellFormed(MakeDirsSpec(s, p))
    ensures WellFormed(WriteChunkSpec(s, p, data, offset))
    ensures WellFormed(UnlinkSpec(s, p))
    ensures p in s.files ==> WellFormed(FinalizeSpec(s, p, q))
  {
  }

  /** The local file system, updated in place by the storage functions. */
  class FileSystem {
    var files: map<Path, Bytes>
    var dirs: set<Path>

    function State(): FsState
      reads this
    {
      FsState(files, dirs)
    }

    predicate Valid()
      reads this
    {
      WellFormed(State())
    }

    /** `d.mkdir(parents=True, exist_ok=True)`. */
    method MakeDirs(d: Path)
      requires Valid()
      modifies this
      ensures Valid() && State() == MakeDirsSpec(old(State()), d)
    {
      dirs := dirs + Ancestry(d);
    }

    /** `ensure_parent(path)`. */
    method EnsureParent(p: Path)
      requires Valid()
      modifies this
      ensures Valid() && State() == MakeDirsSpec(old(State()), Parent(p))
    {
      MakeDirs(Parent(p));
    }

    /** `write_chunk(path, data, offset)`: creates the parent directory and,
        when missing, the file; writes `data` at `offset` without truncating;
        returns the number of bytes written. */
    method WriteChunk(p: Path, data: Bytes, offset: nat) returns (n: nat)
      requires Valid()
      modifies this
      ensures Valid() && State() == WriteChunkSpec(old(State()), p, data, offset)
      ensures n == |data|
    {
      EnsureParent(p);
      var content := if p in files then files[p] else [];
      files := files[p := WriteAt(content, offset, data)];
      n := |data|;
    }

    /** `compute_sha256(path)`: reads the file in blocks of `BlockSize` until
        a read comes back empty, feeding each block to one hasher. */
    method ComputeSha256(p: Path, hash: Bytes -> Bytes) returns (digest: string)
      requires p in files
      ensures digest == Sha256Hex(hash, files[p])
    {
      var content := files[p];
      var hasher := NewHasher();
      var pos := 0;
      var block := content[pos..Min(pos + BlockSize, |content|)];
      while block != []
        invariant 0 <= pos <= |content|
        invariant hasher.absorbed == content[..pos]
        invariant block == content[pos..Min(pos + BlockSize, |content|)]
        decreases |content| - pos
      {
        hasher := hasher.Update(block);
        assert content[..pos] + block == content[..pos + |block|];
        pos := pos + |block|;
        block := content[pos..Min(pos + BlockSize, |content|)];
      }
      assert content[..pos] == content;
      digest := hasher.HexDigest(hash);
    }

    /** `finalize_upload(path, dest)`: moves the staging file onto `dest`
        (replacing any file there), then reports the digest and size of what
        `dest` now holds. */
    method FinalizeUpload(src: Path, dest: Path, hash: Bytes -> Bytes) returns (sha: string, size: nat)
      requires Valid() && src in files
      modifies this
      ensures Valid() && State() == FinalizeSpec(old(State()), src, dest)
      ensures sha == Sha256Hex(hash, old(files[src])) && size == |old(files[src])|
    {
      EnsureParent(dest);
      files := (files - {src})[dest := files[src]];
      size := |files[dest]|;
      sha := ComputeSha256(dest, hash);
    }

    /** `path.unlink(missing_ok=True)`. */
    method Unlink(p: Path)
      requires Valid()
      modifies this
      ensures Valid() && State() == UnlinkSpec(old(State()), p)
    {
      files := files - {p};
    }

    /** `path.write_bytes(data)` (and `write_text` after encoding): replaces
        the whole contents of a file in an existing directory. */
    method WriteBytes(p: Path, data: Bytes)
      requires Valid() && Parent(p) in dirs
      modifies this
      ensures Valid() && files == old(files)[p := data] && dirs == old(dirs)
    {
      files := files[p := data];
    }
  }
}
