/**
 The blob store (`storage/BlobStore.cpp`) over one directory tree: where staging files and blobs
 live, and the three operations that change them in place.
 */
module BlobStores {
  import opened Common
  import opened Manifest
  import opened StagingFile

  const STAGING_DIRECTORY := "staging/"
  const STAGING_SUFFIX := ".part"

  /** Nothing but a well-formed digest becomes a path. */
  function StorageKeyFor(sha256: string): (key: string)
    ensures key == "" <==> !IsSha256Hex(sha256)
  {
    if !IsSha256Hex(sha256) then "" else sha256[..2] + "/" + sha256[2..4] + "/" + sha256
  }

  function StagingPathFor(sessionId: string): string {
    STAGING_DIRECTORY + sessionId + STAGING_SUFFIX
  }

  lemma StorageKeysAreInjective(a: string, b: string)
    requires IsSha256Hex(a) && StorageKeyFor(a) == StorageKeyFor(b)
    ensures a == b
  {
    assert StorageKeyFor(a)[6..] == a;
    assert StorageKeyFor(b)[6..] == b;
  }

  lemma StagingPathsAreInjective(a: string, b: string)
    requires StagingPathFor(a) == StagingPathFor(b)
    ensures a == b
  {
    assert StagingPathFor(a)[|STAGING_DIRECTORY|..|STAGING_DIRECTORY| + |a|] == a;
    assert StagingPathFor(b)[|STAGING_DIRECTORY|..|STAGING_DIRECTORY| + |b|] == b;
  }

  /** No session can stage over a blob: the third character of a storage key is its first slash. */
  lemma StagingNeverMeetsStorage(sessionId: string, sha256: string)
    ensures StagingPathFor(sessionId) != StorageKeyFor(sha256)
  {
    assert StagingPathFor(sessionId)[2] == 'a';
    if IsSha256Hex(sha256) {
      assert StorageKeyFor(sha256)[2] == '/';
    }
  }

  function FileAt(files: map<string, Content>, path: string): Option<Content> {
    if path in files then Some(files[path]) else None
  }

  /** A directory tree, seen as staging files by session and blobs by digest. */
  ghost predicate Represents(files: map<string, Content>, staging: map<string, Content>, stored: map<string, Content>) {
    && (forall id :: FileAt(staging, id) == FileAt(files, StagingPathFor(id)))
    && (forall h :: FileAt(stored, h) == if IsSha256Hex(h) then FileAt(files, StorageKeyFor(h)) else None)
  }

  /** What the tree holds for one session and one digest. */
  lemma TreeShows(files: map<string, Content>, staging: map<string, Content>, stored: map<string, Content>,
                  id: string, h: string)
    requires Represents(files, staging, stored)
    ensures FileAt(staging, id) == FileAt(files, StagingPathFor(id))
    ensures FileAt(stored, h) == if IsSha256Hex(h) then FileAt(files, StorageKeyFor(h)) else None
  {
  }

  /** Writing or removing a staging file touches that session only. */
  lemma StagingChangesOneSession(files: map<string, Content>, staging: map<string, Content>, stored: map<string, Content>,
                                 id: string, after: map<string, Content>, stagingAfter: map<string, Content>)
    requires Represents(files, staging, stored)
    requires forall path :: path != StagingPathFor(id) ==> FileAt(after, path) == FileAt(files, path)
    requires forall other :: other != id ==> FileAt(stagingAfter, other) == FileAt(staging, other)
    requires FileAt(stagingAfter, id) == FileAt(after, StagingPathFor(id))
    ensures Represents(after, stagingAfter, stored)
  {
    hide StagingPathFor, StorageKeyFor, FileAt, IsSha256Hex, Represents;
    forall other
      ensures FileAt(stagingAfter, other) == FileAt(after, StagingPathFor(other))
    {
      TreeShows(files, staging, stored, other, "");
      if StagingPathFor(other) == StagingPathFor(id) {
        StagingPathsAreInjective(other, id);
      }
    }
    forall h
      ensures FileAt(stored, h) == if IsSha256Hex(h) then FileAt(after, StorageKeyFor(h)) else None
    {
      TreeShows(files, staging, stored, "", h);
      StagingNeverMeetsStorage(id, h);
    }
    RepresentsByParts(after, stagingAfter, stored);
  }

  lemma RepresentsByParts(files: map<string, Content>, staging: map<string, Content>, stored: map<string, Content>)
    requires forall id :: FileAt(staging, id) == FileAt(files, StagingPathFor(id))
    requires forall h :: FileAt(stored, h) == if IsSha256Hex(h) then FileAt(files, StorageKeyFor(h)) else None
    ensures Represents(files, staging, stored)
  {
  }

  /** Storing or removing a blob touches that digest only. */
  lemma StoringChangesOneDigest(files: map<string, Content>, staging: map<string, Content>, stored: map<string, Content>,
                                sha256: string, after: map<string, Content>, storedAfter: map<string, Content>)
    requires Represents(files, staging, stored) && IsSha256Hex(sha256)
    requires forall path :: path != StorageKeyFor(sha256) ==> FileAt(after, path) == FileAt(files, path)
    requires forall other :: other != sha256 ==> FileAt(storedAfter, other) == FileAt(stored, other)
    requires FileAt(storedAfter, sha256) == FileAt(after, StorageKeyFor(sha256))
    ensures Represents(after, staging, storedAfter)
  {
    hide StagingPathFor, StorageKeyFor, FileAt, IsSha256Hex, Represents;
    forall id
      ensures FileAt(staging, id) == FileAt(after, StagingPathFor(id))
    {
      TreeShows(files, staging, stored, id, "");
      StagingNeverMeetsStorage(id, sha256);
    }
    forall h
      ensures FileAt(storedAfter, h) == if IsSha256Hex(h) then FileAt(after, StorageKeyFor(h)) else None
    {
      TreeShows(files, staging, stored, "", h);
      if IsSha256Hex(h) && StorageKeyFor(h) == StorageKeyFor(sha256) {
        StorageKeysAreInjective(h, sha256);
      }
    }
    RepresentsByParts(after, staging, storedAfter);
  }

  /** The staging files after a write: an operating system that fails leaves whatever it leaves. */
  function StagingAfterWrite(staging: map<string, Content>, id: string, offset: int, data: Content, io: Io)
    : map<string, Content>
  {
    match io
    case Works =>
      var written := StagingFile.WriteAt(FileAt(staging, id), offset, data);
      if written.Some? then staging[id := written.value] else staging
    case Fails(debris) => if offset >= 0 && debris.Some? then staging[id := debris.value] else staging
  }

  predicate WriteSucceeds(staging: map<string, Content>, id: string, offset: int, data: Content, io: Io) {
    io.Works? && StagingFile.WriteAt(FileAt(staging, id), offset, data).Some?
  }

  /** What a write that does not succeed answers. */
  function WriteRefusal(offset: int, io: Io): ErrorCode {
    if offset < 0 then InvalidInput else if io.Fails? then DependencyFailure else Conflict
  }

  /** The declared digest is well formed and is what the staged bytes hash to. */
  predicate CommitSucceeds(staging: map<string, Content>, id: string, sha256: string, io: Io, hash: Content -> string) {
    IsSha256Hex(sha256) && id in staging && io.Works? && hash(staging[id]) == sha256
  }

  /** What a commit that does not succeed answers. */
  function CommitRefusal(staging: map<string, Content>, id: string, sha256: string, hash: Content -> string): ErrorCode {
    if !IsSha256Hex(sha256) then InvalidInput
    else if id !in staging then NotFound
    else if hash(staging[id]) != sha256 then InvalidInput
    else DependencyFailure
  }

  function StagingAfterCommit(staging: map<string, Content>, id: string, sha256: string): map<string, Content> {
    if IsSha256Hex(sha256) then staging - {id} else staging
  }

  /** Content already stored under its digest stays. */
  function StoredAfterCommit(stored: map<string, Content>, staging: map<string, Content>, id: string, sha256: string,
                             ok: bool): map<string, Content>
  {
    if ok && id in staging && sha256 !in stored then stored[sha256 := staging[id]] else stored
  }

  class BlobStore {
    /** Every regular file below the root, by its path relative to the root. */
    var files: map<string, Content>

    ghost var staging: map<string, Content>
    ghost var stored: map<string, Content>

    ghost predicate Valid()
      reads this
    {
      Represents(files, staging, stored)
    }

    constructor ()
      ensures Valid() && files == map[] && staging == map[] && stored == map[]
    {
      files, staging, stored := map[], map[], map[];
    }

    method Contains(sha256: string) returns (held: bool)
      requires Valid()
      ensures held <==> sha256 in stored
    {
      TreeShows(files, staging, stored, "", sha256);
      var path := StorageKeyFor(sha256);
      if path == "" {
        return false;
      }
      return path in files;
    }

    /** One staging file gets a new content. */
    method Put(id: string, content: Content)
      requires Valid()
      modifies this
      ensures Valid() && stored == old(stored) && staging == old(staging)[id := content]
    {
      hide Represents, StagingPathFor;
      var path := StagingPathFor(id);
      StagingChangesOneSession(files, staging, stored, id, files[path := content], staging[id := content]);
      files, staging := files[path := content], staging[id := content];
    }

    method WriteAt(id: string, offset: int, data: Content, io: Io) returns (r: Result<()>)
      requires Valid()
      modifies this
      ensures Valid() && stored == old(stored)
      ensures r == if WriteSucceeds(old(staging), id, offset, data, io) then Ok(()) else Err(WriteRefusal(offset, io))
      ensures staging == StagingAfterWrite(old(staging), id, offset, data, io)
    {
      hide Represents, StagingPathFor;
      if offset < 0 {
        return Err(InvalidInput);
      }
      if io.Fails? {
        if io.debris.Some? {
          Put(id, io.debris.value);
        }
        return Err(DependencyFailure);
      }
      TreeShows(files, staging, stored, id, "");
      var path := StagingPathFor(id);
      if path !in files {
        if offset != 0 {
          return Err(Conflict);
        }
        Put(id, Overwritten("", offset, data));
        return Ok(());
      }
      Put(id, Overwritten(files[path], offset, data));
      return Ok(());
    }

    /** The declared digest is checked against the staged bytes before anything moves. */
    method Commit(id: string, sha256: string, io: Io, hash: Content -> string) returns (r: Result<()>)
      requires Valid()
      modifies this
      ensures Valid()
      ensures r == if CommitSucceeds(old(staging), id, sha256, io, hash) then Ok(())
                   else Err(CommitRefusal(old(staging), id, sha256, hash))
      ensures staging == StagingAfterCommit(old(staging), id, sha256)
      ensures stored == StoredAfterCommit(old(stored), old(staging), id, sha256, r.Ok?)
    {
      hide Represents, StagingPathFor, IsSha256Hex;
      TreeShows(files, staging, stored, id, sha256);
      var target := StorageKeyFor(sha256);
      if target == "" {
        return Err(InvalidInput);
      }
      var path := StagingPathFor(id);
      if path !in files {
        Discard(id);
        return Err(NotFound);
      }
      var actual := hash(files[path]);
      if actual != sha256 {
        Discard(id);
        return Err(InvalidInput);
      }
      if io.Fails? {
        Discard(id);
        return Err(DependencyFailure);
      }
      if target in files {
        Discard(id);
        return Ok(());
      }
      Rename(id, sha256);
      return Ok(());
    }

    method Rename(id: string, sha256: string)
      requires Valid() && id in staging && IsSha256Hex(sha256)
      modifies this
      ensures Valid() && staging == old(staging) - {id} && stored == old(stored)[sha256 := old(staging)[id]]
    {
      hide Represents, StagingPathFor, IsSha256Hex, StorageKeyFor;
      TreeShows(files, staging, stored, id, sha256);
      var path, target := StagingPathFor(id), StorageKeyFor(sha256);
      var content := files[path];
      Discard(id);
      StoringChangesOneDigest(files, staging, stored, sha256, files[target := content], stored[sha256 := content]);
      files, stored := files[target := content], stored[sha256 := content];
    }

    method Discard(id: string)
      requires Valid()
      modifies this
      ensures Valid() && files == old(files) - {StagingPathFor(id)}
      ensures staging == old(staging) - {id} && stored == old(stored)
    {
      hide Represents, StagingPathFor;
      StagingChangesOneSession(files, staging, stored, id, files - {StagingPathFor(id)}, staging - {id});
      files, staging := files - {StagingPathFor(id)}, staging - {id};
    }

    /** `discard(pathFor(sha256))`: nothing happens for what is no digest. */
    method DiscardBlob(sha256: string)
      requires Valid()
      modifies this
      ensures Valid() && staging == old(staging) && stored == old(stored) - {sha256}
    {
      hide Represents;
      TreeShows(files, staging, stored, "", sha256);
      var path := StorageKeyFor(sha256);
      hide StorageKeyFor, IsSha256Hex;
      if path == "" {
        return;
      }
      StoringChangesOneDigest(files, staging, stored, sha256, files - {path}, stored - {sha256});
      files, stored := files - {path}, stored - {sha256};
    }
  }
}
