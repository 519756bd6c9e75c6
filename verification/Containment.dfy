/** Where an accepted path leads when a client resolves it: below the install directory, each to its own file. */
module Containment {
  import opened Common
  import opened Ordering
  import opened Text
  import opened Manifest

  datatype Platform = Posix | Windows

  /** The directories and the name a path leads through, from the top of its drive. */
  type Location = seq<string>

  /** One segment: empty and "." stay, ".." goes up, and there is nothing above the top. */
  function Enter(at: Location, segment: string): Location {
    if segment == "" || segment == "." then at
    else if segment == ".." then (if at == [] then [] else at[..|at| - 1])
    else at + [segment]
  }

  function Walk(at: Location, segments: seq<string>): Location
    decreases |segments|
  {
    if segments == [] then at else Walk(Enter(at, segments[0]), segments[1..])
  }

  /** Windows takes a backslash for a slash. */
  function Slashed(path: string): (slashed: string)
    ensures |slashed| == |path|
  {
    seq(|path|, k requires 0 <= k < |path| => if path[k] == '\\' then '/' else path[k])
  }

  /** What an operating system makes of a path taken relative to `root`; no location is one on another drive. */
  function Resolve(platform: Platform, root: Location, path: string): Option<Location> {
    var text := if platform.Windows? then Slashed(path) else path;
    if platform.Windows? && |text| >= 2 && text[1] == ':' && IsLetter(text[0]) then None
    else Some(Walk(if text != "" && text[0] == '/' then [] else root, Split(text, '/')))
  }

  lemma {:induction false} SafeSegmentsOnlyDescend(root: Location, segments: seq<string>)
    requires AllSafe(segments)
    ensures Walk(root, segments) == root + segments
    decreases |segments|
  {
    hide IsSafeSegment;
    if segments != [] {
      SafeSegmentEnters(root, segments[0]);
      assert forall k :: 0 <= k < |segments[1..]| ==> segments[1..][k] == segments[k + 1];
      SafeSegmentsOnlyDescend(root + [segments[0]], segments[1..]);
      assert segments == [segments[0]] + segments[1..];
      assert root + ([segments[0]] + segments[1..]) == (root + [segments[0]]) + segments[1..];
    }
  }

  lemma SafeSegmentEnters(at: Location, segment: string)
    requires IsSafeSegment(segment)
    ensures Enter(at, segment) == at + [segment]
  {
  }

  /** On either platform an accepted path leads to exactly its own segments below the root, never leaving it. */
  lemma SafePathsStayInside(platform: Platform, root: Location, path: string)
    requires IsSafePath(path)
    ensures Resolve(platform, root, path) == Some(root + Split(path, '/'))
    ensures forall k :: 0 <= k <= |Split(path, '/')| ==> root <= Walk(root, Split(path, '/')[..k])
  {
    hide Split, IsSafeSegment;
    var segments := Split(path, '/');
    if platform.Windows? {
      assert Slashed(path) == path;
    }
    SafeSegmentsOnlyDescend(root, segments);
    assert path[0] != '/' by {
      if path[0] == '/' {
        SplitFirst(path, '/');
        EmptyIsNotSafe(segments[0]);
      }
    }
    forall k | 0 <= k <= |segments|
      ensures root <= Walk(root, segments[..k])
    {
      SafeSegmentsOnlyDescend(root, segments[..k]);
    }
  }

  lemma EmptyIsNotSafe(segment: string)
    ensures IsSafeSegment(segment) ==> segment != ""
  {
  }

  predicate IsSpecial(segment: string) {
    segment == "" || segment == "." || segment == ".."
  }

  /** A walk gets as deep as it has segments only if none of them stays or goes up. */
  lemma {:induction false} DeepWalksOnlyDescend(at: Location, segments: seq<string>)
    ensures |Walk(at, segments)| <= |at| + |segments|
    ensures |Walk(at, segments)| == |at| + |segments| ==> forall segment <- segments :: !IsSpecial(segment)
    decreases |segments|
  {
    if segments != [] {
      DeepWalksOnlyDescend(Enter(at, segments[0]), segments[1..]);
      assert segments == [segments[0]] + segments[1..];
    }
  }

  lemma {:induction false} PiecesAreParts(s: string, c: char)
    ensures forall piece <- Split(s, c) :: forall i :: 0 <= i < |piece| ==> piece[i] in s
    decreases |s|
  {
    hide Find, Split;
    var found := Find(s, c, 0);
    SplitOnce(s, c, found);
    if found != NPOS {
      PiecesAreParts(s[found + 1..], c);
    }
  }

  ghost predicate StaysInside(path: string) {
    forall platform, root :: Resolve(platform, root, path) == Some(root + Split(path, '/'))
  }

  ghost predicate IsPlain(path: string) {
    forall i :: 0 <= i < |path| ==> path[i] >= ' ' && path[i] != '\\'
  }

  /** Validation accepts exactly what stays inside on every platform, up to 1024 characters and no control characters. */
  lemma AcceptedIffStaysInside(path: string)
    ensures IsSafePath(path)
       <==> 0 < |path| <= MAX_RELATIVE_PATH_LENGTH && IsPlain(path) && StaysInside(path)
  {
    hide Split, IsSafePath, Resolve;
    if IsSafePath(path) {
      forall platform, root
        ensures Resolve(platform, root, path) == Some(root + Split(path, '/'))
      {
        SafePathsStayInside(platform, root, path);
      }
      SafePathsArePlain(path);
    }
    if 0 < |path| <= MAX_RELATIVE_PATH_LENGTH && IsPlain(path) && StaysInside(path) {
      InsidePathsAreSafe(path);
    }
  }

  lemma InsidePathsAreSafe(path: string)
    requires 0 < |path| <= MAX_RELATIVE_PATH_LENGTH && IsPlain(path) && StaysInside(path)
    ensures IsSafePath(path)
  {
    hide Split, Walk;
    assert Resolve(Posix, [], path) == Some([] + Split(path, '/'));
    assert Resolve(Windows, [], path) == Some([] + Split(path, '/'));
    assert Slashed(path) == path;
    DeepWalksOnlyDescend([], Split(path, '/'));
    PiecesAreParts(path, '/');
    assert forall c :: c in path ==> c >= ' ' && c != '\\';
    forall segment <- Split(path, '/')
      ensures IsSafeSegment(segment)
    {
      assert !IsSpecial(segment);
    }
  }

  lemma SafePathsArePlain(path: string)
    requires IsSafePath(path)
    ensures |path| <= MAX_RELATIVE_PATH_LENGTH && path != "" && IsPlain(path)
  {
    hide Split, IsSafeSegment;
    JoiningUndoesSplitting(path, '/');
    JoinedWithoutControl(Split(path, '/'));
  }

  lemma {:induction false} JoinedWithoutControl(segments: seq<string>)
    requires AllSafe(segments)
    ensures forall i :: 0 <= i < |Joined(segments, '/')| ==> Joined(segments, '/')[i] >= ' '
  {
    if segments != [] {
      assert IsSafeSegment(segments[0]);
      assert forall k :: 0 <= k < |segments[1..]| ==> segments[1..][k] == segments[k + 1];
      JoinedWithoutControl(segments[1..]);
    }
  }

  function Joined(pieces: seq<string>, c: char): string {
    if pieces == [] then "" else if |pieces| == 1 then pieces[0] else pieces[0] + ([c] + Joined(pieces[1..], c))
  }

  lemma {:induction false} JoiningUndoesSplitting(s: string, c: char)
    ensures Joined(Split(s, c), c) == s
    decreases |s|
  {
    hide Find, Split;
    var found := Find(s, c, 0);
    SplitOnce(s, c, found);
    if found != NPOS {
      var rest := Split(s[found + 1..], c);
      JoiningUndoesSplitting(s[found + 1..], c);
      assert ([s[..found]] + rest)[1..] == rest;
      assert s == s[..found] + ([c] + s[found + 1..]);
    }
  }

  /** Two accepted paths lead to one file exactly when they are one path. */
  lemma SafePathsNameDifferentFiles(platform: Platform, root: Location, a: string, b: string)
    requires IsSafePath(a) && IsSafePath(b)
    ensures Resolve(platform, root, a) == Resolve(platform, root, b) <==> a == b
  {
    hide Split, IsSafePath, Resolve;
    SafePathsStayInside(platform, root, a);
    SafePathsStayInside(platform, root, b);
    JoiningUndoesSplitting(a, '/');
    JoiningUndoesSplitting(b, '/');
    if root + Split(a, '/') == root + Split(b, '/') {
      assert Split(a, '/') == (root + Split(a, '/'))[|root|..];
      assert Split(b, '/') == (root + Split(b, '/'))[|root|..];
    }
  }

  /** So installing a build whose manifest passed validation writes below the root only, each file once. */
  lemma ValidBuildsInstallInside(platform: Platform, root: Location, entries: seq<ManifestEntry>, entrypoint: string)
    requires IsValidManifest(entries, entrypoint)
    ensures forall k :: 0 <= k < |entries| ==>
              && Resolve(platform, root, entries[k].relativePath).Some?
              && root < Resolve(platform, root, entries[k].relativePath).value
    ensures forall i, j :: 0 <= i < j < |entries| ==>
              Resolve(platform, root, entries[i].relativePath) != Resolve(platform, root, entries[j].relativePath)
  {
    hide Split, IsSafePath, Resolve, IsSha256Hex;
    forall k | 0 <= k < |entries|
      ensures Resolve(platform, root, entries[k].relativePath).Some?
      ensures root < Resolve(platform, root, entries[k].relativePath).value
    {
      assert IsValidEntry(entries[k]);
      SafePathsStayInside(platform, root, entries[k].relativePath);
    }
    forall i, j | 0 <= i < j < |entries|
      ensures Resolve(platform, root, entries[i].relativePath) != Resolve(platform, root, entries[j].relativePath)
    {
      assert IsValidEntry(entries[i]) && IsValidEntry(entries[j]);
      assert PathOf(entries[i]) != PathOf(entries[j]);
      SafePathsNameDifferentFiles(platform, root, entries[i].relativePath, entries[j].relativePath);
    }
  }

  /** A file that installs inside on every platform, with a well-formed digest and a size. */
  ghost predicate Installs(entry: ManifestEntry) {
    && 0 < |entry.relativePath| <= 1024 && IsPlain(entry.relativePath) && StaysInside(entry.relativePath)
    && |entry.blobSha256| == 64
    && (forall c <- entry.blobSha256 :: '0' <= c <= '9' || 'a' <= c <= 'f')
    && entry.sizeBytes >= 0
  }

  /** What validation accepts: some files, not too many, each of which installs, all in different places, one to start. */
  lemma ValidBuildsAreExactly(entries: seq<ManifestEntry>, entrypoint: string)
    ensures IsValidManifest(entries, entrypoint)
       <==> && 0 < |entries| <= 200000
            && (forall entry <- entries :: Installs(entry))
            && (forall i, j :: 0 <= i < j < |entries| ==>
                  Resolve(Posix, [], entries[i].relativePath) != Resolve(Posix, [], entries[j].relativePath))
            && (exists entry <- entries :: entry.relativePath == entrypoint)
  {
    hide Resolve, IsSafePath, StaysInside, IsPlain, IsSha256Hex;
    forall entry <- entries
      ensures IsValidEntry(entry) <==> Installs(entry)
    {
      AcceptedIffStaysInside(entry.relativePath);
      DigestsByCharacter(entry.blobSha256);
    }
    forall i, j | 0 <= i < j < |entries| && IsValidEntry(entries[i]) && IsValidEntry(entries[j])
      ensures PathOf(entries[i]) != PathOf(entries[j])
         <==> Resolve(Posix, [], entries[i].relativePath) != Resolve(Posix, [], entries[j].relativePath)
    {
      SafePathsNameDifferentFiles(Posix, [], entries[i].relativePath, entries[j].relativePath);
    }
    assert forall k :: 0 <= k < |entries| ==> entries[k] in entries;
  }

  lemma DigestsByCharacter(value: string)
    ensures IsSha256Hex(value) <==> |value| == 64 && forall c <- value :: '0' <= c <= '9' || 'a' <= c <= 'f'
  {
    assert forall i :: 0 <= i < |value| ==> value[i] in value;
  }
}
