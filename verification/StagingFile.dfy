/** What `BlobStore::writeAt` does to the bytes of one staging file. */
module StagingFile {
  import opened Common

  type Content = string

  /** What the operating system does to a storage call: a failed write may leave debris behind. */
  datatype Io = Works | Fails(debris: Option<Content>)

  const ZERO_BYTE: char := '\U{0000}'

  function Zeros(count: nat): (zeros: Content)
    ensures |zeros| == count
  {
    seq(count, _ => ZERO_BYTE)
  }

  /** Seek and write: a gap past the end is filled with zero bytes, an empty write changes nothing. */
  function Overwritten(base: Content, offset: nat, data: Content): Content {
    if data == "" then base
    else
      var front := if offset <= |base| then base[..offset] else base + Zeros(offset - |base|);
      var back := if offset + |data| < |base| then base[offset + |data|..] else "";
      front + data + back
  }

  /** None refuses the write: a file that does not exist yet can only be started from offset zero. */
  function WriteAt(file: Option<Content>, offset: int, data: Content): Option<Content> {
    if offset < 0 then None
    else
      match file
      case Some(base) => Some(Overwritten(base, offset, data))
      case None => if offset == 0 then Some(Overwritten("", 0, data)) else None
  }

  lemma WritingAtTheEndAppends(base: Content, data: Content)
    ensures Overwritten(base, |base|, data) == base + data
  {
    assert base[..|base|] == base;
    assert base + "" == base;
    assert base + data + "" == base + data;
  }
}
