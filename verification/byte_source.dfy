/** A file as a sequence of bytes behind an offset, read in chunks whose sizes
    the reader cannot predict. */
module ByteSource {
  import opened Basics

  class RawFile {
    const data: Bytes
    var pos: nat

    constructor (bytes: Bytes)
      ensures data == bytes && pos == 0
    {
      data, pos := bytes, 0;
    }

    /** Up to `limit` of the next bytes; nothing only at the end or for no room. */
    method Read(limit: nat) returns (chunk: Bytes)
      requires pos <= |data|
      modifies this`pos
      ensures pos == old(pos) + |chunk| <= |data|
      ensures chunk == data[old(pos)..pos]
      ensures |chunk| <= limit
      ensures chunk == [] <==> limit == 0 || old(pos) == |data|
    {
      if limit == 0 || pos == |data| {
        return [];
      }
      var size :| 1 <= size <= limit && pos + size <= |data|;
      chunk := data[pos..pos + size];
      pos := pos + size;
    }

    method SeekToStart()
      modifies this`pos
      ensures pos == 0
    {
      pos := 0;
    }
  }
}
