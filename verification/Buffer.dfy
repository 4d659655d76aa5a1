/** The growable byte buffer (`Vec<u8>`) every writer appends to. */
module Buffer {
  import opened Basics

  class ByteVec {
    var data: seq<byte>

    constructor ()
      ensures data == []
    {
      data := [];
    }

    method Extend(bytes: seq<byte>)
      modifies this
      ensures data == old(data) + bytes
    {
      data := data + bytes;
    }

    method Set(i: nat, b: byte)
      requires i < |data|
      modifies this
      ensures data == old(data)[i := b]
    {
      data := data[i := b];
    }
  }
}
