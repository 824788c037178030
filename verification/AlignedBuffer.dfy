/** The buffered partition writer of csrc/checkpoint/aligned_buffer.cpp. */
module AlignedBuffers {
  import opened Bytes

  const K_BUFFER_SIZE: nat := 0x4000_0000

  /** One open partition file. `file` is what the descriptor refers to; it may hold older
      content (`initial`), because the file is opened without truncation. */
  class AlignedBuffer {
    const bufSize: nat
    const buffer: array<byte>
    ghost const initial: seq<byte>
    var file: seq<byte>
    var bufPos: nat
    var fileOffset: nat

    ghost predicate Valid()
      reads this, buffer
    {
      && bufSize % 4096 == 0 && buffer.Length == bufSize
      && bufPos < bufSize
      && fileOffset % 4096 == 0
      && fileOffset <= |file|
      && file[fileOffset..] == Tail(initial, fileOffset)
    }

    /** Everything written so far: the flushed part of the file, then the buffer. */
    ghost function Stream(): (s: seq<byte>)
      requires fileOffset <= |file| && bufPos <= buffer.Length
      reads this, buffer
    {
      file[..fileOffset] + buffer[..bufPos]
    }

    constructor (existing: seq<byte>, bufSize: nat)
      requires 0 < bufSize && bufSize % 4096 == 0
      ensures Valid() && fresh(buffer)
      ensures Stream() == [] && initial == existing
      ensures this.bufSize == bufSize
    {
      this.bufSize := bufSize;
      buffer := new byte[bufSize];
      initial := existing;
      file := existing;
      bufPos := 0;
      fileOffset := 0;
    }

    /** Appends `data` to the stream, whatever the mix of direct and buffered writes. */
    method WriteData(data: seq<byte>) returns (written: nat)
      requires Valid()
      modifies this, buffer
      ensures Valid()
      ensures written == |data|
      ensures Stream() == old(Stream()) + data
    {
      written := 0;
      while written < |data|
        invariant 0 <= written <= |data|
        invariant Valid()
        invariant Stream() == old(Stream()) + data[..written]
      {
        if |data| - written > bufSize && bufPos == 0 {
          written := WriteDirect(data, written);
        }
        ghost var direct := written;
        written := FillBuffer(data, written);
        assert data[..written] == data[..direct] + data[direct..written];
      }
      assert data[..|data|] == data;
    }

    /** The direct half of one round: the largest aligned piece bypasses the empty buffer. */
    method WriteDirect(data: seq<byte>, start: nat) returns (written: nat)
      requires Valid() && bufPos == 0 && start <= |data|
      modifies this
      ensures Valid() && bufPos == 0
      ensures start <= written <= |data| && |data| - written < 4096
      ensures Stream() == old(Stream()) + data[start..written]
    {
      var directWriteSize := (|data| - start) / 4096 * 4096;
      written := start + directWriteSize;
      WriteBlock(data[start..written]);
    }

    /** Writes `block` at the file offset and moves the offset past it. */
    method WriteBlock(block: seq<byte>)
      requires fileOffset <= |file| && fileOffset % 4096 == 0 && |block| % 4096 == 0
      requires file[fileOffset..] == Tail(initial, fileOffset)
      modifies this`file, this`fileOffset
      ensures fileOffset == old(fileOffset) + |block| <= |file| && fileOffset % 4096 == 0
      ensures file[..fileOffset] == old(file[..fileOffset]) + block
      ensures file[fileOffset..] == Tail(initial, fileOffset)
    {
      PWriteWithin(file, fileOffset, block);
      TailTail(initial, fileOffset, |block|);
      file := PWrite(file, fileOffset, block);
      fileOffset := fileOffset + |block|;
    }

    /** The buffered half of one round of the write loop: copy what fits, flush when full. */
    method FillBuffer(data: seq<byte>, start: nat) returns (written: nat)
      requires Valid() && start <= |data|
      modifies this, buffer
      ensures Valid()
      ensures start <= written <= |data| && (start < |data| ==> start < written)
      ensures Stream() == old(Stream()) + data[start..written]
    {
      var toWrite := if |data| - start < bufSize - bufPos then |data| - start else bufSize - bufPos;
      forall i | 0 <= i < toWrite {
        buffer[bufPos + i] := data[start + i];
      }
      assert buffer[..bufPos + toWrite] == old(buffer[..bufPos]) + data[start..start + toWrite];
      bufPos := bufPos + toWrite;
      written := start + toWrite;
      assert Stream() == old(Stream()) + data[start..written];
      if bufPos == bufSize {
        Flush();
      }
    }

    /** Writes the full buffer to the file and empties it. */
    method Flush()
      requires 0 < bufSize && bufSize % 4096 == 0 && buffer.Length == bufSize
      requires bufPos == bufSize && fileOffset % 4096 == 0 && fileOffset <= |file|
      requires file[fileOffset..] == Tail(initial, fileOffset)
      modifies this
      ensures Valid() && bufPos == 0
      ensures Stream() == old(Stream())
    {
      WriteBlock(buffer[..bufSize]);
      bufPos := 0;
    }

    /** Skips `paddingSize` bytes; what they hold is whatever the buffer held. The two
        refusals return 0, and the second one has already moved `bufPos` past the end. */
    method WritePadding(paddingSize: nat) returns (r: nat)
      requires Valid()
      modifies this
      ensures paddingSize >= 8 ==> r == 0 && Valid() && Stream() == old(Stream())
      ensures paddingSize < 8 && old(bufPos) + paddingSize > bufSize ==>
                r == 0 && bufPos == old(bufPos) + paddingSize && !Valid()
      ensures paddingSize < 8 && old(bufPos) + paddingSize <= bufSize ==>
                r == paddingSize && Valid() && old(Stream()) <= Stream() &&
                |Stream()| == |old(Stream())| + paddingSize
    {
      if paddingSize >= 8 {
        return 0;
      }
      assert buffer[..bufPos] <= buffer[..];
      bufPos := bufPos + paddingSize;
      if bufPos > bufSize {
        return 0;
      }
      assert old(Stream()) <= Stream();
      if bufPos == bufSize {
        Flush();
      }
      return paddingSize;
    }

    /** The destructor: the rest of the buffer reaches the file. The file is then the stream
        followed by whatever older content reached beyond it. */
    method Close()
      requires Valid()
      modifies this
      ensures file == old(Stream()) + Tail(initial, |old(Stream())|)
      ensures file == old(Stream()) <==> |initial| <= |old(Stream())|
    {
      if bufPos != 0 {
        PWriteWithin(file, fileOffset, buffer[..bufPos]);
        file := PWrite(file, fileOffset, buffer[..bufPos]);
        TailTail(initial, fileOffset, bufPos);
      } else {
        assert file == file[..fileOffset] + file[fileOffset..];
      }
    }
  }

  lemma TailTail(s: seq<byte>, j: nat, k: nat)
    ensures Tail(Tail(s, j), k) == Tail(s, j + k)
  {
  }
}
