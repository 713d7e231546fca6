/**
 A stream connection and the two loops that reassemble exactly `size` bytes
 from whatever chunks the operating system moves at a time.
 */
module Socket {
  import opened Bytes

  /**
   One direction of a connection: the bytes sent and not yet read. On a
   connection that is not reliable any call may fail; a failure closes it. A
   send may take nothing, but not for ever: `stalls` bounds how often it still will.
   */
  class Connection {
    var stream: seq<byte>
    var closed: bool
    var stalls: nat
    const reliable: bool

    constructor (reliable: bool)
      ensures stream == [] && !closed && this.reliable == reliable
    {
      this.reliable := reliable;
      stream, closed := [], false;
    }

    /** send(2): takes some of the bytes, possibly none, or fails with a negative result. */
    method RawSend(buffer: array<byte>, offset: nat, size: nat) returns (written: int)
      requires 0 < size && offset + size <= buffer.Length
      modifies `stream, `stalls
      ensures reliable && !closed ==> written >= 0
      ensures written <= size && (written == 0 ==> stalls < old(stalls))
      ensures written >= 0 ==> stream == old(stream) + buffer[offset..offset + written]
      ensures written < 0 ==> stream == old(stream)
    {
      written := -1;
      var works: bool := *;
      if !closed && (reliable || works) {
        written :| 0 <= written <= size && (written == 0 ==> stalls > 0);
      }
      if written == 0 {
        stalls := stalls - 1;
      }
      if written >= 0 {
        stream := stream + buffer[offset..offset + written];
      }
    }

    /** recv(2): hands over some non-empty front part of what is there, or fails with a result <= 0. */
    method RawRecv(buffer: array<byte>, offset: nat, size: nat) returns (read: int)
      requires 0 < size && offset + size <= buffer.Length
      modifies `stream, buffer
      ensures reliable && !closed && old(stream) != [] ==> read > 0
      ensures closed ==> read <= 0
      ensures read <= size && read <= |old(stream)|
      ensures read > 0 ==> stream == old(stream)[read..]
      ensures read > 0 ==> buffer[..offset + read] == old(buffer[..offset]) + old(stream)[..read]
      ensures read <= 0 ==> stream == old(stream) && buffer[..] == old(buffer[..])
    {
      read := 0;
      var works: bool := *;
      if stream != [] && !closed && (reliable || works) {
        assert 1 <= size && 1 <= |stream|;
        read :| 1 <= read <= size && read <= |stream|;
      }
      if read > 0 {
        Copy(buffer, offset, stream[..read]);
        stream := stream[read..];
      }
    }

    method Close()
      modifies `closed
      ensures closed
    {
      closed := true;
    }

    /** Socket::Send */
    method Send(buffer: array<byte>, size0: nat) returns (r: int)
      requires size0 <= buffer.Length
      modifies `stream, `closed, `stalls
      ensures r == 1 || r == 0
      ensures r == 1 ==> stream == old(stream) + buffer[..size0] && closed == old(closed)
      ensures r == 0 ==> closed && old(stream) <= stream <= old(stream) + buffer[..size0]
      ensures reliable && !old(closed) ==> r == 1
    {
      var size, offset := size0, 0;
      while size > 0
        invariant 0 <= size && offset + size == size0
        invariant stream == old(stream) + buffer[..offset]
        invariant closed == old(closed)
        decreases size, stalls
      {
        var bytesWritten := RawSend(buffer, offset, size);
        if bytesWritten < 0 {
          Close();
          return 0;
        }
        assert buffer[..offset] + buffer[offset..offset + bytesWritten] == buffer[..offset + bytesWritten];
        size := size - bytesWritten;
        offset := offset + bytesWritten;
      }
      return 1;
    }

    /** Socket::Recv */
    method Recv(buffer: array<byte>, size0: nat) returns (r: int)
      requires size0 <= buffer.Length
      modifies `stream, `closed, buffer
      ensures r == 1 || r == 0
      ensures r == 1 ==> size0 <= |old(stream)| && buffer[..size0] == old(stream)[..size0]
      ensures r == 1 ==> stream == old(stream)[size0..] && closed == old(closed)
      ensures r == 0 ==> closed
      ensures old(closed) && size0 > 0 ==> r == 0
      ensures reliable && !old(closed) && size0 <= |old(stream)| ==> r == 1
    {
      var size, offset := size0, 0;
      while size > 0
        invariant 0 <= size && offset + size == size0 && offset <= |old(stream)|
        invariant stream == old(stream)[offset..]
        invariant buffer[..offset] == old(stream)[..offset]
        invariant closed == old(closed) && (closed ==> offset == 0)
      {
        var bytesRead := RawRecv(buffer, offset, size);
        if bytesRead <= 0 {
          Close();
          return 0;
        }
        assert old(stream)[..offset] + old(stream)[offset..][..bytesRead] == old(stream)[..offset + bytesRead];
        assert old(stream)[offset..][bytesRead..] == old(stream)[offset + bytesRead..];
        size := size - bytesRead;
        offset := offset + bytesRead;
      }
      return 1;
    }
  }
}
