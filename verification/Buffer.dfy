/** The byte buffer of chaonet/include/Buffer.h and chaonet/src/Buffer.cpp. A byte is modelled as a char. */
module Buffers {
  datatype Option<+T> = None | Some(value: T)

  const CHEAP_PREPEND: nat := 8
  const INITIAL_SIZE: nat := 1024
  const EXTRA_SIZE: nat := 65536

  /** What readv reports: bytes, none of them at the end of the stream, or an error number. */
  datatype ReadResult = Data(bytes: string) | Failed(errno: int)

  predicate IsCRLF(s: string, k: int) {
    0 <= k && k + 1 < |s| && s[k] == '\r' && s[k + 1] == '\n'
  }

  /** The offset of the first CRLF. */
  function FindCRLF(s: string): (r: Option<nat>)
    ensures r.Some? ==> IsCRLF(s, r.value) && forall k :: 0 <= k < r.value ==> !IsCRLF(s, k)
    ensures r.None? ==> forall k :: !IsCRLF(s, k)
  {
    if |s| < 2 then None
    else if s[0] == '\r' && s[1] == '\n' then Some(0)
    else
      var rest := FindCRLF(s[1..]);
      assert forall k :: IsCRLF(s, k) && k > 0 ==> IsCRLF(s[1..], k - 1);
      if rest.None? then None else Some(rest.value + 1)
  }

  lemma FirstCRLF(s: string, k: nat)
    requires IsCRLF(s, k) && forall i :: 0 <= i < k ==> !IsCRLF(s, i)
    ensures FindCRLF(s) == Some(k)
  {
    var r := FindCRLF(s);
    assert r.Some? && !(r.value < k) && !(k < r.value);
  }

  function Max(a: int, b: int): int {
    if a < b then b else a
  }

  /** The storage before and after data was copied to the place that ends at start. */
  lemma CopiedBefore(was: string, now: string, at: nat, start: nat, end: nat, data: string)
    requires at + |data| == start <= end <= |was| == |now|
    requires now[at..start] == data && now[start..] == was[start..]
    ensures now[at..end] == data + was[start..end]
  {
    assert now[at..end] == now[at..start] + now[start..end];
    assert now[start..end] == now[start..][..end - start] && was[start..end] == was[start..][..end - start];
  }

  /** The storage before and after data was copied to the place that starts at end. */
  lemma CopiedBehind(was: string, now: string, start: nat, end: nat, data: string)
    requires start <= end && end + |data| <= |was| == |now|
    requires now[end..end + |data|] == data && now[..end] == was[..end]
    ensures now[start..end + |data|] == was[start..end] + data
  {
    assert now[start..end + |data|] == now[start..end] + now[end..end + |data|];
    assert now[start..end] == now[..end][start..] && was[start..end] == was[..end][start..];
  }

  class Buffer {
    var buffer: array<char>
    var readerIndex: nat
    var writerIndex: nat
    ghost var peak: nat   // the most bytes ever readable and requested together

    ghost predicate Valid()
      reads this
    {
      && readerIndex <= writerIndex <= buffer.Length
      && CHEAP_PREPEND + INITIAL_SIZE <= buffer.Length <= Max(CHEAP_PREPEND + INITIAL_SIZE, 2 * peak + 7)
    }

    ghost function Contents(): string
      requires Valid()
      reads this, buffer
    {
      buffer[readerIndex..writerIndex]
    }

    constructor ()
      ensures Valid() && Contents() == "" && peak == 0 && fresh(buffer)
    {
      buffer := new char[CHEAP_PREPEND + INITIAL_SIZE](_ => '\0');
      readerIndex, writerIndex, peak := CHEAP_PREPEND, CHEAP_PREPEND, 0;
    }

    function ReadableBytes(): (n: nat)
      requires Valid()
      reads this, buffer
      ensures n == |Contents()|
    {
      writerIndex - readerIndex
    }

    function WritableBytes(): nat
      requires Valid()
      reads this
    {
      buffer.Length - writerIndex
    }

    function PrependableBytes(): nat
      reads this
    {
      readerIndex
    }

    method Peek() returns (s: string)
      requires Valid()
      ensures s == Contents()
    {
      s := buffer[readerIndex..writerIndex];
    }

    method SearchCRLF() returns (r: Option<nat>)
      requires Valid()
      ensures r == FindCRLF(Contents())
    {
      ghost var s := Contents();
      var k := readerIndex;
      while k + 1 < writerIndex
        invariant readerIndex <= k <= writerIndex
        invariant forall i :: 0 <= i < k - readerIndex ==> !IsCRLF(s, i)
      {
        assert s[k - readerIndex] == buffer[k] && s[k - readerIndex + 1] == buffer[k + 1];
        if buffer[k] == '\r' && buffer[k + 1] == '\n' {
          FirstCRLF(s, k - readerIndex);
          return Some(k - readerIndex);
        }
        k := k + 1;
      }
      return None;
    }

    method Retrieve(len: nat)
      requires Valid() && len <= |Contents()|
      modifies this`readerIndex
      ensures Valid() && Contents() == old(Contents())[len..]
    {
      readerIndex := readerIndex + len;
    }

    method RetrieveAll()
      requires Valid()
      modifies this`readerIndex, this`writerIndex
      ensures Valid() && Contents() == ""
    {
      readerIndex := CHEAP_PREPEND;
      writerIndex := CHEAP_PREPEND;
    }

    method RetrieveAsString() returns (s: string)
      requires Valid()
      modifies this`readerIndex, this`writerIndex
      ensures Valid() && Contents() == "" && s == old(Contents())
    {
      s := buffer[readerIndex..writerIndex];
      RetrieveAll();
    }

    /** std::copy of a stretch to an earlier, possibly overlapping one. */
    static method MoveDown(a: array<char>, from: nat, to: nat, n: nat)
      requires to <= from && from + n <= a.Length
      modifies a
      ensures a[to..to + n] == old(a[from..from + n])
    {
      ghost var s := a[from..from + n];
      for i := 0 to n
        invariant a[to..to + i] == s[..i] && a[from + i..from + n] == s[i..]
      {
        assert a[from + i] == s[i];
        a[to + i] := a[from + i];
      }
    }

    /** Either the storage grows or the readable bytes slide down over the consumed ones. */
    method MakeSpace(len: nat)
      requires Valid() && WritableBytes() < len && |Contents()| + len <= peak
      modifies this`buffer, this`readerIndex, this`writerIndex, buffer
      ensures Valid() && Contents() == old(Contents()) && WritableBytes() >= len
      ensures buffer == old(buffer) || fresh(buffer)
    {
      if WritableBytes() + PrependableBytes() < len + CHEAP_PREPEND {
        var bigger := new char[writerIndex + len](_ => '\0');
        forall i | 0 <= i < writerIndex { bigger[i] := buffer[i]; }
        assert bigger[readerIndex..writerIndex] == Contents();
        buffer := bigger;
      } else {
        assert CHEAP_PREPEND < readerIndex;
        var readable := ReadableBytes();
        MoveDown(buffer, readerIndex, CHEAP_PREPEND, readable);
        readerIndex := CHEAP_PREPEND;
        writerIndex := readerIndex + readable;
      }
    }

    method EnsureWritableBytes(len: nat)
      requires Valid()
      modifies this`buffer, this`readerIndex, this`writerIndex, this`peak, buffer
      ensures Valid() && Contents() == old(Contents()) && WritableBytes() >= len
      ensures peak == Max(old(peak), |Contents()| + len)
      ensures buffer == old(buffer) || fresh(buffer)
    {
      peak := Max(peak, |Contents()| + len);
      if WritableBytes() < len {
        MakeSpace(len);
      }
    }

    /** std::copy of data to a position of the storage. */
    static method CopyIn(a: array<char>, at: nat, data: string)
      requires at + |data| <= a.Length
      modifies a
      ensures a[at..at + |data|] == data
      ensures a[..at] == old(a[..at]) && a[at + |data|..] == old(a[at + |data|..])
    {
      for i := 0 to |data|
        invariant a[at..at + i] == data[..i]
        invariant a[..at] == old(a[..at]) && a[at + i..] == old(a[at + i..])
      {
        a[at + i] := data[i];
      }
    }

    /** Copies data behind the readable bytes and counts it as written. */
    method FillTail(data: string)
      requires Valid() && |data| <= WritableBytes()
      modifies this`writerIndex, buffer
      ensures Valid() && Contents() == old(Contents()) + data && writerIndex == old(writerIndex) + |data|
    {
      ghost var was := buffer[..];
      CopyIn(buffer, writerIndex, data);
      CopiedBehind(was, buffer[..], readerIndex, writerIndex, data);
      writerIndex := writerIndex + |data|;
    }

    method Append(data: string)
      requires Valid()
      modifies this`buffer, this`readerIndex, this`writerIndex, this`peak, buffer
      ensures Valid() && Contents() == old(Contents()) + data
      ensures peak == Max(old(peak), |old(Contents())| + |data|)
      ensures buffer == old(buffer) || fresh(buffer)
    {
      EnsureWritableBytes(|data|);
      FillTail(data);
    }

    method Prepend(data: string)
      requires Valid() && |data| <= PrependableBytes()
      modifies this`readerIndex, buffer
      ensures Valid() && Contents() == data + old(Contents())
    {
      ghost var was := buffer[..];
      readerIndex := readerIndex - |data|;
      CopyIn(buffer, readerIndex, data);
      CopiedBefore(was, buffer[..], readerIndex, old(readerIndex), writerIndex, data);
    }

    /** A scatter read into the free tail and, beyond it, a block on the stack that is then appended. */
    method ReadFd(result: ReadResult) returns (n: int, savedErrno: int)
      requires Valid() && (result.Data? ==> |result.bytes| <= WritableBytes() + EXTRA_SIZE)
      modifies this`buffer, this`readerIndex, this`writerIndex, this`peak, buffer
      ensures Valid() && (buffer == old(buffer) || fresh(buffer))
      ensures result.Failed? ==> n == -1 && savedErrno == result.errno && Contents() == old(Contents())
      ensures result.Data? ==> n == |result.bytes| && Contents() == old(Contents()) + result.bytes
      ensures peak <= Max(old(peak), |Contents()|)
    {
      savedErrno := 0;
      var writable := WritableBytes();
      match result
      case Failed(e) =>
        n, savedErrno := -1, e;
      case Data(bytes) =>
        n := |bytes|;
        if n <= writable {
          FillTail(bytes);
        } else {
          FillTail(bytes[..writable]);
          assert writerIndex == buffer.Length;
          Append(bytes[writable..]);
          assert bytes == bytes[..writable] + bytes[writable..];
        }
    }
  }
}
