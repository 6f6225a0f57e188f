/** The sendfile emulation loop of eio__sendfile, under arbitrary short reads and short writes. */
module Sendfile {

  type byte = x: int | 0 <= x < 256

  const BUFSIZE: nat := 65536

  /** The two files as the kernel shows them: an unchanging input, and what was written so far. */
  class Files {
    const input: seq<byte>
    var written: seq<byte>
    ghost var calls: seq<int>    // the result of every pread and write, in order

    constructor (input: seq<byte>)
      ensures this.input == input && written == [] && calls == []
    {
      this.input := input;
      written := [];
      calls := [];
    }

    /** pread: an error, end of file, or any number of bytes that are there, up to `n`. */
    method Pread(buf: array<byte>, n: nat, offset: int) returns (cnt: int)
      requires 0 < n <= buf.Length
      modifies buf, this`calls
      ensures -1 <= cnt <= n && calls == old(calls) + [cnt]
      ensures cnt > 0 ==> 0 <= offset && offset + cnt <= |input| && buf[..cnt] == input[offset..offset + cnt]
    {
      cnt := -1;
      if 0 <= offset {
        var left := if offset < |input| then |input| - offset else 0;
        cnt :| -1 <= cnt <= n && cnt <= left;
        var k := 0;
        while k < cnt
          invariant 0 <= k && (cnt >= 0 ==> k <= cnt) && calls == old(calls)
          invariant cnt > 0 ==> offset + cnt <= |input| && buf[..k] == input[offset..offset + k]
        {
          buf[k] := input[offset + k];
          k := k + 1;
        }
      }
      calls := calls + [cnt];
    }

    /** write: an error, or any number of bytes, up to `n`. */
    method Write(buf: array<byte>, n: nat) returns (cnt: int)
      requires 0 < n <= buf.Length
      modifies this
      ensures -1 <= cnt <= n && calls == old(calls) + [cnt]
      ensures written == if cnt > 0 then old(written) + buf[..cnt] else old(written)
    {
      cnt :| -1 <= cnt <= n;
      if cnt > 0 {
        written := written + buf[..cnt];
      }
      calls := calls + [cnt];
    }
  }

  /** Calls were made after those of `before`, and all but the last made progress. */
  ghost predicate OneStalled(before: seq<int>, calls: seq<int>, last: int) {
    && before < calls && calls[|calls| - 1] == last <= 0
    && (forall k :: |before| <= k < |calls| - 1 ==> calls[k] > 0)
  }

  ghost predicate AllProgress(before: seq<int>, calls: seq<int>) {
    before <= calls && forall k :: |before| <= k < |calls| ==> calls[k] > 0
  }

  /** What one more call adds. */
  lemma NextCall(before: seq<int>, calls: seq<int>, cnt: int)
    requires AllProgress(before, calls)
    ensures cnt > 0 ==> AllProgress(before, calls + [cnt])
    ensures cnt <= 0 ==> OneStalled(before, calls + [cnt], cnt)
  {
  }

  /** Which of the calls failed to make progress, and with what result, is determined. */
  lemma StalledOrNot(before: seq<int>, calls: seq<int>)
    ensures forall c, d :: OneStalled(before, calls, c) && OneStalled(before, calls, d) ==> c == d
    ensures AllProgress(before, calls) ==> forall c :: !OneStalled(before, calls, c)
  {
  }

  lemma NothingFailedYet(before: seq<int>)
    ensures AllProgress(before, before)
  {
  }

  /** `res` bytes of the input from `offset` on were appended to `before`. */
  ghost predicate Transferred(input: seq<byte>, offset: int, res: int, before: seq<byte>, written: seq<byte>) {
    if res <= 0 then written == before
    else 0 <= offset && offset + res <= |input| && written == before + input[offset..offset + res]
  }

  lemma TransferMore(input: seq<byte>, offset: int, res: int, before: seq<byte>, written: seq<byte>, got: seq<byte>,
                     cnt: nat)
    requires Transferred(input, offset, res, before, written) && 0 <= res && 0 < cnt <= |got|
    requires 0 <= offset + res && offset + res + |got| <= |input| && got == input[offset + res..offset + res + |got|]
    requires 0 <= offset
    ensures Transferred(input, offset, res + cnt, before, written + got[..cnt])
  {
    assert got[..cnt] == input[offset + res..offset + res + cnt];
    assert input[offset..offset + res + cnt] == input[offset..offset + res] + input[offset + res..offset + res + cnt];
    if res == 0 {
      assert input[offset..offset + res] == [];
    }
  }

  /**
   * What is written is exactly the input from `offset` on, `res` bytes of it and never more than asked
   * for. It is all of them if and only if every system call made progress; otherwise the last one made
   * none, and the result is -1 exactly if that one failed before the first byte was written.
   */
  method Emulate(files: Files, offset: int, count: nat) returns (res: int)
    modifies files
    ensures -1 <= res <= count
    ensures res == count <==> AllProgress(old(files.calls), files.calls)
    ensures res < count <==>
      OneStalled(old(files.calls), files.calls, 0) || OneStalled(old(files.calls), files.calls, -1)
    ensures res == -1 <==> OneStalled(old(files.calls), files.calls, -1) && files.written == old(files.written)
    ensures Transferred(files.input, offset, res, old(files.written), files.written)
  {
    hide AllProgress, OneStalled;
    var buf := new byte[BUFSIZE];
    var offs, left := offset, count;
    res := 0;
    ghost var before := files.calls;
    NothingFailedYet(before);
    while left != 0
      invariant 0 <= left <= count && res == count - left && offs == offset + res
      invariant AllProgress(before, files.calls)
      invariant Transferred(files.input, offset, res, old(files.written), files.written)
      decreases left
    {
      ghost var calls := files.calls;
      var cnt := files.Pread(buf, if left > BUFSIZE then BUFSIZE else left, offs);
      NextCall(before, calls, cnt);
      if cnt <= 0 {
        if cnt != 0 && res == 0 {
          res := -1;
        }
        break;
      }
      ghost var got := buf[..cnt];
      ghost var was := files.written;
      calls := files.calls;
      cnt := files.Write(buf, cnt);
      NextCall(before, calls, cnt);
      if cnt <= 0 {
        if cnt != 0 && res == 0 {
          res := -1;
        }
        break;
      }
      assert buf[..cnt] == got[..cnt];
      TransferMore(files.input, offset, res, old(files.written), was, got, cnt);
      offs := offs + cnt;
      res := res + cnt;
      left := left - cnt;
    }
    StalledOrNot(before, files.calls);
  }
}
