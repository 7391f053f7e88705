/** Output of AsyncSocket.h and AsyncSocketData.h: one cork buffer for all sockets of a loop, and per socket a queue of
  * bytes the kernel would not take, with removal put off. */
module AsyncSocket {
  import opened Bytes
  import opened Octets
  import opened WebSocketFormat

  /** `BackPressure` */
  class BackPressure {
    var buffer: seq<octet>
    var pendingRemoval: nat
    /** All octets erased, and all octets moved by the compactions that paid for it. */
    ghost var erased: nat
    ghost var copied: nat

    /** At most a 32nd of the buffer waits for removal, and compaction has moved less than 31 octets for each one
      * erased. */
    ghost predicate Valid()
      reads this
    {
      && 32 * pendingRemoval <= |buffer| && pendingRemoval <= erased
      && copied <= 31 * (erased - pendingRemoval) && (copied > 0 ==> copied < 31 * (erased - pendingRemoval))
    }

    ghost function Contents(): seq<octet>
      requires Valid()
      reads this
    {
      buffer[pendingRemoval..]
    }

    constructor ()
      ensures Valid() && Contents() == [] && erased == copied == 0
    {
      buffer, pendingRemoval, erased, copied := [], 0, 0, 0;
    }

    method Append(data: seq<octet>)
      requires Valid()
      modifies this
      ensures Valid() && Contents() == old(Contents()) + data
      ensures erased == old(erased) && copied == old(copied)
    {
      buffer := buffer + data;
    }

    method Erase(n: nat)
      requires Valid() && n <= |Contents()|
      modifies this
      ensures Valid() && Contents() == old(Contents())[n..]
      ensures erased == old(erased) + n
    {
      ghost var was := buffer;
      pendingRemoval, erased := pendingRemoval + n, erased + n;
      if pendingRemoval > |buffer| / 32 {
        copied := copied + (|buffer| - pendingRemoval);
        buffer := buffer[pendingRemoval..];
        pendingRemoval := 0;
      }
    }

    method Length() returns (n: nat)
      requires Valid()
      ensures n == |Contents()|
    {
      n := |buffer| - pendingRemoval;
    }

    method Clear()
      requires Valid()
      modifies this
      ensures Valid() && Contents() == [] && erased == old(erased)
    {
      pendingRemoval, buffer := 0, [];
    }

    /** `resize` by `n` more octets, which are zero until somebody writes over them. */
    method Grow(n: nat)
      requires Valid()
      modifies this
      ensures Valid() && Contents() == old(Contents()) + Zeros(n) && erased == old(erased) && copied == old(copied)
    {
      buffer := buffer + seq(n, _ => 0);
    }

    /** `memcpy` into the queue. */
    method Overwrite(at: nat, data: seq<octet>)
      requires Valid() && at + |data| <= |Contents()|
      modifies this
      ensures Valid() && Contents() == old(Contents())[..at] + data + old(Contents())[at + |data|..]
    {
      var start := pendingRemoval + at;
      buffer := buffer[..start] + data + buffer[start + |data|..];
    }
  }

  function Zeros(n: nat): seq<octet> { seq(n, _ => 0) }

  const CORK_BUFFER_SIZE: nat := 16384

  class LoopData {
    const corkBuffer: array<octet>
    var corkOffset: nat
    var corkedSocket: AsyncSocket?

    constructor ()
      ensures fresh(corkBuffer) && corkBuffer.Length == CORK_BUFFER_SIZE && corkOffset == 0 && corkedSocket == null
    {
      corkBuffer := new octet[CORK_BUFFER_SIZE];
      corkOffset, corkedSocket := 0, null;
    }

    ghost predicate Fits()
      reads `corkOffset
    {
      corkBuffer.Length == CORK_BUFFER_SIZE && corkOffset <= CORK_BUFFER_SIZE
    }

    /** Only a corked socket has anything in the buffer. */
    ghost predicate Valid()
      reads this
    {
      Fits() && (corkedSocket == null ==> corkOffset == 0)
    }
  }

  datatype SendBufferAttribute = NeedsNothing | NeedsDrain | NeedsUncork

  datatype SendStatus = Limited | Success | Dropped

  /** What the owner of a socket, or the loop, may ask of it. */
  datatype Request =
    | Write(src: seq<octet>, optionally: bool)
    | Cork
    | Uncork(src: seq<octet>, optionally: bool)
    | Send(isServer: bool, subscriber: bool, maxBackpressure: nat, f: Frame)
    | BecameWritable
    | Close

  /** What the caller is told: how many octets were accepted, what became of a message, or nothing. */
  datatype Answer = Wrote(n: nat, failed: bool) | Sent(status: SendStatus) | Nothing

  /** An answer that fits the request: without a failure all of it was accepted, and always if it is mandatory. */
  predicate Answers(r: Request, a: Answer)
  {
    match r
    case Write(src, optionally) => a.Wrote? && a.n <= |src| && (!optionally || !a.failed ==> a.n == |src|)
    case Uncork(src, _) => a.Wrote? && a.n <= |src|
    case Send(_, _, _, _) => a.Sent?
    case _ => a.Nothing?
  }

  /** The octets that were accepted, by the answer. */
  function Taken(r: Request, a: Answer): seq<octet>
    requires Answers(r, a)
  {
    match r
    case Write(src, _) => src[..a.n]
    case Uncork(src, _) => src[..a.n]
    case Send(isServer, _, _, f) => if a.status.Dropped? then [] else Encode(isServer, f)
    case _ => []
  }

  class AsyncSocket {
    const loop: LoopData
    const buffer: BackPressure
    /** How much the kernel will take at each of the next writes; all of it once this is used up. */
    var kernel: seq<nat>
    /** What the kernel has taken. */
    var sent: seq<octet>
    var closed: bool

    /** Sent, or waiting for the kernel. */
    ghost function Passed(): seq<octet>
      requires buffer.Valid()
      reads `sent, buffer
    {
      sent + buffer.Contents()
    }

    ghost function Corked(): seq<octet>
      reads loop, loop.corkBuffer
    {
      if loop.corkedSocket == this && loop.corkOffset <= loop.corkBuffer.Length then
        loop.corkBuffer[..loop.corkOffset] else []
    }

    /** What has been taken on and not lost: sent, waiting for the kernel, or corked, in this order. */
    ghost function Total(): seq<octet>
      requires buffer.Valid()
      reads `sent, loop, loop.corkBuffer, buffer
    {
      Passed() + Corked()
    }

    /** Corked data and waiting data never coexist. */
    ghost predicate Exclusive()
      requires buffer.Valid()
      reads loop, loop.corkBuffer, buffer
    {
      buffer.Contents() == [] || Corked() == []
    }

    ghost predicate Valid()
      reads this, loop, loop.corkBuffer, buffer
    {
      loop.Valid() && buffer.Valid() && (!closed ==> Exclusive())
    }

    /** What every write needs: the cork buffer may be in the middle of being sent off. */
    ghost predicate Writable()
      reads this, loop, loop.corkBuffer, buffer
    {
      loop.Fits() && buffer.Valid() && (!closed ==> Exclusive())
    }

    twostate predicate LeavesCork()
      reads loop, loop.corkBuffer
    {
      && loop.corkedSocket == old(loop.corkedSocket) && loop.corkOffset == old(loop.corkOffset)
      && loop.corkBuffer[..] == old(loop.corkBuffer[..])
    }

    /** The cork buffer is taken only when nothing is in it, and left alone unless it is ours. */
    twostate predicate LeavesOthers()
      reads loop, loop.corkBuffer
    {
      (old(loop.corkedSocket) == this && loop.corkedSocket in {this, null}) || LeavesCork()
        || (old(loop.corkOffset) == 0 && loop.corkedSocket in {this, null})
    }

    /** What we have in the cork buffer is safe from any other socket. */
    twostate lemma Spared(other: AsyncSocket)
      requires other != this && other.loop == loop && other.LeavesOthers()
      requires old(loop.Valid()) && loop.Valid()
      ensures Corked() == old(Corked())
    {
    }

    constructor (loop: LoopData, kernel: seq<nat>)
      requires loop.Valid()
      ensures Valid() && this.loop == loop && fresh(buffer) && sent == [] && buffer.Contents() == []
    {
      this.loop, this.kernel := loop, kernel;
      buffer := new BackPressure();
      sent, closed := [], false;
    }

    /** `us_socket_write`: the kernel takes as much as it likes, and nothing for a closed socket. */
    method Kernel(data: seq<octet>) returns (written: nat)
      modifies `kernel, `sent
      ensures written <= |data| && sent == old(sent) + data[..written]
      ensures old(kernel) == [] && !closed ==> written == |data| && kernel == []
    {
      written := |data|;
      if closed {
        written := 0;
      } else if |kernel| > 0 {
        written := Min(kernel[0], |data|);
        kernel := kernel[1..];
      }
      sent := sent + data[..written];
    }

    method Cork()
      requires Valid() && (loop.corkOffset > 0 ==> loop.corkedSocket == this)
      modifies loop`corkedSocket
      ensures Valid() && loop.corkedSocket == this && Corked() == old(Corked()) && LeavesOthers()
    {
      loop.corkedSocket := this;
    }

    method UncorkWithoutSending()
      requires Valid() && (loop.corkedSocket == this ==> loop.corkOffset == 0)
      modifies loop`corkedSocket
      ensures Valid() && loop.corkedSocket == (if old(loop.corkedSocket) == this then null else old(loop.corkedSocket))
      ensures Corked() == old(Corked())
    {
      if loop.corkedSocket == this {
        loop.corkedSocket := null;
      }
    }

    /** The first part of `write`: what waits goes first.  True when some of it still waits. */
    method DrainBuffer() returns (limited: bool)
      requires buffer.Valid()
      modifies `kernel, `sent, buffer
      ensures buffer.Valid() && Passed() == old(Passed())
      ensures limited <==> buffer.Contents() != []
      ensures old(buffer.Contents()) == [] ==> buffer.Contents() == []
      ensures old(kernel) == [] && !closed ==> !limited && kernel == []
    {
      limited := false;
      var waiting := buffer.Length();
      if waiting > 0 {
        ghost var c, s := buffer.Contents(), sent;
        var written := Kernel(buffer.buffer[buffer.pendingRemoval..]);
        Cut(s, c, written);
        if written < waiting {
          buffer.Erase(written);
          limited := true;
        } else {
          buffer.Clear();
        }
      }
    }

    method Append(src: seq<octet>)
      requires buffer.Valid()
      modifies buffer
      ensures buffer.Valid() && Passed() == old(Passed()) + src && buffer.Contents() == old(buffer.Contents()) + src
    {
      Assoc3(sent, buffer.Contents(), src);
      buffer.Append(src);
    }

    /** The middle part of `write`: nothing waits and we are not corked. */
    method WriteThrough(src: seq<octet>, optionally: bool) returns (n: nat, failed: bool)
      requires buffer.Valid() && buffer.Contents() == []
      modifies `kernel, `sent, buffer
      ensures n <= |src| && (!optionally ==> n == |src|) && (!failed ==> n == |src|)
      ensures buffer.Valid() && Passed() == old(Passed()) + src[..n]
      ensures buffer.Contents() == [] <==> optionally || !failed
      ensures old(kernel) == [] && !closed ==> !failed && kernel == []
    {
      n, failed := |src|, false;
      ghost var s := sent;
      var written := Kernel(src);
      assert Passed() == s + src[..written];
      if written < |src| {
        failed := true;
        if optionally {
          n := written;
        } else {
          Cut(s, src, written);
          assert s + src[..written] + src[written..] == s + src;
          buffer.Append(src[written..]);
        }
      }
    }

    /** What waits still waits: an optional write is refused, any other queued behind it. */
    method WriteBehind(src: seq<octet>, optionally: bool) returns (n: nat)
      requires Writable() && !closed && buffer.Contents() != []
      modifies buffer
      ensures Writable() && n == if optionally then 0 else |src|
      ensures Total() == old(Total()) + src[..n] && buffer.Contents() != []
    {
      n := if optionally then 0 else |src|;
      assert src[..|src|] == src && src[..0] == [];
      if !optionally {
        Append(src);
      }
    }

    /** `memcpy` to the end of the cork buffer. */
    method CopyToCork(src: seq<octet>)
      requires loop.Fits() && loop.corkOffset + |src| <= CORK_BUFFER_SIZE
      modifies loop`corkOffset, loop.corkBuffer
      ensures loop.Fits() && loop.corkOffset == old(loop.corkOffset) + |src|
      ensures loop.corkBuffer[..loop.corkOffset] == old(loop.corkBuffer[..loop.corkOffset]) + src
    {
      var at := loop.corkOffset;
      forall i | 0 <= i < |src| {
        loop.corkBuffer[at + i] := src[i];
      }
      loop.corkOffset := at + |src|;
    }

    /** `write`: the cork buffer, or the kernel, or the queue.  `n` counts the octets accepted, all of them unless the
      * write is optional; a mandatory write fails exactly when something is left waiting. */
    method Write(src: seq<octet>, optionally: bool) returns (n: nat, failed: bool)
      requires Writable()
      modifies `kernel, `sent, buffer, loop, loop.corkBuffer
      ensures Writable() && n <= |src| && (!optionally || !failed ==> n == |src|)
      ensures !closed ==> Total() == old(Total()) + src[..n]
      ensures !closed && old(kernel) == [] ==> !failed && kernel == []
      ensures !closed && !optionally ==> (failed <==> buffer.Contents() != [])
      ensures closed ==> !failed
      ensures closed || old(loop.corkedSocket) != this ==> LeavesCork()
      ensures old(loop.Valid()) ==> loop.Valid()
      ensures loop.corkedSocket in {old(loop.corkedSocket), null}
      decreases if loop.corkedSocket == this then 1 else 0, 3
    {
      n, failed := |src|, false;
      assert src[..|src|] == src;
      if closed {
        return;
      }
      var limited := DrainBuffer();
      assert Total() == old(Total());
      if limited {
        failed := true;
        n := WriteBehind(src, optionally);
      } else if |src| > 0 {
        if loop.corkedSocket == this {
          n, failed := WriteCorked(src, optionally);
        } else {
          n, failed := WriteThrough(src, optionally);
        }
      }
    }

    /** The cork buffer is ours: what fits goes there, otherwise all of it is sent off. */
    method WriteCorked(src: seq<octet>, optionally: bool) returns (n: nat, failed: bool)
      requires Writable() && !closed && loop.corkedSocket == this && buffer.Contents() == []
      modifies `kernel, `sent, buffer, loop, loop.corkBuffer
      ensures Writable() && n <= |src| && (!optionally || !failed ==> n == |src|)
      ensures Total() == old(Total()) + src[..n]
      ensures old(kernel) == [] ==> !failed && kernel == []
      ensures !optionally ==> (failed <==> buffer.Contents() != [])
      ensures old(loop.Valid()) ==> loop.Valid()
      ensures loop.corkedSocket in {old(loop.corkedSocket), null}
      decreases 1, 2
    {
      n, failed := |src|, false;
      assert src[..|src|] == src;
      if CORK_BUFFER_SIZE - loop.corkOffset >= |src| {
        Assoc3(Passed(), Corked(), src);
        CopyToCork(src);
      } else {
        n, failed := Uncork(src, optionally);
      }
    }

    /** The first part of `uncork`: what was corked is written like anything else. */
    method FlushCork() returns (full: bool)
      requires Writable() && loop.corkedSocket == this
      modifies `kernel, `sent, buffer, loop, loop.corkBuffer
      ensures Writable() && loop.corkedSocket == null && loop.corkOffset == 0
      ensures !closed ==> Total() == old(Total()) && (old(loop.corkOffset) > 0 ==> (full <==> buffer.Contents() != []))
      ensures closed || old(loop.corkOffset) == 0 ==> !full
      ensures !closed && old(kernel) == [] ==> !full && kernel == []
      decreases 1, 0
    {
      full := false;
      var data := loop.corkBuffer[..loop.corkOffset];
      assert data[..|data|] == data;
      loop.corkedSocket := null;
      if loop.corkOffset > 0 {
        assert Total() == Passed() && old(Corked()) == data;
        var n;
        n, full := Write(data, false);
        loop.corkOffset := 0;
      }
    }

    /** `uncork`: the cork buffer is sent off, then `src` is written. */
    method Uncork(src: seq<octet>, optionally: bool) returns (n: nat, failed: bool)
      requires Writable()
      modifies `kernel, `sent, buffer, loop, loop.corkBuffer
      ensures Writable() && n <= |src|
      ensures old(loop.corkedSocket) == this && (!optionally || !failed) ==> n == |src|
      ensures !closed && old(kernel) == [] ==> !failed && kernel == []
      ensures old(loop.corkedSocket) != this ==> n == 0 && !failed
      ensures !closed ==> Total() == old(Total()) + src[..n]
      ensures !closed && !optionally && old(loop.corkedSocket) == this ==> (failed <==> buffer.Contents() != [])
      ensures if old(loop.corkedSocket) == this then loop.corkedSocket == null && loop.corkOffset == 0 else LeavesCork()
      decreases if loop.corkedSocket == this then 1 else 0, 1
    {
      n, failed := 0, false;
      if loop.corkedSocket == this {
        var full := FlushCork();
        if full {
          failed := true;
          if !optionally && |src| > 0 {
            Append(src);
            assert src[..|src|] == src;
            n := |src|;
          }
        } else {
          n, failed := Write(src, optionally);
        }
      }
    }

    /** Room in the cork buffer, which is ours from here on. */
    method ReserveCork(size: nat) returns (ghost hole: seq<octet>)
      requires Valid() && buffer.Contents() == [] && loop.corkedSocket in {this, null}
      requires loop.corkOffset + size < CORK_BUFFER_SIZE
      modifies loop
      ensures loop.Valid() && loop.corkedSocket == this && loop.corkOffset == old(loop.corkOffset) + size
      ensures |hole| == size && Corked() == old(Corked()) + hole
    {
      if loop.corkedSocket == null {
        Cork();
      }
      var start := loop.corkOffset;
      hole := loop.corkBuffer[start..start + size];
      loop.corkOffset := start + size;
    }

    /** Room at the end of the queue, behind what we had corked. */
    method ReserveQueue(size: nat)
      requires Valid()
      modifies buffer, loop`corkOffset
      ensures loop.Valid() && buffer.Valid() && Corked() == []
      ensures buffer.Contents() == old(buffer.Contents()) + old(Corked()) + Zeros(size)
      ensures loop.corkOffset == if loop.corkedSocket == this then 0 else old(loop.corkOffset)
    {
      var existing := buffer.Length();
      var ours := [];
      if loop.corkedSocket == this && loop.corkOffset > 0 {
        ours := loop.corkBuffer[..loop.corkOffset];
        loop.corkOffset := 0;
      }
      buffer.Grow(|ours| + size);
      buffer.Overwrite(existing, ours);
      assert Zeros(|ours| + size)[|ours|..] == Zeros(size);
    }

    /** `getSendBuffer`: room for `size` octets after everything accepted so far, in the cork buffer if it can be had,
      * else at the end of the queue. */
    method GetSendBuffer(size: nat) returns (attribute: SendBufferAttribute, ghost hole: seq<octet>)
      requires Valid()
      modifies buffer, loop
      ensures loop.Valid() && buffer.Valid() && |hole| == size
      ensures !closed ==> Exclusive() && Total() == old(Total()) + hole
      ensures attribute.NeedsDrain? ==>
                loop.corkedSocket == old(loop.corkedSocket) && |buffer.Contents()| >= size && Corked() == []
      ensures !attribute.NeedsDrain? ==>
                loop.corkedSocket == this && loop.corkOffset >= size && buffer.Contents() == []
      ensures attribute.NeedsUncork? <==> old(loop.corkedSocket) == null && loop.corkedSocket == this
      ensures LeavesOthers()
    {
      var existing := buffer.Length();
      if existing == 0 && loop.corkedSocket in {this, null} && loop.corkOffset + size < CORK_BUFFER_SIZE {
        attribute := if loop.corkedSocket == this then NeedsNothing else NeedsUncork;
        hole := ReserveCork(size);
        Assoc3(Passed(), old(Corked()), hole);
      } else {
        attribute, hole := NeedsDrain, Zeros(size);
        ReserveQueue(size);
        Assoc3(sent, old(buffer.Contents()) + old(Corked()), hole);
        Assoc3(sent, old(buffer.Contents()), old(Corked()));
      }
    }

    /** A frame is formatted into the room reserved for it. */
    method Format(frame: seq<octet>, attribute: SendBufferAttribute)
      requires loop.Valid() && buffer.Valid() && (!closed ==> Exclusive())
      requires if attribute.NeedsDrain? then |frame| <= |buffer.Contents()| && Corked() == []
               else loop.corkedSocket == this && |frame| <= loop.corkOffset && buffer.Contents() == []
      modifies buffer, loop.corkBuffer
      ensures Valid()
      ensures |frame| <= |old(Total())| && Total() == old(Total())[..|old(Total())| - |frame|] + frame
      ensures if attribute.NeedsDrain? then LeavesCork() else buffer.Contents() == []
    {
      ghost var total := Total();
      if attribute.NeedsDrain? {
        var waiting := buffer.Length();
        buffer.Overwrite(waiting - |frame|, frame);
        assert Total() == total[..|total| - |frame|] + frame;
      } else {
        var start := loop.corkOffset - |frame|;
        forall i | 0 <= i < |frame| {
          loop.corkBuffer[start + i] := frame[i];
        }
        assert Total() == total[..|total| - |frame|] + frame;
      }
    }

    /** The long way of `send`: the frame is formatted where it will be sent from. */
    method SendFormatted(frame: seq<octet>) returns (limited: bool)
      requires Valid()
      modifies `kernel, `sent, buffer, loop, loop.corkBuffer
      ensures Valid() && LeavesOthers()
      ensures !closed ==> Total() == old(Total()) + frame
      ensures !closed && limited ==> buffer.Contents() != []
    {
      ghost var total := Total();
      var attribute, hole := GetSendBuffer(|frame|);
      Format(frame, attribute);
      assert !closed ==> (total + hole)[..|total|] == total;
      limited := false;
      var n;
      match attribute
      case NeedsNothing =>
      case NeedsDrain => n, limited := Write([], false);
      case NeedsUncork => n, limited := Uncork([], false);
    }

    /** `us_socket_write2`, and the queue for what the kernel does not take. */
    method SendDirectly(header: seq<octet>, payload: seq<octet>) returns (limited: bool)
      requires Valid() && buffer.Contents() == [] && loop.corkOffset == 0
      modifies `kernel, `sent, buffer, loop`corkedSocket
      ensures Valid() && LeavesOthers()
      ensures Total() == old(Total()) + (header + payload)
      ensures limited <==> buffer.Contents() != []
    {
      limited := false;
      ghost var s := sent;
      var written := Kernel(header + payload);
      Cut(s, header + payload, written);
      if written != |header| + |payload| {
        if written > |header| {
          buffer.Append(payload[written - |header|..]);
          assert buffer.Contents() == (header + payload)[written..];
        } else {
          buffer.Append(header[written..]);
          buffer.Append(payload);
          assert buffer.Contents() == (header + payload)[written..];
        }
        UncorkWithoutSending();
        limited := true;
      }
    }

    /** `send` of an uncompressed message.  A message is dropped whole, before anything is done for it, or its frame is
      * taken on whole, after everything taken on before. */
    method Send(isServer: bool, subscriber: bool, maxBackpressure: nat, f: Frame) returns (status: SendStatus)
      requires Valid()
      modifies `kernel, `sent, buffer, loop, loop.corkBuffer
      ensures Valid() && LeavesOthers()
      ensures status.Dropped? <==> 0 < maxBackpressure < old(|buffer.buffer|)
      ensures status.Dropped? ==> LeavesCork() && sent == old(sent) && buffer.Contents() == old(buffer.Contents())
      ensures !closed ==> Total() == old(Total()) + if status.Dropped? then [] else Encode(isServer, f)
      ensures !closed && status.Limited? ==> buffer.Contents() != []
    {
      if 0 < maxBackpressure < |buffer.buffer| {
        return Dropped;
      }
      var limited;
      if isServer && |f.data| >= 16384 && !subscriber && |buffer.buffer| == 0 && loop.corkOffset == 0 {
        limited := SendDirectly(HeaderField(true, f.fin, f.op, |f.data|, f.key), f.data);
      } else {
        limited := SendFormatted(Encode(isServer, f));
      }
      status := if limited then Limited else Success;
    }

    /** One request, and what its caller is told. */
    method Handle(r: Request) returns (answer: Answer)
      requires Valid() && (r.Cork? && loop.corkOffset > 0 ==> loop.corkedSocket == this)
      modifies this, buffer, loop, loop.corkBuffer
      ensures Valid() && LeavesOthers() && Answers(r, answer)
      ensures !closed ==> Total() == old(Total()) + Taken(r, answer)
      ensures closed <==> old(closed) || r.Close?
      ensures Told(r, answer)
    {
      var n, failed;
      answer := Nothing;
      assert Total() + [] == Total();
      match r
      case Write(src, optionally) =>
        n, failed := Write(src, optionally);
        answer := Wrote(n, failed);
      case Cork =>
        Cork();
      case Uncork(src, optionally) =>
        n, failed := Uncork(src, optionally);
        answer := Wrote(n, failed);
      case Send(isServer, subscriber, maxBackpressure, f) =>
        var status := Send(isServer, subscriber, maxBackpressure, f);
        answer := Sent(status);
      case BecameWritable =>
        n, failed := Write([], false);
      case Close =>
        closed := true;
    }

    /** The answer says how it is: a message is dropped exactly if more than its limit waits; a mandatory write, or an
      * `uncork` of ours, fails exactly if something is left waiting; and nothing fails if the kernel takes it all. */
    twostate predicate Told(r: Request, answer: Answer)
      requires Answers(r, answer) && old(Valid()) && Valid()
      reads this, loop, loop.corkBuffer, buffer
    {
      match r
      case Write(src, optionally) =>
        !closed ==>
          && (!optionally ==> (answer.failed <==> buffer.Contents() != []))
          && (old(kernel) == [] ==> !answer.failed)
      case Uncork(src, optionally) =>
        && (old(loop.corkedSocket) != this ==> answer == Wrote(0, false))
        && (old(loop.corkedSocket) == this ==>
          && (!optionally || !answer.failed ==> answer.n == |src|)
          && (!closed && !optionally ==> (answer.failed <==> buffer.Contents() != []))
          && (!closed && old(kernel) == [] ==> !answer.failed))
      case Send(isServer, subscriber, maxBackpressure, f) =>
        && (answer.status.Dropped? <==> 0 < maxBackpressure < old(|buffer.buffer|))
        && (!closed && answer.status.Limited? ==> buffer.Contents() != [])
      case _ => true
    }
  }

  /** All sockets of a loop, and what the callers of each were told is on its way. */
  class Sockets {
    const loop: LoopData
    const all: seq<AsyncSocket>
    ghost var accepted: seq<seq<octet>>

    ghost predicate Separate()
    {
      && (forall i | 0 <= i < |all| :: all[i].loop == loop)
      && (forall i, j | 0 <= i < j < |all| :: all[i] != all[j] && all[i].buffer != all[j].buffer)
    }

    ghost function Parts(): set<object>
    {
      (set i | 0 <= i < |all| :: all[i]) + (set i | 0 <= i < |all| :: all[i].buffer)
    }

    lemma InParts(i: nat)
      requires i < |all|
      ensures all[i] in Parts() && all[i].buffer in Parts()
    {
    }

    /** Every octet accepted on an open socket has been sent, waits for the kernel, or lies in the cork buffer. */
    ghost predicate Conserved(i: nat)
      requires i < |all|
      reads this, Parts(), loop, loop.corkBuffer
    {
      && i < |accepted| && all[i].loop == loop && all[i].Valid()
      && (!all[i].closed ==> accepted[i] == all[i].Total())
    }

    ghost predicate Valid()
      reads this, Parts(), loop, loop.corkBuffer
    {
      && Separate() && |accepted| == |all| && loop.Valid()
      && forall i | 0 <= i < |all| :: Conserved(i)
    }

    constructor (loop: LoopData, all: seq<AsyncSocket>)
      requires loop.Valid() && loop.corkOffset == 0
      requires forall i | 0 <= i < |all| ::
                 all[i].loop == loop && all[i].Valid() && all[i].sent == [] && all[i].buffer.Contents() == []
      requires forall i, j | 0 <= i < j < |all| :: all[i] != all[j] && all[i].buffer != all[j].buffer
      ensures Valid() && this.loop == loop && this.all == all && accepted == seq(|all|, _ => [])
    {
      this.loop, this.all := loop, all;
      accepted := seq(|all|, _ => []);
    }

    /** `cork` ends the process if somebody else has data in the buffer. */
    predicate Allowed(i: nat, r: Request)
      requires i < |all|
      reads loop
    {
      r.Cork? && loop.corkOffset > 0 ==> loop.corkedSocket == all[i]
    }

    /** One request to one socket. */
    method Perform(i: nat, r: Request) returns (answer: Answer)
      requires Valid() && i < |all| && Allowed(i, r)
      modifies this`accepted, all[i], all[i].buffer, loop, loop.corkBuffer
      ensures Valid() && Answers(r, answer) && accepted == old(accepted)[i := old(accepted)[i] + Taken(r, answer)]
      ensures all[i].closed <==> old(all[i].closed) || r.Close?
      ensures old(all[i].Valid()) && all[i].Valid() && all[i].Told(r, answer)
    {
      assert Conserved(i);
      answer := all[i].Handle(r);
      accepted := accepted[i := accepted[i] + Taken(r, answer)];
      forall j | 0 <= j < |all| && j != i ensures Conserved(j) {
        assert old(Conserved(j)) && all[i].loop == all[j].loop == loop;
        all[j].Spared(all[i]);
      }
    }

    /** Every sequence of requests to the sockets of a loop. */
    method Serve(script: seq<(nat, Request)>) returns (answers: seq<Answer>)
      requires Valid() && forall k | 0 <= k < |script| :: script[k].0 < |all|
      modifies this`accepted, Parts(), loop, loop.corkBuffer
      ensures Valid() && |answers| <= |script|
      ensures forall k | 0 <= k < |answers| :: Answers(script[k].1, answers[k])
      ensures forall i | 0 <= i < |all| :: accepted[i] == old(accepted[i]) + Account(script, answers, i)
      ensures |answers| < |script| ==> !Allowed(script[|answers|].0, script[|answers|].1)
    {
      hide Account, Taken, Answers, Conserved, Separate, AsyncSocket.Told, Parts, Allowed;
      answers := [];
      AccountNothing(script);
      while |answers| < |script| && Allowed(script[|answers|].0, script[|answers|].1)
        invariant |answers| <= |script| && Valid()
        invariant forall k | 0 <= k < |answers| :: Answers(script[k].1, answers[k])
        invariant forall i | 0 <= i < |all| :: accepted[i] == old(accepted[i]) + Account(script, answers, i)
        decreases |script| - |answers|
      {
        ghost var was, before := answers, accepted;
        var (i, r) := script[|answers|];
        InParts(i);
        var answer := Perform(i, r);
        answers := answers + [answer];
        forall i | 0 <= i < |all| ensures accepted[i] == old(accepted[i]) + Account(script, answers, i) {
          AccountMore(script, was, answer, i);
          Assoc3(old(accepted[i]), Account(script, was, i), Taken(r, answer));
        }
      }
    }
  }

  /** All that was accepted for one of the sockets, by the answers, in the order of the requests. */
  ghost function Account(script: seq<(nat, Request)>, answers: seq<Answer>, i: nat): seq<octet>
    requires |answers| <= |script| && forall k | 0 <= k < |answers| :: Answers(script[k].1, answers[k])
  {
    if |answers| == 0 then [] else
      var k := |answers| - 1;
      Account(script, answers[..k], i) + if script[k].0 == i then Taken(script[k].1, answers[k]) else []
  }

  lemma AccountNothing(script: seq<(nat, Request)>)
    ensures forall i :: Account(script, [], i) == []
  {
  }

  lemma AccountMore(script: seq<(nat, Request)>, answers: seq<Answer>, answer: Answer, i: nat)
    requires |answers| < |script| && Answers(script[|answers|].1, answer)
    requires forall k | 0 <= k < |answers| :: Answers(script[k].1, answers[k])
    ensures Account(script, answers + [answer], i) == Account(script, answers, i) +
              if script[|answers|].0 == i then Taken(script[|answers|].1, answer) else []
  {
    hide Answers, Taken;
    assert (answers + [answer])[..|answers|] == answers;
  }

  lemma Cut<T>(s: seq<T>, c: seq<T>, k: nat)
    requires k <= |c|
    ensures (s + c[..k]) + c[k..] == s + c
  {
    assert c == c[..k] + c[k..];
  }
}
