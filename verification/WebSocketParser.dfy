/** The WebSocket parser of WebSocketProtocol.h and the reassembly of WebSocketContext.h, working in place on whole
  * reads, proved against the octet-at-a-time parser of WebSocketStream.dfy. */
module WebSocketParser {
  import opened Bytes
  import opened Octets
  import opened Masking
  import opened WebSocketStream
  import Utf8

  /** LIBUS_RECV_BUFFER_PADDING: what may be written behind a read. */
  const POST_PADDING: nat := 32

  // ---------------------------------------------------------------- runs of whole frames

  /** A state between the header of a frame and the next octet of its payload. */
  ghost predicate Inside(c: Config, s: State)
  {
    && Complete(c, s) && s.mode.left <= c.maxPayload && |s.mode.key| == 4
    && (!IsData(Top(s)) ==> |s.control| + s.mode.left <= 125)
  }

  lemma EnterInside(c: Config, s: State, x: seq<octet>)
    requires Alive(c, s) && s.Live? && s.mode == Head([]) && ParseHeader(c.server, x).Got?
    requires !OutOfPlace(s, ParseHeader(c.server, x).header) && ParseHeader(c.server, x).header.length <= c.maxPayload
    ensures Inside(c, Enter(s, ParseHeader(c.server, x).header))
  {
    hide ParseHeader;
    LegalHeader(c.server, x);
  }

  /** A frame, or as much of it as is at hand: its payload is unmasked with the key of its header. */
  lemma RunFrame(c: Config, s: State, x: seq<octet>, k: nat)
    requires Alive(c, s) && s.Live? && s.mode == Head([]) && ParseHeader(c.server, x).Got?
    requires var h := ParseHeader(c.server, x).header;
             !OutOfPlace(s, h) && h.length <= c.maxPayload && k == Min(h.length, |x| - h.size)
    ensures var h := ParseHeader(c.server, x).header;
            var after := Absorb(c, Enter(s, h), Masked(x[h.size..h.size + k], h.key));
            Alive(c, after) && Run(c, s, x) == Run(c, after, x[h.size + k..])
  {
    hide Run, ParseHeader, CloseFrame, Masked, Rotated, AllBounded, StackOk;
    var h := ParseHeader(c.server, x).header;
    EnterInside(c, s, x);
    var entered, body := Enter(s, h), x[h.size..];
    RunHead(c, s, x);
    assert x[h.size..h.size + k] == body[..k];
    assert Masked(body[..k], h.key) == [] || k > 0;
    if h.length == 0 {
      assert entered.(message := s.message + []) == entered.(control := s.control + []) == entered;
    } else if k == 0 {
      RotatedNone(h.key);
      assert entered.(message := s.message + []) == entered.(control := s.control + []) == entered;
    } else {
      RunBody(c, entered, body, k);
      DropDrop(x, h.size, k);
    }
  }

  lemma RotatedNone(key: seq<octet>)
    requires |key| == 4
    ensures Rotated(key, 0) == key
  {
  }

  /** Octets kept from earlier reads and the next ones are parsed together. */
  lemma RunSpilled(c: Config, s: State, spill: seq<octet>, data: seq<octet>)
    requires Alive(c, s) && s.Live? && s.mode == Head(spill)
    ensures Alive(c, s.(mode := Head([]))) && Run(c, s.(mode := Head([])), spill + data) == Run(c, s, data)
  {
    hide Run, ParseHeader;
    NothingNeedsMore(c.server);
    var s0 := s.(mode := Head([]));
    assert [] + spill == spill;
    RunHeadPartial(c, s0, [], spill);
    RunConcat(c, s0, spill, data);
  }

  class WebSocketParser {
    const server: bool
    const maxPayload: nat
    const stops: seq<Output> -> bool
    var wantsHead: bool
    var spill: seq<octet>
    var opStack: int
    var lastFin: bool
    var opCode: seq<octet>
    var remainingBytes: nat
    const mask: array<octet>
    var fragmentBuffer: seq<octet>
    var controlTipLength: nat
    /** The socket is closed or shutting down: no more data reaches the parser. */
    var over: bool
    /** Everything the application has seen so far. */
    var out: seq<Output>
    /** Where the reference parser stands on the same stream. */
    ghost var at: State

    function Settings(): Config { Config(server, maxPayload, stops) }

    /** The fields keep the open frames and the fragments of `s`. */
    ghost predicate Fields(s: State)
      reads this
    {
      && s.Live? && !over && out == s.out
      && -1 <= opStack <= 1 && |opCode| == 2 && s.stack == opCode[..opStack + 1]
      && lastFin == s.lastFin && Fragments(s)
    }

    ghost predicate Fragments(s: State)
      requires s.Live?
      reads this`fragmentBuffer, this`controlTipLength
    {
      fragmentBuffer == s.message + s.control && controlTipLength == |s.control|
    }

    ghost predicate Where(m: Mode)
      reads this, mask
    {
      mask.Length == 4
      && match m
         case Head(h) => wantsHead && spill == h
         case Body(left, key) => !wantsHead && spill == [] && remainingBytes == left && (server ==> mask[..] == key)
    }

    ghost predicate Holds(s: State)
      reads this, mask
    {
      if s.Over? then over && out == s.out else Fields(s) && Where(s.mode)
    }

    ghost predicate Valid()
      reads this, mask
    {
      mask.Length == 4 && maxPayload < 0x1_0000_0000 && Alive(Settings(), at) && Holds(at)
    }

    constructor (server: bool, maxPayload: nat, stops: seq<Output> -> bool)
      requires maxPayload < 0x1_0000_0000
      ensures Valid() && at == START && fresh(mask)
      ensures this.server == server && this.maxPayload == maxPayload && this.stops == stops
    {
      this.server, this.maxPayload, this.stops := server, maxPayload, stops;
      wantsHead, spill, opStack, lastFin, opCode, remainingBytes := true, [], -1, true, [0, 0], 0;
      mask := new octet[4];
      fragmentBuffer, controlTipLength, over, out, at := [], 0, false, [], START;
      new;
      NothingNeedsMore(server);
    }

    method ForceClose(reason: Reason, ghost s: State)
      requires out == s.out
      modifies this`over, this`out
      ensures over && out == Fail(s, reason).out
    {
      over, out := true, out + [Closed(reason)];
    }

    /** A handler of the application is called; it may close the socket or shut it down. */
    method Deliver(o: Output) returns (stop: bool)
      requires !over
      modifies this`over, this`out
      ensures out == old(out) + [o] && stop == over == stops(out)
    {
      out := out + [o];
      over := stops(out);
      stop := over;
    }

    /** `parseClosePayload` and the close it leads to. */
    method End(payload: seq<octet>)
      modifies this`over, this`out
      ensures over && out == old(out) + [ClosePayload(payload)]
    {
      var o := Ended(NO_STATUS, []);
      if |payload| >= 2 {
        var code := BigEndian(payload[..2]);
        var valid := Utf8.IsValidUtf8(payload[2..]);
        o := if CodeAllowed(code) && valid then Ended(code, payload[2..]) else Ended(ABNORMAL, INVALID_CLOSE_PAYLOAD);
      }
      over, out := true, out + [o];
    }

    /** `handleFragment`: `data` is the next piece of the open frame, `remaining` octets of which are still to come.
      * True when the connection is over.  The caller pops the opcode of a frame that ends. */
    method HandleFragment(data: seq<octet>, remaining: nat, op: octet, fin: bool, ghost s: State) returns (stop: bool)
      requires Inside(Settings(), s) && Fields(s) && s.mode.left == |data| + remaining && op == Top(s)
      requires fin == s.lastFin
      modifies this`fragmentBuffer, this`controlTipLength, this`over, this`out
      ensures var s' := Absorb(Settings(), s, data);
              && out == s'.out && stop == over == s'.Over?
              && (s'.Live? ==> Fragments(s') && s'.lastFin == fin
                               && s'.stack == if remaining == 0 && fin then s.stack[..|s.stack| - 1] else s.stack)
    {
      if IsData(op) {
        stop := DataFragment(data, remaining, op, fin, s);
      } else {
        stop := ControlFragment(data, remaining, op, s);
      }
    }

    method DataFragment(data: seq<octet>, remaining: nat, op: octet, fin: bool, ghost s: State) returns (stop: bool)
      requires Inside(Settings(), s) && Fields(s) && s.mode.left == |data| + remaining && op == Top(s)
      requires fin == s.lastFin && IsData(op)
      modifies this`fragmentBuffer, this`over, this`out
      ensures var s' := Absorb(Settings(), s, data);
              && out == s'.out && stop == over == s'.Over?
              && (s'.Live? ==> Fragments(s') && s'.lastFin == fin
                               && s'.stack == if remaining == 0 && fin then s.stack[..|s.stack| - 1] else s.stack)
    {
      hide Utf8.IsUtf8, Rotated;
      stop := false;
      assert fragmentBuffer == s.message;
      if remaining == 0 && fin && |fragmentBuffer| == 0 {
        assert s.message + data == data;
        stop := DeliverMessage(op, data, s);
      } else {
        if maxPayload < |data| + |fragmentBuffer| {
          ForceClose(TooBig, s);
          return true;
        }
        fragmentBuffer := fragmentBuffer + data;
        assert fragmentBuffer == (s.message + data) + [];
        if remaining == 0 && fin {
          stop := DeliverMessage(op, fragmentBuffer, s);
          if !stop {
            fragmentBuffer := [];
          }
        }
      }
    }

    /** The check on text and the message handler. */
    method DeliverMessage(op: octet, data: seq<octet>, ghost s: State) returns (stop: bool)
      requires !over && out == s.out
      modifies this`over, this`out
      ensures stop == over
      ensures if op == TEXT && !Utf8.IsUtf8(data) then stop && out == Fail(s, InvalidText).out
              else out == s.out + [Message(op, data)] && stop == stops(out)
    {
      if op == TEXT {
        var valid := Utf8.IsValidUtf8(data);
        if !valid {
          ForceClose(InvalidText, s);
          return true;
        }
      }
      stop := Deliver(Message(op, data));
    }

    /** Control payload in pieces is kept on the tail of the fragment buffer. */
    method ControlFragment(data: seq<octet>, remaining: nat, op: octet, ghost s: State) returns (stop: bool)
      requires Inside(Settings(), s) && Fields(s) && s.mode.left == |data| + remaining && op == Top(s) && !IsData(op)
      modifies this`fragmentBuffer, this`controlTipLength, this`over, this`out
      ensures var s' := Absorb(Settings(), s, data);
              && out == s'.out && stop == over == s'.Over?
              && (s'.Live? ==> Fragments(s') && s'.lastFin == s.lastFin
                               && s'.stack == if remaining == 0 then s.stack[..|s.stack| - 1] else s.stack)
    {
      hide Utf8.IsUtf8, Rotated;
      stop := false;
      if remaining == 0 && controlTipLength == 0 {
        assert s.control + data == data;
        stop := DeliverControl(op, data);
      } else {
        Assoc3(s.message, s.control, data);
        fragmentBuffer := fragmentBuffer + data;
        controlTipLength := controlTipLength + |data|;
        if remaining == 0 {
          var tip := fragmentBuffer[|fragmentBuffer| - controlTipLength..];
          assert tip == s.control + data;
          stop := DeliverControl(op, tip);
          if !stop {
            fragmentBuffer := fragmentBuffer[..|fragmentBuffer| - controlTipLength];
            controlTipLength := 0;
            assert fragmentBuffer == s.message + [];
          }
        }
      }
    }

    method DeliverControl(op: octet, payload: seq<octet>) returns (stop: bool)
      requires !over && Known(op) && !IsData(op)
      modifies this`over, this`out
      ensures stop == over
      ensures op == CLOSE ==> stop && out == old(out) + [ClosePayload(payload)]
      ensures op != CLOSE ==>
                out == old(out) + [if op == PING then Pinged(payload) else Ponged(payload)] && stop == stops(out)
    {
      if op == CLOSE {
        End(payload);
        return true;
      } else if op == PING {
        stop := Deliver(Pinged(payload));
      } else {
        stop := Deliver(Ponged(payload));
      }
    }

    /** The start of `consumeMessage`: the opcode stack and the limit on payloads. */
    method Admit(first: octet, payLength: nat, ghost s: State, ghost h: Header) returns (refused: bool)
      requires Fields(s) && s.mode.Head? && Alive(Settings(), s)
      requires h.fin == IsFin(first) && h.op == OpCode(first) && h.length == payLength
      modifies this`opStack, this`opCode, this`lastFin, this`over, this`out
      ensures refused <==> OutOfPlace(s, h) || maxPayload < payLength
      ensures refused ==> over && out == OpenFrame(Settings(), s, h).out && OpenFrame(Settings(), s, h).Over?
      ensures !refused ==> Fields(Enter(s, h)) && opCode[opStack] == Top(Enter(s, h))
    {
      hide ParseHeader, CloseFrame, AllBounded;
      refused := false;
      if OpCode(first) != 0 {
        if opStack == 1 || (!lastFin && OpCode(first) < 2) {
          ForceClose(Protocol, s);
          return true;
        }
        opStack := opStack + 1;
        opCode := opCode[opStack := OpCode(first)];
      } else if opStack == -1 {
        ForceClose(Protocol, s);
        return true;
      }
      lastFin := IsFin(first);
      if maxPayload < payLength {
        ForceClose(TooBig, s);
        return true;
      }
    }

    /** `s'` is where the parser stands behind a frame, with the octets from `src` on as they were. */
    ghost predicate Next(s: State, x: seq<octet>, s': State, rest: seq<octet>)
      reads this
    {
      && Alive(Settings(), s) && Alive(Settings(), s') && Fields(s') && s'.mode == Head([])
      && Run(Settings(), s, x) == Run(Settings(), s', rest)
    }

    /** `consumeMessage`, for a header of `header` octets that announces `payLength`.  True when the read is used up
      * or the connection over. */
    method ConsumeMessage(buf: array<octet>, src: nat, end: nat, payLength: nat, header: nat, ghost s: State)
      returns (src': nat, stop: bool, ghost s': State)
      requires mask.Length == 4 && buf != mask && src <= end && end + POST_PADDING <= buf.Length
      requires maxPayload < 0x1_0000_0000
      requires Alive(Settings(), s) && Fields(s) && s.mode == Head([]) && wantsHead
      requires var p := ParseHeader(server, buf[src..end]);
                 p.Got? && p.header.length == payLength && p.header.size == header
      modifies buf, mask, this`wantsHead, this`spill, this`opStack, this`lastFin, this`opCode, this`remainingBytes,
               this`fragmentBuffer, this`controlTipLength, this`over, this`out
      ensures stop ==> Holds(Run(Settings(), s, old(buf[src..end])))
      ensures !stop ==> src < src' <= end && wantsHead && spill == [] && Next(s, old(buf[src..end]), s', buf[src'..end])
    {
      hide Run, ParseHeader, Absorb, OpenFrame, AllBounded, StackOk, Masked, Inside;
      ghost var h := ParseHeader(server, buf[src..end]).header;
      src', stop, s' := src, true, s;
      FramePlan(Settings(), s, buf[..], src, end);
      var refused := Admit(buf[src], payLength, s, h);
      if refused {
        return;
      }
      if payLength + header <= end - src {
        src', stop, s' := WholeFrame(buf, src, end, payLength, header, Enter(s, h), h.key);
      } else {
        s' := PartialFrame(buf, src, end, payLength, header, Enter(s, h), h.key);
      }
    }

    /** A frame that is all at hand: a server unmasks it over its own header. */
    method WholeFrame(buf: array<octet>, src: nat, end: nat, payLength: nat, header: nat, ghost e: State,
                      ghost key: seq<octet>)
      returns (src': nat, stop: bool, ghost s': State)
      requires buf != mask && src + header + payLength <= end && end + POST_PADDING <= buf.Length
      requires Inside(Settings(), e) && Fields(e) && opCode[opStack] == Top(e) && e.mode == Body(payLength, key)
      requires HeaderSize(server, header) && IsKey(key)
      requires (if server then buf[src + header - 4..src + header] == key else key == NO_KEY)
      modifies buf, this`spill, this`opStack, this`fragmentBuffer, this`controlTipLength, this`over, this`out
      ensures src' == src + header + payLength && spill == (if stop then old(spill) else [])
      ensures s' == Absorb(Settings(), e, Masked(old(buf[src + header..src + header + payLength]), key))
      ensures stop == s'.Over?
      ensures if stop then over && out == s'.out
              else Fields(s') && s'.mode == Head([]) && buf[src'..end] == old(buf[src'..end])
    {
      hide ParseHeader, Rotated, Masked, CloseFrame;
      var payload, fin := src + header, lastFin;
      ghost var plain := Masked(buf[payload..payload + payLength], key);
      if server {
        UnmaskFrame(buf, payload, header, payLength);
        stop := HandleFragment(buf[src..src + payLength], 0, opCode[opStack], fin, e);
      } else {
        MaskedZero(buf[payload..payload + payLength]);
        stop := HandleFragment(buf[payload..payload + payLength], 0, opCode[opStack], fin, e);
      }
      src', s' := payload + payLength, Absorb(Settings(), e, plain);
      AbsorbEnds(Settings(), e, plain);
      if stop {
        return;
      }
      if fin {
        opStack := opStack - 1;
      }
      spill := [];
    }

    /** A frame the read holds a part of. */
    method PartialFrame(buf: array<octet>, src: nat, end: nat, payLength: nat, header: nat, ghost e: State,
                        ghost key: seq<octet>)
      returns (ghost s': State)
      requires mask.Length == 4 && buf != mask && src + header <= end < src + header + payLength
      requires end + POST_PADDING <= buf.Length
      requires maxPayload < 0x1_0000_0000
      requires Inside(Settings(), e) && Fields(e) && opCode[opStack] == Top(e) && e.mode == Body(payLength, key)
      requires HeaderSize(server, header) && IsKey(key)
      requires (if server then buf[src + header - 4..src + header] == key else key == NO_KEY)
      modifies buf, mask, this`wantsHead, this`spill, this`remainingBytes, this`fragmentBuffer,
                 this`controlTipLength, this`over, this`out
      ensures s' == Absorb(Settings(), e, Masked(old(buf[src + header..end]), key)) && Holds(s')
    {
      hide ParseHeader, Rotated, Masked, CloseFrame;
      var payload, fin := src + header, lastFin;
      ghost var plain := Masked(buf[payload..end], key);
      spill, wantsHead := [], false;
      remainingBytes := (payLength - (end - src) + header) % 0x1_0000_0000;
      if server {
        UnmaskStart(buf, payload, end, header, mask);
      } else {
        MaskedZero(buf[payload..end]);
        RotatedZero(end - payload);
      }
      var stop := HandleFragment(buf[payload..end], remainingBytes, opCode[opStack], fin, e);
      s' := Absorb(Settings(), e, plain);
    }

    /** `consumeContinuation`: more of an open frame's payload.  True when the frame ends and others may follow. */
    method ConsumeContinuation(buf: array<octet>, src: nat, end: nat, ghost s: State)
      returns (src': nat, more: bool, ghost s': State)
      requires mask.Length == 4 && buf != mask && src <= end && end + POST_PADDING <= buf.Length
      requires Alive(Settings(), s) && Fields(s) && s.mode.Body? && Where(s.mode)
      modifies buf, mask, this`wantsHead, this`opStack, this`remainingBytes, this`fragmentBuffer,
                 this`controlTipLength, this`over, this`out
      ensures !more ==> Holds(Run(Settings(), s, old(buf[src..end])))
      ensures more ==> src <= src' <= end && wantsHead && spill == [] && Next(s, old(buf[src..end]), s', buf[src'..end])
    {
      hide Run, ParseHeader, Absorb, Rotated, Masked;
      src', more, s' := src, false, s;
      RestPlan(Settings(), s, buf[..], src, end);
      if remainingBytes <= end - src {
        src', more, s' := LastPart(buf, src, end, s);
      } else {
        s' := MiddlePart(buf, src, end, s);
      }
    }

    method LastPart(buf: array<octet>, src: nat, end: nat, ghost s: State)
      returns (src': nat, more: bool, ghost s': State)
      requires mask.Length == 4 && buf != mask && src + remainingBytes <= end <= buf.Length
      requires Inside(Settings(), s) && Alive(Settings(), s) && Fields(s) && s.mode.Body? && Where(s.mode)
      modifies buf, this`wantsHead, this`opStack, this`fragmentBuffer, this`controlTipLength, this`over, this`out
      ensures s' == Absorb(Settings(), s, Masked(old(buf[src..src + remainingBytes]), s.mode.key)) && more == s'.Live?
      ensures if !more then over && out == s'.out
              else
                && Fields(s') && s'.mode == Head([]) && wantsHead && src' == src + remainingBytes
                && buf[src'..end] == old(buf[src'..end])
    {
      hide ParseHeader, Rotated, Masked, CloseFrame;
      ghost var plain := Masked(buf[src..src + remainingBytes], s.mode.key);
      src', more := src, false;
      if server {
        UnmaskRest(buf, src, remainingBytes, mask);
      } else {
        MaskedZero(buf[src..src + remainingBytes]);
      }
      var stop := HandleFragment(buf[src..src + remainingBytes], 0, opCode[opStack], lastFin, s);
      s' := Absorb(Settings(), s, plain);
      AbsorbEnds(Settings(), s, plain);
      if stop {
        return;
      }
      if lastFin {
        opStack := opStack - 1;
      }
      src', wantsHead, more := src + remainingBytes, true, true;
    }

    method MiddlePart(buf: array<octet>, src: nat, end: nat, ghost s: State) returns (ghost s': State)
      requires mask.Length == 4 && buf != mask && src <= end < src + remainingBytes && end + POST_PADDING <= buf.Length
      requires Inside(Settings(), s) && Alive(Settings(), s) && Fields(s) && s.mode.Body? && Where(s.mode)
      modifies buf, mask, this`remainingBytes, this`fragmentBuffer, this`controlTipLength, this`over, this`out
      ensures s' == Absorb(Settings(), s, Masked(old(buf[src..end]), s.mode.key)) && Holds(s')
    {
      hide ParseHeader, Rotated, Masked, CloseFrame;
      ghost var plain, key := Masked(buf[src..end], s.mode.key), s.mode.key;
      var length := end - src;
      if server {
        UnmaskPart(buf, src, length, mask);
      } else {
        MaskedZero(buf[src..end]);
        RotatedZero(length);
      }
      remainingBytes := remainingBytes - length;
      var stop := HandleFragment(buf[src..end], remainingBytes, opCode[opStack], lastFin, s);
      s' := Absorb(Settings(), s, plain);
      if stop {
        return;
      }
      if server {
        RotatedMod(key, length);
        if length % 4 != 0 {
          RotateMask(4 - length % 4, mask);
        } else {
          RotatedNone(key);
        }
      }
    }

    /** The loop over whole frames in `consume`, and the header it keeps for the next read. */
    method ParseNext(buf: array<octet>, src0: nat, end: nat, ghost s0: State)
      requires mask.Length == 4 && buf != mask && src0 <= end && end + POST_PADDING <= buf.Length
      requires maxPayload < 0x1_0000_0000
      requires Alive(Settings(), s0) && Fields(s0) && s0.mode == Head([]) && wantsHead && (spill == [] || src0 < end)
      modifies buf, mask, this`wantsHead, this`spill, this`opStack, this`lastFin, this`opCode, this`remainingBytes,
               this`fragmentBuffer, this`controlTipLength, this`over, this`out
      ensures Holds(Run(Settings(), s0, old(buf[src0..end])))
    {
      hide Run, ParseHeader, BigEndian, Illegal;
      var src := src0;
      ghost var s, x0 := s0, buf[src..end];
      while end - src >= ShortHeader(server)
        invariant src0 <= src <= end && Fields(s) && s.mode == Head([]) && wantsHead && (spill == [] || src < end)
        invariant Alive(Settings(), s0) && Alive(Settings(), s)
        invariant Run(Settings(), s0, x0) == Run(Settings(), s, buf[src..end])
        decreases end - src
      {
        var first, second := buf[src], buf[src + 1];
        HeaderCases(server, buf[src..end]);
        if Illegal(server, first, second) {
          RunBad(Settings(), s, buf[src..end]);
          ForceClose(Protocol, s);
          return;
        }
        var stop;
        if PayloadLength(second) < 126 {
          src, stop, s := ConsumeMessage(buf, src, end, PayloadLength(second) as nat, ShortHeader(server), s);
        } else if PayloadLength(second) == 126 {
          if end - src < MediumHeader(server) {
            break;
          }
          SubSlice(buf[..], src, end, src + 2, src + 4);
          src, stop, s := ConsumeMessage(buf, src, end, BigEndian(buf[src + 2..src + 4]), MediumHeader(server), s);
        } else {
          if end - src < LongHeader(server) {
            break;
          }
          SubSlice(buf[..], src, end, src + 2, src + 10);
          src, stop, s := ConsumeMessage(buf, src, end, BigEndian(buf[src + 2..src + 10]), LongHeader(server), s);
        }
        if stop {
          return;
        }
      }
      HeaderCases(server, buf[src..end]);
      assert [] + buf[src..end] == buf[src..end];
      RunHeadPartial(Settings(), s, [], buf[src..end]);
      if end - src > 0 {
        spill := buf[src..end];
      }
    }

    /** `consume`, which ignores what comes once the connection is over: one read, with room for a kept header before
      * it and for the last word unmasked behind it.
      * Whatever the reads were, the application sees what the reference parser delivers. */
    method Consume(buf: array<octet>, src: nat, end: nat)
      requires Valid() && buf != mask
      requires LongHeader(server) - 1 <= src <= end && end + POST_PADDING <= buf.Length
      modifies this, mask, buf
      ensures Valid() && at == Run(Settings(), old(at), old(buf[src..end]))
    {
      hide Run, ParseHeader;
      ghost var data, s0 := buf[src..end], at;
      if over {
        RunOver(Settings(), s0, data);
        return;
      }
      var from := src;
      if |spill| > 0 {
        from := src - |spill|;
        CopySpill(buf, from, src);
      }
      assert buf[src..end] == data;
      assert buf[from..end] == buf[from..src] + buf[src..end];
      at := Run(Settings(), s0, data);
      if wantsHead {
        RunSpilled(Settings(), s0, spill, data);
        ParseNext(buf, from, end, s0.(mode := Head([])));
      } else {
        var more;
        ghost var s;
        from, more, s := ConsumeContinuation(buf, from, end, s0);
        if more {
          ParseNext(buf, from, end, s);
        }
      }
    }

    /** A connection's reads, one after the other. */
    method Receive(segments: seq<seq<octet>>)
      requires Valid()
      modifies this, mask
      ensures Valid() && at == Run(Settings(), old(at), Flatten(segments))
    {
      hide Run, ParseHeader, Alive, Holds, Flatten;
      ghost var s0, c := at, Settings();
      assert Alive(c, s0);
      RunNothing(c, s0);
      NothingFlat();
      for i := 0 to |segments|
        invariant Valid() && Alive(c, s0) && at == Run(c, s0, Flatten(segments[..i]))
      {
        var front, n := LongHeader(server) - 1, |segments[i]|;
        var buf := new octet[front + n + POST_PADDING](k requires 0 <= k < front + n + POST_PADDING =>
          if front <= k < front + n then segments[i][k - front] else 0);
        assert buf[front..front + n] == segments[i];
        assert segments[..i + 1] == segments[..i] + [segments[i]];
        FlattenAppend(segments[..i], segments[i]);
        RunConcat(c, s0, Flatten(segments[..i]), segments[i]);
        Consume(buf, front, front + n);
      }
      assert segments[..|segments|] == segments;
    }

    method CopySpill(buf: array<octet>, from: nat, src: nat)
      requires from + |spill| == src <= buf.Length
      modifies buf
      ensures buf[from..src] == spill && forall k :: src <= k < buf.Length ==> buf[k] == old(buf[k])
    {
      forall i | 0 <= i < |spill| {
        buf[from + i] := spill[i];
      }
    }
  }

  /** The cases of a header, by what its second octet says. */
  lemma HeaderCases(server: bool, x: seq<octet>)
    ensures |x| < ShortHeader(server) ==> ParseHeader(server, x) == Need
    ensures |x| >= ShortHeader(server) && Illegal(server, x[0], x[1]) ==> ParseHeader(server, x) == Bad
    ensures |x| >= ShortHeader(server) && !Illegal(server, x[0], x[1]) ==>
              var p, l := ParseHeader(server, x), PayloadLength(x[1]);
              var size := if l < 126 then ShortHeader(server) else if l == 126 then MediumHeader(server)
                else LongHeader(server);
              if |x| < size then p == Need
              else p.Got? && p.header.size == size
                   && p.header.length == (if l < 126 then l as nat else if l == 126 then BigEndian(x[2..4])
                     else BigEndian(x[2..10]))
  {
    hide Illegal, BigEndian;
  }

  lemma AbsorbNothing(c: Config, s: State, none: seq<octet>)
    requires Alive(c, s) && s.Live? && s.mode.Body? && none == []
    ensures Absorb(c, s, none) == s
  {
    hide ParseHeader;
    assert s.message + none == s.message && s.control + none == s.control;
    RotatedNone(s.mode.key);
  }

  lemma NothingFlat()
    ensures Flatten<octet>([]) == []
  {
  }

  ghost predicate HeaderSize(server: bool, size: nat)
  {
    size == ShortHeader(server) || size == MediumHeader(server) || size == LongHeader(server)
  }

  /** What the first octets of a frame say. */
  lemma HeaderBits(server: bool, x: seq<octet>)
    requires ParseHeader(server, x).Got?
    ensures var h := ParseHeader(server, x).header;
            && h.fin == IsFin(x[0]) && h.op == OpCode(x[0]) && HeaderSize(server, h.size)
            && (if server then h.key == x[h.size - 4..h.size] else h.key == NO_KEY)
  {
  }

  lemma FrameSlices(w: seq<octet>, src: nat, end: nat, header: nat, k: nat)
    requires src + header + k <= end <= |w|
    ensures var x := w[src..end];
            && (header >= 4 ==> x[header - 4..header] == w[src + header - 4..src + header])
            && x[header..header + k] == w[src + header..src + header + k]
            && x[header + k..] == w[src + header + k..end]
  {
    if header >= 4 { SubSlice(w, src, end, src + header - 4, src + header); }
    SubSlice(w, src, end, src + header, src + header + k);
    SubSlice(w, src, end, src + header + k, end);
  }

  /** Where the frame that starts at `src` takes the run, in terms of the buffer. */
  lemma FramePlan(c: Config, s: State, w: seq<octet>, src: nat, end: nat)
    requires src <= end <= |w| && Alive(c, s) && s.Live? && s.mode == Head([])
    requires ParseHeader(c.server, w[src..end]).Got?
    ensures var h, first := ParseHeader(c.server, w[src..end]).header, w[src];
            && h.fin == IsFin(first) && h.op == OpCode(first) && HeaderSize(c.server, h.size) && IsKey(h.key)
            && (if c.server then h.key == w[src + h.size - 4..src + h.size] else h.key == NO_KEY)
    ensures var h := ParseHeader(c.server, w[src..end]).header;
            var run := Run(c, s, w[src..end]);
            if OutOfPlace(s, h) || c.maxPayload < h.length then run == OpenFrame(c, s, h)
            else
              var k := Min(h.length, end - src - h.size);
              var after := Absorb(c, Enter(s, h), Masked(w[src + h.size..src + h.size + k], h.key));
              && Inside(c, Enter(s, h)) && Alive(c, after)
              && (if k < h.length || after.Over? then run == after else run == Run(c, after, w[src + h.size + k..end]))
  {
    hide Run, ParseHeader, Absorb, AllBounded, StackOk, Masked, CloseFrame;
    var x := w[src..end];
    var h := ParseHeader(c.server, x).header;
    HeaderBits(c.server, x);
    FrameSlices(w, src, end, h.size, Min(h.length, end - src - h.size));
    if OutOfPlace(s, h) || c.maxPayload < h.length {
      RunHead(c, s, x);
      RunOver(c, OpenFrame(c, s, h), x[h.size..]);
    } else {
      var k := Min(h.length, end - src - h.size);
      var after := Absorb(c, Enter(s, h), Masked(w[src + h.size..src + h.size + k], h.key));
      EnterInside(c, s, x);
      RunFrame(c, s, x, k);
      RunNothing(c, after);
      if after.Over? { RunOver(c, after, w[src + h.size + k..end]); }
    }
  }

  /** Where the rest of an open frame takes the run, in terms of the buffer. */
  lemma RestPlan(c: Config, s: State, w: seq<octet>, src: nat, end: nat)
    requires src <= end <= |w| && Alive(c, s) && s.Live? && s.mode.Body?
    ensures var k := Min(s.mode.left, end - src);
            var after, run := Absorb(c, s, Masked(w[src..src + k], s.mode.key)), Run(c, s, w[src..end]);
            && Inside(c, s) && Alive(c, after)
            && (if k < s.mode.left || after.Over? then run == after else run == Run(c, after, w[src + k..end]))
  {
    hide Run, ParseHeader, Absorb, Masked;
    var x, k := w[src..end], Min(s.mode.left, end - src);
    FrameSlices(w, src, end, 0, k);
    var after := Absorb(c, s, Masked(w[src..src + k], s.mode.key));
    AbsorbAlive(c, s, Masked(w[src..src + k], s.mode.key));
    RunNothing(c, after);
    if k > 0 {
      assert x[0..k] == x[..k];
      RunBody(c, s, x, k);
      if after.Over? { RunOver(c, after, w[src + k..end]); }
    } else {
      AbsorbNothing(c, s, Masked(w[src..src + k], s.mode.key));
    }
  }

  /** The end of a payload is the end of a frame. */
  lemma AbsorbEnds(c: Config, e: State, plain: seq<octet>)
    requires Inside(c, e) && |plain| == e.mode.left
    ensures var s' := Absorb(c, e, plain);
            s'.Live? ==> s'.mode == Head([]) && s'.lastFin == e.lastFin
                         && s'.stack == if e.lastFin then e.stack[..|e.stack| - 1] else e.stack
  {
  }
}
