/** The reference meaning of a WebSocket byte stream: sections 5.2 to 5.5 of RFC 6455 as the engine reads them,
  * one octet at a time.
  *
  * `Run` is a fold over octets, so read boundaries cannot matter to it.  WebSocketParser.dfy proves that the
  * source's parser, which works in place on whole reads, does the same. */
module WebSocketStream {
  import opened Bytes
  import opened Octets
  import opened Masking
  import Utf8

  const CONTINUATION: octet := 0
  const TEXT: octet := 1
  const BINARY: octet := 2
  const CLOSE: octet := 8
  const PING: octet := 9
  const PONG: octet := 10

  // ---------------------------------------------------------------- frame headers

  function ShortHeader(server: bool): nat { if server then 6 else 2 }
  function MediumHeader(server: bool): nat { if server then 8 else 4 }
  function LongHeader(server: bool): nat { if server then 14 else 10 }

  datatype Header = Header(fin: bool, op: octet, length: nat, key: seq<octet>, size: nat)
  datatype Parsed = Need | Bad | Got(header: Header)

  function IsFin(first: octet): bool { Has(first, 128) }
  function OpCode(first: octet): octet { first & 15 }
  function PayloadLength(second: octet): octet { second & 127 }

  /** Reserved bits or opcodes, malformed control frames, and frames a client must not be sent.  No compression has
    * been negotiated, so the first reserved bit is refused as well. */
  predicate Illegal(server: bool, first: octet, second: octet)
  {
    || Has(first, 64) || Has(first, 48)
    || 2 < OpCode(first) < 8 || OpCode(first) > 10
    || (OpCode(first) > 2 && (!IsFin(first) || PayloadLength(second) > 125))
    || (!server && Has(second, 128))
  }

  /** An unsigned integer in network order. */
  function BigEndian(s: seq<octet>): (n: nat)
  {
    if s == [] then 0 else BigEndian(s[..|s| - 1]) * 256 + s[|s| - 1] as nat
  }

  function HeaderAt(server: bool, x: seq<octet>, lengthEnd: nat, length: nat): Header
    requires 2 <= lengthEnd && (if server then lengthEnd + 4 else lengthEnd) <= |x|
  {
    Header(IsFin(x[0]), OpCode(x[0]), length,
           if server then x[lengthEnd..lengthEnd + 4] else NO_KEY, if server then lengthEnd + 4 else lengthEnd)
  }

  /** What is known of a frame from its first octets.  A server looks at nothing before the key of a short frame
    * would be complete. */
  function ParseHeader(server: bool, x: seq<octet>): (p: Parsed)
    ensures p.Got? ==> 2 <= p.header.size <= |x| && |p.header.key| == 4
    ensures p.Need? ==> |x| < LongHeader(server)
  {
    if |x| < ShortHeader(server) then Need
    else if Illegal(server, x[0], x[1]) then Bad
    else if PayloadLength(x[1]) < 126 then Got(HeaderAt(server, x, 2, PayloadLength(x[1]) as nat))
    else if PayloadLength(x[1]) == 126 then
      if |x| < MediumHeader(server) then Need else Got(HeaderAt(server, x, 4, BigEndian(x[2..4])))
    else
      if |x| < LongHeader(server) then Need else Got(HeaderAt(server, x, 10, BigEndian(x[2..10])))
  }

  /** What is known stays known. */
  lemma HeaderExtend(server: bool, x: seq<octet>, y: seq<octet>)
    requires !ParseHeader(server, x).Need?
    ensures ParseHeader(server, x + y) == ParseHeader(server, x)
  {
    hide BigEndian, Illegal;
    assert (x + y)[0] == x[0] && (x + y)[1] == x[1];
    if |x| >= MediumHeader(server) { assert (x + y)[2..4] == x[2..4]; }
    if |x| >= LongHeader(server) { assert (x + y)[2..10] == x[2..10] && (server ==> (x + y)[10..14] == x[10..14]); }
    if server && |x| >= 8 { assert (x + y)[4..8] == x[4..8]; }
    if server { assert (x + y)[2..6] == x[2..6]; }
  }

  /** A header is known exactly when its last octet is there. */
  lemma HeaderPrefix(server: bool, x: seq<octet>, k: nat)
    requires k <= |x| && ParseHeader(server, x).Got?
    ensures k < ParseHeader(server, x).header.size ==> ParseHeader(server, x[..k]) == Need
    ensures k >= ParseHeader(server, x).header.size ==> ParseHeader(server, x[..k]) == ParseHeader(server, x)
  {
    hide BigEndian, Illegal;
    if ParseHeader(server, x[..k]).Need? {
    } else {
      HeaderExtend(server, x[..k], x[k..]);
      assert x[..k] + x[k..] == x;
    }
  }

  // ---------------------------------------------------------------- what the application sees

  datatype Reason = Protocol | TooBig | InvalidText

  /** `Pinged`: answered with a pong of the same payload and handed to the ping handler. */
  datatype Output =
    | Message(op: octet, data: seq<octet>)
    | Pinged(data: seq<octet>)
    | Ponged(data: seq<octet>)
    | Ended(code: nat, reason: seq<octet>)
    | Closed(cause: Reason)

  /** `stops`: whether the application's handler, seeing the last of these, closes or ends the connection. */
  datatype Config = Config(server: bool, maxPayload: nat, stops: seq<Output> -> bool)

  const NO_STATUS: nat := 1005
  const ABNORMAL: nat := 1006

  /** "Received invalid close payload" */
  const INVALID_CLOSE_PAYLOAD: seq<octet> :=
    [82, 101, 99, 101, 105, 118, 101, 100, 32, 105, 110, 118, 97, 108, 105, 100, 32, 99, 108, 111, 115, 101, 32,
     112, 97, 121, 108, 111, 97, 100]

  /** A code a peer may send: section 7.4 of RFC 6455. */
  predicate CodeAllowed(code: nat)
  {
    1000 <= code <= 4999 && !(1011 < code < 4000) && !(1004 <= code <= 1006)
  }

  /** `parseClosePayload` */
  ghost function ClosePayload(payload: seq<octet>): Output
  {
    if |payload| < 2 then Ended(NO_STATUS, [])
    else
      var code := BigEndian(payload[..2]);
      if CodeAllowed(code) && Utf8.IsUtf8(payload[2..]) then Ended(code, payload[2..])
      else Ended(ABNORMAL, INVALID_CLOSE_PAYLOAD)
  }

  // ---------------------------------------------------------------- the reference parser

  datatype Mode = Head(octets: seq<octet>) | Body(left: nat, key: seq<octet>)

  /** `stack`: the opcodes of the open message and of the control frame inside it.  `message` and `control`: what has
    * arrived of their payloads. */
  datatype State =
    | Live(mode: Mode, stack: seq<octet>, lastFin: bool, message: seq<octet>, control: seq<octet>, out: seq<Output>)
    | Over(out: seq<Output>)

  const START: State := Live(Head([]), [], true, [], [], [])

  predicate IsData(op: octet) { op < 3 }

  function Top(s: State): octet
    requires s.Live? && s.stack != []
  {
    s.stack[|s.stack| - 1]
  }

  function Fail(s: State, reason: Reason): State
  {
    Over(s.out + [Closed(reason)])
  }

  function Emit(c: Config, s: State, o: Output): State
    requires s.Live?
  {
    if c.stops(s.out + [o]) then Over(s.out + [o]) else s.(out := s.out + [o])
  }

  /** The end of a frame. */
  ghost function CloseFrame(c: Config, s: State): State
    requires s.Live? && s.stack != []
  {
    var popped := s.(mode := Head([]), stack := s.stack[..|s.stack| - 1]);
    if IsData(Top(s)) then
      if !s.lastFin then s.(mode := Head([]))
      else if Top(s) == TEXT && !Utf8.IsUtf8(s.message) then Fail(s, InvalidText)
      else Emit(c, popped.(message := []), Message(Top(s), s.message))
    else if Top(s) == CLOSE then Over(s.out + [ClosePayload(s.control)])
    else Emit(c, popped.(control := []), if Top(s) == PING then Pinged(s.control) else Ponged(s.control))
  }

  /** A new message or control frame where none may start, or a continuation of nothing. */
  predicate OutOfPlace(s: State, h: Header)
    requires s.Live?
  {
    if h.op == CONTINUATION then s.stack == [] else |s.stack| == 2 || (!s.lastFin && h.op < 2)
  }

  function Enter(s: State, h: Header): State
    requires s.Live?
  {
    s.(mode := Body(h.length, h.key), stack := if h.op != CONTINUATION then s.stack + [h.op]
      else s.stack, lastFin := h.fin)
  }

  /** A frame whose header is known. */
  ghost function OpenFrame(c: Config, s: State, h: Header): State
    requires s.Live?
  {
    if OutOfPlace(s, h) then Fail(s, Protocol)
    else if c.maxPayload < h.length then Fail(s, TooBig)
    else
      var entered := Enter(s, h);
      if h.length == 0 then CloseFrame(c, entered) else entered
  }

  /** Unmasked payload. */
  ghost function Absorb(c: Config, s: State, chunk: seq<octet>): State
    requires s.Live? && s.stack != [] && s.mode.Body? && |s.mode.key| == 4 && |chunk| <= s.mode.left
  {
    if IsData(Top(s)) && c.maxPayload < |s.message| + |chunk| then Fail(s, TooBig)
    else
      var longer := if IsData(Top(s)) then s.(message := s.message + chunk) else s.(control := s.control + chunk);
      if |chunk| == s.mode.left then CloseFrame(c, longer)
      else longer.(mode := Body(s.mode.left - |chunk|, Rotated(s.mode.key, |chunk|)))
  }

  ghost predicate Bounded(c: Config, o: Output)
  {
    match o
    case Message(op, data) => |data| <= c.maxPayload && (op == TEXT || op == BINARY)
      && (op == TEXT ==> Utf8.IsUtf8(data))
    case Pinged(data) => |data| <= 125
    case Ponged(data) => |data| <= 125
    case _ => true
  }

  ghost predicate AllBounded(c: Config, out: seq<Output>)
  {
    forall o | o in out :: Bounded(c, o)
  }

  predicate Known(op: octet)
  {
    op == TEXT || op == BINARY || op == CLOSE || op == PING || op == PONG
  }

  /** The open frames: data, except that the one whose payload is arriving may be a control frame. */
  ghost predicate StackOk(s: State)
    requires s.Live?
  {
    && |s.stack| <= 2 && (forall op | op in s.stack :: Known(op))
    && forall i | 0 <= i < |s.stack| - (if s.mode.Body? then 1 else 0) :: IsData(s.stack[i])
  }

  /** What every reachable state keeps. */
  ghost predicate Alive(c: Config, s: State)
  {
    && AllBounded(c, s.out)
    && (s.Live? ==>
          && StackOk(s) && |s.message| <= c.maxPayload
          && match s.mode
             case Head(h) => ParseHeader(c.server, h) == Need && s.control == []
             case Body(left, key) =>
               && s.stack != [] && 1 <= left <= c.maxPayload && |key| == 4 && (!c.server ==> key == NO_KEY)
               && if IsData(Top(s)) then s.control == [] else s.lastFin && |s.control| + left <= 125)
  }

  /** The buffer that holds both never exceeds the limit on messages and a control frame. */
  lemma FragmentBufferBound(c: Config, s: State)
    requires Alive(c, s) && s.Live?
    ensures |s.message + s.control| <= c.maxPayload + 125
  {
    hide ParseHeader;
  }

  ghost function Step(c: Config, s: State, b: octet): State
    requires Alive(c, s)
  {
    if s.Over? then s
    else
      match s.mode
      case Body(left, key) => Absorb(c, s, Masked([b], key))
      case Head(h) =>
        match ParseHeader(c.server, h + [b])
        case Need => s.(mode := Head(h + [b]))
        case Bad => Fail(s, Protocol)
        case Got(header) => OpenFrame(c, s, header)
  }

  lemma EmitAlive(c: Config, s: State, o: Output)
    requires s.Live? && Alive(c, s) && Bounded(c, o)
    ensures Alive(c, Emit(c, s, o))
  {
    hide ParseHeader;
  }

  lemma NothingNeedsMore(server: bool)
    ensures ParseHeader(server, []) == Need
  {
  }

  /** A state between the last octet of a frame and its end. */
  ghost predicate Complete(c: Config, s: State)
  {
    && s.Live? && s.mode.Body? && s.stack != [] && AllBounded(c, s.out) && StackOk(s)
    && |s.message| <= c.maxPayload
    && if IsData(Top(s)) then s.control == [] else s.lastFin && |s.control| <= 125
  }

  lemma CloseFrameAlive(c: Config, s: State)
    requires Complete(c, s)
    ensures Alive(c, CloseFrame(c, s)) && (CloseFrame(c, s).Live? ==> CloseFrame(c, s).mode == Head([]))
  {
    hide ParseHeader, Utf8.IsUtf8;
    NothingNeedsMore(c.server);
    var popped := s.(mode := Head([]), stack := s.stack[..|s.stack| - 1]);
    assert Known(Top(s));
    if IsData(Top(s)) {
      if s.lastFin && !(Top(s) == TEXT && !Utf8.IsUtf8(s.message)) {
        EmitAlive(c, popped.(message := []), Message(Top(s), s.message));
      }
    } else if Top(s) != CLOSE {
      EmitAlive(c, popped.(control := []), if Top(s) == PING then Pinged(s.control) else Ponged(s.control));
    }
  }

  lemma LegalHeader(server: bool, x: seq<octet>)
    requires ParseHeader(server, x).Got?
    ensures var h := ParseHeader(server, x).header;
            && (h.op == CONTINUATION || Known(h.op)) && (!server ==> h.key == NO_KEY)
            && (!IsData(h.op) ==> h.fin && h.length <= 125)
  {
  }

  lemma OpenFrameAlive(c: Config, s: State, x: seq<octet>)
    requires Alive(c, s) && s.Live? && s.mode.Head? && ParseHeader(c.server, x).Got?
    ensures Alive(c, OpenFrame(c, s, ParseHeader(c.server, x).header))
  {
    hide ParseHeader, CloseFrame;
    LegalHeader(c.server, x);
    var h := ParseHeader(c.server, x).header;
    if !OutOfPlace(s, h) && c.maxPayload >= h.length {
      assert StackOk(Enter(s, h));
      if h.length == 0 {
        CloseFrameAlive(c, Enter(s, h));
      }
    }
  }

  lemma AbsorbAlive(c: Config, s: State, chunk: seq<octet>)
    requires Alive(c, s) && s.Live? && s.mode.Body? && |chunk| <= s.mode.left
    ensures Alive(c, Absorb(c, s, chunk))
  {
    hide ParseHeader, CloseFrame;
    RotatedZero(|chunk|);
    if !(IsData(Top(s)) && c.maxPayload < |s.message| + |chunk|) {
      var longer := if IsData(Top(s)) then s.(message := s.message + chunk) else s.(control := s.control + chunk);
      if |chunk| == s.mode.left {
        CloseFrameAlive(c, longer);
      }
    }
  }

  lemma StepAlive(c: Config, s: State, b: octet)
    requires Alive(c, s)
    ensures Alive(c, Step(c, s, b))
  {
    hide ParseHeader, OpenFrame, Absorb;
    if s.Live? {
      match s.mode {
        case Body(_, key) => AbsorbAlive(c, s, Masked([b], key));
        case Head(h) =>
          if ParseHeader(c.server, h + [b]).Got? { OpenFrameAlive(c, s, h + [b]); }
      }
    }
  }

  /** One octet at a time. */
  ghost function Run(c: Config, s: State, input: seq<octet>): (r: State)
    requires Alive(c, s)
    ensures Alive(c, r)
    decreases |input|
  {
    if input == [] then s
    else
      StepAlive(c, s, input[0]);
      Run(c, Step(c, s, input[0]), input[1..])
  }

  lemma {:induction false} RunOver(c: Config, s: State, input: seq<octet>)
    requires Alive(c, s) && s.Over?
    ensures Run(c, s, input) == s
    decreases |input|
  {
    if input != [] {
      RunOver(c, s, input[1..]);
    }
  }

  lemma {:induction false} RunConcat(c: Config, s: State, x: seq<octet>, y: seq<octet>)
    requires Alive(c, s)
    ensures Run(c, s, x + y) == Run(c, Run(c, s, x), y)
    decreases |x|
  {
    hide Step, Alive;
    if x == [] {
      assert x + y == y;
    } else {
      StepAlive(c, s, x[0]);
      assert (x + y)[0] == x[0] && (x + y)[1..] == x[1..] + y;
      RunConcat(c, Step(c, s, x[0]), x[1..], y);
    }
  }

  /** The run over a series of reads. */
  ghost function RunReads(c: Config, s: State, segments: seq<seq<octet>>): (r: State)
    requires Alive(c, s)
    ensures Alive(c, r)
    decreases |segments|
  {
    if segments == [] then s else RunReads(c, Run(c, s, segments[0]), segments[1..])
  }

  /** Read boundaries are invisible. */
  lemma {:induction false} ReadsInvisible(c: Config, s: State, segments: seq<seq<octet>>)
    requires Alive(c, s)
    ensures RunReads(c, s, segments) == Run(c, s, Flatten(segments))
    decreases |segments|
  {
    hide Run, Alive;
    if segments == [] {
      RunNothing(c, s);
    } else {
      ReadsInvisible(c, Run(c, s, segments[0]), segments[1..]);
      RunConcat(c, s, segments[0], Flatten(segments[1..]));
    }
  }

  lemma RunNothing(c: Config, s: State)
    requires Alive(c, s)
    ensures Run(c, s, []) == s
  {
  }

  lemma RunStep(c: Config, s: State, input: seq<octet>)
    requires Alive(c, s) && input != []
    ensures Alive(c, Step(c, s, input[0])) && Run(c, s, input) == Run(c, Step(c, s, input[0]), input[1..])
  {
    hide Step, Alive;
    StepAlive(c, s, input[0]);
  }

  // ---------------------------------------------------------------- runs over headers and payloads

  /** Octets that complete no header are kept. */
  lemma {:induction false} RunHeadPartial(c: Config, s: State, h: seq<octet>, x: seq<octet>)
    requires s.Live? && s.mode == Head(h) && Alive(c, s) && ParseHeader(c.server, h + x) == Need
    ensures Run(c, s, x) == s.(mode := Head(h + x)) && Alive(c, s.(mode := Head(h + x)))
    decreases |x|
  {
    hide Run, ParseHeader, OpenFrame, Absorb;
    if x == [] {
      RunNothing(c, s);
      assert h + x == h;
    } else {
      var d := h + [x[0]];
      RunStep(c, s, x);
      assert d + x[1..] == h + x;
      if ParseHeader(c.server, d) != Need { HeaderExtend(c.server, d, x[1..]); }
      RunHeadPartial(c, s.(mode := Head(d)), d, x[1..]);
    }
  }

  /** Octets that complete a header: the run goes on behind it. */
  lemma RunHead(c: Config, s: State, x: seq<octet>)
    requires s.Live? && s.mode == Head([]) && Alive(c, s) && ParseHeader(c.server, x).Got?
    ensures var h := ParseHeader(c.server, x).header;
            Alive(c, OpenFrame(c, s, h)) && Run(c, s, x) == Run(c, OpenFrame(c, s, h), x[h.size..])
  {
    hide Run, ParseHeader, OpenFrame, Absorb;
    var n := ParseHeader(c.server, x).header.size;
    var almost := x[..n - 1];
    HeaderPrefix(c.server, x, n - 1);
    HeaderPrefix(c.server, x, n);
    OpenFrameAlive(c, s, x);
    assert [] + almost == almost;
    RunHeadPartial(c, s, [], almost);
    assert Run(c, s, almost) == s.(mode := Head(almost));
    assert x == almost + x[n - 1..];
    RunConcat(c, s, almost, x[n - 1..]);
    RunStep(c, s.(mode := Head(almost)), x[n - 1..]);
    assert almost + [x[n - 1..][0]] == x[..n];
    assert x[n - 1..][1..] == x[n..];
    OpenFrameMode(c, s, Head(almost), ParseHeader(c.server, x).header);
  }

  lemma OpenFrameMode(c: Config, s: State, m: Mode, h: Header)
    requires s.Live?
    ensures OpenFrame(c, s.(mode := m), h) == OpenFrame(c, s, h)
  {
  }

  lemma BadPrefix(server: bool, x: seq<octet>, k: nat)
    requires ParseHeader(server, x).Bad? && k <= |x|
    ensures |x| >= ShortHeader(server)
    ensures ParseHeader(server, x[..k]) == if k < ShortHeader(server) then Need else Bad
  {
    hide BigEndian, Illegal, HeaderAt;
  }

  lemma RunBad(c: Config, s: State, x: seq<octet>)
    requires s.Live? && s.mode == Head([]) && Alive(c, s) && ParseHeader(c.server, x).Bad?
    ensures Run(c, s, x) == Fail(s, Protocol)
  {
    hide Run, ParseHeader, OpenFrame, Absorb;
    var n := ShortHeader(c.server);
    BadPrefix(c.server, x, 0);
    BadPrefix(c.server, x, n - 1);
    BadPrefix(c.server, x, n);
    var almost := x[..n - 1];
    assert [] + almost == almost;
    RunHeadPartial(c, s, [], almost);
    assert Run(c, s, almost) == s.(mode := Head(almost));
    assert x == almost + x[n - 1..];
    RunConcat(c, s, almost, x[n - 1..]);
    RunStep(c, s.(mode := Head(almost)), x[n - 1..]);
    assert almost + [x[n - 1..][0]] == x[..n];
    RunOver(c, Fail(s, Protocol), x[n - 1..][1..]);
  }

  /** Payload in two pieces. */
  lemma AbsorbConcat(c: Config, s: State, x: seq<octet>, y: seq<octet>)
    requires Alive(c, s) && s.Live? && s.mode.Body? && |x| < s.mode.left && |x| + |y| <= s.mode.left
    ensures Alive(c, Absorb(c, s, x))
    ensures Absorb(c, s, x + y) == if Absorb(c, s, x).Over? then Absorb(c, s, x) else Absorb(c, Absorb(c, s, x), y)
  {
    hide ParseHeader, CloseFrame, Rotated, StackOk, AllBounded;
    AbsorbAlive(c, s, x);
    if Absorb(c, s, x).Live? {
      RotatedTwice(s.mode.key, |x|, |y|);
      Assoc3(s.message, x, y);
      Assoc3(s.control, x, y);
      var m := Body(s.mode.left - |x|, Rotated(s.mode.key, |x|));
      CloseFrameMode(c, if IsData(Top(s)) then s.(message := s.message + (x + y))
        else s.(control := s.control + (x + y)), m);
    }
  }

  lemma CloseFrameMode(c: Config, s: State, m: Mode)
    requires s.Live? && s.stack != []
    ensures CloseFrame(c, s.(mode := m)) == CloseFrame(c, s)
  {
  }

  /** A read inside a payload is unmasked and absorbed as far as the frame goes. */
  lemma {:induction false} RunBody(c: Config, s: State, data: seq<octet>, k: nat)
    requires Alive(c, s) && s.Live? && s.mode.Body? && k <= |data| && k <= s.mode.left && 0 < k
    ensures var after := Absorb(c, s, Masked(data[..k], s.mode.key));
            Alive(c, after) && Run(c, s, data) == Run(c, after, data[k..])
    decreases k
  {
    hide Run, ParseHeader, Absorb, Masked, Rotated;
    var key := s.mode.key;
    var chunk := Masked(data[..k], key);
    AbsorbAlive(c, s, chunk);
    RunStep(c, s, data);
    assert data[..1] == [data[0]];
    if k > 1 {
      var first, others := data[..1], data[1..k];
      assert data[..k] == first + others && data[1..][..k - 1] == others;
      MaskedConcat(first, others, key);
      AbsorbConcat(c, s, Masked(first, key), Masked(others, Rotated(key, 1)));
      var next := Absorb(c, s, Masked(first, key));
      if next.Over? {
        RunOver(c, next, data[1..]);
        RunOver(c, next, data[k..]);
      } else {
        AbsorbMode(c, s, Masked(first, key));
        RunBody(c, next, data[1..], k - 1);
        DropDrop(data, 1, k - 1);
      }
    }
  }

  lemma AbsorbMode(c: Config, s: State, chunk: seq<octet>)
    requires Alive(c, s) && s.Live? && s.mode.Body? && |chunk| < s.mode.left
    ensures var next := Absorb(c, s, chunk);
            next.Live? ==> next.mode == Body(s.mode.left - |chunk|, Rotated(s.mode.key, |chunk|))
  {
    hide ParseHeader;
  }
}
