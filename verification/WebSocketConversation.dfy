/** Frame sequences legal under sections 5.4 and 5.5 of RFC 6455, and what they must deliver: every message is the
  * concatenation of its fragments with the first opcode, every control payload arrives whole, in order. */
module WebSocketConversation {
  import opened Bytes
  import opened Octets
  import opened Masking
  import opened WebSocketStream
  import opened WebSocketFormat
  import opened WebSocketParser
  import Utf8

  /** A ping or a pong. */
  datatype Control = Control(op: octet, data: seq<octet>, key: Key)

  /** A continuation fragment and the control frames that come before it. */
  datatype Part = Part(controls: seq<Control>, data: seq<octet>, key: Key)

  datatype Item =
    | Alone(control: Control)
    | Whole(op: octet, data: seq<octet>, key: Key, parts: seq<Part>)

  ghost predicate LegalControl(c: Config, k: Control)
  {
    (k.op == PING || k.op == PONG) && |k.data| <= 125 && |k.data| <= c.maxPayload
  }

  ghost predicate LegalPart(c: Config, p: Part)
  {
    forall k | k in p.controls :: LegalControl(c, k)
  }

  ghost predicate LegalItem(c: Config, i: Item)
  {
    match i
    case Alone(k) => LegalControl(c, k)
    case Whole(op, data, key, parts) =>
      && (op == TEXT || op == BINARY) && (forall p | p in parts :: LegalPart(c, p))
      && |data + Joined(parts)| <= c.maxPayload
      && (op == TEXT ==> Utf8.IsUtf8(data + Joined(parts)))
  }

  function Joined(parts: seq<Part>): (data: seq<octet>)
  {
    if parts == [] then [] else parts[0].data + Joined(parts[1..])
  }

  // ---------------------------------------------------------------- on the wire

  function ControlWire(isServer: bool, ks: seq<Control>): seq<octet>
  {
    if ks == [] then []
    else Encode(isServer, Frame(true, ks[0].op, ks[0].data, ks[0].key)) + ControlWire(isServer, ks[1..])
  }

  function PartsWire(isServer: bool, parts: seq<Part>): seq<octet>
  {
    if parts == [] then []
    else
      ControlWire(isServer, parts[0].controls)
      + (Encode(isServer, Frame(|parts| == 1, CONTINUATION, parts[0].data, parts[0].key)) + PartsWire(isServer,
        parts[1..]))
  }

  ghost function ItemWire(c: Config, isServer: bool, i: Item): seq<octet>
    requires LegalItem(c, i)
  {
    match i
    case Alone(k) => ControlWire(isServer, [k])
    case Whole(op, data, key, parts) => Encode(isServer, Frame(parts == [], op, data, key)) + PartsWire(isServer, parts)
  }

  ghost function Wire(c: Config, isServer: bool, items: seq<Item>): seq<octet>
    requires forall i | i in items :: LegalItem(c, i)
  {
    if items == [] then [] else ItemWire(c, isServer, items[0]) + Wire(c, isServer, items[1..])
  }

  // ---------------------------------------------------------------- what must be delivered

  function ControlOutput(k: Control): Output
  {
    if k.op == PING then Pinged(k.data) else Ponged(k.data)
  }

  function ControlOutputs(ks: seq<Control>): seq<Output>
  {
    if ks == [] then [] else [ControlOutput(ks[0])] + ControlOutputs(ks[1..])
  }

  function PartsOutputs(parts: seq<Part>): seq<Output>
  {
    if parts == [] then [] else ControlOutputs(parts[0].controls) + PartsOutputs(parts[1..])
  }

  function Expected(i: Item): seq<Output>
  {
    match i
    case Alone(k) => [ControlOutput(k)]
    case Whole(op, data, key, parts) => PartsOutputs(parts) + [Message(op, data + Joined(parts))]
  }

  function ExpectedAll(items: seq<Item>): seq<Output>
  {
    if items == [] then [] else Expected(items[0]) + ExpectedAll(items[1..])
  }

  // ---------------------------------------------------------------- delivery

  /** No handler closes or ends the connection. */
  ghost predicate Patient(c: Config)
  {
    forall h: seq<Output> :: !c.stops(h)
  }

  /** One legal frame that is in place: its payload reaches the open message or control frame, and the frame ends. */
  lemma FrameDelivered(c: Config, s: State, f: Frame, next: seq<octet>)
    requires Alive(c, s) && s.Live? && s.mode == Head([]) && Legal(f) && |f.data| <= c.maxPayload
    requires !OutOfPlace(s, Header(f.fin, f.op, 0, NO_KEY, 0))
    ensures var after := Absorb(c, Enter(s, Header(f.fin, f.op, |f.data|, f.key, 0)), f.data);
            Alive(c, after) && Run(c, s, Encode(!c.server, f) + next) == Run(c, after, next)
  {
    hide Run, ParseHeader, Encode, Alive, Masked, Absorb;
    var x := Encode(!c.server, f) + next;
    FrameSize(!c.server, f);
    HeaderRoundTrip(!c.server, f, next);
    PayloadRoundTrip(!c.server, f, next);
    RunFrame(c, s, x, |f.data|);
    AbsorbKey(c, s, ParseHeader(c.server, x).header, Header(f.fin, f.op, |f.data|, f.key, 0), f.data);
  }

  /** The end of a frame does not depend on its key. */
  lemma AbsorbKey(c: Config, s: State, h: Header, h': Header, data: seq<octet>)
    requires s.Live? && !OutOfPlace(s, h) && |h.key| == 4 && |h'.key| == 4 && |data| == h.length
    requires h.fin == h'.fin && h.op == h'.op && h.length == h'.length
    requires Enter(s, h).stack != []
    ensures Absorb(c, Enter(s, h), data) == Absorb(c, Enter(s, h'), data)
  {
    hide CloseFrame;
    var longer := if IsData(Top(Enter(s, h))) then Enter(s, h).(message := s.message + data)
      else Enter(s, h).(control := s.control + data);
    CloseFrameMode(c, longer, Body(h'.length, h'.key));
  }

  /** Control frames between two frames of a message, or between messages: each payload is delivered whole, and the
    * message is not disturbed. */
  lemma {:induction false} ControlsDelivered(c: Config, s: State, ks: seq<Control>, next: seq<octet>)
    requires Alive(c, s) && s.Live? && s.mode == Head([]) && |s.stack| <= 1 && Patient(c)
    requires forall k | k in ks :: LegalControl(c, k)
    ensures var s' := s.(out := s.out + ControlOutputs(ks), lastFin := ks != [] || s.lastFin);
            Alive(c, s') && Run(c, s, ControlWire(!c.server, ks) + next) == Run(c, s', next)
    decreases |ks|
  {
    hide Run, ParseHeader, Encode;
    if ks == [] {
      assert s.out + [] == s.out && [] + next == next;
    } else {
      var k := ks[0];
      assert k in ks && LegalControl(c, k);
      BigEnough(|k.data|);
      var f := Frame(true, k.op, k.data, k.key);
      var rest := ControlWire(!c.server, ks[1..]) + next;
      Assoc3(Encode(!c.server, f), ControlWire(!c.server, ks[1..]), next);
      FrameDelivered(c, s, f, rest);
      var s1 := s.(out := s.out + [ControlOutput(k)], lastFin := true);
      ControlEnds(c, s, k);
      ControlsDelivered(c, s1, ks[1..], next);
      Assoc3(s.out, [ControlOutput(k)], ControlOutputs(ks[1..]));
    }
  }

  lemma ControlEnds(c: Config, s: State, k: Control)
    requires Alive(c, s) && s.Live? && s.mode == Head([]) && |s.stack| <= 1 && Patient(c) && LegalControl(c, k)
    ensures Absorb(c, Enter(s, Header(true, k.op, |k.data|, k.key, 0)), k.data) ==
            s.(out := s.out + [ControlOutput(k)], lastFin := true)
  {
    hide ParseHeader, Utf8.IsUtf8;
    assert s.control + k.data == k.data;
    assert (s.stack + [k.op])[..|s.stack|] == s.stack;
  }

  /** A state inside a message: `data` has arrived, and a continuation is due. */
  ghost predicate MessageOpen(c: Config, s: State, op: octet, data: seq<octet>)
  {
    Alive(c, s) && s.Live? && s.mode == Head([]) && s.stack == [op] && s.message == data && IsData(op)
  }

  ghost function Delivered(s: State, op: octet, data: seq<octet>): State
    requires s.Live?
  {
    s.(stack := [], message := [], lastFin := true, out := s.out + [Message(op, data)])
  }

  /** The last fragment completes the message. */
  lemma LastFragment(c: Config, s: State, op: octet, before: seq<octet>, data: seq<octet>, h: Header)
    requires s.Live? && s.mode == Head([]) && s.message == before && s.control == [] && Patient(c)
    requires s.stack == (if h.op == CONTINUATION then [op] else [])
    requires (h.op != CONTINUATION ==> h.op == op && before == [])
    requires (op == TEXT || op == BINARY) && |h.key| == 4 && h.fin && h.length == |data|
    requires |before + data| <= c.maxPayload && (op == TEXT ==> Utf8.IsUtf8(before + data))
    ensures Absorb(c, Enter(s, h), data) == Delivered(s, op, before + data)
  {
    hide Utf8.IsUtf8;
    assert Enter(s, h).stack == [op];
  }

  lemma FirstFragment(c: Config, s: State, op: octet, before: seq<octet>, data: seq<octet>, h: Header)
    requires s.Live? && s.mode == Head([]) && s.message == before && s.control == []
    requires s.stack == (if h.op == CONTINUATION then [op] else [])
    requires (h.op != CONTINUATION ==> h.op == op && before == [])
    requires (op == TEXT || op == BINARY) && |h.key| == 4 && !h.fin && h.length == |data|
    requires |before + data| <= c.maxPayload
    ensures Absorb(c, Enter(s, h), data) == s.(stack := [op], message := before + data, lastFin := false)
  {
    hide Utf8.IsUtf8;
    assert Enter(s, h).stack == [op];
  }

  /** The rest of a message, with control frames between its fragments. */
  lemma {:induction false} PartsDelivered(c: Config, s: State, op: octet, before: seq<octet>, parts: seq<Part>,
                                          next: seq<octet>)
    requires MessageOpen(c, s, op, before) && (op == TEXT || op == BINARY) && Patient(c) && c.maxPayload < 0x1_0000_0000
    requires parts != [] && forall p | p in parts :: LegalPart(c, p)
    requires |before + Joined(parts)| <= c.maxPayload && (op == TEXT ==> Utf8.IsUtf8(before + Joined(parts)))
    ensures var s' := Delivered(s.(out := s.out + PartsOutputs(parts)), op, before + Joined(parts));
            Alive(c, s') && Run(c, s, PartsWire(!c.server, parts) + next) == Run(c, s', next)
    decreases |parts|
  {
    hide Run, ParseHeader, Encode, Utf8.IsUtf8, Absorb, AllBounded;
    var p, others := parts[0], parts[1..];
    assert p in parts && LegalPart(c, p);
    var f := Frame(|parts| == 1, CONTINUATION, p.data, p.key);
    var h := Header(f.fin, f.op, |f.data|, f.key, 0);
    var rest := PartsWire(!c.server, others) + next;
    PartsSplit(!c.server, parts, next);
    ControlsDelivered(c, s, p.controls, Encode(!c.server, f) + rest);
    var s1 := s.(out := s.out + ControlOutputs(p.controls), lastFin := p.controls != [] || s.lastFin);
    Assoc3(before, p.data, Joined(others));
    BigEnough(|p.data|);
    FrameDelivered(c, s1, f, rest);
    Assoc3(s.out, ControlOutputs(p.controls), PartsOutputs(others));
    if others == [] {
      assert p.data + [] == p.data && [] + next == next
               && ControlOutputs(p.controls) + [] == ControlOutputs(p.controls);
      LastFragment(c, s1, op, before, p.data, h);
    } else {
      FirstFragment(c, s1, op, before, p.data, h);
      PartsDelivered(c, s1.(stack := [op], message := before + p.data, lastFin := false), op, before + p.data,
        others, next);
    }
  }

  lemma BigEnough(n: nat)
    ensures n < 0x1_0000_0000 ==> n < Pow256(8)
  {
    assert Pow256(4) == 0x1_0000_0000;
  }

  lemma PartsSplit(isServer: bool, parts: seq<Part>, next: seq<octet>)
    requires parts != []
    ensures var f := Frame(|parts| == 1, CONTINUATION, parts[0].data, parts[0].key);
            PartsWire(isServer, parts) + next ==
            ControlWire(isServer, parts[0].controls) + (Encode(isServer, f) + (PartsWire(isServer, parts[1..]) + next))
  {
    hide Encode, ControlWire;
    var f := Frame(|parts| == 1, CONTINUATION, parts[0].data, parts[0].key);
    Assoc3(ControlWire(isServer, parts[0].controls), Encode(isServer, f) + PartsWire(isServer, parts[1..]), next);
    Assoc3(Encode(isServer, f), PartsWire(isServer, parts[1..]), next);
  }

  /** Between messages. */
  ghost predicate Idle(c: Config, s: State)
  {
    Alive(c, s) && s.Live? && s.mode == Head([]) && s.stack == [] && s.lastFin && s.message == []
  }

  lemma ItemDelivered(c: Config, s: State, i: Item, next: seq<octet>)
    requires Idle(c, s) && LegalItem(c, i) && Patient(c) && c.maxPayload < 0x1_0000_0000
    ensures var s' := s.(out := s.out + Expected(i));
            Idle(c, s') && Run(c, s, ItemWire(c, !c.server, i) + next) == Run(c, s', next)
  {
    hide Run, ParseHeader, Encode, Utf8.IsUtf8, Absorb, AllBounded;
    match i {
      case Alone(k) =>
        ControlsDelivered(c, s, [k], next);
        assert ControlOutputs([k]) == [ControlOutput(k)];
      case Whole(op, data, key, parts) =>
        var f := Frame(parts == [], op, data, key);
        var h := Header(f.fin, f.op, |f.data|, f.key, 0);
        Assoc3(Encode(!c.server, f), PartsWire(!c.server, parts), next);
        BigEnough(|data|);
        FrameDelivered(c, s, f, PartsWire(!c.server, parts) + next);
        assert [] + data == data;
        if parts == [] {
          assert data + [] == data && [] + next == next;
          LastFragment(c, s, op, [], data, h);
          assert PartsOutputs(parts) + [Message(op, data)] == [Message(op, data)];
        } else {
          FirstFragment(c, s, op, [], data, h);
          PartsDelivered(c, s.(stack := [op], message := data, lastFin := false), op, data, parts, next);
          Assoc3(s.out, PartsOutputs(parts), [Message(op, data + Joined(parts))]);
        }
    }
  }

  lemma {:induction false} ItemsDelivered(c: Config, s: State, items: seq<Item>)
    requires Idle(c, s) && (forall i | i in items :: LegalItem(c, i)) && Patient(c) && c.maxPayload < 0x1_0000_0000
    ensures Run(c, s, Wire(c, !c.server, items)) == s.(out := s.out + ExpectedAll(items))
    decreases |items|
  {
    hide Run, ParseHeader, ItemWire, LegalItem;
    if items == [] {
      RunNothing(c, s);
      assert s.out + [] == s.out;
    } else {
      ItemDelivered(c, s, items[0], Wire(c, !c.server, items[1..]));
      var s' := s.(out := s.out + Expected(items[0]));
      ItemsDelivered(c, s', items[1..]);
      Assoc3(s.out, Expected(items[0]), ExpectedAll(items[1..]));
    }
  }

  /** A close frame ends the connection with the code and reason it carries; what follows it is ignored. */
  lemma CloseDelivered(c: Config, s: State, data: seq<octet>, key: Key, next: seq<octet>)
    requires Idle(c, s) && |data| <= 125 && |data| <= c.maxPayload
    ensures Run(c, s, Encode(!c.server, Frame(true, CLOSE, data, key)) + next) == Over(s.out + [ClosePayload(data)])
  {
    hide Run, ParseHeader, Encode, ClosePayload;
    BigEnough(|data|);
    FrameDelivered(c, s, Frame(true, CLOSE, data, key), next);
    assert [] + data == data;
    RunOver(c, Over(s.out + [ClosePayload(data)]), next);
  }

  /** After any legal items, a frame of more octets than the limit ends the connection, a control frame too. */
  lemma OverlongRefused(c: Config, s: State, items: seq<Item>, f: Frame, next: seq<octet>)
    requires Idle(c, s) && (forall i | i in items :: LegalItem(c, i)) && Patient(c) && c.maxPayload < 0x1_0000_0000
    requires Legal(f) && f.op != CONTINUATION && c.maxPayload < |f.data|
    ensures Run(c, s, Wire(c, !c.server, items) + (Encode(!c.server, f) + next)) ==
            Over(s.out + ExpectedAll(items) + [Closed(TooBig)])
  {
    hide Run, ParseHeader, Encode, Wire, LegalItem, Absorb, Masked;
    var x := Encode(!c.server, f) + next;
    ItemsDelivered(c, s, items);
    RunConcat(c, s, Wire(c, !c.server, items), x);
    var s' := s.(out := s.out + ExpectedAll(items));
    HeaderRoundTrip(!c.server, f, next);
    RunHead(c, s', x);
    var h := ParseHeader(c.server, x).header;
    assert OpenFrame(c, s', h) == Fail(s', TooBig);
    RunOver(c, Fail(s', TooBig), x[h.size..]);
  }

  /** A legal conversation, cut in any way: the application sees exactly its messages and control payloads, in order. */
  method Converse(parser: WebSocketParser, segments: seq<seq<octet>>, ghost items: seq<Item>)
    requires parser.Valid() && Patient(parser.Settings()) && Idle(parser.Settings(), parser.at)
    requires forall i | i in items :: LegalItem(parser.Settings(), i)
    requires Flatten(segments) == Wire(parser.Settings(), !parser.server, items)
    modifies parser, parser.mask
    ensures parser.Valid() && !parser.over && Idle(parser.Settings(), parser.at)
    ensures parser.out == old(parser.out) + ExpectedAll(items)
  {
    hide Run, ParseHeader, Wire, LegalItem;
    ItemsDelivered(parser.Settings(), parser.at, items);
    parser.Receive(segments);
  }

  /** Such a frame, cut in any way: what came before it is delivered, and the connection is closed. */
  method Overrun(parser: WebSocketParser, segments: seq<seq<octet>>, ghost items: seq<Item>, ghost f: Frame,
                 ghost next: seq<octet>)
    requires parser.Valid() && Patient(parser.Settings()) && Idle(parser.Settings(), parser.at)
    requires forall i | i in items :: LegalItem(parser.Settings(), i)
    requires Legal(f) && f.op != CONTINUATION && parser.Settings().maxPayload < |f.data|
    requires Flatten(segments) == Wire(parser.Settings(), !parser.server, items) + (Encode(!parser.server, f) + next)
    modifies parser, parser.mask
    ensures parser.Valid() && parser.over
    ensures parser.out == old(parser.out) + ExpectedAll(items) + [Closed(TooBig)]
  {
    hide Run, ParseHeader, Wire, LegalItem, Encode;
    OverlongRefused(parser.Settings(), parser.at, items, f, next);
    parser.Receive(segments);
  }
}
