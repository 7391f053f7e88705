/** The incremental request parser of HttpParser.h: fallback buffering, the fence, streaming bodies.  Its work on
  * whole reads is proved against the octet-at-a-time parser of HttpStream.dfy. */
module HttpParser {
  import opened Bytes
  import opened HttpHead
  import opened HttpStream
  import B = BloomFilter
  import C = ChunkedEncoding
  import H = HttpGrammar

  const NO_ERROR: nat := 0
  const MINIMUM_POST_PADDING: nat := 32

  /** Two buffers the head parser cannot tell apart, whatever follows them. */
  ghost predicate SameHead(x: seq<byte>, y: seq<byte>)
  {
    |x| == |y| && forall z: seq<byte> :: ParseHead(x + z) == ParseHead(y + z)
  }

  ghost predicate IsSuffix(rest: seq<byte>, data: seq<byte>)
  {
    |rest| <= |data| && rest == data[|data| - |rest|..]
  }

  /** What was handed over before a refusal: everything but octets of the chunk that is in error, if one is. */
  ghost predicate HandedBefore(handed: seq<Output>, out: seq<Output>)
  {
    handed <= out && forall k | |handed| <= k < |out| :: out[k].Deliver? && out[k].event.Octet?
  }

  /** What a call of the data handler delivers; `last` when no octet of the body remains. */
  function CallOutput(chunk: seq<byte>, last: bool): seq<Output>
  {
    Delivered(C.Octets(chunk)) + if last then [END] else []
  }

  class HttpParser {
    const maxHeaderSize: nat
    var fallback: seq<byte>
    /** `remainingStreamingBytes`: a chunk state word, or a plain count when no flag is set. */
    var remaining: C.Word
    var trailerTail: nat
    /** Every call made to the request and data handlers so far. */
    var out: seq<Output>
    /** Where the reference parser stands on the same stream. */
    ghost var at: State

    /** `remaining` and `trailerTail` keep what the reference state `s` says of the body. */
    ghost predicate Streaming(s: State)
      reads this
    {
      match s
      case AwaitHead(_) => remaining == C.NOT_STREAMING && trailerTail == 0
      case InFixed(left) => left < C.UNIT && remaining == C.Word(0, left) && trailerTail == 0
      case InChunked(a) => C.Live(a) && remaining.Usable() && C.Encodes(a, remaining, trailerTail)
      case _ => false
    }

    /** The fields keep the reference state `s`; a pending body leaves the fallback empty. */
    ghost predicate Holds(s: State)
      reads this
    {
      Streaming(s) && if s.AwaitHead? then SameHead(fallback, s.partial) else fallback == []
    }

    ghost predicate Valid()
      reads this
    {
      maxHeaderSize > 0 && (at.Over() || (Alive(at, maxHeaderSize) && Holds(at)))
    }

    constructor (maxHeaderSize: nat)
      requires maxHeaderSize > 0
      ensures Valid() && at == START && out == [] && this.maxHeaderSize == maxHeaderSize
    {
      this.maxHeaderSize := maxHeaderSize;
      fallback, remaining, trailerTail, out := [], C.NOT_STREAMING, 0, [];
      at := START;
      new;
      NothingIsNoHead();
    }

    method DataHandler(chunk: seq<byte>, last: bool)
      modifies this`out
      ensures out == old(out) + CallOutput(chunk, last)
    {
      out := out + CallOutput(chunk, last);
    }

    method RequestHandler(request: Request)
      modifies this`out
      ensures out == old(out) + [NewRequest(request)]
    {
      out := out + [NewRequest(request)];
    }

    /** The body of both loops over `ChunkIterator`: an empty chunk says that nothing remains. */
    method HandOver(chunks: seq<seq<byte>>)
      modifies this`out
      ensures out == old(out) + Delivered(C.Calls(chunks))
    {
      for i := 0 to |chunks|
        invariant out == old(out) + Delivered(C.Calls(chunks[..i]))
      {
        assert chunks[..i + 1][..i] == chunks[..i];
        DeliveredConcat(C.Calls(chunks[..i]), C.HandedOver(chunks[i]));
        assert Delivered(C.HandedOver(chunks[i])) == CallOutput(chunks[i], chunks[i] == []);
        Assoc3(old(out), Delivered(C.Calls(chunks[..i])), Delivered(C.HandedOver(chunks[i])));
        DataHandler(chunks[i], chunks[i] == []);
      }
      assert chunks[..|chunks|] == chunks;
    }

    /** Where the run of `s` on `data` stands after `delta` has been delivered and `rest` is left for `s'`. */
    ghost predicate Reached(s: State, data: seq<byte>, delta: seq<Output>, s': State, rest: seq<byte>)
    {
      && (Alive(s, maxHeaderSize) || s.Over())
      && (Alive(s', maxHeaderSize) || s'.Over())
      && Run(s, data, maxHeaderSize) == Prepend(delta, Run(s', rest, maxHeaderSize))
      && (InScope(s, data, maxHeaderSize) ==> InScope(s', rest, maxHeaderSize))
      && IsSuffix(rest, data)
    }

    /** The run of `s` on `data` is refused, and `delta` was handed over before that. */
    ghost predicate Refused(s: State, data: seq<byte>, delta: seq<Output>)
    {
      && (Alive(s, maxHeaderSize) || s.Over())
      && Run(s, data, maxHeaderSize).state.Broken?
      && HandedBefore(delta, Run(s, data, maxHeaderSize).out)
    }

    method ConsumeChunked(data: seq<byte>, ghost a: C.State) returns (rest: seq<byte>, error: nat, ghost s': State)
      requires maxHeaderSize > 0 && trailerTail <= 5 && remaining.Usable()
      requires C.Live(a) || a.Final()
      modifies this`remaining, this`trailerTail, this`out
      ensures |rest| <= |data| && old(out) <= out
      ensures (Alive(s', maxHeaderSize) || s'.Over()) && trailerTail <= 5 && remaining.Usable()
      ensures C.Live(a) && C.Encodes(a, old(remaining), old(trailerTail))
                && InScope(InChunked(a), data, maxHeaderSize) ==>
                if error == NO_ERROR then
                  && Streaming(s') && Reached(InChunked(a), data, out[|old(out)|..], s', rest)
                  && (s' == START || (s'.InChunked? && rest == []))
                else Refused(InChunked(a), data, out[|old(out)|..])
    {
      hide Run, Clear, C.Decode, ParseHead;
      var chunks: seq<seq<byte>>;
      s' := Broken;
      rest, remaining, trailerTail, chunks := C.ConsumeChunkedBody(data, remaining, trailerTail, a);
      HandOver(chunks);
      assert out[|old(out)|..] == Delivered(C.Calls(chunks));
      if C.Live(a) {
        ghost var d := C.Decode(a, data);
        RunChunked(a, data, maxHeaderSize);
        C.DecodeRest(a, data);
        s' := ChunkedState(d.state);
        if s'.Over() {
          RunOver(s', d.rest, maxHeaderSize);
          assert Delivered(d.out) + [] == Delivered(d.out);
        }
      }
      error := if remaining == C.STATE_IS_ERROR then BAD_REQUEST else NO_ERROR;
    }

    /** `consumeStreamingBody`: `done` when the whole read went into the body. */
    method ConsumeStreamingBody(data: seq<byte>, ghost s: State)
      returns (rest: seq<byte>, done: bool, error: nat, ghost s': State)
      requires maxHeaderSize > 0 && trailerTail <= 5 && remaining.Usable()
      modifies this`remaining, this`trailerTail, this`out
      ensures |rest| <= |data| && old(out) <= out && trailerTail <= 5 && remaining.Usable()
      ensures (s.InFixed? || s.InChunked?) && Alive(s, maxHeaderSize) && old(Streaming(s))
                && InScope(s, data, maxHeaderSize) ==>
                if error == NO_ERROR then
                  && Streaming(s') && Reached(s, data, out[|old(out)|..], s', rest)
                  && (s' == START || (rest == [] && !s'.AwaitHead?)) && (done ==> rest == [])
                else Refused(s, data, out[|old(out)|..])
    {
      hide Run, Clear, ParseHead;
      s' := s;
      if remaining.IsParsingChunkedEncoding() {
        done := false;
        rest, error, s' := ConsumeChunked(data, if s.InChunked? && C.Live(s.body) then s.body else C.Failed);
      } else {
        error := NO_ERROR;
        NothingIsNoHead();
        if s.InFixed? && s.left >= 1 { RunFixed(s.left, data, maxHeaderSize); }
        if remaining.size >= |data| {
          done := true;
          DataHandler(data, remaining.size == |data|);
          remaining := C.Word(0, remaining.size - |data|);
          rest := [];
          s' := if remaining.size == 0 then START else InFixed(remaining.size);
          assert data[..|data|] == data && data[|data|..] == [];
        } else {
          done := false;
          DataHandler(data[..remaining.size], true);
          rest := data[remaining.size..];
          remaining := C.NOT_STREAMING;
          s' := START;
        }
      }
    }

    /** The checks on repeated, missing and conflicting headers before the request handler runs. */
    method CheckHeaders(headers: seq<Header>) returns (ok: bool)
      ensures ok <==> Acceptable(headers)
    {
      var repeated := FindRepeated(headers);
      ok := !repeated && GetHeader(headers, HOST).Some?
            && !(ValueOf(headers, TRANSFER_ENCODING) != [] && ValueOf(headers, CONTENT_LENGTH) != []);
    }

    /** The loop that fills the filter, and asks it for every name first. */
    method FindRepeated(headers: seq<Header>) returns (repeated: bool)
      ensures repeated <==> Suspicious(Named(headers))
    {
      hide Named, B.MightHave, B.Add;
      var h, filter: B.Filter := 0, {};
      ghost var named := Named(headers);
      NamedPrefix(headers);
      assert Keys(named[..0]) == [];
      while h < |headers| && headers[h].key != []
        invariant h <= |named| && filter == B.FilterOf(Keys(named[..h]))
        invariant forall k: nat | k < h :: !(MustBeUnique(named[k].key) && MightBeBefore(named, k))
      {
        var key := headers[h].key;
        assert h < |named| && named[h].key == key;
        if B.MightHave(filter, key) {
          if MustBeUnique(key) && GetHeader(headers, key).Some? {
            assert MightBeBefore(named, h);
            return true;
          }
        }
        IsThere(headers, h);
        assert Keys(named[..h + 1])[..h] == Keys(named[..h]);
        filter := B.Add(filter, key);
        h := h + 1;
      }
      return false;
    }

    /** The body length announced by `Content-Length`. */
    method ToUnsigned(digits: seq<byte>) returns (v: Option<nat>)
      ensures v == ToUnsignedInteger(digits)
      ensures v.Some? ==> v.value < C.UNIT
    {
      if |digits| > 18 {
        return None;
      }
      var value: nat := 0;
      for i := 0 to |digits|
        invariant Decimal(digits[..i]) == Some(value)
        invariant value < Pow10(i)
      {
        assert digits[..i + 1][..i] == digits[..i];
        if digits[i] < 48 || digits[i] > 57 {
          NotDecimal(digits, i);
          return None;
        }
        value := value * 10 + (digits[i] as nat - 48);
      }
      assert digits[..|digits|] == digits;
      Pow10Bound(|digits|);
      return Some(value);
    }

    /** `after` is refused on `data`, and `out` has grown by what was handed over before that. */
    twostate predicate AnswerRefused(after: Ran, data: seq<byte>)
      reads this
    {
      && old(out) <= out
      && (Alive(after.state, maxHeaderSize) || after.state.Over())
      && Run(after.state, data, maxHeaderSize).state.Broken?
      && HandedBefore(out[|old(out)|..], after.out + Run(after.state, data, maxHeaderSize).out)
    }

    /** `out` has grown by what the run of `after` on `data` delivers before it stands at `s'` with `rest` to read. */
    twostate predicate Answered(after: Ran, data: seq<byte>, s': State, rest: seq<byte>)
      reads this
    {
      && old(out) <= out && IsSuffix(rest, data)
      && (Alive(after.state, maxHeaderSize) || after.state.Over())
      && (Alive(s', maxHeaderSize) || s'.Over())
      && Prepend(after.out, Run(after.state, data, maxHeaderSize)) == Prepend(out[|old(out)|..],
        Run(s', rest, maxHeaderSize))
      && (InScope(after.state, data, maxHeaderSize) ==> InScope(s', rest, maxHeaderSize))
    }

    /** The body of a request with a content length, as far as it is at hand. */
    method AcceptFixed(n: nat, data: seq<byte>, minimally: bool) returns (rest: seq<byte>, ghost s': State)
      requires maxHeaderSize > 0 && n < C.UNIT
      modifies this`remaining, this`out
      ensures |rest| <= |data| && (minimally ==> rest == data) && remaining.Usable()
      ensures trailerTail == 0 ==> Streaming(s')
      ensures Answered(if n == 0 then Ran(START, [END]) else Ran(InFixed(n), []), data, s', rest)
      ensures s' == START || (rest == [] && !s'.AwaitHead?) || minimally
    {
      hide Run, Clear, ParseHead, CallOutput, InScope, CrForVersion, IsSuffix;
      NothingIsNoHead();
      FixedAnswer(n, data);
      remaining := C.Word(0, n);
      rest, s' := data, if n == 0 then START else InFixed(n);
      ghost var was := out;
      if !minimally {
        var emittable := Min(n, |data|);
        DataHandler(data[..emittable], n == emittable);
        remaining := C.Word(0, n - emittable);
        rest, s' := data[emittable..], if n == emittable then START else InFixed(n - emittable);
        assert out[|was|..] == CallOutput(data[..emittable], n == emittable);
      } else if n == 0 {
        DataHandler([], true);
        assert out[|was|..] == CallOutput([], true);
      } else {
        assert out[|was|..] == [];
      }
    }

    lemma FixedAnswer(n: nat, data: seq<byte>)
      requires Alive(START, maxHeaderSize)
      ensures var k := Min(n, |data|);
              var after := if n == 0 then Ran(START, [END]) else Ran(InFixed(n), []);
              && IsSuffix(data[k..], data) && IsSuffix(data, data) && CallOutput([], true) == [END]
              && (k < n ==> |data| == k && data[k..] == [])
              && Prepend(after.out, Run(after.state, data, maxHeaderSize)) ==
                 Prepend(CallOutput(data[..k], n == k),
                   Run(if n == k then START else InFixed(n - k), data[k..], maxHeaderSize))
              && (InScope(after.state, data, maxHeaderSize) ==>
                   InScope(if n == k then START else InFixed(n - k), data[k..], maxHeaderSize))
    {
      hide Run, Clear, ParseHead;
      assert CallOutput([], true) == [END] && data[0..] == data && data[..0] == [];
      if n > 0 {
        RunFixed(n, data, maxHeaderSize);
        assert [] + Run(InFixed(n), data, maxHeaderSize).out == Run(InFixed(n), data, maxHeaderSize).out;
      }
    }

    /** The body of a request with a transfer coding, as far as it is at hand. */
    method AcceptChunked(data: seq<byte>, minimally: bool) returns (rest: seq<byte>, error: nat, ghost s': State)
      requires maxHeaderSize > 0
      modifies this`remaining, this`trailerTail, this`out
      ensures |rest| <= |data| && old(out) <= out && (minimally && error == NO_ERROR ==> rest == data)
      ensures trailerTail <= 5 && remaining.Usable()
      ensures Alive(s', maxHeaderSize) || s'.Over()
      ensures InScope(InChunked(C.START), data, maxHeaderSize) ==>
                if error == NO_ERROR then
                  && Streaming(s') && Answered(Ran(InChunked(C.START), []), data, s', rest)
                  && (s' == START || (rest == [] && !s'.AwaitHead?) || minimally)
                else AnswerRefused(Ran(InChunked(C.START), []), data)
    {
      hide Run, Clear, ParseHead, C.Encodes;
      remaining, trailerTail := C.STATE_IS_CHUNKED, 0;
      StartsChunked();
      rest, error, s' := data, NO_ERROR, InChunked(C.START);
      if !minimally {
        rest, error, s' := ConsumeChunked(data, C.START);
      }
    }

    /** The checks on repeated, missing and conflicting headers. */
    ghost predicate Acceptable(headers: seq<Header>)
    {
      && !Suspicious(Named(headers)) && GetHeader(headers, HOST).Some?
      && !(ValueOf(headers, TRANSFER_ENCODING) != [] && ValueOf(headers, CONTENT_LENGTH) != [])
    }

    /** What the headers of an acceptable request say of its body. */
    ghost function BodyComes(headers: seq<Header>): Ran
    {
      var length := ValueOf(headers, CONTENT_LENGTH);
      if ValueOf(headers, TRANSFER_ENCODING) != [] then Ran(InChunked(C.START), [])
      else if length == [] then Ran(START, [END])
      else
        match ToUnsignedInteger(length)
        case None => Ran(Broken, [])
        case Some(n) => if n == 0 then Ran(START, [END]) else Ran(InFixed(n), [])
    }

    lemma AfterHeadCases(request: Request)
      ensures AfterHead(request) ==
              if !Acceptable(request.headers) then Ran(Broken, [])
              else Prepend([NewRequest(request)], BodyComes(request.headers))
    {
    }

    /** The body of an accepted request, as far as it is at hand, or with `minimally` no more of it than must be said
      * at once. */
    method AcceptBody(headers: seq<Header>, data: seq<byte>, minimally: bool)
      returns (rest: seq<byte>, error: nat, ghost s': State)
      requires maxHeaderSize > 0 && trailerTail <= 5 && remaining.Usable()
      modifies this`remaining, this`trailerTail, this`out
      ensures |rest| <= |data| && old(out) <= out && (minimally && error == NO_ERROR ==> rest == data)
      ensures trailerTail <= 5 && remaining.Usable() && (Alive(s', maxHeaderSize) || s'.Over())
      ensures var more := BodyComes(headers);
              && (Alive(more.state, maxHeaderSize) || more.state.Over())
              && (old(remaining) == C.NOT_STREAMING && old(trailerTail) == 0
                  && InScope(more.state, data, maxHeaderSize) ==>
                    if error == NO_ERROR then
                      && Streaming(s') && Answered(more, data, s', rest)
                      && (s' == START || (rest == [] && !s'.AwaitHead?) || minimally)
                    else AnswerRefused(more, data))
    {
      hide Run, Clear, ParseHead, C.Encodes, C.Octets, Delivered, CallOutput, IsSuffix, GetHeader, ToUnsignedInteger;
      hide ValueOf, HandedBefore;
      NothingIsNoHead();
      rest, error, s' := data, NO_ERROR, START;
      var length := ValueOf(headers, CONTENT_LENGTH);
      if ValueOf(headers, TRANSFER_ENCODING) != [] {
        rest, error, s' := AcceptChunked(data, minimally);
      } else if length != [] {
        var n := ToUnsigned(length);
        if n.None? {
          error := BAD_REQUEST;
          RunOver(Broken, data, maxHeaderSize);
          HandedWhole([]);
          assert out[|old(out)|..] == [];
          return;
        }
        rest, s' := AcceptFixed(n.value, data, minimally);
      } else {
        AcceptNothing(data);
      }
    }

    /** What follows an accepted head in `fenceAndConsumePostPadded`: the request handler, then the body at hand,
      * or with `minimally` no more of it than must be said at once. */
    method AcceptRequest(request: Request, data: seq<byte>, minimally: bool)
      returns (rest: seq<byte>, error: nat, ghost s': State)
      requires maxHeaderSize > 0 && trailerTail <= 5 && remaining.Usable()
      modifies this`remaining, this`trailerTail, this`out
      ensures |rest| <= |data| && old(out) <= out && (minimally && error == NO_ERROR ==> rest == data)
      ensures trailerTail <= 5 && remaining.Usable()
      ensures var after := AfterHead(request);
              && (Alive(after.state, maxHeaderSize) || after.state.Over())
              && (old(remaining) == C.NOT_STREAMING && old(trailerTail) == 0
                  && InScope(after.state, data, maxHeaderSize) ==>
                    if error == NO_ERROR then
                      && Streaming(s') && Answered(after, data, s', rest)
                      && (s' == START || (rest == [] && !s'.AwaitHead?) || minimally)
                    else AnswerRefused(after, data))
    {
      hide Run, Clear, ParseHead, C.Encodes, IsSuffix, AfterHead, BodyComes, HandedBefore, Acceptable, InScope;
      AfterHeadCases(request);
      rest, error, s' := data, NO_ERROR, START;
      var ok := CheckHeaders(request.headers);
      if !ok {
        error := BAD_REQUEST;
        RunOver(Broken, data, maxHeaderSize);
        HandedWhole([]);
        assert out[|old(out)|..] == [];
        return;
      }
      RequestHandler(request);
      ghost var was, mid := old(out), out;
      ghost var more := BodyComes(request.headers);
      rest, error, s' := AcceptBody(request.headers, data, minimally);
      ghost var run := Run(more.state, data, maxHeaderSize);
      if error == NO_ERROR {
        JoinAnswer([NewRequest(request)], more.out, run, Run(s', rest, maxHeaderSize), was, mid, out);
      } else {
        JoinRefusal([NewRequest(request)], more.out, run.out, was, mid, out);
      }
    }

    /** The empty chunk that says there is no body. */
    method AcceptNothing(data: seq<byte>)
      requires maxHeaderSize > 0
      modifies this`out
      ensures Answered(Ran(START, [END]), data, START, data)
    {
      hide Run, Clear, ParseHead;
      NothingIsNoHead();
      DataHandler([], true);
      assert CallOutput([], true) == [END];
      assert out[|old(out)|..] == [END] && data[0..] == data;
    }

    method Fence(buf: array<byte>, end: nat)
      requires end + 2 <= buf.Length
      modifies buf
      ensures Fenced(buf, end) && buf[..end] == old(buf[..end])
    {
      buf[end] := CR;
      buf[end + 1] := 97;
    }

    /** `fenceAndConsumePostPadded<true>`, run on the fallback: one head at most, and nothing behind it. */
    method FenceAndConsumeMinimally(buf: array<byte>, end: nat) returns (consumed: nat, error: nat, ghost s': State)
      requires maxHeaderSize > 0 && trailerTail <= 5 && remaining.Usable() && end + 2 <= buf.Length
      modifies buf, this`remaining, this`trailerTail, this`out
      ensures old(out) <= out && trailerTail <= 5 && remaining.Usable()
      ensures match ParseHead(old(buf[..end]))
              case Incomplete =>
                && consumed == 0 && error == NO_ERROR && buf[..end] == LowerNames(old(buf[..end]))
                && out == old(out) && remaining == old(remaining) && trailerTail == old(trailerTail)
              case Rejected(_) => consumed == 0 && error != NO_ERROR && out == old(out)
              case Head(request, n) =>
                var after := AfterHead(request);
                && (error == NO_ERROR ==> consumed == n)
                && (n > maxHeaderSize ==> error != NO_ERROR && out == old(out))
                && (Alive(after.state, maxHeaderSize) || after.state.Over())
                && (n <= maxHeaderSize && old(remaining) == C.NOT_STREAMING && old(trailerTail) == 0 ==>
                      if error == NO_ERROR then Streaming(s') && Answered(after, [], s', [])
                      else AnswerRefused(after, []))
    {
      hide Run, Clear, LowerNames, ParseHead, AfterHead;
      s' := START;
      Fence(buf, end);
      var r := GetHeaders(buf, 0, end);
      assert buf[0..end] == buf[..end];
      match r {
        case Incomplete => consumed, error := 0, NO_ERROR;
        case Rejected(e) => consumed, error := 0, e;
        case Head(request, n) =>
          NothingPending(request, maxHeaderSize);
          if n > maxHeaderSize {
            consumed, error := 0, HEADER_FIELDS_TOO_LARGE;
          } else {
            var rest;
            rest, error, s' := AcceptRequest(request, [], true);
            consumed := n;
          }
      }
    }

    /** An incomplete head is all that is left, unless it is too long. */
    lemma LeftOver(d: seq<byte>, buffered: seq<byte>)
      requires Alive(START, maxHeaderSize) && ParseHead(d) == Incomplete && buffered == LowerNames(d)
      requires Clear(START, d, maxHeaderSize)
      ensures Run(START, d, maxHeaderSize) == Ran(if |d| < maxHeaderSize then AwaitHead(d) else Broken, [])
      ensures |d| < maxHeaderSize ==> Alive(AwaitHead(d), maxHeaderSize)
      ensures SameHead(buffered, d)
    {
      hide Run, Clear, LowerNames, ParseHead, CrForVersion;
      assert [] + d == d;
      ClearHead([], d, maxHeaderSize);
      RunPartial([], d, maxHeaderSize);
      forall z: seq<byte>
        ensures ParseHead(buffered + z) == ParseHead(d + z)
      {
        LowerNamesUnseen(d, z);
      }
    }

    /** A complete head is accepted, unless it is too long, and what it announces comes next. */
    lemma HeadComes(d: seq<byte>, buffered: seq<byte>)
      requires Alive(START, maxHeaderSize) && ParseHead(d).Head? && buffered == LowerNames(d)
      ensures var n := ParseHead(d).consumed;
              var after := AfterHead(ParseHead(d).request);
              && buffered[n..] == d[n..]
              && (n > maxHeaderSize ==> Run(START, d, maxHeaderSize) == Ran(Broken, []))
              && (n <= maxHeaderSize ==>
                && (Alive(after.state, maxHeaderSize) || after.state.Over())
                && Run(START, d, maxHeaderSize) == Prepend(after.out, Run(after.state, d[n..], maxHeaderSize))
                && (InScope(START, d, maxHeaderSize) ==> InScope(after.state, d[n..], maxHeaderSize)))
    {
      hide Run, Clear, LowerNames, ParseHead, AfterHead, CrForVersion;
      assert [] + d == d;
      LowerNamesBehind(d);
      if ParseHead(d).consumed > maxHeaderSize {
        RunTooLong([], d, maxHeaderSize);
      } else {
        RunHead([], d, maxHeaderSize);
      }
    }

    lemma HeadRefused(d: seq<byte>)
      requires Alive(START, maxHeaderSize) && ParseHead(d).Rejected?
      ensures Run(START, d, maxHeaderSize) == Ran(Broken, [])
    {
      hide Run, ParseHead, CrForVersion;
      assert [] + d == d;
      RunRefused([], d, maxHeaderSize);
    }

    /** One round of the loop of `fenceAndConsumePostPadded<false>`: the head at `pos` and the body behind it. */
    method NextRequest(buf: array<byte>, pos: nat, end: nat)
      returns (pos': nat, more: bool, error: nat, ghost s': State)
      requires maxHeaderSize > 0 && trailerTail <= 5 && remaining.Usable() && pos < end && Fenced(buf, end)
      modifies buf, this`remaining, this`trailerTail, this`out
      ensures Fenced(buf, end) && pos <= pos' <= end && old(out) <= out && (more ==> pos < pos' && error == NO_ERROR)
      ensures trailerTail <= 5 && remaining.Usable()
      ensures old(remaining) == C.NOT_STREAMING && old(trailerTail) == 0
              && Alive(START, maxHeaderSize) && InScope(START, old(buf[pos..end]), maxHeaderSize) ==>
                if error != NO_ERROR then Refused(START, old(buf[pos..end]), out[|old(out)|..])
                else if more then
                  && Streaming(s') && Alive(s', maxHeaderSize)
                  && Run(START, old(buf[pos..end]), maxHeaderSize) == Prepend(out[|old(out)|..],
                    Run(s', buf[pos'..end], maxHeaderSize))
                  && InScope(s', buf[pos'..end], maxHeaderSize)
                  && (s' == START || (pos' == end && !s'.AwaitHead?))
                else
                  && Streaming(s') && Keeps(START, old(buf[pos..end]), [], s', buf[pos'..end])
                  && out == old(out) && s'.AwaitHead?
    {
      hide Run, Clear, LowerNames, ParseHead, AfterHead, SameHead, CrForVersion;
      ghost var d := buf[pos..end];
      pos', more, error, s' := pos, false, NO_ERROR, START;
      ghost var inScope := Alive(START, maxHeaderSize) && InScope(START, d, maxHeaderSize);
      ghost var was := out;
      assert out[|was|..] == [];
      var r := GetHeaders(buf, pos, end);
      match r {
        case Incomplete =>
          s' := AwaitHead(d);
          if inScope { LeftOver(d, buf[pos..end]); }
        case Rejected(e) =>
          error := e;
          if inScope { HeadRefused(d); }
        case Head(request, n) =>
          if inScope { HeadComes(d, buf[pos..end]); }
          if n > maxHeaderSize {
            error := HEADER_FIELDS_TOO_LARGE;
            return;
          }
          SubSlice(buf[..], pos, end, pos + n, end);
          var rest;
          rest, error, s' := AcceptRequest(request, buf[pos + n..end], false);
          pos', more := end - |rest|, error == NO_ERROR;
          if inScope {
            SubSlice(buf[..], pos + n, end, pos', end);
          }
      }
    }

    /** The run of `s` on `data` delivers `delta` and ends in `s'`, with `left` to keep of an incomplete head, or is
      * refused because that is too long. */
    ghost predicate Keeps(s: State, data: seq<byte>, delta: seq<Output>, s': State, left: seq<byte>)
      requires Alive(s, maxHeaderSize)
    {
      && (s'.AwaitHead? ==> SameHead(left, s'.partial))
      && Run(s, data, maxHeaderSize) == Ran(if |left| < maxHeaderSize then s' else Broken, delta)
      && (|left| < maxHeaderSize ==> Alive(s', maxHeaderSize))
    }

    /** `fenceAndConsumePostPadded<false>` on the octets of `buf` from `start`: every head and body at hand.  What is
      * left from `pos` on is an incomplete head. */
    method FenceAndConsume(buf: array<byte>, start: nat, end: nat) returns (pos: nat, error: nat, ghost s': State)
      requires maxHeaderSize > 0 && trailerTail <= 5 && remaining.Usable() && start <= end && end + 2 <= buf.Length
      modifies buf, this`remaining, this`trailerTail, this`out
      ensures start <= pos <= end && old(out) <= out
      ensures start < end && old(remaining) == C.NOT_STREAMING && old(trailerTail) == 0
              && Alive(START, maxHeaderSize) && InScope(START, old(buf[start..end]), maxHeaderSize) ==>
                if error == NO_ERROR then
                  && Streaming(s') && Keeps(START, old(buf[start..end]), out[|old(out)|..], s', buf[pos..end])
                  && (s'.AwaitHead? || pos == end)
                else Refused(START, old(buf[start..end]), out[|old(out)|..])
      ensures start == end ==>
                error == NO_ERROR && pos == end && out == old(out) && remaining == old(remaining)
                  && trailerTail == old(trailerTail)
    {
      hide Run, Clear, LowerNames, ParseHead, AfterHead, SameHead, CrForVersion;
      ghost var d := buf[start..end];
      assert d == buf[..end][start..];
      Fence(buf, end);
      assert buf[start..end] == buf[..end][start..];
      pos, error, s' := start, NO_ERROR, START;
      ghost var was := out;
      ghost var inScope := remaining == C.NOT_STREAMING && trailerTail == 0
                           && Alive(START, maxHeaderSize) && InScope(START, d, maxHeaderSize);
      while pos < end
        invariant start <= pos <= end && Fenced(buf, end) && trailerTail <= 5 && remaining.Usable() && was <= out
        invariant error == NO_ERROR
        invariant inScope ==>
                    Streaming(s') && Alive(s', maxHeaderSize) && (s' == START || (pos == end && !s'.AwaitHead?))
        invariant inScope ==>
                    Run(START, d, maxHeaderSize) == Prepend(out[|was|..], Run(s', buf[pos..end], maxHeaderSize))
                      && InScope(s', buf[pos..end], maxHeaderSize)
        invariant pos == start ==> out == was && remaining == old(remaining) && trailerTail == old(trailerTail)
        decreases end - pos
      {
        ghost var mid := out;
        ghost var d' := buf[pos..end];
        var more;
        pos, more, error, s' := NextRequest(buf, pos, end);
        if inScope {
          GrowsTwice(was, mid, out);
        }
        if !more {
          if inScope && error != NO_ERROR {
            HandedBehind(mid[|was|..], out[|mid|..], Run(START, d', maxHeaderSize).out);
          }
          return;
        }
        if inScope {
          Assoc3(mid[|was|..], out[|mid|..], Run(s', buf[pos..end], maxHeaderSize).out);
        }
      }
      if inScope {
        assert buf[pos..end] == [];
        RunEmpty(s', maxHeaderSize);
        SameHeadEmpty();
      }
    }

    lemma FallbackCompletes(b: seq<byte>, fallback': seq<byte>, d: seq<byte>, copy: nat)
      requires Alive(AwaitHead(b), maxHeaderSize) && SameHead(fallback', b) && copy <= |d|
      requires ParseHead(fallback' + d[..copy]).Head? && |fallback'| + copy <= maxHeaderSize
      ensures var n := ParseHead(fallback' + d[..copy]).consumed;
              var after := AfterHead(ParseHead(fallback' + d[..copy]).request);
              && |fallback'| < n <= |fallback'| + copy
              && (Alive(after.state, maxHeaderSize) || after.state.Over())
              && Run(AwaitHead(b), d, maxHeaderSize) == Prepend(after.out,
                Run(after.state, d[n - |fallback'|..], maxHeaderSize))
              && (InScope(AwaitHead(b), d, maxHeaderSize) ==>
                   InScope(after.state, d[n - |fallback'|..], maxHeaderSize))
    {
      hide Run, Clear, ParseHead, AfterHead, SameHead, CrForVersion;
      var x := d[..copy];
      SameHeadAt(fallback', b, x);
      HeadLongerThan(b, x);
      HeadExtend(b + x, d[copy..]);
      TakeJoin(b, d, copy);
      RunHead(b, d, maxHeaderSize);
    }

    /** A head that is still incomplete within the limit is kept, and any other is refused: `x` went to the fallback,
      * and `y` had no room there. */
    lemma FallbackGrows(b: seq<byte>, fallback': seq<byte>, x: seq<byte>, y: seq<byte>)
      requires Alive(AwaitHead(b), maxHeaderSize) && SameHead(fallback', b) && |fallback'| + |x| <= maxHeaderSize
      requires !ParseHead(fallback' + x).Head? && Clear(AwaitHead(b), x + y, maxHeaderSize)
      requires |fallback'| + |x| < maxHeaderSize ==> y == []
      ensures if ParseHead(fallback' + x).Rejected? || |fallback'| + |x| == maxHeaderSize then
                Run(AwaitHead(b), x + y, maxHeaderSize) == Ran(Broken, [])
              else
                && Run(AwaitHead(b), x + y, maxHeaderSize) == Ran(AwaitHead(b + x), [])
                && SameHead(LowerNames(fallback' + x), b + x)
    {
      hide Run, Clear, ParseHead, LowerNames, CrForVersion, SameHead, Alive;
      SameHeadAt(fallback', b, x);
      ClearConcat(AwaitHead(b), x, y, maxHeaderSize);
      FallbackAtLimit(b, x);
      if ParseHead(b + x).Rejected? || |b + x| == maxHeaderSize {
        RunConcat(AwaitHead(b), x, y, maxHeaderSize);
        RunOver(Broken, y, maxHeaderSize);
      } else {
        assert x + y == x;
        LowerNamesSame(fallback', b, x);
      }
    }

    /** The part of a read that goes to the fallback makes no head of it. */
    lemma FallbackAtLimit(b: seq<byte>, x: seq<byte>)
      requires Alive(AwaitHead(b), maxHeaderSize) && !ParseHead(b + x).Head? && |b + x| <= maxHeaderSize
      requires Clear(AwaitHead(b), x, maxHeaderSize)
      ensures Run(AwaitHead(b), x, maxHeaderSize) ==
              Ran(if ParseHead(b + x).Rejected? || |b + x| == maxHeaderSize then Broken else AwaitHead(b + x), [])
    {
      hide Run, Clear, ParseHead, CrForVersion;
      if ParseHead(b + x).Rejected? {
        RunRefused(b, x, maxHeaderSize);
      } else {
        ClearHead(b, x, maxHeaderSize);
        RunPartial(b, x, maxHeaderSize);
      }
    }

    lemma LowerNamesSame(fallback': seq<byte>, b: seq<byte>, d: seq<byte>)
      requires SameHead(fallback', b)
      ensures SameHead(LowerNames(fallback' + d), b + d)
    {
      hide ParseHead, LowerNames;
      forall z: seq<byte>
        ensures ParseHead(LowerNames(fallback' + d) + z) == ParseHead(b + d + z)
      {
        LowerNamesUnseen(fallback' + d, z);
        Assoc3(fallback', d, z);
        Assoc3(b, d, z);
      }
    }

    /** The branch of `consumePostPadded` taken when an incomplete head is buffered: `stop` when it is still
      * incomplete, otherwise `start` is where the rest of the read begins. */
    method ConsumeFallback(data: seq<byte>, ghost b: seq<byte>)
      returns (start: nat, stop: bool, error: nat, ghost s': State)
      requires Alive(AwaitHead(b), maxHeaderSize) && Holds(AwaitHead(b)) && fallback != []
      modifies this`fallback, this`remaining, this`trailerTail, this`out
      ensures start <= |data| && old(out) <= out && trailerTail <= 5 && remaining.Usable()
      ensures error == NO_ERROR && !stop ==> fallback == []
      ensures InScope(AwaitHead(b), data, maxHeaderSize) ==>
                if error != NO_ERROR then Refused(AwaitHead(b), data, out[|old(out)|..])
                else if stop then
                  && Streaming(s') && Run(AwaitHead(b), data, maxHeaderSize) == Ran(s', [])
                  && out == old(out) && Holds(s')
                else
                  && Streaming(s') && (s'.AwaitHead? ==> s' == START) && Alive(s', maxHeaderSize)
                  && Passed(AwaitHead(b), data, out[|old(out)|..], s', data[start..])
    {
      hide Run, Clear, ParseHead, LowerNames, AfterHead, SameHead, CrForVersion;
      start, stop, s' := 0, false, START;
      ghost var inScope := InScope(AwaitHead(b), data, maxHeaderSize);
      FallbackShorter(b, fallback);
      var had := |fallback|;
      var maxCopyDistance := Min(maxHeaderSize - |fallback|, |data|);
      ghost var was := fallback;
      fallback := fallback + data[..maxCopyDistance];
      ghost var whole := fallback;
      var buf := new byte[|fallback| + MINIMUM_POST_PADDING](
        i requires 0 <= i < |fallback| + MINIMUM_POST_PADDING reads this => if i < |fallback| then fallback[i] else 0);
      assert buf[..|fallback|] == whole;
      var consumed;
      consumed, error, s' := FenceAndConsumeMinimally(buf, |fallback|);
      fallback := buf[..|fallback|];
      if ParseHead(whole).Head? {
        FallbackCompletes(b, was, data, maxCopyDistance);
      } else if inScope {
        assert data == data[..maxCopyDistance] + data[maxCopyDistance..];
        FallbackGrows(b, was, data[..maxCopyDistance], data[maxCopyDistance..]);
      }
      assert old(out)[|old(out)|..] == [];
      if error != NO_ERROR {
        if inScope && ParseHead(whole).Head? {
          RefusedAtHead(AwaitHead(b), data, ParseHead(whole).request, out[|old(out)|..],
            data[ParseHead(whole).consumed - had..]);
        }
        return;
      }
      if consumed > 0 {
        fallback := [];
        start := consumed - had;
        if inScope {
          ghost var after := AfterHead(ParseHead(whole).request);
          AnsweredNothing(after, s', out[|old(out)|..], maxHeaderSize);
          AfterHeadStates(ParseHead(whole).request);
        }
      } else {
        stop := true;
        if |fallback| == maxHeaderSize {
          error := HEADER_FIELDS_TOO_LARGE;
        }
        s' := AwaitHead(b + data);
        if inScope {
          assert data[..|data|] == data;
        }
      }
    }

    /** A head that is refused when nothing behind it has been read is refused for itself. */
    lemma RefusedAtHead(s: State, data: seq<byte>, request: Request, delta: seq<Output>, rest: seq<byte>)
      requires Alive(s, maxHeaderSize)
      requires var after := AfterHead(request);
               && (Alive(after.state, maxHeaderSize) || after.state.Over())
               && Run(s, data, maxHeaderSize) == Prepend(after.out, Run(after.state, rest, maxHeaderSize))
               && Run(after.state, [], maxHeaderSize).state.Broken?
               && HandedBefore(delta, after.out + Run(after.state, [], maxHeaderSize).out)
      ensures Refused(s, data, delta)
    {
      hide Run, ParseHead, AfterHead;
      var after := AfterHead(request);
      if !after.state.Over() {
        RunEmpty(after.state, maxHeaderSize);
      }
      RunOver(after.state, [], maxHeaderSize);
      RunOver(after.state, rest, maxHeaderSize);
    }

    /** The run of `s0` on `data`: `delta` is delivered and, with `rest` to come, the parser stands at `s`. */
    ghost predicate Passed(s0: State, data: seq<byte>, delta: seq<Output>, s: State, rest: seq<byte>)
    {
      && (Alive(s0, maxHeaderSize) || s0.Over())
      && (Alive(s, maxHeaderSize) || s.Over())
      && Run(s0, data, maxHeaderSize) == Prepend(delta, Run(s, rest, maxHeaderSize))
      && (InScope(s0, data, maxHeaderSize) ==> InScope(s, rest, maxHeaderSize))
    }

    /** What is refused behind `delta` is refused. */
    lemma RefusedLater(s0: State, data: seq<byte>, delta: seq<Output>, s: State, rest: seq<byte>, later: seq<Output>)
      requires Passed(s0, data, delta, s, rest) && Refused(s, rest, later)
      ensures Refused(s0, data, delta + later)
    {
      hide Run, Clear, ParseHead;
      HandedBehind(delta, later, Run(s, rest, maxHeaderSize).out);
    }

    /** A body is pending exactly when `remaining` is not zero. */
    lemma Pending(s: State)
      requires Alive(s, maxHeaderSize) && Streaming(s)
      ensures remaining == C.NOT_STREAMING <==> s.AwaitHead?
    {
    }

    lemma InRange(s: State)
      requires Streaming(s)
      ensures trailerTail <= 5 && remaining.Usable()
    {
    }

    /** The part of `consumePostPadded` before the loop over whole requests: a pending body or a buffered head. */
    method ConsumePending(data: seq<byte>, ghost s0: State) returns (start: nat, stop: bool, error: nat, ghost s: State)
      requires maxHeaderSize > 0 && Alive(s0, maxHeaderSize) && Holds(s0)
      modifies this`fallback, this`remaining, this`trailerTail, this`out
      ensures start <= |data| && old(out) <= out && trailerTail <= 5 && remaining.Usable()
      ensures error == NO_ERROR && !stop ==> fallback == []
      ensures InScope(s0, data, maxHeaderSize) ==>
                if error != NO_ERROR then Refused(s0, data, out[|old(out)|..])
                else if stop then
                  Streaming(s) && Run(s0, data, maxHeaderSize) == Ran(s, out[|old(out)|..]) && Holds(s)
                else
                  && Streaming(s) && Passed(s0, data, out[|old(out)|..], s, data[start..])
                  && (s == START || (start == |data| && !s.AwaitHead?))
    {
      hide Run, Clear, ParseHead, SameHead, C.Encodes, CrForVersion;
      InRange(s0);
      Pending(s0);
      start, stop, error, s := 0, false, NO_ERROR, s0;
      ghost var was := out;
      ghost var inScope := InScope(s0, data, maxHeaderSize);
      if remaining != C.NOT_STREAMING {
        var rest;
        rest, stop, error, s := ConsumeStreamingBody(data, s0);
        start := |data| - |rest|;
        if inScope && error == NO_ERROR {
          SameHeadEmpty();
          if rest == [] { RunEmpty(s, maxHeaderSize); }
        }
      } else if fallback != [] {
        start, stop, error, s := ConsumeFallback(data, s0.partial);
        if error != NO_ERROR || stop {
          return;
        }
        if inScope { Pending(s); }
        if remaining != C.NOT_STREAMING {
          ghost var mid, s1, from := out, s, start;
          var rest;
          rest, stop, error, s := ConsumeStreamingBody(data[start..], s1);
          if inScope {
            GrowsTwice(was, mid, out);
            if error != NO_ERROR {
              RefusedLater(s0, data, mid[|was|..], s1, data[from..], out[|mid|..]);
            } else {
              Assoc3(mid[|was|..], out[|mid|..], Run(s, rest, maxHeaderSize).out);
              DropDrop(data, start, |data| - start - |rest|);
              SameHeadEmpty();
              if rest == [] { RunEmpty(s, maxHeaderSize); }
            }
          }
          start := |data| - |rest|;
        }
      } else {
        SameHeadAt(fallback, s0.partial, []);
        assert data[0..] == data;
        assert out[|was|..] == [] && [] + Run(s0, data, maxHeaderSize).out == Run(s0, data, maxHeaderSize).out;
      }
    }

    /** Nothing of the read is left behind a body that has not ended, nor once the read is used up. */
    lemma NothingLeft(s0: State, data: seq<byte>, delta: seq<Output>, s: State, rest: seq<byte>)
      requires Passed(s0, data, delta, s, rest) && rest == []
      ensures Run(s0, data, maxHeaderSize) == Ran(s, delta)
    {
      hide Run, ParseHead;
      if s.Over() { RunOver(s, [], maxHeaderSize); } else { RunEmpty(s, maxHeaderSize); }
      assert delta + [] == delta;
    }

    /** What is left of a read goes to the fallback, if it fits. */
    method KeepLeftover(left: seq<byte>) returns (error: nat)
      requires fallback == [] && maxHeaderSize > 0
      modifies this`fallback
      ensures if |left| < maxHeaderSize then error == NO_ERROR && fallback == left else error != NO_ERROR
    {
      error := NO_ERROR;
      if left != [] {
        if |left| < maxHeaderSize {
          fallback := fallback + left;
        } else {
          error := HEADER_FIELDS_TOO_LARGE;
        }
      }
    }

    /** The part of a read that begins with a head, and what is left of it. */
    method ConsumeFresh(buf: array<byte>, start: nat, length: nat) returns (error: nat, ghost s': State)
      requires maxHeaderSize > 0 && trailerTail <= 5 && remaining.Usable() && fallback == []
      requires start <= length && length + 2 <= buf.Length
      modifies buf, this`fallback, this`remaining, this`trailerTail, this`out
      ensures old(out) <= out
      ensures start < length && old(remaining) == C.NOT_STREAMING && old(trailerTail) == 0
              && Alive(START, maxHeaderSize) && InScope(START, old(buf[start..length]), maxHeaderSize) ==>
                if error == NO_ERROR then
                  && Holds(s') && Alive(s', maxHeaderSize)
                  && Run(START, old(buf[start..length]), maxHeaderSize) == Ran(s', out[|old(out)|..])
                else Refused(START, old(buf[start..length]), out[|old(out)|..])
      ensures start == length ==>
                error == NO_ERROR && out == old(out) && fallback == []
                && remaining == old(remaining) && trailerTail == old(trailerTail)
    {
      hide Run, Clear, ParseHead, SameHead, C.Encodes, CrForVersion;
      ghost var d, was := buf[start..length], out;
      ghost var inScope := start < length && remaining == C.NOT_STREAMING && trailerTail == 0
                           && Alive(START, maxHeaderSize) && InScope(START, d, maxHeaderSize);
      var pos;
      pos, error, s' := FenceAndConsume(buf, start, length);
      if error == NO_ERROR {
        error := KeepLeftover(buf[pos..length]);
        if inScope {
          assert out[|was|..] <= Run(START, d, maxHeaderSize).out;
        }
      }
    }

    /** `consumePostPadded`: one read of the connection, with room for the fence behind it.  Whatever the reads were,
      * the calls made are those of the octet-at-a-time parser on the stream, and it is refused exactly if that one
      * refuses it. */
    method ConsumePostPadded(buf: array<byte>, length: nat) returns (error: nat)
      requires Valid() && !at.Over() && length + MINIMUM_POST_PADDING <= buf.Length
      modifies this, buf
      ensures Valid() && old(out) <= out && at == Run(old(at), old(buf[..length]), maxHeaderSize).state
      ensures !at.Over() ==> error == NO_ERROR && out == old(out) + Run(old(at), old(buf[..length]), maxHeaderSize).out
      ensures at.Broken? && Clear(old(at), old(buf[..length]), maxHeaderSize) ==>
                error != NO_ERROR && Refused(old(at), old(buf[..length]), out[|old(out)|..])
    {
      hide Run, Clear, ParseHead, SameHead, C.Encodes, Prepend, CrForVersion;
      ghost var data, s0, was := buf[..length], at, out;
      at := Run(s0, data, maxHeaderSize).state;
      if !at.Over() {
        GoingOnIsClear(s0, data, maxHeaderSize);
      }
      ghost var inScope := InScope(s0, data, maxHeaderSize);
      var start, stop;
      ghost var s, s';
      start, stop, error, s := ConsumePending(buf[..length], s0);
      if error != NO_ERROR || stop {
        return;
      }
      ghost var mid := out;
      assert data[start..] == buf[start..length];
      if inScope && start == length {
        NothingLeft(s0, data, mid[|was|..], s, data[start..]);
        SameHeadEmpty();
      }
      error, s' := ConsumeFresh(buf, start, length);
      if inScope && start < length {
        GrowsTwice(was, mid, out);
        if error == NO_ERROR {
          PassedOn(s0, data, mid[|was|..], data[start..]);
        } else {
          RefusedLater(s0, data, mid[|was|..], START, data[start..], out[|mid|..]);
        }
      }
    }

    /** What the rest of a read comes to is what the whole comes to. */
    lemma PassedOn(s0: State, data: seq<byte>, delta: seq<Output>, rest: seq<byte>)
      requires Passed(s0, data, delta, START, rest)
      ensures Alive(START, maxHeaderSize)
      ensures Run(s0, data, maxHeaderSize) ==
              Ran(Run(START, rest, maxHeaderSize).state, delta + Run(START, rest, maxHeaderSize).out)
    {
      hide Run, Clear, ParseHead;
    }

    /** A connection's reads, one after the other, as the data handler of HttpContext.h takes them, up to the first
      * that is refused. */
    method Receive(segments: seq<seq<byte>>) returns (error: nat)
      requires Valid() && !at.Over() && InScope(at, Flatten(segments), maxHeaderSize)
      modifies this
      ensures Valid() && old(out) <= out && at == Run(old(at), Flatten(segments), maxHeaderSize).state
      ensures error == NO_ERROR <==> !at.Broken?
      ensures if error == NO_ERROR then out == old(out) + Run(old(at), Flatten(segments), maxHeaderSize).out
              else Refused(old(at), Flatten(segments), out[|old(out)|..])
    {
      hide Run, Clear, ParseHead, Flatten, RunReads, CrForVersion;
      ghost var s0, was := at, out;
      error := NO_ERROR;
      RunReadsStart(s0, maxHeaderSize);
      ReadsInvisible(s0, segments, maxHeaderSize);
      for i := 0 to |segments|
        invariant Valid() && !at.Over() && error == NO_ERROR
        invariant was <= out && RunReads(s0, segments[..i], maxHeaderSize) == Ran(at, out[|was|..])
      {
        var n := |segments[i]|;
        var buf := new byte[n + MINIMUM_POST_PADDING](k requires 0 <= k < n + MINIMUM_POST_PADDING => if k < n then
          segments[i][k] else 0);
        assert buf[..n] == segments[i];
        assert segments[..i + 1] == segments[..i] + [segments[i]];
        RunReadsAppend(s0, segments[..i], segments[i], maxHeaderSize);
        SegmentInScope(s0, segments, i, maxHeaderSize);
        ghost var mid, s1 := out, at;
        error := ConsumePostPadded(buf, n);
        RunReadsOver(s0, segments, i + 1, maxHeaderSize);
        GrowsTwice(was, mid, out);
        if error != NO_ERROR {
          HandedBehind(mid[|was|..], out[|mid|..], Run(s1, segments[i], maxHeaderSize).out);
          return;
        }
      }
      assert segments[..|segments|] == segments;
    }

    /** Pipelined well-formed requests are delivered whole and in order, however the connection's reads cut them. */
    method Serve(segments: seq<seq<byte>>, ghost messages: seq<Message>) returns (error: nat)
      requires Valid() && at == START
      requires Flatten(segments) == Stream(messages)
      requires forall m | m in messages :: WellFormed(m, maxHeaderSize)
      modifies this
      ensures Valid() && error == NO_ERROR && at == START
      ensures out == old(out) + ExpectedAll(messages)
    {
      hide Run, Clear, ParseHead;
      StreamDelivered(messages, maxHeaderSize);
      GoingOnIsClear(at, Flatten(segments), maxHeaderSize);
      error := Receive(segments);
    }

    /** A request that must be refused for its headers is refused, however the reads cut it, and everything before it
      * is delivered. */
    method Refuse(segments: seq<seq<byte>>, ghost messages: seq<Message>, ghost bad: H.RequestHead,
                  ghost next: seq<byte>)
      returns (error: nat)
      requires Valid() && at == START
      requires Flatten(segments) == Stream(messages) + (H.EncodeHead(bad) + next)
      requires forall m | m in messages :: WellFormed(m, maxHeaderSize)
      requires H.ValidHead(bad) && |H.EncodeHead(bad)| <= maxHeaderSize
      requires Judge(H.RequestOf(bad).headers) in {HttpStream.Refused, BadLength}
      modifies this
      ensures Valid() && error != NO_ERROR && at == Broken
      ensures out == old(out) + (ExpectedAll(messages) + AfterHead(H.RequestOf(bad)).out)
    {
      hide Run, Clear, ParseHead, Judge, H.EncodeHead, H.RequestOf, H.ValidHead, WellFormed, Expected;
      ghost var was := out;
      StreamRefused(messages, bad, next, maxHeaderSize);
      LastIsEnd(messages);
      ghost var expected := ExpectedAll(messages) + AfterHead(H.RequestOf(bad)).out;
      error := Receive(segments);
      NothingHeldBack(out[|was|..], expected);
    }
  }

  lemma NothingHeldBack(handed: seq<Output>, out: seq<Output>)
    requires HandedBefore(handed, out) && (out == [] || out[|out| - 1].NewRequest? || out[|out| - 1] == END)
    ensures handed == out
  {
    assert |handed| == |out|;
  }

  lemma {:induction false} LastIsEnd(messages: seq<Message>)
    ensures ExpectedAll(messages) == [] || ExpectedAll(messages)[|ExpectedAll(messages)| - 1] == END
  {
    if messages != [] {
      LastIsEnd(messages[1..]);
      var first := Expected(messages[0]);
      assert first[|first| - 1] == END;
    }
  }

  lemma RunReadsStart(s: State, max: nat)
    requires Alive(s, max)
    ensures RunReads(s, [], max) == Ran(s, [])
  {
  }

  lemma {:induction false} RunReadsAppend(s: State, segments: seq<seq<byte>>, last: seq<byte>, max: nat)
    requires Alive(s, max) || s.Over()
    ensures var before := RunReads(s, segments, max);
            RunReads(s, segments + [last], max) == Prepend(before.out, Run(before.state, last, max))
  {
    hide Run, ParseHead, RunReads;
    ReadsInvisible(s, segments, max);
    ReadsInvisible(s, segments + [last], max);
    FlattenAppend(segments, last);
    RunConcat(s, Flatten(segments), last, max);
  }

  /** Once over, nothing more comes of the reads. */
  lemma RunReadsOver(s: State, segments: seq<seq<byte>>, i: nat, max: nat)
    requires i <= |segments| && (Alive(s, max) || s.Over())
    ensures RunReads(s, segments[..i], max).state.Over() ==>
              RunReads(s, segments[..i], max) == RunReads(s, segments, max)
  {
    hide Run, ParseHead, RunReads;
    ReadsInvisible(s, segments[..i], max);
    ReadsInvisible(s, segments, max);
    assert segments == segments[..i] + segments[i..];
    FlattenConcat(segments[..i], segments[i..]);
    RunConcat(s, Flatten(segments[..i]), Flatten(segments[i..]), max);
    var first := RunReads(s, segments[..i], max);
    if first.state.Over() {
      RunOver(first.state, Flatten(segments[i..]), max);
      assert first.out + [] == first.out;
    }
  }

  /** A read of a run in scope is in scope. */
  lemma SegmentInScope(s: State, segments: seq<seq<byte>>, i: nat, max: nat)
    requires i < |segments| && (Alive(s, max) || s.Over()) && InScope(s, Flatten(segments), max)
    ensures InScope(RunReads(s, segments[..i], max).state, segments[i], max)
  {
    hide Run, Clear, ParseHead, RunReads, Flatten, CrForVersion;
    ReadsInvisible(s, segments[..i], max);
    assert segments == segments[..i] + segments[i..] && segments[i..] == [segments[i]] + segments[i + 1..];
    var before, later := Flatten(segments[..i]), Flatten(segments[i + 1..]);
    FlattenConcat(segments[..i], segments[i..]);
    FlattenFirst(segments[i..]);
    ClearConcat(s, before, segments[i] + later, max);
    var mid := Run(s, before, max).state;
    ClearConcat(mid, segments[i], later, max);
    RunConcat(s, before, segments[i] + later, max);
    RunConcat(mid, segments[i], later, max);
    if Run(mid, segments[i], max).state.OutOfScope? {
      RunOver(OutOfScope, later, max);
    }
  }

  lemma FlattenFirst<T>(parts: seq<seq<T>>)
    requires parts != []
    ensures Flatten(parts) == parts[0] + Flatten(parts[1..])
  {
  }

  lemma AfterHeadStates(request: Request)
    ensures AfterHead(request).state.AwaitHead? ==> AfterHead(request).state == START
  {
  }

  lemma AnsweredNothing(after: Ran, s': State, delta: seq<Output>, max: nat)
    requires (Alive(after.state, max) || after.state.Over()) && (Alive(s', max) || s'.Over())
    requires Prepend(after.out, Run(after.state, [], max)) == Prepend(delta, Run(s', [], max))
    ensures after.state == s' && after.out == delta
  {
    hide Run;
    if after.state.Over() { RunOver(after.state, [], max); } else { RunEmpty(after.state, max); }
    if s'.Over() { RunOver(s', [], max); } else { RunEmpty(s', max); }
    assert after.out + [] == after.out && delta + [] == delta;
  }

  lemma FallbackShorter(b: seq<byte>, fallback: seq<byte>)
    requires SameHead(fallback, b)
    ensures |fallback| == |b|
  {
  }

  lemma SameHeadAt(x: seq<byte>, y: seq<byte>, z: seq<byte>)
    requires SameHead(x, y)
    ensures ParseHead(x + z) == ParseHead(y + z) && |x| == |y|
  {
    hide ParseHead;
  }

  lemma SameHeadEmpty()
    ensures SameHead([], [])
  {
  }

  lemma GrowsTwice<T>(was: seq<T>, mid: seq<T>, now: seq<T>)
    requires was <= mid <= now
    ensures was <= now && now[|was|..] == mid[|was|..] + now[|mid|..]
  {
  }

  /** Right behind a head nothing is out of scope. */
  lemma NothingPending(request: Request, max: nat)
    requires max > 0
    ensures var s := AfterHead(request).state; (Alive(s, max) || s.Over()) && InScope(s, [], max)
  {
    hide Run, Clear, ParseHead, CrForVersion;
    NothingIsNoHead();
    var s := AfterHead(request).state;
    ClearEmpty(s, max);
    RunEmpty(s, max);
  }

  lemma HandedWhole(out: seq<Output>)
    ensures HandedBefore(out, out) && out + [] == out
  {
  }

  lemma HandedBehind(before: seq<Output>, handed: seq<Output>, out: seq<Output>)
    requires HandedBefore(handed, out)
    ensures HandedBefore(before + handed, before + out)
  {
    var whole := before + out;
    assert before + handed <= whole;
    assert forall k | |before + handed| <= k < |whole| :: whole[k] == out[k - |before|];
  }

  lemma JoinAnswer(answer: seq<Output>, more: seq<Output>, run: Ran, tail: Ran, was: seq<Output>, mid: seq<Output>,
                   now: seq<Output>)
    requires mid == was + answer && mid <= now
    ensures was <= now
    ensures Prepend(more, run) == Prepend(now[|mid|..], tail) ==>
              Prepend(answer + more, run) == Prepend(now[|was|..], tail)
  {
    assert now[|was|..] == answer + now[|mid|..];
    Assoc3(answer, now[|mid|..], tail.out);
    Assoc3(answer, more, run.out);
  }

  lemma JoinRefusal(answer: seq<Output>, more: seq<Output>, run: seq<Output>, was: seq<Output>, mid: seq<Output>,
                    now: seq<Output>)
    requires mid == was + answer && mid <= now
    ensures was <= now
    ensures HandedBefore(now[|mid|..], more + run) ==> HandedBefore(now[|was|..], answer + more + run)
  {
    assert now[|was|..] == answer + now[|mid|..];
    Assoc3(answer, more, run);
    if HandedBefore(now[|mid|..], more + run) {
      HandedBehind(answer, now[|mid|..], more + run);
    }
  }

  lemma StartsChunked()
    ensures C.Encodes(C.START, C.STATE_IS_CHUNKED, 0) && C.STATE_IS_CHUNKED.Usable()
  {
  }

  /** A header that is reached has been looked up by its name. */
  lemma {:induction false} IsThere(headers: seq<Header>, h: nat)
    requires h < |Named(headers)|
    ensures h < |headers| && GetHeader(headers, Named(headers)[h].key).Some?
  {
    NamedPrefix(headers);
    if h > 0 && headers[0].key != Named(headers)[h].key {
      IsThere(headers[1..], h - 1);
    }
  }

  lemma NamedPrefix(headers: seq<Header>)
    ensures var named := Named(headers);
            && |named| <= |headers|
            && (forall k | 0 <= k < |named| :: named[k] == headers[k] && named[k].key != [])
            && (|named| == |headers| || headers[|named|].key == [])
  {
  }

  function Pow10(n: nat): nat { if n == 0 then 1 else 10 * Pow10(n - 1) }

  lemma Pow10Bound(n: nat)
    requires n <= 18
    ensures Pow10(n) <= 1_000_000_000_000_000_000
  {
    Pow10Grows(n, 18);
    assert Pow10(3) == 1_000;
    assert Pow10(6) == 1_000_000;
    assert Pow10(9) == 1_000_000_000;
    assert Pow10(12) == 1_000_000_000_000;
    assert Pow10(15) == 1_000_000_000_000_000;
  }

  lemma Pow10Grows(n: nat, m: nat)
    requires n <= m
    ensures Pow10(n) <= Pow10(m)
    decreases m - n
  {
    if n < m {
      Pow10Grows(n, m - 1);
    }
  }

  lemma {:induction false} NotDecimal(digits: seq<byte>, i: nat)
    requires i < |digits| && !(48 <= digits[i] <= 57)
    ensures Decimal(digits) == None
    decreases |digits|
  {
    var n := |digits| - 1;
    if i < n {
      NotDecimal(digits[..n], i);
    }
  }
}
