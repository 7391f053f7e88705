/** The reference meaning of a request stream: a parser that takes one octet at a time.
  *
  * Because `Run` is a fold, what it delivers cannot depend on how the stream was cut.  HttpParser.dfy proves
  * that the source's parser, which works on whole reads, delivers the same. */
module HttpStream {
  import opened Bytes
  import opened HttpHead
  import B = BloomFilter
  import C = ChunkedEncoding
  import G = ChunkedGrammar
  import H = HttpGrammar

  // ---------------------------------------------------------------- what a head announces

  const HOST: seq<byte> := [104, 111, 115, 116]
  const CONTENT_LENGTH: seq<byte> := [99, 111, 110, 116, 101, 110, 116, 45, 108, 101, 110, 103, 116, 104]
  const TRANSFER_ENCODING: seq<byte> :=
    [116, 114, 97, 110, 115, 102, 101, 114, 45, 101, 110, 99, 111, 100, 105, 110, 103]

  /** The headers a lookup sees: those before the first one with an empty name. */
  function Named(headers: seq<Header>): (r: seq<Header>)
  {
    if headers == [] || headers[0].key == [] then [] else [headers[0]] + Named(headers[1..])
  }

  /** `HttpRequest::getHeader` */
  function GetHeader(headers: seq<Header>, key: seq<byte>): (r: Option<seq<byte>>)
  {
    if headers == [] || headers[0].key == [] then None
    else if headers[0].key == key then Some(headers[0].value)
    else GetHeader(headers[1..], key)
  }

  predicate MustBeUnique(key: seq<byte>)
  {
    key == HOST || key == CONTENT_LENGTH || key == TRANSFER_ENCODING
  }

  /** One of the three headers that must not be repeated is repeated. */
  ghost predicate Repeated(headers: seq<Header>)
  {
    exists i, j :: 0 <= i < j < |headers| && headers[i].key == headers[j].key && MustBeUnique(headers[i].key)
  }

  /** At most 18 decimal digits. */
  function Decimal(digits: seq<byte>): (v: Option<nat>)
  {
    if digits == [] then Some(0)
    else
      var last := digits[|digits| - 1];
      var front := Decimal(digits[..|digits| - 1]);
      if front.Some? && 48 <= last <= 57 then Some(front.value * 10 + (last as nat - 48)) else None
  }

  function ToUnsignedInteger(digits: seq<byte>): Option<nat>
  {
    if |digits| > 18 then None else Decimal(digits)
  }

  /** `BadLength`: refused, but only after the request was handed over. */
  datatype Verdict = Refused | BadLength | NoBody | FixedBody(length: nat) | ChunkedBody

  function ValueOf(headers: seq<Header>, key: seq<byte>): seq<byte>
  {
    var v := GetHeader(headers, key);
    if v.Some? then v.value else []
  }

  /** What the headers of a request say of its body. */
  ghost function Framing(headers: seq<Header>): Verdict
  {
    if Repeated(Named(headers)) then Refused else FramingOfUnrepeated(headers)
  }

  function FramingOfUnrepeated(headers: seq<Header>): Verdict
  {
    var coding, length := ValueOf(headers, TRANSFER_ENCODING), ValueOf(headers, CONTENT_LENGTH);
    if GetHeader(headers, HOST).None? || (coding != [] && length != []) then Refused
    else if coding != [] then ChunkedBody
    else if length == [] then NoBody
    else
      match ToUnsignedInteger(length)
      case None => BadLength
      case Some(n) => FixedBody(n)
  }

  function Keys(headers: seq<Header>): (keys: seq<seq<byte>>)
    ensures |keys| == |headers| && forall i {:trigger keys[i]} | 0 <= i < |headers| :: keys[i] == headers[i].key
  {
    seq(|headers|, i requires 0 <= i < |headers| => headers[i].key)
  }

  /** The filter of the headers before the `h`th might have its name. */
  predicate MightBeBefore(headers: seq<Header>, h: nat)
    requires h < |headers|
  {
    B.MightHave(B.FilterOf(Keys(headers[..h])), headers[h].key)
  }

  /** Repetition is looked for with the filter: any header that must be unique and might have been there refuses. */
  ghost predicate Suspicious(headers: seq<Header>)
  {
    exists h: nat | h < |headers| :: MustBeUnique(headers[h].key) && MightBeBefore(headers, h)
  }

  /** The filter is mistaken about a header that is there once. */
  ghost predicate FalseAlarm(headers: seq<Header>)
  {
    exists h: nat | h < |headers| ::
      MustBeUnique(headers[h].key) && MightBeBefore(headers, h) && headers[h].key !in Keys(headers[..h])
  }

  lemma SuspiciousIff(headers: seq<Header>)
    ensures Suspicious(headers) <==> Repeated(headers) || FalseAlarm(headers)
  {
    hide B.MightHave, B.FilterOf;
    if i, j :| 0 <= i < j < |headers| && headers[i].key == headers[j].key && MustBeUnique(headers[i].key) {
      assert Keys(headers[..j])[i] == headers[j].key;
      B.AddedMightBe(Keys(headers[..j]), headers[j].key);
      assert MightBeBefore(headers, j);
    }
    if h: nat :| h < |headers| && MustBeUnique(headers[h].key) && MightBeBefore(headers, h) {
      if headers[h].key in Keys(headers[..h]) {
        var i: nat :| i < h && Keys(headers[..h])[i] == headers[h].key;
        assert headers[i].key == headers[h].key;
      }
    }
  }

  /** What the parser takes the headers for. */
  ghost function Judge(headers: seq<Header>): Verdict
  {
    if Suspicious(Named(headers)) then Refused else FramingOfUnrepeated(headers)
  }

  /** A request whose headers are in order is taken for what they say if and only if the filter is not mistaken. */
  lemma JudgedByFramingIff(headers: seq<Header>)
    requires Framing(headers) != Refused
    ensures Judge(headers) == Framing(headers) <==> !FalseAlarm(Named(headers))
  {
    hide FramingOfUnrepeated, FalseAlarm, Repeated, Suspicious;
    SuspiciousIff(Named(headers));
  }

  const HAST: seq<byte> := [104, 97, 115, 116]

  /** It can be: one host, after a header that shares four octets with it, is refused. */
  lemma HastRefusesHost(value: seq<byte>, host: seq<byte>)
    ensures var headers := [Header(HAST, value), Header(HOST, host)];
              Framing(headers) == NoBody && Judge(headers) == Refused
  {
    hide B.Bits;
    var headers := [Header(HAST, value), Header(HOST, host)];
    assert headers[1..] == [Header(HOST, host)] && headers[1..][1..] == [];
    assert Named(headers[1..][1..]) == [] && Named(headers[1..]) == [headers[1]] + [];
    assert Named(headers) == headers;
    assert headers[..1] == [headers[0]] && Keys(headers[..1]) == [HAST];
    B.SameFeaturesMightBe([HAST], HAST, HOST);
    assert MightBeBefore(headers, 1);
    assert ValueOf(headers, TRANSFER_ENCODING) == [] && ValueOf(headers, CONTENT_LENGTH) == [] by {
      assert GetHeader(headers, TRANSFER_ENCODING) == GetHeader(headers[1..], TRANSFER_ENCODING) == None;
      assert GetHeader(headers, CONTENT_LENGTH) == GetHeader(headers[1..], CONTENT_LENGTH) == None;
    }
    assert GetHeader(headers, HOST) == GetHeader(headers[1..], HOST) == Some(host);
  }

  // ---------------------------------------------------------------- the reference parser

  /** `OutOfScope`: a chunk-size line outside the grammar (see ChunkedEncoding). */
  datatype State =
    | AwaitHead(partial: seq<byte>)
    | InFixed(left: nat)
    | InChunked(body: C.State)
    | Broken
    | OutOfScope
  {
    predicate Over() { Broken? || OutOfScope? }
  }

  const START: State := AwaitHead([])

  /** What reaches the application: requests, the octets of their bodies and the mark that ends each body. */
  datatype Output = NewRequest(request: Request) | Deliver(event: C.Event)

  function Delivered(events: seq<C.Event>): (out: seq<Output>)
    ensures |out| == |events|
  {
    seq(|events|, i requires 0 <= i < |events| => Deliver(events[i]))
  }

  lemma DeliveredConcat(x: seq<C.Event>, y: seq<C.Event>)
    ensures Delivered(x + y) == Delivered(x) + Delivered(y)
  {
  }

  const END: Output := Deliver(C.EndMark)

  datatype Ran = Ran(state: State, out: seq<Output>)

  ghost function AfterHead(request: Request): Ran
  {
    match Judge(request.headers)
    case Refused => Ran(Broken, [])
    case BadLength => Ran(Broken, [NewRequest(request)])
    case NoBody => Ran(START, [NewRequest(request), END])
    case FixedBody(n) => if n == 0 then Ran(START, [NewRequest(request), END])
      else Ran(InFixed(n), [NewRequest(request)])
    case ChunkedBody => Ran(InChunked(C.START), [NewRequest(request)])
  }

  /** The state a chunked body leaves the parser in. */
  function ChunkedState(a: C.State): State
  {
    match a
    case Done => START
    case Failed => Broken
    case Ambiguous => OutOfScope
    case Oversized => OutOfScope
    case _ => InChunked(a)
  }

  /** What a connection whose limit on heads is `max` can be in between two octets. */
  ghost predicate Alive(s: State, max: nat)
  {
    && max > 0
    && match s
       case AwaitHead(partial) => ParseHead(partial) == Incomplete && !CrForVersion(partial) && |partial| < max
       case InFixed(left) => left >= 1
       case InChunked(a) => C.Live(a)
       case _ => false
  }

  ghost function HeadStep(head: seq<byte>, max: nat): Ran
  {
    match ParseHead(head)
    case Incomplete => if |head| < max then Ran(AwaitHead(head), []) else Ran(Broken, [])
    case Rejected(_) => Ran(Broken, [])
    case Head(request, _) => if |head| <= max then AfterHead(request) else Ran(Broken, [])
  }

  ghost function Step(s: State, c: byte, max: nat): (r: Ran)
    requires Alive(s, max)
  {
    match s
    case AwaitHead(partial) => HeadStep(partial + [c], max)
    case InFixed(left) =>
      if left > 1 then Ran(InFixed(left - 1), [Deliver(C.Octet(c))]) else Ran(START, [Deliver(C.Octet(c)), END])
    case InChunked(a) => var (a', events) := C.Step(a, c); Ran(ChunkedState(a'), Delivered(events))
  }

  lemma NothingIsNoHead()
    ensures ParseHead([]) == Incomplete && !CrForVersion([])
  {
  }

  lemma StepAlive(s: State, c: byte, max: nat)
    requires Alive(s, max)
    ensures Alive(Step(s, c, max).state, max) || Step(s, c, max).state.Over()
  {
    hide ParseHead, CrForVersion;
    NothingIsNoHead();
    if s.AwaitHead? && CrForVersion(s.partial + [c]) {
      CrForVersionComes(s.partial, c);
    }
  }

  /** One octet at a time; nothing happens once the parser is over. */
  ghost function Run(s: State, input: seq<byte>, max: nat): (r: Ran)
    requires Alive(s, max) || s.Over()
    ensures Alive(r.state, max) || r.state.Over()
    decreases |input|
  {
    if s.Over() || input == [] then Ran(s, [])
    else
      StepAlive(s, input[0], max);
      var first := Step(s, input[0], max);
      var others := Run(first.state, input[1..], max);
      Ran(others.state, first.out + others.out)
  }

  ghost function Prepend(out: seq<Output>, r: Ran): Ran
  {
    Ran(r.state, out + r.out)
  }

  lemma RunStep(s: State, input: seq<byte>, max: nat)
    requires Alive(s, max) && input != []
    ensures Alive(Step(s, input[0], max).state, max) || Step(s, input[0], max).state.Over()
    ensures Run(s, input, max) == Prepend(Step(s, input[0], max).out,
              Run(Step(s, input[0], max).state, input[1..], max))
  {
    hide Step, ParseHead;
    StepAlive(s, input[0], max);
  }

  lemma RunOver(s: State, input: seq<byte>, max: nat)
    requires s.Over()
    ensures Run(s, input, max) == Ran(s, [])
  {
  }

  lemma RunEmpty(s: State, max: nat)
    requires Alive(s, max) || s.Over()
    ensures Run(s, [], max) == Ran(s, [])
  {
  }

  lemma {:induction false} RunConcat(s: State, x: seq<byte>, y: seq<byte>, max: nat)
    requires Alive(s, max) || s.Over()
    ensures Run(s, x + y, max) == Prepend(Run(s, x, max).out, Run(Run(s, x, max).state, y, max))
    decreases |x|
  {
    hide Run, Alive, Step;
    if s.Over() {
      RunOver(s, x + y, max);
      RunOver(s, x, max);
      RunOver(s, y, max);
    } else if x == [] {
      RunEmpty(s, max);
      assert x + y == y;
      assert [] + Run(s, y, max).out == Run(s, y, max).out;
    } else {
      RunStep(s, x, max);
      RunStep(s, x + y, max);
      assert (x + y)[0] == x[0] && (x + y)[1..] == x[1..] + y;
      var first := Step(s, x[0], max);
      RunConcat(first.state, x[1..], y, max);
      var middle := Run(first.state, x[1..], max);
      Assoc3(first.out, middle.out, Run(middle.state, y, max).out);
    }
  }

  /** The run over a series of reads. */
  ghost function RunReads(s: State, reads_: seq<seq<byte>>, max: nat): (r: Ran)
    requires Alive(s, max) || s.Over()
    ensures Alive(r.state, max) || r.state.Over()
    decreases |reads_|
  {
    if reads_ == [] then Ran(s, [])
    else
      var first := Run(s, reads_[0], max);
      Prepend(first.out, RunReads(first.state, reads_[1..], max))
  }

  /** Read boundaries are invisible. */
  lemma {:induction false} ReadsInvisible(s: State, reads_: seq<seq<byte>>, max: nat)
    requires Alive(s, max) || s.Over()
    ensures RunReads(s, reads_, max) == Run(s, Flatten(reads_), max)
    decreases |reads_|
  {
    hide Run, Alive;
    if reads_ == [] {
      if s.Over() { RunOver(s, [], max); } else { RunEmpty(s, max); }
    } else {
      ReadsInvisible(Run(s, reads_[0], max).state, reads_[1..], max);
      RunConcat(s, reads_[0], Flatten(reads_[1..]), max);
    }
  }

  // ---------------------------------------------------------------- runs no cut can be seen in

  /** Nowhere in the run does a request line have a CR for its version and eleven octets behind that. */
  ghost predicate Clear(s: State, input: seq<byte>, max: nat)
    requires Alive(s, max) || s.Over()
    decreases |input|
  {
    || s.Over() || input == []
    || (
      && (s.AwaitHead? ==> !CrForVersion(s.partial + input))
      && (StepAlive(s, input[0], max); Clear(Step(s, input[0], max).state, input[1..], max)))
  }

  /** The run is refused by no cut, or by every cut: size lines are in the scope of the chunked decoder, and request
    * lines are clear. */
  ghost predicate InScope(s: State, input: seq<byte>, max: nat)
    requires Alive(s, max) || s.Over()
  {
    Clear(s, input, max) && !Run(s, input, max).state.OutOfScope?
  }

  lemma ClearStep(s: State, input: seq<byte>, max: nat)
    requires Alive(s, max) && input != []
    ensures Alive(Step(s, input[0], max).state, max) || Step(s, input[0], max).state.Over()
    ensures Clear(s, input, max) <==>
            (s.AwaitHead? ==> !CrForVersion(s.partial + input))
            && Clear(Step(s, input[0], max).state, input[1..], max)
  {
    hide Step, ParseHead, CrForVersion;
    StepAlive(s, input[0], max);
  }

  /** A clear head at hand is no line with a CR for its version. */
  lemma ClearHead(b: seq<byte>, x: seq<byte>, max: nat)
    requires Alive(AwaitHead(b), max) && Clear(AwaitHead(b), x, max)
    ensures !CrForVersion(b + x)
  {
    hide ParseHead, CrForVersion;
    if x == [] {
      assert b + x == b;
    }
  }

  /** What is read of a clear run is clear, and what is still to be read. */
  lemma {:induction false} ClearConcat(s: State, x: seq<byte>, y: seq<byte>, max: nat)
    requires (Alive(s, max) || s.Over()) && Clear(s, x + y, max)
    ensures Clear(s, x, max) && Clear(Run(s, x, max).state, y, max)
    decreases |x|
  {
    hide Run, Clear, Alive, Step, CrForVersion;
    if s.Over() {
      RunOver(s, x, max);
      ClearOver(s, x, max);
      ClearOver(s, y, max);
    } else if x == [] {
      RunEmpty(s, max);
      assert x + y == y;
      ClearEmpty(s, max);
    } else {
      RunStep(s, x, max);
      ClearStep(s, x, max);
      ClearStep(s, x + y, max);
      assert (x + y)[0] == x[0] && (x + y)[1..] == x[1..] + y;
      ClearConcat(Step(s, x[0], max).state, x[1..], y, max);
      if s.AwaitHead? && CrForVersion(s.partial + x) {
        CrForVersionExtend(s.partial + x, y);
        Assoc3(s.partial, x, y);
      }
    }
  }

  lemma ClearOver(s: State, input: seq<byte>, max: nat)
    requires s.Over()
    ensures Clear(s, input, max)
  {
  }

  lemma ClearEmpty(s: State, max: nat)
    requires Alive(s, max) || s.Over()
    ensures Clear(s, [], max)
  {
  }

  /** A run that is refused nowhere is clear. */
  lemma {:induction false} GoingOnIsClear(s: State, x: seq<byte>, max: nat)
    requires Alive(s, max) && !Run(s, x, max).state.Over()
    ensures Clear(s, x, max)
    decreases |x|
  {
    hide Run, Clear, Step, ParseHead, CrForVersion;
    if x == [] {
      ClearEmpty(s, max);
    } else {
      RunStep(s, x, max);
      ClearStep(s, x, max);
      var next := Step(s, x[0], max).state;
      if next.Over() {
        RunOver(next, x[1..], max);
      } else {
        GoingOnIsClear(next, x[1..], max);
        if s.AwaitHead? && CrForVersion(s.partial + x) {
          CrIsRefused(s.partial, x, max);
        }
      }
    }
  }

  /** After `k` octets the parser is in a head that, with all that follows, has a CR for its version. */
  ghost predicate CrComes(s: State, input: seq<byte>, k: nat, max: nat)
    requires (Alive(s, max) || s.Over()) && k <= |input|
  {
    var at := Run(s, input[..k], max).state;
    at.AwaitHead? && CrForVersion(at.partial + input[k..])
  }

  /** A run is clear if and only if that comes nowhere in it. */
  lemma {:induction false} ClearIff(s: State, input: seq<byte>, max: nat)
    requires Alive(s, max) || s.Over()
    ensures Clear(s, input, max) <==> forall k: nat | k <= |input| :: !CrComes(s, input, k, max)
    decreases |input|
  {
    hide Run, Clear, Alive, Step, CrForVersion;
    if s.Over() {
      ClearOver(s, input, max);
      forall k: nat | k <= |input|
        ensures !CrComes(s, input, k, max)
      {
        RunOver(s, input[..k], max);
      }
    } else if input == [] {
      ClearEmpty(s, max);
      RunEmpty(s, max);
      if s.AwaitHead? { NoCrYet(s, max); }
    } else {
      ClearStep(s, input, max);
      var next := Step(s, input[0], max).state;
      ClearIff(next, input[1..], max);
      RunEmpty(s, max);
      assert input[..0] == [] && input[0..] == input;
      assert CrComes(s, input, 0, max) <==> s.AwaitHead? && CrForVersion(s.partial + input);
      forall k: nat | k < |input|
        ensures CrComes(s, input, k + 1, max) <==> CrComes(next, input[1..], k, max)
      {
        RunStep(s, input[..k + 1], max);
        assert input[..k + 1][1..] == input[1..][..k] && input[1..][k..] == input[k + 1..];
      }
      forall k: nat | 0 < k <= |input|
        ensures CrComes(s, input, k, max) <==> CrComes(next, input[1..], k - 1, max)
      {
        assert CrComes(s, input, k - 1 + 1, max) <==> CrComes(next, input[1..], k - 1, max);
      }
    }
  }

  lemma NoCrYet(s: State, max: nat)
    requires Alive(s, max) && s.AwaitHead?
    ensures !CrForVersion(s.partial + [])
  {
    hide CrForVersion, ParseHead;
    assert s.partial + [] == s.partial;
  }

  // ---------------------------------------------------------------- runs over heads and bodies

  /** Octets that complete no head make the partial head longer, up to the limit. */
  lemma {:induction false} RunPartial(b: seq<byte>, x: seq<byte>, max: nat)
    requires Alive(AwaitHead(b), max) && ParseHead(b + x) == Incomplete && !CrForVersion(b + x)
    ensures Run(AwaitHead(b), x, max) == Ran(if |b + x| < max then AwaitHead(b + x) else Broken, [])
    decreases |x|
  {
    hide Run, ParseHead, AfterHead, CrForVersion;
    if x == [] {
      RunEmpty(AwaitHead(b), max);
      assert b + x == b;
    } else {
      var d := b + [x[0]];
      RunStep(AwaitHead(b), x, max);
      assert d + x[1..] == b + x;
      match ParseHead(d) {
        case Head(_, _) => HeadExtend(d, x[1..]);
        case Rejected(_) => RefusalExtend(d, x[1..]);
        case Incomplete =>
          if |d| < max {
            RunPartial(d, x[1..], max);
          } else {
            RunOver(Broken, x[1..], max);
          }
      }
    }
  }

  /** A head that is refused is refused by the first octet that makes it so, or by one before. */
  lemma {:induction false} RunRefused(b: seq<byte>, x: seq<byte>, max: nat)
    requires Alive(AwaitHead(b), max) && ParseHead(b + x).Rejected?
    ensures Run(AwaitHead(b), x, max) == Ran(Broken, [])
    decreases |x|
  {
    hide Run, ParseHead, AfterHead, CrForVersion;
    assert x == [] ==> b + x == b;
    var d := b + [x[0]];
    RunStep(AwaitHead(b), x, max);
    assert d + x[1..] == b + x;
    if ParseHead(d).Head? {
      HeadExtend(d, x[1..]);
    }
    if HeadStep(d, max).state.Over() {
      RunOver(HeadStep(d, max).state, x[1..], max);
    } else {
      RunRefused(d, x[1..], max);
    }
  }

  /** So is a line with a CR for its version, though all of it is not. */
  lemma CrIsRefused(b: seq<byte>, x: seq<byte>, max: nat)
    requires Alive(AwaitHead(b), max) && CrForVersion(b + x)
    ensures Run(AwaitHead(b), x, max) == Ran(Broken, [])
  {
    hide Run, ParseHead, CrForVersion;
    RefusalIsCutIff(b + x);
    var k: nat :| k <= |b + x| && ParseHead((b + x)[..k]).Rejected?;
    if k <= |b| {
      assert (b + x)[..k] == b[..k] && b[..k] + b[k..] == b;
      assert !CrForVersion(b[..k] + b[k..]);
      RefusalExtend(b[..k], b[k..]);
    }
    var n := k - |b|;
    assert (b + x)[..k] == b + x[..n] && x[..n] + x[n..] == x;
    RunRefused(b, x[..n], max);
    RunConcat(AwaitHead(b), x[..n], x[n..], max);
    RunOver(Broken, x[n..], max);
  }

  /** A head that is longer than the limit is refused at the limit. */
  lemma {:induction false} RunTooLong(b: seq<byte>, x: seq<byte>, max: nat)
    requires Alive(AwaitHead(b), max) && ParseHead(b + x).Head? && ParseHead(b + x).consumed > max
    ensures Run(AwaitHead(b), x, max) == Ran(Broken, [])
    decreases |x|
  {
    hide Run, ParseHead, AfterHead, CrForVersion;
    HeadLongerThan(b, x);
    var d := b + [x[0]];
    RunStep(AwaitHead(b), x, max);
    assert d + x[1..] == b + x && (b + x)[..|d|] == d;
    HeadPrefix(b + x, |d|);
    if |d| < max {
      RunTooLong(d, x[1..], max);
    } else {
      RunOver(Broken, x[1..], max);
    }
  }

  /** Octets that complete a head: the run goes on behind it with what the head announces. */
  lemma {:induction false} RunHead(b: seq<byte>, x: seq<byte>, max: nat)
    requires Alive(AwaitHead(b), max) && ParseHead(b + x).Head?
    requires ParseHead(b + x).consumed <= max
    ensures var n := ParseHead(b + x).consumed;
            var after := AfterHead(ParseHead(b + x).request);
            && |b| < n
            && (Alive(after.state, max) || after.state.Over())
            && Run(AwaitHead(b), x, max) == Prepend(after.out, Run(after.state, x[n - |b|..], max))
            && (Clear(AwaitHead(b), x, max) <==> Clear(after.state, x[n - |b|..], max))
    decreases |x|
  {
    hide Run, Clear, ParseHead, AfterHead, CrForVersion;
    var n := ParseHead(b + x).consumed;
    HeadLongerThan(b, x);
    RefusalIsCutIff(b + x);
    HeadNowhereRefused(b + x);
    var d := b + [x[0]];
    RunStep(AwaitHead(b), x, max);
    ClearStep(AwaitHead(b), x, max);
    assert d + x[1..] == b + x && (b + x)[..|d|] == d;
    if |d| < n {
      HeadPrefix(b + x, |d|);
      RunHead(d, x[1..], max);
      DropDrop(x, 1, n - |d|);
      assert [] + Run(AwaitHead(d), x[1..], max).out == Run(AwaitHead(d), x[1..], max).out;
    } else {
      HeadShrink(b + x, |d|);
      assert x[1..] == x[n - |b|..];
    }
  }

  lemma HeadNowhereRefused(d: seq<byte>)
    requires ParseHead(d).Head?
    ensures forall k: nat | k <= |d| :: !ParseHead(d[..k]).Rejected?
  {
    hide ParseHead;
    forall k: nat | k <= |d|
      ensures !ParseHead(d[..k]).Rejected?
    {
      if k < ParseHead(d).consumed {
        HeadPrefix(d, k);
      } else {
        HeadShrink(d, k);
      }
    }
  }

  lemma HeadLongerThan(b: seq<byte>, x: seq<byte>)
    requires ParseHead(b) == Incomplete && ParseHead(b + x).Head?
    ensures |b| < ParseHead(b + x).consumed && x != []
  {
    hide ParseHead;
    assert (b + x)[..|b|] == b;
    if ParseHead(b + x).consumed <= |b| {
      HeadShrink(b + x, |b|);
    }
  }

  /** A body of known length takes its octets from the read, and is ended by the last of them. */
  lemma {:induction false} RunFixed(left: nat, data: seq<byte>, max: nat)
    requires left >= 1 && max > 0
    ensures Alive(START, max)
    ensures var k := Min(left, |data|);
            && Run(InFixed(left), data, max) ==
               Prepend(Delivered(C.Octets(data[..k])) + (if k == left then [END] else []),
                       Run(if k == left then START else InFixed(left - k), data[k..], max))
            && (Clear(InFixed(left), data, max) <==>
                 Clear(if k == left then START else InFixed(left - k), data[k..], max))
    decreases |data|
  {
    hide Run, Clear, ParseHead, CrForVersion;
    NothingIsNoHead();
    var k := Min(left, |data|);
    if data == [] {
      RunEmpty(InFixed(left), max);
      assert Delivered(C.Octets([])) == [];
    } else {
      RunStep(InFixed(left), data, max);
      ClearStep(InFixed(left), data, max);
      var first := [Deliver(C.Octet(data[0]))];
      OctetsFirst(data, k);
      if left == 1 {
        assert Delivered(C.Octets(data[..1])) + [END] == first + [END];
      } else {
        RunFixed(left - 1, data[1..], max);
        DropDrop(data, 1, k - 1);
        var others := Delivered(C.Octets(data[1..][..k - 1]));
        var end := if k == left then [END] else [];
        var rest := Run(if k == left then START else InFixed(left - k), data[k..], max).out;
        Assoc3(first, others, end);
        Assoc3(first, others + end, rest);
      }
    }
  }

  lemma OctetsFirst(data: seq<byte>, k: nat)
    requires 1 <= k <= |data|
    ensures Delivered(C.Octets(data[..k])) == [Deliver(C.Octet(data[0]))] + Delivered(C.Octets(data[1..][..k - 1]))
  {
  }

  lemma {:induction false} RunChunked(a: C.State, data: seq<byte>, max: nat)
    requires C.Live(a) && max > 0
    ensures var d := C.Decode(a, data);
            && (Alive(ChunkedState(d.state), max) || ChunkedState(d.state).Over())
            && Run(InChunked(a), data, max) == Prepend(Delivered(d.out), Run(ChunkedState(d.state), d.rest, max))
            && (Clear(InChunked(a), data, max) <==> Clear(ChunkedState(d.state), d.rest, max))
    decreases |data|
  {
    hide Run, Clear, C.Decode, C.Step, ParseHead, CrForVersion;
    NothingIsNoHead();
    if data == [] {
      C.DecodeEmpty(a);
      RunEmpty(InChunked(a), max);
    } else {
      C.DecodeStep(a, data);
      RunStep(InChunked(a), data, max);
      ClearStep(InChunked(a), data, max);
      var (a', events) := C.Step(a, data[0]);
      if C.Live(a') {
        RunChunked(a', data[1..], max);
        var d := C.Decode(a', data[1..]);
        DeliveredConcat(events, d.out);
        Assoc3(Delivered(events), Delivered(d.out), Run(ChunkedState(d.state), d.rest, max).out);
      } else {
        C.DecodeFinal(a', data[1..]);
        assert events + [] == events;
      }
    }
  }

  // ---------------------------------------------------------------- well-formed streams

  datatype Content = NoContent | FixedContent(data: seq<byte>) | ChunkedContent(body: G.ChunkedBody)

  /** A request message: its head and its content. */
  datatype Message = Message(head: H.RequestHead, content: Content)
  {
    function Wire(): seq<byte> { H.EncodeHead(head) }

    function Request(): Request { H.RequestOf(head) }
  }

  /** The head is of the grammar and not too long, the content is what the headers say, and the filter is not
    * mistaken. */
  ghost predicate WellFormed(m: Message, max: nat)
  {
    && H.ValidHead(m.head) && |m.Wire()| <= max
    && Framing(m.Request().headers) == FramingOf(m.content)
    && (m.content.ChunkedContent? ==> G.ValidBody(m.content.body))
    && !FalseAlarm(Named(m.Request().headers))
  }

  function FramingOf(content: Content): Verdict
  {
    match content
    case NoContent => NoBody
    case FixedContent(data) => FixedBody(|data|)
    case ChunkedContent(_) => ChunkedBody
  }

  function OnWire(m: Message): seq<byte>
  {
    m.Wire() + ContentOnWire(m.content)
  }

  function ContentOnWire(content: Content): seq<byte>
  {
    match content
    case NoContent => []
    case FixedContent(data) => data
    case ChunkedContent(body) => G.EncodeBody(body)
  }

  function Payload(content: Content): seq<byte>
  {
    match content
    case NoContent => []
    case FixedContent(data) => data
    case ChunkedContent(body) => G.Payload(body.chunks)
  }

  /** What the application must see of a message: the request, its body and exactly one end mark. */
  function Expected(m: Message): seq<Output>
  {
    [NewRequest(m.Request())] + (Delivered(C.Octets(Payload(m.content))) + [END])
  }

  function Stream(messages: seq<Message>): seq<byte>
  {
    if messages == [] then [] else OnWire(messages[0]) + Stream(messages[1..])
  }

  function ExpectedAll(messages: seq<Message>): seq<Output>
  {
    if messages == [] then [] else Expected(messages[0]) + ExpectedAll(messages[1..])
  }

  lemma MessageDelivered(m: Message, next: seq<byte>, max: nat)
    requires WellFormed(m, max) && max > 0
    ensures Alive(START, max)
    ensures Run(START, OnWire(m) + next, max) == Prepend(Expected(m), Run(START, next, max))
    ensures Clear(START, OnWire(m) + next, max) <==> Clear(START, next, max)
  {
    hide Run, Clear, ParseHead, Judge, Framing, FalseAlarm, C.Decode, C.Octets, CrForVersion, Named;
    hide H.EncodeHead, H.RequestOf, H.ValidHead;
    NothingIsNoHead();
    H.HeadRead(m.head);
    JudgedByFramingIff(m.Request().headers);
    var x := OnWire(m) + next;
    var tail := ContentOnWire(m.content) + next;
    Assoc3(m.Wire(), ContentOnWire(m.content), next);
    HeadExtend(m.Wire(), tail);
    assert [] + x == x;
    RunHead([], x, max);
    assert x[|m.Wire()|..] == tail;
    var later := Run(START, next, max).out;
    match m.content {
      case NoContent =>
        assert tail == next;
        assert Expected(m) == [NewRequest(m.Request()), END];
      case FixedContent(data) =>
        if data == [] {
          assert tail == next;
          assert Expected(m) == [NewRequest(m.Request()), END];
        } else {
          RunFixed(|data|, tail, max);
          assert tail[..|data|] == data && tail[|data|..] == next;
          Assoc3([NewRequest(m.Request())], Delivered(C.Octets(data)) + [END], later);
        }
      case ChunkedContent(body) =>
        G.BodyDecode(body, next);
        RunChunked(C.START, tail, max);
        DeliveredConcat(C.Octets(Payload(m.content)), [C.EndMark]);
        assert Delivered([C.EndMark]) == [END];
        Assoc3([NewRequest(m.Request())], Delivered(C.Octets(Payload(m.content))) + [END], later);
    }
  }

  /** Pipelined well-formed requests, cut in any way, are delivered each with its body and one end mark, in order,
    * and leave the parser where it started. */
  lemma {:induction false} StreamDelivered(messages: seq<Message>, max: nat)
    requires max > 0 && forall m | m in messages :: WellFormed(m, max)
    ensures Alive(START, max)
    ensures Run(START, Stream(messages), max) == Ran(START, ExpectedAll(messages))
    decreases |messages|
  {
    hide Run, ParseHead, WellFormed;
    NothingIsNoHead();
    if messages == [] {
      RunEmpty(START, max);
    } else {
      MessageDelivered(messages[0], Stream(messages[1..]), max);
      StreamDelivered(messages[1..], max);
    }
  }

  /** After any well-formed requests, one that must be refused for its headers is refused, with everything before it
    * delivered; what follows it does not matter. */
  lemma {:induction false} StreamRefused(messages: seq<Message>, bad: H.RequestHead, next: seq<byte>, max: nat)
    requires forall m | m in messages :: WellFormed(m, max)
    requires H.ValidHead(bad) && |H.EncodeHead(bad)| <= max
    requires Judge(H.RequestOf(bad).headers) in {Refused, BadLength}
    ensures max > 0 && Alive(START, max)
    ensures Run(START, Stream(messages) + (H.EncodeHead(bad) + next), max) ==
            Ran(Broken, ExpectedAll(messages) + AfterHead(H.RequestOf(bad)).out)
    ensures Clear(START, Stream(messages) + (H.EncodeHead(bad) + next), max)
    decreases |messages|
  {
    hide Run, Clear, ParseHead, WellFormed, Judge, OnWire, Expected, CrForVersion, H.EncodeHead, H.RequestOf;
    H.HeadRead(bad);
    NothingIsNoHead();
    var last := H.EncodeHead(bad) + next;
    if messages == [] {
      assert [] + last == last;
      HeadExtend(H.EncodeHead(bad), next);
      RunHead([], last, max);
      RunOver(Broken, last[|H.EncodeHead(bad)|..], max);
      ClearOver(Broken, last[|H.EncodeHead(bad)|..], max);
      var out := AfterHead(H.RequestOf(bad)).out;
      assert out + [] == out && [] + out == out;
    } else {
      Assoc3(OnWire(messages[0]), Stream(messages[1..]), last);
      MessageDelivered(messages[0], Stream(messages[1..]) + last, max);
      StreamRefused(messages[1..], bad, next, max);
      Assoc3(Expected(messages[0]), ExpectedAll(messages[1..]), AfterHead(H.RequestOf(bad)).out);
    }
  }
}
