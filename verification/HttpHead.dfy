/** The request-head parser of HttpParser.h: `getHeaders` with its two-octet fence, and the facts about it that
  * let heads be cut anywhere. */
module HttpHead {
  import opened Bytes

  datatype Header = Header(key: seq<byte>, value: seq<byte>)

  datatype Request = Request(verb: seq<byte>, target: seq<byte>, headers: seq<Header>)

  datatype HeadResult =
    | Incomplete
    | Rejected(error: nat)
    | Head(request: Request, consumed: nat)

  const BAD_REQUEST: nat := 400
  const HEADER_FIELDS_TOO_LARGE: nat := 431
  const VERSION_NOT_SUPPORTED: nat := 505

  /** `UWS_HTTP_MAX_HEADERS_COUNT - 2`: the loop over fields runs that often. */
  const MAX_FIELDS: nat := 98

  /** " HTTP/1.1" and CRLF */
  const VERSION: seq<byte> := [32, 72, 84, 84, 80, 47, 49, 46, 49, CR, LF]

  // ---------------------------------------------------------------- octet classes

  /** Compared as a signed `char`. */
  predicate IsVerbByte(c: byte) { 32 < c < 128 }

  predicate IsTargetByte(c: byte) { c > 32 }

  predicate IsUpper(c: byte) { 65 <= c <= 90 }

  predicate IsLower(c: byte) { 97 <= c <= 122 }

  predicate IsUnlikelyFieldNameByte(c: byte)
  {
    c == 126 || c == 124 || c == 96 || c == 95 || c == 94 || c == 46 || c == 43 || c == 42 || c == 33
    || 48 <= c <= 57 || 35 <= c <= 39
  }

  predicate IsNameByte(c: byte) { IsUpper(c) || IsLower(c) || c == 45 || IsUnlikelyFieldNameByte(c) }

  predicate IsValueByte(c: byte) { c > 31 || c == HTAB }

  /** The classes of octets the parser skips over. */
  datatype OctetClass = VerbOctet | TargetOctet | NameOctet | ValueOctet
  {
    predicate Has(c: byte)
    {
      match this
      case VerbOctet => IsVerbByte(c)
      case TargetOctet => IsTargetByte(c)
      case NameOctet => IsNameByte(c)
      case ValueOctet => IsValueByte(c)
    }
  }

  /** `c | 32` for an upper-case letter */
  function ToLower(c: byte): byte { if IsUpper(c) then c + 32 else c }

  function Lower(s: seq<byte>): (r: seq<byte>)
    ensures |r| == |s|
  {
    seq(|s|, i requires 0 <= i < |s| => ToLower(s[i]))
  }

  // ---------------------------------------------------------------- the grammar the parser accepts

  /** All of `t` lies in the class. */
  predicate All(t: seq<byte>, kind: OctetClass) { forall k | 0 <= k < |t| :: kind.Has(t[k]) }

  /** How many leading octets lie in the class. */
  function Span(t: seq<byte>, kind: OctetClass): (n: nat)
    ensures n <= |t| && (forall k | 0 <= k < n :: kind.Has(t[k])) && (n < |t| ==> !kind.Has(t[n]))
  {
    SpanFrom(t, 0, kind)
  }

  function SpanFrom(t: seq<byte>, i: nat, kind: OctetClass): (n: nat)
    requires i <= |t|
    ensures i <= n <= |t| && (forall k | i <= k < n :: kind.Has(t[k])) && (n < |t| ==> !kind.Has(t[n]))
    decreases |t| - i
  {
    if i == |t| || !kind.Has(t[i]) then i else SpanFrom(t, i + 1, kind)
  }

  lemma SpanIs(t: seq<byte>, kind: OctetClass, n: nat)
    requires n <= |t| && (forall k | 0 <= k < n :: kind.Has(t[k])) && (n < |t| ==> !kind.Has(t[n]))
    ensures Span(t, kind) == n
  {
    var m := Span(t, kind);
    assert m < |t| ==> !kind.Has(t[m]);
  }

  datatype LineResult = NeedMore | BadLine | RequestLine(verb: seq<byte>, target: seq<byte>, consumed: nat)

  function ParseRequestLine(d: seq<byte>): (r: LineResult)
    ensures r.RequestLine? ==> 11 < r.consumed < |d|
  {
    var i := Span(d, VerbOctet);
    if i == |d| || i + 1 == |d| then NeedMore
    else if d[i] == SP && d[i + 1] == SLASH then
      var t := d[i + 1..];
      var j := i + 1 + Span(t, TargetOctet);
      if j + 11 >= |d| then
        if d[j..] == VERSION[..Min(11, |d| - j)] then NeedMore else BadLine
      else if d[j..j + 11] == VERSION then RequestLine(d[..i], d[i + 1..j], j + 11)
      else if d[j] == CR then NeedMore else BadLine
    else if d[i] == CR then NeedMore else BadLine
  }

  /** Without the octets below 33 at both ends. */
  function TrimRight(s: seq<byte>): (r: seq<byte>)
  {
    if s != [] && s[|s| - 1] < 33 then TrimRight(s[..|s| - 1]) else s
  }

  function TrimLeft(s: seq<byte>): (r: seq<byte>)
  {
    if s != [] && s[0] < 33 then TrimLeft(s[1..]) else s
  }

  function Trim(s: seq<byte>): seq<byte> { TrimLeft(TrimRight(s)) }

  datatype FieldResult = FieldNeedsMore | BadField | Field(header: Header, length: nat)

  /** One field line with its CRLF. */
  function ParseField(t: seq<byte>): (r: FieldResult)
    ensures r.Field? ==> 3 <= r.length <= |t|
  {
    var q := Span(t, NameOctet);
    if q == |t| then FieldNeedsMore
    else if t[q] != COLON then BadField
    else
      var v := t[q + 1..];
      var e := Span(v, ValueOctet);
      if e == |v| then FieldNeedsMore
      else if v[e] != CR then BadField
      else if e + 1 == |v| || v[e + 1] != LF then FieldNeedsMore
      else Field(Header(Lower(t[..q]), Trim(v[..e])), q + e + 3)
  }

  datatype FieldsResult = FieldsNeedMore | BadFields(error: nat) | Fields(headers: seq<Header>, consumed: nat)

  function PrependHeader(h: Header, length: nat, r: FieldsResult): FieldsResult
  {
    match r
    case Fields(headers, consumed) => Fields([h] + headers, length + consumed)
    case _ => r
  }

  /** How the field section ends after its next field line, if it does: None when another field line follows. */
  function Stop(t: seq<byte>): (r: Option<FieldsResult>)
    ensures r.None? ==> ParseField(t).Field? && ParseField(t).length < |t|
    ensures r.Some? && r.value.Fields? ==> 0 < r.value.consumed <= |t|
    ensures r.Some? && r.value.BadFields? ==> r.value.error != 0
  {
    match ParseField(t)
    case FieldNeedsMore => Some(FieldsNeedMore)
    case BadField => Some(BadFields(BAD_REQUEST))
    case Field(header, length) =>
      if length == |t| then Some(FieldsNeedMore)
      else if t[length] != CR then None
      else if length + 1 == |t| then Some(FieldsNeedMore)
      else if t[length + 1] == LF then Some(Fields([header], length + 2))
      else Some(BadFields(BAD_REQUEST))
  }

  /** The field lines and the empty line after them, at most `room` fields. */
  function ParseFields(t: seq<byte>, room: nat): (r: FieldsResult)
    ensures r.Fields? ==> 0 < r.consumed <= |t|
    ensures r.BadFields? ==> r.error != 0
    decreases room
  {
    if room == 0 then BadFields(HEADER_FIELDS_TOO_LARGE)
    else
      match Stop(t)
      case Some(result) => result
      case None => PrependHeader(ParseField(t).header, ParseField(t).length, ParseFields(AfterField(t), room - 1))
  }

  /** What follows a field line. */
  function AfterField(t: seq<byte>): (r: seq<byte>)
    requires Stop(t).None?
    ensures |r| == |t| - ParseField(t).length
  {
    t[ParseField(t).length..]
  }

  function ParseHead(d: seq<byte>): (r: HeadResult)
    ensures r.Head? ==> 0 < r.consumed <= |d|
    ensures r.Rejected? ==> r.error != 0
  {
    match ParseRequestLine(d)
    case NeedMore => Incomplete
    case BadLine => Rejected(VERSION_NOT_SUPPORTED)
    case RequestLine(verb, target, consumed) =>
      match ParseFields(d[consumed..], MAX_FIELDS)
      case FieldsNeedMore => Incomplete
      case BadFields(error) => Rejected(error)
      case Fields(headers, length) => Head(Request(verb, target, headers), consumed + length)
  }

  // ---------------------------------------------------------------- heads can be cut

  lemma SpanPrefix(t: seq<byte>, kind: OctetClass, k: nat)
    requires k <= |t|
    ensures Span(t[..k], kind) == Min(k, Span(t, kind))
  {
    SpanIs(t[..k], kind, Min(k, Span(t, kind)));
  }

  lemma SpanExtend(t: seq<byte>, x: seq<byte>, kind: OctetClass)
    requires Span(t, kind) < |t|
    ensures Span(t + x, kind) == Span(t, kind)
  {
    SpanIs(t + x, kind, Span(t, kind));
  }

  lemma LinePrefix(d: seq<byte>, k: nat)
    requires ParseRequestLine(d).RequestLine? && k <= |d|
    ensures ParseRequestLine(d[..k]) == if k <= ParseRequestLine(d).consumed then NeedMore else ParseRequestLine(d)
  {
    hide SpanFrom, Span, ParseRequestLine, VersionAt;
    var p := d[..k];
    var i := Span(d, VerbOctet);
    LineShape(d);
    SpanPrefix(d, VerbOctet, k);
    if i + 1 < k {
      var j := i + 1 + Span(d[i + 1..], TargetOctet);
      assert p[i + 1..] == d[i + 1..][..k - i - 1];
      SpanPrefix(d[i + 1..], TargetOctet, k - i - 1);
      var m := Min(j, k);
      assert p[m..] == d[j..][..k - m] && p[..i] == d[..i] && p[i + 1..m] == d[i + 1..m];
      VersionOf(p, i, m);
      VersionPrefix(d[j..], k - m);
    } else if i + 1 == k {
      ShortLine(p, i);
    } else {
      OtherLine(p, k);
    }
  }

  /** What a request line is made of. */
  lemma LineShape(d: seq<byte>)
    requires ParseRequestLine(d).RequestLine?
    ensures var i := Span(d, VerbOctet);
            && i + 1 < |d| && d[i] == SP && d[i + 1] == SLASH
            && var j := i + 1 + Span(d[i + 1..], TargetOctet);
               && j + 11 < |d| && VersionAt(d[j..]) == Right
               && ParseRequestLine(d) == RequestLine(d[..i], d[i + 1..j], j + 11)
  {
    hide Span;
    var i := Span(d, VerbOctet);
    var j := i + 1 + Span(d[i + 1..], TargetOctet);
    assert d[j..][..11] == d[j..j + 11];
  }

  /** A line end in place of the version is refused if the read ends soon behind it, and waited on otherwise: what
    * becomes of a malformed request depends on the cuts. */
  lemma RefusalIsCut(x: seq<byte>)
    requires |x| >= 11
    ensures var line: seq<byte> := [71, 69, 84, SP, SLASH, CR];
            ParseRequestLine(line) == BadLine && ParseRequestLine(line + x) == NeedMore
  {
    hide ParseRequestLine, Span;
    var line: seq<byte> := [71, 69, 84, SP, SLASH, CR];
    SpanIs(line, VerbOctet, 3);
    SpanIs(line[4..], TargetOctet, 1);
    VersionOf(line, 3, 5);
    assert line[5..] == [CR] && VERSION[..1] == [SP];
    var longer := line + x;
    SpanIs(longer, VerbOctet, 3);
    SpanIs(longer[4..], TargetOctet, 1);
    VersionOf(longer, 3, 5);
    assert longer[5..][0] == CR && longer[5..][..11][0] == CR;
  }

  lemma VersionPrefix(tail: seq<byte>, k: nat)
    requires VersionAt(tail) == Right && k <= |tail|
    ensures VersionAt(tail[..k]) == if k <= 11 then Missing else Right
  {
    if k <= 11 {
      assert tail[..k] == VERSION[..k];
    } else {
      assert tail[..k][..11] == tail[..11];
    }
  }

  lemma RightVersionExtend(tail: seq<byte>, x: seq<byte>)
    requires VersionAt(tail) == Right
    ensures VersionAt(tail + x) == Right
  {
    assert (tail + x)[..11] == tail[..11];
  }

  lemma LineExtend(d: seq<byte>, x: seq<byte>)
    requires ParseRequestLine(d).RequestLine?
    ensures ParseRequestLine(d + x) == ParseRequestLine(d)
  {
    hide SpanFrom, Span, ParseRequestLine, VersionAt;
    LineShape(d);
    var e := d + x;
    var i := Span(d, VerbOctet);
    SpanExtend(d, x, VerbOctet);
    assert e[i + 1..] == d[i + 1..] + x;
    SpanExtend(d[i + 1..], x, TargetOctet);
    var j := i + 1 + Span(d[i + 1..], TargetOctet);
    assert e[j..] == d[j..] + x && e[..i] == d[..i] && e[i + 1..j] == d[i + 1..j];
    RightVersionExtend(d[j..], x);
    VersionOf(e, i, j);
  }

  lemma FieldPrefix(t: seq<byte>, k: nat)
    requires ParseField(t).Field? && k <= |t|
    ensures ParseField(t[..k]) == if k < ParseField(t).length then FieldNeedsMore else ParseField(t)
  {
    hide Span;
    var p := t[..k];
    var q := Span(t, NameOctet);
    SpanPrefix(t, NameOctet, k);
    if q < k {
      var v := t[q + 1..];
      assert p[q + 1..] == v[..k - q - 1] && p[..q] == t[..q];
      SpanPrefix(v, ValueOctet, k - q - 1);
      var e := Span(v, ValueOctet);
      if e < k - q - 1 {
        assert v[..k - q - 1][..e] == v[..e];
      }
    }
  }

  lemma FieldExtend(t: seq<byte>, x: seq<byte>)
    requires ParseField(t).Field?
    ensures ParseField(t + x) == ParseField(t)
  {
    hide Span;
    var u := t + x;
    var q := Span(t, NameOctet);
    SpanExtend(t, x, NameOctet);
    var v := t[q + 1..];
    assert u[q + 1..] == v + x && u[..q] == t[..q];
    SpanExtend(v, x, ValueOctet);
    var e := Span(v, ValueOctet);
    assert (v + x)[..e] == v[..e];
  }

  /** The octets a field line and the end of the section behind it are decided by. */
  function Reach(t: seq<byte>): nat
    requires Stop(t).None? || Stop(t).value.Fields?
  {
    match Stop(t)
    case None => ParseField(t).length + 1
    case Some(result) => result.consumed
  }

  lemma StopPrefix(t: seq<byte>, k: nat)
    requires (Stop(t).None? || Stop(t).value.Fields?) && k <= |t|
    ensures k < Reach(t) ==> Stop(t[..k]) == Some(FieldsNeedMore)
    ensures k >= Reach(t) ==> Stop(t[..k]) == Stop(t) && ParseField(t[..k]) == ParseField(t)
    ensures k >= Reach(t) && Stop(t).None? ==> AfterField(t[..k]) == AfterField(t)[..k - ParseField(t).length]
  {
    hide ParseField;
    FieldPrefix(t, k);
    if k >= Reach(t) && Stop(t).None? {
      TakeDrop(t, k, ParseField(t).length);
    }
  }

  lemma StopExtend(t: seq<byte>, x: seq<byte>)
    requires Stop(t).None? || Stop(t).value.Fields?
    ensures Stop(t + x) == Stop(t) && ParseField(t + x) == ParseField(t)
    ensures Stop(t).None? ==> AfterField(t + x) == AfterField(t) + x
  {
    hide ParseField;
    FieldExtend(t, x);
  }

  lemma {:induction false} FieldsPrefix(t: seq<byte>, room: nat, k: nat)
    requires ParseFields(t, room).Fields? && k < ParseFields(t, room).consumed
    ensures ParseFields(t[..k], room) == FieldsNeedMore
    decreases room
  {
    hide Stop, ParseField, AfterField;
    StopPrefix(t, k);
    if Stop(t).None? && k >= Reach(t) {
      FieldsPrefix(AfterField(t), room - 1, k - ParseField(t).length);
    }
  }

  lemma {:induction false} FieldsExtend(t: seq<byte>, x: seq<byte>, room: nat)
    requires ParseFields(t, room).Fields?
    ensures ParseFields(t + x, room) == ParseFields(t, room)
    decreases room
  {
    hide Stop, ParseField, AfterField;
    StopExtend(t, x);
    if Stop(t).None? {
      FieldsExtend(AfterField(t), x, room - 1);
    }
  }

  lemma {:induction false} FieldsShrink(t: seq<byte>, room: nat, k: nat)
    requires ParseFields(t, room).Fields? && ParseFields(t, room).consumed <= k <= |t|
    ensures ParseFields(t[..k], room) == ParseFields(t, room)
    decreases room
  {
    hide Stop, ParseField, AfterField;
    StopPrefix(t, k);
    if Stop(t).None? {
      FieldsShrink(AfterField(t), room - 1, k - ParseField(t).length);
    }
  }

  lemma HeadPrefix(d: seq<byte>, k: nat)
    requires ParseHead(d).Head? && k < ParseHead(d).consumed
    ensures ParseHead(d[..k]) == Incomplete
  {
    hide ParseRequestLine, ParseFields;
    var c := ParseRequestLine(d).consumed;
    LinePrefix(d, k);
    if k > c {
      assert d[..k][c..] == d[c..][..k - c];
      FieldsPrefix(d[c..], MAX_FIELDS, k - c);
    }
  }

  lemma HeadExtend(d: seq<byte>, x: seq<byte>)
    requires ParseHead(d).Head?
    ensures ParseHead(d + x) == ParseHead(d)
  {
    hide ParseRequestLine, ParseFields;
    var c := ParseRequestLine(d).consumed;
    LineExtend(d, x);
    assert (d + x)[c..] == d[c..] + x;
    FieldsExtend(d[c..], x, MAX_FIELDS);
  }

  /** The octets behind a head play no part in it. */
  lemma HeadShrink(d: seq<byte>, k: nat)
    requires ParseHead(d).Head? && ParseHead(d).consumed <= k <= |d|
    ensures ParseHead(d[..k]) == ParseHead(d)
  {
    hide ParseRequestLine, ParseFields;
    var c := ParseRequestLine(d).consumed;
    LinePrefix(d, k);
    assert d[..k][c..] == d[c..][..k - c];
    FieldsShrink(d[c..], MAX_FIELDS, k - c);
  }

  /** A head that parses does not parse, and is not refused, any octet short; more octets behind it change nothing. */
  lemma HeadCut(d: seq<byte>)
    requires ParseHead(d).Head?
    ensures forall k: nat | k < ParseHead(d).consumed :: ParseHead(d[..k]) == Incomplete
    ensures forall x: seq<byte> :: ParseHead(d + x) == ParseHead(d)
  {
    hide ParseHead;
    forall k: nat | k < ParseHead(d).consumed
      ensures ParseHead(d[..k]) == Incomplete
    {
      HeadPrefix(d, k);
    }
    forall x: seq<byte>
      ensures ParseHead(d + x) == ParseHead(d)
    {
      HeadExtend(d, x);
    }
  }

  // ---------------------------------------------------------------- refusals that depend on the cut

  /** A CR stands where the version should, with at least eleven octets behind it. */
  predicate CrForVersion(d: seq<byte>)
  {
    var i := Span(d, VerbOctet);
    && i + 1 < |d| && d[i] == SP && d[i + 1] == SLASH
    && var j := i + 1 + Span(d[i + 1..], TargetOctet);
       j + 11 < |d| && d[j] == CR
  }

  /** What the request line of `d` is made of behind its verb, seen on a part of it. */
  lemma TargetPrefix(d: seq<byte>, k: nat)
    requires k <= |d| && Span(d, VerbOctet) + 1 < k
    ensures var i := Span(d, VerbOctet);
            && Span(d[..k], VerbOctet) == i
            && i + 1 + Span(d[..k][i + 1..], TargetOctet) == Min(k, i + 1 + Span(d[i + 1..], TargetOctet))
  {
    hide SpanFrom, Span;
    var i := Span(d, VerbOctet);
    SpanPrefix(d, VerbOctet, k);
    assert d[..k][i + 1..] == d[i + 1..][..k - i - 1];
    SpanPrefix(d[i + 1..], TargetOctet, k - i - 1);
  }

  /** A refused line is refused with more behind it, unless it has a CR for its version and enough has come. */
  lemma BadLineExtend(d: seq<byte>, k: nat)
    requires k <= |d| && ParseRequestLine(d[..k]) == BadLine && !CrForVersion(d)
    ensures ParseRequestLine(d) == BadLine
  {
    hide SpanFrom, Span, ParseRequestLine, VersionAt;
    var p := d[..k];
    var i := Span(d, VerbOctet);
    SpanPrefix(d, VerbOctet, k);
    if i + 1 < k {
      if d[i] == SP && d[i + 1] == SLASH {
        TargetPrefix(d, k);
        var j := i + 1 + Span(d[i + 1..], TargetOctet);
        var m := Min(j, k);
        VersionOf(p, i, m);
        VersionOf(d, i, j);
        assert p[m..] == d[m..k];
        if m == j { assert p[j..] == d[j..][..k - j]; }
        WrongVersionExtend(p[m..], d[j..]);
      } else {
        OtherLine(p, i);
        OtherLine(d, i);
      }
    } else if i + 1 == k {
      ShortLine(p, i);
    } else {
      OtherLine(p, k);
    }
  }

  lemma WrongVersionExtend(p: seq<byte>, tail: seq<byte>)
    requires VersionAt(p) == Wrong && |p| <= |tail| && p == tail[..|p|] && (|tail| > 11 ==> tail[0] != CR)
    ensures VersionAt(tail) == Wrong
  {
    if |p| <= 11 {
      var x: nat :| x < |p| && p[x] != VERSION[..|p|][x];
      assert tail[x] != VERSION[x];
      assert |tail| > 11 ==> tail[..11][x] != VERSION[x];
    } else {
      assert p[..11] == tail[..11];
    }
  }

  /** Such a line is refused if the read ends behind the CR, and waited on if all of it is at hand. */
  lemma CrIsCut(d: seq<byte>)
    requires CrForVersion(d)
    ensures exists k: nat | k <= |d| :: ParseRequestLine(d[..k]) == BadLine
    ensures ParseRequestLine(d) == NeedMore
  {
    hide SpanFrom, Span, ParseRequestLine;
    var i := Span(d, VerbOctet);
    var j := i + 1 + Span(d[i + 1..], TargetOctet);
    TargetPrefix(d, j + 1);
    VersionOf(d[..j + 1], i, j);
    VersionOf(d, i, j);
    assert d[..j + 1][j..] == [CR] && VERSION[..1] == [SP];
    assert d[j..][0] == CR && d[j..][..11][0] == CR;
    assert ParseRequestLine(d[..j + 1]) == BadLine;
  }

  /** Whether a read that ends early gets a request line refused that would not be refused at hand: exactly if it has
    * a CR for its version, and eleven octets behind that. */
  lemma LineRefusalIsCutIff(d: seq<byte>)
    ensures (exists k: nat | k <= |d| :: ParseRequestLine(d[..k]) == BadLine) && ParseRequestLine(d) != BadLine
            <==> CrForVersion(d)
  {
    hide ParseRequestLine, CrForVersion;
    if CrForVersion(d) {
      CrIsCut(d);
    } else if k: nat :| k <= |d| && ParseRequestLine(d[..k]) == BadLine {
      BadLineExtend(d, k);
    }
  }

  lemma BadFieldExtend(t: seq<byte>, x: seq<byte>)
    requires ParseField(t) == BadField
    ensures ParseField(t + x) == BadField
  {
    hide SpanFrom, Span;
    var q := Span(t, NameOctet);
    SpanExtend(t, x, NameOctet);
    if t[q] == COLON {
      var v := t[q + 1..];
      assert (t + x)[q + 1..] == v + x;
      SpanExtend(v, x, ValueOctet);
    }
  }

  lemma BadStopExtend(t: seq<byte>, x: seq<byte>)
    requires Stop(t).Some? && Stop(t).value.BadFields?
    ensures Stop(t + x) == Stop(t)
  {
    hide ParseField;
    if ParseField(t).Field? {
      FieldExtend(t, x);
    } else {
      BadFieldExtend(t, x);
    }
  }

  lemma {:induction false} BadFieldsExtend(t: seq<byte>, x: seq<byte>, room: nat)
    requires ParseFields(t, room).BadFields?
    ensures ParseFields(t + x, room) == ParseFields(t, room)
    decreases room
  {
    hide Stop, ParseField, AfterField;
    if room > 0 {
      if Stop(t).Some? {
        BadStopExtend(t, x);
      } else {
        StopExtend(t, x);
        BadFieldsExtend(AfterField(t), x, room - 1);
      }
    }
  }

  /** A refused head stays refused, with the same error, whatever follows it, unless it has a CR for its version. */
  lemma RefusalExtend(d: seq<byte>, x: seq<byte>)
    requires ParseHead(d).Rejected? && !CrForVersion(d + x)
    ensures ParseHead(d + x) == ParseHead(d)
  {
    hide ParseRequestLine, ParseFields, CrForVersion;
    if ParseRequestLine(d) == BadLine {
      assert (d + x)[..|d|] == d;
      BadLineExtend(d + x, |d|);
    } else {
      var c := ParseRequestLine(d).consumed;
      LineExtend(d, x);
      assert (d + x)[c..] == d[c..] + x;
      BadFieldsExtend(d[c..], x, MAX_FIELDS);
    }
  }

  /** The same of a whole head: nothing else in it can be refused for where a read ends. */
  lemma RefusalIsCutIff(d: seq<byte>)
    ensures (exists k: nat | k <= |d| :: ParseHead(d[..k]).Rejected?) && !ParseHead(d).Rejected? <==> CrForVersion(d)
  {
    hide ParseRequestLine, ParseFields, CrForVersion;
    if CrForVersion(d) {
      CrIsCut(d);
      var k: nat :| k <= |d| && ParseRequestLine(d[..k]) == BadLine;
      assert ParseHead(d[..k]).Rejected?;
    } else if k: nat :| k <= |d| && ParseHead(d[..k]).Rejected? {
      assert d[..k] + d[k..] == d;
      RefusalExtend(d[..k], d[k..]);
    }
  }

  /** The condition is not met by one octet more, as what is short of it by one is refused. */
  lemma CrForVersionComes(d: seq<byte>, c: byte)
    requires ParseHead(d) == Incomplete && CrForVersion(d + [c])
    ensures CrForVersion(d)
  {
    hide SpanFrom, Span, ParseRequestLine, VersionAt;
    var e := d + [c];
    assert e[..|d|] == d;
    var i := Span(e, VerbOctet);
    var j := i + 1 + Span(e[i + 1..], TargetOctet);
    TargetPrefix(e, |d|);
    assert d[i] == e[i] && d[i + 1] == e[i + 1] && d[j] == CR;
    if |d| == j + 11 {
      CrIsNoVersion(d[j..]);
      VersionOf(d, i, j);
    }
  }

  lemma CrIsNoVersion(tail: seq<byte>)
    requires 0 < |tail| <= 11 && tail[0] == CR
    ensures VersionAt(tail) == Wrong
  {
    assert VERSION[..|tail|][0] == SP;
  }

  /** The condition is kept by what follows. */
  lemma CrForVersionExtend(d: seq<byte>, x: seq<byte>)
    requires CrForVersion(d)
    ensures CrForVersion(d + x)
  {
    hide SpanFrom, Span;
    var i := Span(d, VerbOctet);
    SpanExtend(d, x, VerbOctet);
    assert (d + x)[i + 1..] == d[i + 1..] + x;
    SpanExtend(d[i + 1..], x, TargetOctet);
  }

  // ---------------------------------------------------------------- lower-casing in place

  /** The octets of `t` once the parser has lower-cased the field names it read. */
  function LowerFields(t: seq<byte>, room: nat): (r: seq<byte>)
    ensures |r| == |t|
    decreases room
  {
    if room == 0 then t
    else if Stop(t).Some? then LowerName(t)
    else FieldLine(t) + LowerFields(AfterField(t), room - 1)
  }

  /** A field line with its name lower-cased. */
  function FieldLine(t: seq<byte>): (r: seq<byte>)
    requires Stop(t).None?
    ensures |r| == ParseField(t).length
  {
    LowerName(t[..ParseField(t).length])
  }

  /** `t` with the field name at its start lower-cased. */
  function LowerName(t: seq<byte>): (r: seq<byte>)
    ensures |r| == |t|
  {
    var q := Span(t, NameOctet);
    Lower(t[..q]) + t[q..]
  }

  function LowerNames(d: seq<byte>): (r: seq<byte>)
    ensures |r| == |d|
  {
    var line := ParseRequestLine(d);
    if line.RequestLine? then d[..line.consumed] + LowerFields(d[line.consumed..], MAX_FIELDS) else d
  }

  lemma {:induction false} LowerFieldsBehind(t: seq<byte>, room: nat)
    requires ParseFields(t, room).Fields?
    ensures LowerFields(t, room)[ParseFields(t, room).consumed..] == t[ParseFields(t, room).consumed..]
    decreases room
  {
    hide Stop, ParseField, FieldLine;
    if Stop(t).Some? {
      StopBehind(t);
    } else {
      LowerFieldsBehind(AfterField(t), room - 1);
      JoinedBehind(FieldLine(t), LowerFields(AfterField(t), room - 1), t, ParseField(t).length,
        ParseFields(AfterField(t), room - 1).consumed);
    }
  }

  lemma StopBehind(t: seq<byte>)
    requires Stop(t).Some? && Stop(t).value.Fields?
    ensures LowerName(t)[Stop(t).value.consumed..] == t[Stop(t).value.consumed..]
  {
    hide ParseField, LowerName;
    LowerNameBehind(t);
    SameBehind(LowerName(t), t, ParseField(t).length, 2);
  }

  lemma SameBehind(x: seq<byte>, y: seq<byte>, n: nat, k: nat)
    requires n + k <= |x| == |y| && x[n..] == y[n..]
    ensures x[n + k..] == y[n + k..]
  {
    DropDrop(x, n, k);
    DropDrop(y, n, k);
  }

  lemma JoinedBehind(front: seq<byte>, back: seq<byte>, y: seq<byte>, n: nat, k: nat)
    requires |front| == n && n + k <= |y| == n + |back| && back[k..] == y[n..][k..]
    ensures (front + back)[n + k..] == y[n + k..]
  {
    DropDrop(y, n, k);
    DropConcat(front, back, k);
  }

  lemma LowerNameBehind(t: seq<byte>)
    requires ParseField(t).Field?
    ensures LowerName(t)[ParseField(t).length..] == t[ParseField(t).length..]
  {
    hide SpanFrom;
  }

  /** Nothing behind a head is touched when its names are lower-cased. */
  lemma LowerNamesBehind(d: seq<byte>)
    requires ParseHead(d).Head?
    ensures LowerNames(d)[ParseHead(d).consumed..] == d[ParseHead(d).consumed..]
  {
    hide ParseRequestLine, ParseFields, LowerFields;
    var c := ParseRequestLine(d).consumed;
    var n := ParseHead(d).consumed;
    LowerFieldsBehind(d[c..], MAX_FIELDS);
    assert d[n..] == d[c..][n - c..];
    assert LowerNames(d)[n..] == LowerFields(d[c..], MAX_FIELDS)[n - c..];
  }

  lemma LowerIdempotent(s: seq<byte>, x: seq<byte>)
    ensures Lower(Lower(s) + x) == Lower(s + x)
  {
  }

  lemma SameField(x: seq<byte>, y: seq<byte>, n: nat)
    requires |x| == |y| && n == Span(x, NameOctet) == Span(y, NameOctet)
    requires x[n..] == y[n..] && Lower(x[..n]) == Lower(y[..n])
    ensures ParseField(x) == ParseField(y)
  {
    hide Span, Lower;
    if n < |x| {
      assert x[n] == x[n..][0] && y[n] == y[n..][0];
      DropDrop(x, n, 1);
      DropDrop(y, n, 1);
    }
  }

  /** Lower-casing a field name, or the part of it at hand, is not seen by the parser. */
  lemma NameCase(t: seq<byte>, y: seq<byte>)
    ensures ParseField(LowerName(t) + y) == ParseField(t + y)
  {
    hide SpanFrom, ParseField;
    var q := Span(t, NameOctet);
    var u, z := t[..q], t[q..] + y;
    assert t + y == u + z;
    Assoc3(Lower(u), t[q..], y);
    NameCaseAt(u, z);
  }

  lemma NameCaseAt(u: seq<byte>, z: seq<byte>)
    requires All(u, NameOctet)
    ensures ParseField(Lower(u) + z) == ParseField(u + z)
  {
    hide SpanFrom, ParseField, Span;
    var n := |u| + Span(z, NameOctet);
    SpanIs(u + z, NameOctet, n);
    SpanIs(Lower(u) + z, NameOctet, n);
    DropConcat(u, z, n - |u|);
    DropConcat(Lower(u), z, n - |u|);
    assert (u + z)[..n] == u + z[..n - |u|] && (Lower(u) + z)[..n] == Lower(u) + z[..n - |u|];
    LowerIdempotent(u, z[..n - |u|]);
    SameField(Lower(u) + z, u + z, n);
  }

  lemma StopsNotAtCr(t: seq<byte>)
    requires Stop(t).None?
    ensures AfterField(t) != [] && AfterField(t)[0] != CR
  {
    hide ParseField;
  }

  lemma {:induction false} LowerFieldsUnseen(t: seq<byte>, x: seq<byte>, room: nat)
    ensures ParseFields(LowerFields(t, room) + x, room) == ParseFields(t + x, room)
    decreases room
  {
    hide Stop, ParseField, AfterField, FieldLine;
    if room > 0 {
      if Stop(t).Some? {
        StopUnseen(t, x);
      } else {
        var rest' := LowerFields(AfterField(t), room - 1);
        LowerFieldsUnseen(AfterField(t), x, room - 1);
        StopsNotAtCr(t);
        LowerFieldsFirst(AfterField(t), room - 1);
        FieldLineUnseen(t, rest', x);
        StopExtend(t, x);
      }
    }
  }

  /** A lower-cased field line followed by anything that does not begin with CR is read as the field line it was. */
  lemma FieldLineUnseen(t: seq<byte>, rest: seq<byte>, x: seq<byte>)
    requires Stop(t).None? && rest != [] && rest[0] != CR
    ensures ParseField(FieldLine(t) + rest + x) == ParseField(t) && Stop(FieldLine(t) + rest + x) == None
    ensures AfterField(FieldLine(t) + rest + x) == rest + x
  {
    hide ParseField, LowerName;
    var n := ParseField(t).length;
    var line := t[..n];
    FieldPrefix(t, n);
    FieldExtend(line, rest + x);
    NameCase(line, rest + x);
    Assoc3(LowerName(line), rest, x);
    var u := LowerName(line) + (rest + x);
    assert u[n] == rest[0] && u[n..] == rest + x;
  }

  /** Octets behind the name are not touched, so the section goes on or ends as before. */
  lemma StopUnseen(t: seq<byte>, x: seq<byte>)
    ensures ParseField(LowerName(t) + x) == ParseField(t + x)
    ensures Stop(LowerName(t) + x) == Stop(t + x)
    ensures Stop(t + x).None? ==> AfterField(LowerName(t) + x) == AfterField(t + x)
  {
    hide ParseField, LowerName;
    NameCase(t, x);
    if ParseField(t + x).Field? {
      AfterFieldUnseen(t, x);
      SameFrom(LowerName(t) + x, t + x, ParseField(t + x).length);
    }
  }

  lemma SameFrom(x: seq<byte>, y: seq<byte>, n: nat)
    requires n <= |x| == |y| && x[n..] == y[n..]
    ensures forall k | n <= k < |x| :: x[k] == y[k]
  {
    assert forall k | n <= k < |x| :: x[k] == x[n..][k - n] && y[k] == y[n..][k - n];
  }

  lemma AfterFieldUnseen(t: seq<byte>, x: seq<byte>)
    requires ParseField(t + x).Field?
    ensures (LowerName(t) + x)[ParseField(t + x).length..] == (t + x)[ParseField(t + x).length..]
  {
    hide SpanFrom;
    var q := Span(t, NameOctet);
    var n := ParseField(t + x).length;
    assert q <= Span(t + x, NameOctet) < n;
    assert LowerName(t)[q..] == t[q..];
    assert forall k | n <= k < |t + x| :: (LowerName(t) + x)[k] == (t + x)[k];
  }

  lemma LowerFieldsFirst(t: seq<byte>, room: nat)
    requires t != [] && t[0] != CR
    ensures LowerFields(t, room) != [] && LowerFields(t, room)[0] != CR
  {
    if room > 0 {
      LowerNameFirst(t);
      if Stop(t).None? {
        assert t[..ParseField(t).length][0] == t[0];
        LowerNameFirst(t[..ParseField(t).length]);
        assert LowerFields(t, room)[0] == FieldLine(t)[0];
      }
    }
  }

  lemma LowerNameFirst(t: seq<byte>)
    requires t != [] && t[0] != CR
    ensures LowerName(t)[0] != CR
  {
  }

  /** The parser lower-cases names in the buffer it reads; what it makes of that buffer later is unchanged. */
  lemma LowerNamesUnseen(d: seq<byte>, x: seq<byte>)
    ensures ParseHead(LowerNames(d) + x) == ParseHead(d + x)
  {
    hide ParseRequestLine, ParseFields, ParseHead, LowerFields, Span;
    var line := ParseRequestLine(d);
    if line.RequestLine? {
      LineShape(d);
      var c := line.consumed;
      var low := LowerFields(d[c..], MAX_FIELDS);
      assert LowerNames(d) == d[..c] + low;
      HeadOf(d, d[c..], x);
      assert d == d[..c] + d[c..];
      HeadOf(d, low, x);
      LowerFieldsUnseen(d[c..], x, MAX_FIELDS);
    }
  }

  /** A head is its request line and what `ParseFields` makes of the rest. */
  lemma HeadOf(d: seq<byte>, fields: seq<byte>, x: seq<byte>)
    requires ParseRequestLine(d).RequestLine? && |fields| == |d| - ParseRequestLine(d).consumed
    ensures var line := ParseRequestLine(d);
            ParseHead(d[..line.consumed] + fields + x) ==
            match ParseFields(fields + x, MAX_FIELDS)
            case FieldsNeedMore => Incomplete
            case BadFields(error) => Rejected(error)
            case Fields(headers, length) => Head(Request(line.verb, line.target, headers), line.consumed + length)
  {
    hide ParseRequestLine, ParseFields;
    var c := ParseRequestLine(d).consumed;
    var l := d[..c] + fields;
    assert l[..c] == d[..c];
    SameRequestLine(d, l);
    LineExtend(l, x);
    assert (l + x)[c..] == fields + x;
  }

  /** The request line is read from its own octets. */
  lemma SameRequestLine(d: seq<byte>, l: seq<byte>)
    requires ParseRequestLine(d).RequestLine? && |l| == |d|
    requires l[..ParseRequestLine(d).consumed] == d[..ParseRequestLine(d).consumed]
    ensures ParseRequestLine(l) == ParseRequestLine(d)
  {
    hide ParseRequestLine, Span;
    LineShape(d);
    var c := ParseRequestLine(d).consumed;
    var p := d[..c + 1];
    LinePrefix(d, c + 1);
    var q := l[..c + 1];
    LineOfOwnOctets(p, q);
    LineExtend(q, l[c + 1..]);
    assert q + l[c + 1..] == l;
  }

  lemma LineOfOwnOctets(p: seq<byte>, q: seq<byte>)
    requires ParseRequestLine(p).RequestLine? && |p| == |q| == ParseRequestLine(p).consumed + 1
    requires forall k | 0 <= k < |p| - 1 :: p[k] == q[k]
    ensures ParseRequestLine(q) == ParseRequestLine(p)
  {
    hide Span;
    var i := Span(p, VerbOctet);
    var j := i + 1 + Span(p[i + 1..], TargetOctet);
    SpanIs(q, VerbOctet, i);
    SpanIs(q[i + 1..], TargetOctet, j - i - 1);
    assert p[j..j + 11] == q[j..j + 11] && p[..i] == q[..i] && p[i + 1..j] == q[i + 1..j];
  }

  // ---------------------------------------------------------------- the parser on its buffer

  /** The two octets put behind the data: a CR that ends every scan, and an octet that is not LF. */
  predicate Fenced(buf: array<byte>, end: nat)
    reads buf
  {
    end + 2 <= buf.Length && buf[end] == CR && buf[end + 1] == 97
  }

  /** Skips octets of one class; the fence stops it. */
  method Scan(buf: array<byte>, p: nat, end: nat, kind: OctetClass) returns (q: nat)
    requires p <= end && Fenced(buf, end) && !kind.NameOctet?
    ensures q == p + Span(buf[p..end], kind)
  {
    q := p;
    while kind.Has(buf[q])
      invariant p <= q <= end
      invariant forall k | p <= k < q :: kind.Has(buf[k])
      decreases end - q
    {
      q := q + 1;
    }
    assert forall k | 0 <= k < q - p :: buf[p..end][k] == buf[p + k];
    SpanIs(buf[p..end], kind, q - p);
  }

  method ConsumeRequestLine(buf: array<byte>, start: nat, end: nat) returns (r: LineResult)
    requires start <= end && Fenced(buf, end)
    ensures r == ParseRequestLine(buf[start..end])
  {
    hide SpanFrom, Span, ParseRequestLine;
    ghost var d := buf[start..end];
    var i := Scan(buf, start, end, VerbOctet);
    assert i < end ==> buf[i] == d[i - start];
    assert i + 1 < end ==> buf[i + 1] == d[i - start + 1];
    if i + 1 == end {
      ShortLine(d, i - start);
      return NeedMore;
    }
    if buf[i] == SP && buf[i + 1] == SLASH {
      r := ConsumeTarget(buf, start, i, end);
      return;
    }
    OtherLine(d, i - start);
    return if buf[i] == CR then NeedMore else BadLine;
  }

  /** The target, from its slash at `i + 1`, and the version. */
  method ConsumeTarget(buf: array<byte>, start: nat, i: nat, end: nat) returns (r: LineResult)
    requires start <= i && i + 1 < end && Fenced(buf, end) && buf[i] == SP && buf[i + 1] == SLASH
    requires i - start == Span(buf[start..end], VerbOctet)
    ensures r == ParseRequestLine(buf[start..end])
  {
    hide SpanFrom, Span, ParseRequestLine, VersionAt;
    ghost var w := buf[..];
    var j := Scan(buf, i + 1, end, TargetOctet);
    var v := Version(buf, j, end);
    TargetOf(w, start, i, j, end);
    match v {
      case Missing => r := NeedMore;
      case Wrong => r := BadLine;
      case Right => r := RequestLine(buf[start..i], buf[i + 1..j], j + 11 - start);
    }
  }

  lemma TargetOf(w: seq<byte>, start: nat, i: nat, j: nat, end: nat)
    requires start <= i && i + 1 < end <= |w| && i + 1 <= j <= end && w[i] == SP && w[i + 1] == SLASH
    requires i - start == Span(w[start..end], VerbOctet) && j == i + 1 + Span(w[i + 1..end], TargetOctet)
    ensures ParseRequestLine(w[start..end]) ==
            match VersionAt(w[j..end])
            case Missing => NeedMore
            case Wrong => BadLine
            case Right => RequestLine(w[start..i], w[i + 1..j], j + 11 - start)
  {
    hide Span, ParseRequestLine, VersionAt;
    SubSlice(w, start, end, i + 1, end);
    SubSlice(w, start, end, start, i);
    SubSlice(w, start, end, i + 1, j);
    SubSlice(w, start, end, j, end);
    var d := w[start..end];
    assert d[i - start] == SP && d[i + 1 - start] == SLASH;
    VersionOf(d, i - start, j - start);
  }

  lemma OtherLine(d: seq<byte>, i: nat)
    requires i == Span(d, VerbOctet) && i + 1 != |d|
    requires i < |d| ==> !(d[i] == SP && d[i + 1] == SLASH)
    ensures ParseRequestLine(d) == if i == |d| || d[i] == CR then NeedMore else BadLine
  {
    hide Span;
  }

  lemma ShortLine(d: seq<byte>, i: nat)
    requires i == Span(d, VerbOctet) && i + 1 == |d|
    ensures ParseRequestLine(d) == NeedMore
  {
    hide Span;
  }

  datatype VersionResult = Missing | Wrong | Right

  function VersionAt(tail: seq<byte>): VersionResult
  {
    if |tail| <= 11 then (if tail == VERSION[..|tail|] then Missing else Wrong)
    else if tail[..11] == VERSION then Right
    else if tail[0] == CR then Missing
    else Wrong
  }

  lemma VersionOf(d: seq<byte>, i: nat, j: nat)
    requires i == Span(d, VerbOctet) && i + 1 < |d| && d[i] == SP && d[i + 1] == SLASH
    requires j == i + 1 + Span(d[i + 1..], TargetOctet)
    ensures ParseRequestLine(d) ==
            match VersionAt(d[j..])
            case Missing => NeedMore
            case Wrong => BadLine
            case Right => RequestLine(d[..i], d[i + 1..j], j + 11)
  {
    hide Span;
    if j + 11 < |d| {
      assert d[j..][..11] == d[j..j + 11];
    }
  }

  /** The checks on the octets behind the request target. */
  method Version(buf: array<byte>, j: nat, end: nat) returns (v: VersionResult)
    requires j <= end && Fenced(buf, end)
    ensures v == VersionAt(buf[j..end])
  {
    if j + 11 >= end {
      return if VERSION[..Min(11, end - j)] == buf[j..end] then Missing else Wrong;
    }
    assert buf[j..end][..11] == buf[j..j + 11];
    if VERSION == buf[j..j + 11] {
      return Right;
    }
    return if buf[j] == CR then Missing else Wrong;
  }

  /** Lower-cases and skips the field name at `p`: a fast path for letters and hyphens, then every other octet. */
  method ConsumeFieldName(buf: array<byte>, p: nat, end: nat) returns (q: nat)
    requires p <= end && Fenced(buf, end)
    modifies buf
    ensures p <= q <= end && Fenced(buf, end)
    ensures q == p + Span(old(buf[p..end]), NameOctet)
    ensures buf[p..end] == LowerName(old(buf[p..end]))
    ensures buf[..p] == old(buf[..p])
  {
    ghost var t := buf[p..end];
    q := p;
    while true
      invariant Lowered(old(buf[..]), buf[..], p, q, end)
      decreases end - q
    {
      while IsUpper(buf[q])
        invariant Lowered(old(buf[..]), buf[..], p, q, end)
        decreases end - q
      {
        buf[q] := buf[q] + 32;
        q := q + 1;
      }
      while IsLower(buf[q])
        invariant Lowered(old(buf[..]), buf[..], p, q, end)
        decreases end - q
      {
        q := q + 1;
      }
      if buf[q] == COLON {
        NameIsLowered(old(buf[..]), buf[..], p, q, end);
        return;
      }
      if buf[q] == 45 {
        q := q + 1;
      } else if !IsUpper(buf[q]) {
        break;
      }
    }
    while IsNameByte(buf[q])
      invariant Lowered(old(buf[..]), buf[..], p, q, end)
      decreases end - q
    {
      if IsUpper(buf[q]) {
        buf[q] := buf[q] + 32;
      }
      q := q + 1;
    }
    NameIsLowered(old(buf[..]), buf[..], p, q, end);
  }

  /** The buffer `now` is the buffer `was` with the name octets from `p` to `q` lower-cased. */
  ghost predicate Lowered(was: seq<byte>, now: seq<byte>, p: nat, q: nat, end: nat)
  {
    && p <= q <= end && end + 2 <= |was| == |now|
    && was[end] == CR && was[end + 1] == 97
    && (forall k | p <= k < q :: IsNameByte(was[k]) && now[k] == ToLower(was[k]))
    && (forall k | 0 <= k < p || q <= k < |was| :: now[k] == was[k])
  }

  lemma NameIsLowered(was: seq<byte>, now: seq<byte>, p: nat, q: nat, end: nat)
    requires Lowered(was, now, p, q, end) && !IsNameByte(now[q])
    ensures Span(was[p..end], NameOctet) == q - p
    ensures now[p..end] == LowerName(was[p..end])
    ensures now[..p] == was[..p]
  {
    var t := was[p..end];
    assert forall k | 0 <= k < |t| :: t[k] == was[p + k];
    SpanIs(t, NameOctet, q - p);
    assert now[p..end] == Lower(t[..q - p]) + t[q - p..];
  }

  /** Trims the octets below 33 off a field value, first at its end, then at its start. */
  method TrimValue(value: seq<byte>) returns (r: seq<byte>)
    ensures r == Trim(value)
  {
    r := value;
    while r != [] && r[|r| - 1] < 33
      invariant TrimRight(r) == TrimRight(value)
      decreases |r|
    {
      r := r[..|r| - 1];
    }
    ghost var right := r;
    while r != [] && r[0] < 33
      invariant TrimLeft(r) == TrimLeft(right)
      decreases |r|
    {
      r := r[1..];
    }
  }

  /** Skips the field value at `p` up to the first octet that cannot be part of one. */
  method ConsumeFieldValue(buf: array<byte>, p: nat, end: nat) returns (e: nat)
    requires p <= end && Fenced(buf, end)
    ensures e == p + Span(buf[p..end], ValueOctet)
  {
    e := p;
    while true
      invariant p <= e <= end
      invariant forall k | p <= k < e :: IsValueByte(buf[k])
      decreases end - e
    {
      while buf[e] > 31
        invariant p <= e <= end
        invariant forall k | p <= k < e :: IsValueByte(buf[k])
        decreases end - e
      {
        e := e + 1;
      }
      if buf[e] != CR && buf[e] == HTAB {
        e := e + 1;
        continue;
      }
      break;
    }
    assert forall k | 0 <= k < e - p :: buf[p..end][k] == buf[p + k];
    SpanIs(buf[p..end], ValueOctet, e - p);
  }

  /** What lower-casing the name at the start of the data leaves of it, by the end `q` of the name. */
  lemma NameParts(w: seq<byte>, p: nat, q: nat, end: nat, t: seq<byte>)
    requires p <= q <= end <= |w| && w[p..end] == LowerName(t) && q == p + Span(t, NameOctet)
    ensures w[p..q] == Lower(t[..q - p]) && w[q..end] == t[q - p..]
    ensures q < end ==> w[q] == t[q - p] && w[q + 1..end] == t[q - p + 1..]
  {
    hide Span;
    var n := q - p;
    SubSlice(w, p, end, p, q);
    SubSlice(w, p, end, q, end);
    assert LowerName(t)[..n] == Lower(t[..n]) && LowerName(t)[n..] == t[n..];
    assert q < end ==> w[q..end][0] == t[n..][0] && w[q..end][1..] == t[n..][1..];
  }

  /** What `ParseField` makes of a complete name with its colon and the value that ends at `e`. */
  function ValueEnd(name: seq<byte>, v: seq<byte>, e: nat): FieldResult
    requires e <= |v|
  {
    if e == |v| then FieldNeedsMore
    else if v[e] != CR then BadField
    else if e + 1 == |v| || v[e + 1] != LF then FieldNeedsMore
    else Field(Header(Lower(name), Trim(v[..e])), |name| + e + 3)
  }

  /** One round of the field loop, up to the CRLF that ends the field line. */
  method ConsumeField(buf: array<byte>, p: nat, end: nat) returns (r: FieldResult)
    requires p <= end && Fenced(buf, end)
    modifies buf
    ensures Fenced(buf, end)
    ensures r == ParseField(old(buf[p..end]))
    ensures buf[p..end] == LowerName(old(buf[p..end]))
    ensures buf[..p] == old(buf[..p])
  {
    hide LowerName, Span, ParseField;
    ghost var t := buf[p..end];
    var q := ConsumeFieldName(buf, p, end);
    NameParts(buf[..], p, q, end, t);
    if buf[q] != COLON {
      NoColon(t, q - p);
      return if q == end then FieldNeedsMore else BadField;
    }
    var e := ConsumeFieldValue(buf, q + 1, end);
    FieldOfParts(t, q - p, e - q - 1);
    r := FieldEnd(buf, p, q, e, end, t[..q - p]);
  }

  lemma NoColon(t: seq<byte>, q: nat)
    requires q == Span(t, NameOctet) && (q < |t| ==> t[q] != COLON)
    ensures ParseField(t) == if q == |t| then FieldNeedsMore else BadField
  {
    hide Span;
  }

  lemma FieldOfParts(t: seq<byte>, q: nat, e: nat)
    requires q == Span(t, NameOctet) && q < |t| && t[q] == COLON && e == Span(t[q + 1..], ValueOctet)
    ensures ParseField(t) == ValueEnd(t[..q], t[q + 1..], e)
  {
    hide Span;
  }

  /** The checks on the octets behind a field value. */
  method FieldEnd(buf: array<byte>, p: nat, q: nat, e: nat, end: nat, ghost name: seq<byte>) returns (r: FieldResult)
    requires p <= q < e <= end && Fenced(buf, end) && Lower(name) == buf[p..q]
    ensures r == ValueEnd(name, buf[q + 1..end], e - q - 1)
  {
    ghost var v := buf[q + 1..end];
    assert e < end ==> buf[e] == v[e - q - 1];
    assert e + 1 < end ==> buf[e + 1] == v[e - q];
    if buf[e] != CR {
      return BadField;
    }
    if buf[e + 1] != LF {
      return FieldNeedsMore;
    }
    SubSlice(buf[..], q + 1, end, q + 1, e);
    var value := TrimValue(buf[q + 1..e]);
    return Field(Header(buf[p..q], value), e + 2 - p);
  }

  /** What the field loop has done: `headers` read from `done`, with `next` to come. */
  ghost predicate FieldsSoFar(t: seq<byte>, done: seq<byte>, next: seq<byte>, headers: seq<Header>, room: nat)
  {
    && LowerFields(t, MAX_FIELDS) == done + LowerFields(next, room)
    && ParseFields(t, MAX_FIELDS) ==
       match ParseFields(next, room)
       case Fields(more, consumed) => Fields(headers + more, |done| + consumed)
       case r => r
  }

  lemma FieldsBegin(t: seq<byte>)
    ensures FieldsSoFar(t, [], t, [], MAX_FIELDS)
  {
    hide ParseFields, LowerFields;
    var r := ParseFields(t, MAX_FIELDS);
    assert r.Fields? ==> [] + r.headers == r.headers;
  }

  lemma NextField(t: seq<byte>, done: seq<byte>, next: seq<byte>, headers: seq<Header>, room: nat)
    requires FieldsSoFar(t, done, next, headers, room) && room > 0
    requires Stop(next).None?
    ensures var n := ParseField(next).length;
            FieldsSoFar(t, done + LowerName(next)[..n], next[n..], headers + [ParseField(next).header], room - 1)
  {
    hide ParseField;
    var field := ParseField(next);
    var n := field.length;
    LowerNameOfField(next, n);
    Assoc3(done, LowerName(next[..n]), LowerFields(next[n..], room - 1));
    var r := ParseFields(next[n..], room - 1);
    if r.Fields? {
      Assoc3(headers, [field.header], r.headers);
    }
  }

  lemma LowerNameOfField(t: seq<byte>, n: nat)
    requires ParseField(t).Field? && n == ParseField(t).length
    ensures LowerName(t)[..n] == LowerName(t[..n]) && LowerName(t)[n..] == t[n..]
  {
    hide SpanFrom;
    var q := Span(t, NameOctet);
    SpanPrefix(t, NameOctet, n);
    assert t[..n][..q] == t[..q];
  }

  lemma Joined(w: seq<byte>, s: nat, p: nat, e: nat)
    requires s <= p <= e <= |w|
    ensures w[s..e] == w[s..p] + w[p..e] && w[..p][s..] == w[s..p] && w[..p][..s] == w[..s]
  {
  }

  /** One round of the field loop turned the buffer from `w` into `w'`. */
  lemma FieldRound(t: seq<byte>, w: seq<byte>, w': seq<byte>, start: nat, p: nat, end: nat, headers: seq<Header>,
                   room: nat)
    requires start <= p < end <= |w| == |w'| && room > 0
    requires FieldsSoFar(t, w[start..p], w[p..end], headers, room)
    requires w'[..p] == w[..p] && w'[p..end] == LowerName(w[p..end])
    ensures w'[..start] == w[..start]
    ensures var field := ParseField(w[p..end]);
            field.Field? ==> w'[p + field.length..end] == w[p..end][field.length..]
    ensures match Stop(w[p..end])
            case Some(result) =>
              && w'[start..end] == LowerFields(t, MAX_FIELDS)
              && ParseFields(t, MAX_FIELDS) == if result.Fields? then
                Fields(headers + result.headers, p - start + result.consumed) else result
            case None =>
              var field := ParseField(w[p..end]);
              FieldsSoFar(t, w'[start..p + field.length], w'[p + field.length..end], headers + [field.header], room - 1)
  {
    hide LowerName, ParseFields, LowerFields, ParseField;
    var done, next := w[start..p], w[p..end];
    var field := ParseField(next);
    Joined(w, start, p, end);
    Joined(w', start, p, end);
    if field.Field? {
      LowerNameOfField(next, field.length);
      SubSlice(w', p, end, p, p + field.length);
      SubSlice(w', p, end, p + field.length, end);
      Joined(w', start, p, p + field.length);
    }
    match Stop(next) {
      case Some(result) => StopHere(t, done, next, headers, room, result);
      case None => NextField(t, done, next, headers, room);
    }
  }

  /** One round of the loop of `getHeaders` over the field lines: the next field, or how the loop leaves. */
  method NextFieldLine(buf: array<byte>, start: nat, p: nat, end: nat, headers: seq<Header>, ghost room: nat,
                       ghost t: seq<byte>)
    returns (stop: Option<FieldsResult>, p': nat, headers': seq<Header>)
    requires start <= p < end && Fenced(buf, end) && room > 0
    requires FieldsSoFar(t, buf[..][start..p], buf[..][p..end], headers, room)
    modifies buf
    ensures Fenced(buf, end) && buf[..start] == old(buf[..start])
    ensures stop.Some? ==> stop.value == ParseFields(t, MAX_FIELDS) && buf[start..end] == LowerFields(t, MAX_FIELDS)
    ensures stop.None? ==> start <= p' < end && FieldsSoFar(t, buf[..][start..p'], buf[..][p'..end], headers', room - 1)
  {
    hide ParseFields, LowerFields, ParseField, LowerName, Stop, FieldsSoFar;
    ghost var w := buf[..];
    var field := ConsumeField(buf, p, end);
    assert buf[..][p..end] == LowerName(w[p..end]) && buf[..][..p] == w[..p];
    FieldRound(t, w, buf[..], start, p, end, headers, room);
    stop := StopsAfter(field, buf, p, end, w[p..end]);
    if stop.Some? {
      var result := stop.value;
      return Some(if result.Fields? then Fields(headers + result.headers, p - start + result.consumed) else result),
        p, headers;
    }
    p', headers' := p + field.length, headers + [field.header];
  }

  /** The loop of `getHeaders` over the field lines. */
  method ConsumeFields(buf: array<byte>, start: nat, end: nat) returns (r: FieldsResult)
    requires start < end && Fenced(buf, end)
    modifies buf
    ensures Fenced(buf, end)
    ensures r == ParseFields(old(buf[start..end]), MAX_FIELDS)
    ensures buf[start..end] == LowerFields(old(buf[start..end]), MAX_FIELDS)
    ensures buf[..start] == old(buf[..start])
  {
    hide ParseFields, LowerFields, FieldsSoFar;
    ghost var t := buf[start..end];
    var p, headers, room := start, [], MAX_FIELDS;
    assert buf[..][start..start] == [] && buf[..][start..end] == t;
    FieldsBegin(t);
    while room > 0
      invariant start <= p < end && Fenced(buf, end)
      invariant buf[..start] == old(buf[..start])
      invariant FieldsSoFar(t, buf[..][start..p], buf[..][p..end], headers, room)
    {
      var stop: Option<FieldsResult>;
      stop, p, headers := NextFieldLine(buf, start, p, end, headers, room, t);
      if stop.Some? {
        return stop.value;
      }
      room := room - 1;
    }
    NoRoom(t, buf[..][start..p], buf[..][p..end], headers);
    Joined(buf[..], start, p, end);
    return BadFields(HEADER_FIELDS_TOO_LARGE);
  }

  lemma NoRoom(t: seq<byte>, done: seq<byte>, next: seq<byte>, headers: seq<Header>)
    requires FieldsSoFar(t, done, next, headers, 0)
    ensures LowerFields(t, MAX_FIELDS) == done + next
    ensures ParseFields(t, MAX_FIELDS) == BadFields(HEADER_FIELDS_TOO_LARGE)
  {
  }

  lemma StopHere(t: seq<byte>, done: seq<byte>, next: seq<byte>, headers: seq<Header>, room: nat, result: FieldsResult)
    requires FieldsSoFar(t, done, next, headers, room) && room > 0 && Stop(next) == Some(result)
    ensures LowerFields(t, MAX_FIELDS) == done + LowerName(next)
    ensures ParseFields(t, MAX_FIELDS) ==
            if result.Fields? then Fields(headers + result.headers, |done| + result.consumed) else result
  {
    hide ParseField, LowerName;
  }

  /** The checks on the octets behind a field line: the empty line, its first part, or another field. */
  method StopsAfter(field: FieldResult, buf: array<byte>, p: nat, end: nat, ghost next: seq<byte>)
    returns (stop: Option<FieldsResult>)
    requires p <= end && Fenced(buf, end) && |next| == end - p && field == ParseField(next)
    requires field.Field? ==> buf[p + field.length..end] == next[field.length..]
    ensures stop == Stop(next)
    ensures stop.None? ==> field.Field? && p + field.length < end
  {
    hide ParseField;
    if field.FieldNeedsMore? {
      return Some(FieldsNeedMore);
    }
    if field.BadField? {
      return Some(BadFields(BAD_REQUEST));
    }
    var p' := p + field.length;
    ghost var rest := next[field.length..];
    assert p' < end ==> buf[p'] == rest[0];
    assert p' + 1 < end ==> buf[p' + 1] == rest[1];
    if buf[p'] == CR {
      if buf[p' + 1] == LF {
        return Some(Fields([field.header], field.length + 2));
      }
      return Some(if p' + 1 < end then BadFields(BAD_REQUEST) else FieldsNeedMore);
    }
    return None;
  }

  /** What the two parts of a head make of the whole. */
  lemma HeadParts(w: seq<byte>, w': seq<byte>, start: nat, p: nat, end: nat, d: seq<byte>)
    requires start <= p <= end <= |w| == |w'| && d == w[start..end]
    requires ParseRequestLine(d).RequestLine? && p == start + ParseRequestLine(d).consumed
    requires w'[..p] == w[..p] && w'[p..end] == LowerFields(w[p..end], MAX_FIELDS)
    ensures w'[start..end] == LowerNames(d) && w'[..start] == w[..start]
    ensures ParseHead(d) ==
            match ParseFields(w[p..end], MAX_FIELDS)
            case FieldsNeedMore => Incomplete
            case BadFields(error) => Rejected(error)
            case Fields(headers,
              length) => Head(Request(ParseRequestLine(d).verb, ParseRequestLine(d).target, headers),
                p - start + length)
  {
    hide ParseRequestLine, ParseFields, LowerFields;
    SubSlice(w, start, end, p, end);
    SubSlice(w, start, end, start, p);
    Joined(w, start, p, end);
    Joined(w', start, p, end);
  }

  /** `getHeaders`: on return the field names read have been lower-cased in the buffer. */
  method GetHeaders(buf: array<byte>, start: nat, end: nat) returns (r: HeadResult)
    requires start <= end && Fenced(buf, end)
    modifies buf
    ensures Fenced(buf, end)
    ensures r == ParseHead(old(buf[start..end]))
    ensures buf[start..end] == LowerNames(old(buf[start..end]))
    ensures buf[..start] == old(buf[..start])
  {
    hide ParseRequestLine, ParseFields, LowerFields;
    ghost var w := buf[..];
    assert buf[start..end] == w[start..end];
    var line := ConsumeRequestLine(buf, start, end);
    if line.NeedMore? {
      return Incomplete;
    }
    if line.BadLine? {
      return Rejected(VERSION_NOT_SUPPORTED);
    }
    var p := start + line.consumed;
    var fields := ConsumeFields(buf, p, end);
    HeadParts(w, buf[..], start, p, end, w[start..end]);
    match fields {
      case FieldsNeedMore => r := Incomplete;
      case BadFields(error) => r := Rejected(error);
      case Fields(headers, length) => r := Head(Request(line.verb, line.target, headers), line.consumed + length);
    }
  }
}
