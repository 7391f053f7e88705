/** The grammar of a request head, and the proof that the parser accepts exactly the heads it writes and reads from
  * each what was written. */
module HttpGrammar {
  import opened Bytes
  import opened HttpHead

  /** A field line; `raw` is the value with the whitespace around it. */
  datatype NamedField = NamedField(name: seq<byte>, raw: seq<byte>)

  datatype RequestHead = RequestHead(verb: seq<byte>, target: seq<byte>, fields: seq<NamedField>)

  function EncodeField(f: NamedField): (wire: seq<byte>)
  {
    f.name + ([COLON] + (f.raw + CRLF))
  }

  function EncodeFields(fields: seq<NamedField>): (wire: seq<byte>)
  {
    if fields == [] then CRLF else EncodeField(fields[0]) + EncodeFields(fields[1..])
  }

  /** The head on the wire: the version brings the space before it. */
  function EncodeHead(h: RequestHead): (wire: seq<byte>)
  {
    h.verb + ([SP] + (h.target + (VERSION + EncodeFields(h.fields))))
  }

  predicate ValidField(f: NamedField) { All(f.name, NameOctet) && All(f.raw, ValueOctet) }

  predicate ValidFields(fields: seq<NamedField>) { forall k | 0 <= k < |fields| :: ValidField(fields[k]) }

  predicate ValidHead(h: RequestHead)
  {
    && All(h.verb, VerbOctet)
    && h.target != [] && h.target[0] == SLASH && All(h.target, TargetOctet)
    && 1 <= |h.fields| <= MAX_FIELDS && ValidFields(h.fields)
  }

  /** What the application is told of a field: its name in lower case and its value without the whitespace. */
  function HeaderOf(f: NamedField): Header { Header(Lower(f.name), Trim(f.raw)) }

  function HeadersOf(fields: seq<NamedField>): (headers: seq<Header>)
    ensures |headers| == |fields|
  {
    if fields == [] then [] else [HeaderOf(fields[0])] + HeadersOf(fields[1..])
  }

  function RequestOf(h: RequestHead): Request { Request(h.verb, h.target, HeadersOf(h.fields)) }

  // ---------------------------------------------------------------- what is written is read

  /** A stretch of one class in front of an octet that is not of it. */
  lemma SpanOf(front: seq<byte>, back: seq<byte>, kind: OctetClass)
    requires All(front, kind) && back != [] && !kind.Has(back[0])
    ensures Span(front + back, kind) == |front|
    ensures (front + back)[..|front|] == front && (front + back)[|front|..] == back
  {
    SpanIs(front + back, kind, |front|);
  }

  lemma FieldRead(f: NamedField, x: seq<byte>)
    requires ValidField(f)
    ensures ParseField(EncodeField(f) + x) == Field(HeaderOf(f), |EncodeField(f)|)
  {
    hide SpanFrom, Span, ParseField;
    var t := EncodeField(f) + x;
    var back := f.raw + (CRLF + x);
    assert t == f.name + ([COLON] + back);
    SpanOf(f.name, [COLON] + back, NameOctet);
    SpanOf(f.raw, CRLF + x, ValueOctet);
    assert t[|f.name| + 1..] == back;
    FieldOfParts(t, |f.name|, |f.raw|);
    assert back[|f.raw|] == CR && back[|f.raw| + 1] == LF;
  }

  /** No field line begins like the end of the section. */
  lemma FieldFirst(f: NamedField, x: seq<byte>)
    requires ValidField(f)
    ensures EncodeField(f) != [] && (EncodeField(f) + x)[0] != CR
  {
    if f.name != [] {
      assert NameOctet.Has(f.name[0]);
      assert (EncodeField(f) + x)[0] == f.name[0];
    }
  }

  lemma {:induction false} FieldsRead(fields: seq<NamedField>, x: seq<byte>, room: nat)
    requires 1 <= |fields| <= room && ValidFields(fields)
    ensures ParseFields(EncodeFields(fields) + x, room) == Fields(HeadersOf(fields), |EncodeFields(fields)|)
    decreases |fields|
  {
    hide ParseField, EncodeField;
    var line, more := EncodeField(fields[0]), EncodeFields(fields[1..]);
    var t := EncodeFields(fields) + x;
    Assoc3(line, more, x);
    FieldRead(fields[0], more + x);
    assert t[|line|..] == more + x;
    if |fields| == 1 {
      assert more == CRLF;
      assert t[|line|] == (more + x)[0] == CR && t[|line| + 1] == (more + x)[1] == LF;
    } else {
      Assoc3(EncodeField(fields[1]), EncodeFields(fields[1..][1..]), x);
      FieldFirst(fields[1], EncodeFields(fields[1..][1..]) + x);
      assert t[|line|] == (more + x)[0];
      FieldsRead(fields[1..], x, room - 1);
    }
  }

  /** The parts of a request line, where the parser looks for them. */
  lemma LineParts(verb: seq<byte>, target: seq<byte>, tail: seq<byte>)
    requires All(verb, VerbOctet) && target != [] && All(target, TargetOctet) && tail != [] && tail[0] == SP
    ensures var d := verb + ([SP] + (target + tail));
            var i := |verb|;
            && Span(d, VerbOctet) == i && d[..i] == verb && d[i] == SP && d[i + 1] == target[0]
            && d[i + 1..] == target + tail && Span(d[i + 1..], TargetOctet) == |target|
            && d[i + 1..][..|target|] == target && d[i + 1..][|target|..] == tail
  {
    hide SpanFrom, Span;
    var d := verb + ([SP] + (target + tail));
    SpanOf(verb, [SP] + (target + tail), VerbOctet);
    SpanOf(target, tail, TargetOctet);
    DropConcat(verb, [SP] + (target + tail), 1);
  }

  lemma LineRead(verb: seq<byte>, target: seq<byte>, x: seq<byte>)
    requires All(verb, VerbOctet) && target != [] && target[0] == SLASH && All(target, TargetOctet) && x != []
    ensures var d := verb + ([SP] + (target + (VERSION + x)));
            var n := |verb| + 1 + |target| + 11;
            ParseRequestLine(d) == RequestLine(verb, target, n) && d[n..] == x
  {
    hide SpanFrom, Span, ParseRequestLine, VersionAt, All;
    var tail := VERSION + x;
    var d := verb + ([SP] + (target + tail));
    LineParts(verb, target, tail);
    LineTail(d, |verb| + 1, target, x);
    RightVersion(x);
    VersionOf(d, |verb|, |verb| + 1 + |target|);
  }

  lemma LineTail(d: seq<byte>, i: nat, target: seq<byte>, x: seq<byte>)
    requires i <= |d| && d[i..] == target + (VERSION + x)
    ensures var j := i + |target|; d[i..j] == target && d[j..] == VERSION + x && d[j + 11..] == x
  {
    var j := i + |target|;
    assert d[i..j] == d[i..][..|target|];
    DropDrop(d, i, |target|);
    DropConcat(target, VERSION + x, 0);
    DropDrop(d, j, 11);
    DropConcat(VERSION, x, 0);
  }

  lemma RightVersion(x: seq<byte>)
    requires x != []
    ensures VersionAt(VERSION + x) == Right
  {
    assert (VERSION + x)[..11] == VERSION;
  }

  /** A head of the grammar is read as the request it stands for, to its last octet. */
  lemma HeadRead(h: RequestHead)
    requires ValidHead(h)
    ensures ParseHead(EncodeHead(h)) == Head(RequestOf(h), |EncodeHead(h)|)
  {
    hide ParseRequestLine, ParseFields;
    var x := EncodeFields(h.fields);
    LineRead(h.verb, h.target, x);
    FieldsRead(h.fields, [], MAX_FIELDS);
    assert x + [] == x;
  }

  // ---------------------------------------------------------------- what is read was written

  lemma FieldWritten(t: seq<byte>) returns (f: NamedField)
    requires ParseField(t).Field?
    ensures ValidField(f) && EncodeField(f) == t[..ParseField(t).length] && HeaderOf(f) == ParseField(t).header
  {
    hide SpanFrom, Span;
    var q := Span(t, NameOctet);
    var v := t[q + 1..];
    var e := Span(v, ValueOctet);
    f := NamedField(t[..q], v[..e]);
    assert t[..q + e + 3] == t[..q] + ([COLON] + (v[..e] + CRLF)) by {
      assert t[q..q + 1] == [COLON] && v[..e] == t[q + 1..q + 1 + e];
      assert v[e..e + 2] == t[q + 1 + e..q + 3 + e] == CRLF;
    }
  }

  lemma {:induction false} FieldsWritten(t: seq<byte>, room: nat) returns (fields: seq<NamedField>)
    requires ParseFields(t, room).Fields?
    ensures 1 <= |fields| <= room && ValidFields(fields)
    ensures EncodeFields(fields) == t[..ParseFields(t, room).consumed]
    ensures HeadersOf(fields) == ParseFields(t, room).headers
    decreases room
  {
    hide ParseField, EncodeField, HeaderOf;
    var f := FieldWritten(t);
    var n := ParseField(t).length;
    if Stop(t).Some? {
      fields := [f];
      assert fields[1..] == [];
      assert t[n..n + 2] == CRLF;
      assert t[..n + 2] == t[..n] + CRLF;
    } else {
      var more := FieldsWritten(AfterField(t), room - 1);
      fields := [f] + more;
      assert fields[1..] == more;
      var k := ParseFields(AfterField(t), room - 1).consumed;
      assert t[..n + k] == t[..n] + t[n..][..k];
    }
  }

  lemma LineWritten(d: seq<byte>)
    requires ParseRequestLine(d).RequestLine?
    ensures var l := ParseRequestLine(d);
            && All(l.verb, VerbOctet) && l.target != [] && l.target[0] == SLASH && All(l.target, TargetOctet)
            && d[..l.consumed] == l.verb + ([SP] + (l.target + VERSION))
  {
    hide SpanFrom, Span, ParseRequestLine;
    LineShape(d);
    var l := ParseRequestLine(d);
    var i := Span(d, VerbOctet);
    var j := i + 1 + Span(d[i + 1..], TargetOctet);
    assert d[i + 1..][..j - i - 1] == l.target;
    assert d[j..][..11] == VERSION;
    assert d[..j + 11] == d[..i] + ([SP] + (d[i + 1..j] + d[j..j + 11])) by {
      assert d[i..i + 1] == [SP];
    }
    assert d[j..j + 11] == d[j..][..11];
    assert !TargetOctet.Has(SP) && TargetOctet.Has(SLASH);
  }

  lemma HeadWritten(d: seq<byte>) returns (h: RequestHead)
    requires ParseHead(d).Head?
    ensures ValidHead(h) && EncodeHead(h) == d[..ParseHead(d).consumed] && RequestOf(h) == ParseHead(d).request
  {
    hide ParseRequestLine, ParseFields;
    LineWritten(d);
    var l := ParseRequestLine(d);
    var t := d[l.consumed..];
    var fields := FieldsWritten(t, MAX_FIELDS);
    h := RequestHead(l.verb, l.target, fields);
    var n := ParseFields(t, MAX_FIELDS).consumed;
    assert d[..l.consumed + n] == d[..l.consumed] + t[..n];
    assert EncodeHead(h) == (l.verb + ([SP] + (l.target + VERSION))) + EncodeFields(fields);
  }

  /** The parser accepts exactly the heads of the grammar, and takes each for the request it stands for. */
  lemma AcceptedIff(d: seq<byte>, request: Request)
    ensures ParseHead(d) == Head(request, |d|) <==>
            exists h :: ValidHead(h) && EncodeHead(h) == d && RequestOf(h) == request
  {
    hide ParseHead, EncodeHead, RequestOf;
    if ParseHead(d) == Head(request, |d|) {
      var h := HeadWritten(d);
      assert d[..|d|] == d;
    }
    if h :| ValidHead(h) && EncodeHead(h) == d && RequestOf(h) == request {
      HeadRead(h);
    }
  }

  // ---------------------------------------------------------------- the whitespace around a value

  predicate IsWhitespace(s: seq<byte>) { forall k | 0 <= k < |s| :: s[k] == SP || s[k] == HTAB }

  /** A value that neither begins nor ends with whitespace or a control character is told without the optional
    * whitespace around it. */
  lemma WhitespaceDropped(lead: seq<byte>, value: seq<byte>, trail: seq<byte>)
    requires IsWhitespace(lead) && IsWhitespace(trail)
    requires value != [] ==> value[0] >= 33 && value[|value| - 1] >= 33
    ensures Trim(lead + value + trail) == value
  {
    hide TrimLeft;
    if value == [] {
      assert lead + value + trail == value + (lead + trail);
      TrimTrail(value, lead + trail);
      assert value + value == value;
      LeadTrimmed(value, value);
    } else {
      assert (lead + value)[|lead + value| - 1] == value[|value| - 1];
      TrimTrail(lead + value, trail);
      LeadTrimmed(lead, value);
    }
  }

  lemma {:induction false} TrimTrail(s: seq<byte>, trail: seq<byte>)
    requires IsWhitespace(trail) && (s != [] ==> s[|s| - 1] >= 33)
    ensures TrimRight(s + trail) == s
    decreases |trail|
  {
    if trail == [] {
      assert s + trail == s;
    } else {
      var n := |trail| - 1;
      assert (s + trail)[..|s + trail| - 1] == s + trail[..n];
      TrimTrail(s, trail[..n]);
    }
  }

  lemma {:induction false} LeadTrimmed(lead: seq<byte>, s: seq<byte>)
    requires IsWhitespace(lead) && (s != [] ==> s[0] >= 33)
    ensures TrimLeft(lead + s) == s
    decreases |lead|
  {
    if lead == [] {
      assert lead + s == s;
    } else {
      assert (lead + s)[1..] == lead[1..] + s;
      LeadTrimmed(lead[1..], s);
    }
  }
}
