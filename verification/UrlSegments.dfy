/** The lazily filled segment cache of HttpRouter.h. */
module UrlSegments {
  import opened Bytes

  const MAX_URL_SEGMENTS: nat := 100

  /** `find('/')` */
  function Until(s: string): (n: nat)
    ensures n <= |s| && (n < |s| ==> s[n] == '/') && '/' !in s[..n]
  {
    if |s| == 0 || s[0] == '/' then 0 else
      assert s[..1 + Until(s[1..])] == [s[0]] + s[1..][..Until(s[1..])];
      1 + Until(s[1..])
  }

  /** `std::count(_, _, '/')` */
  function Slashes(s: string): nat
  {
    if |s| == 0 then 0 else (if s[0] == '/' then 1 else 0) + Slashes(s[1..])
  }

  /** What is between the slashes; a URL is taken to stand on one. */
  function Segments(url: string): seq<string>
    decreases |url|
  {
    if |url| == 0 then [] else
      var rest := url[1..];
      [rest[..Until(rest)]] + Segments(rest[Until(rest)..])
  }

  function Joined(segments: seq<string>): string
  {
    if segments == [] then "" else "/" + segments[0] + Joined(segments[1..])
  }

  lemma SlashesConcat(a: string, b: string)
    ensures Slashes(a + b) == Slashes(a) + Slashes(b)
  {
    if a == [] {
      assert a + b == b;
    } else {
      assert (a + b)[1..] == a[1..] + b;
      SlashesConcat(a[1..], b);
    }
  }

  lemma NoSlashes(s: string)
    requires '/' !in s
    ensures Slashes(s) == 0
  {
  }

  lemma Rejoined(url: string, first: string, next: string)
    requires |url| > 0 && url[0] == '/' && url[1..] == first + next
    ensures url == "/" + first + next && Slashes(url) == 1 + Slashes(first) + Slashes(next)
  {
    SlashesConcat(first, next);
  }

  /** The segments of a URL that starts with a slash are what a split at the slashes gives, and as many as there are
    * slashes. */
  lemma {:induction false} SegmentsSplit(url: string)
    requires |url| > 0 ==> url[0] == '/'
    ensures Joined(Segments(url)) == url && |Segments(url)| == Slashes(url)
    ensures forall s | s in Segments(url) :: '/' !in s
    decreases |url|
  {
    hide Until, Slashes;
    if |url| == 0 {
      NoSlashes(url);
    } else {
      var rest := url[1..];
      var first, next := rest[..Until(rest)], rest[Until(rest)..];
      SegmentsSplit(next);
      Rejoined(url, first, next);
      NoSlashes(first);
      assert Segments(url) == [first] + Segments(next);
    }
  }

  lemma {:induction false} UntilFirst(s: string, next: string)
    requires '/' !in s && (|next| > 0 ==> next[0] == '/')
    ensures Until(s + next) == |s|
  {
    if s == [] {
      assert s + next == next;
    } else {
      assert (s + next)[1..] == s[1..] + next;
      UntilFirst(s[1..], next);
    }
  }

  /** And no other list of segments is. */
  lemma {:induction false} SplitUnique(segments: seq<string>)
    requires forall s | s in segments :: '/' !in s
    ensures Segments(Joined(segments)) == segments
  {
    hide Until;
    if segments != [] {
      var url, next := Joined(segments), Joined(segments[1..]);
      assert url[1..] == segments[0] + next;
      UntilFirst(segments[0], next);
      SplitUnique(segments[1..]);
      var rest := url[1..];
      assert rest[..|segments[0]|] == segments[0] && rest[|segments[0]|..] == next;
      assert Segments(url) == [segments[0]] + Segments(next);
    }
  }

  /** The segments the router knows: there is room for a hundred. */
  function Kept(url: string): (segments: seq<string>)
    ensures segments <= Segments(url) && |segments| == Min(MAX_URL_SEGMENTS, |Segments(url)|)
  {
    Segments(url)[..Min(MAX_URL_SEGMENTS, |Segments(url)|)]
  }

  class UrlCache {
    var currentUrl: string
    const urlSegmentVector: array<string>
    var urlSegmentTop: int
    var urlTooLong: bool
    /** What the cache was set to. */
    ghost var url: string

    /** The cache holds the first segments, and what is left of the URL the others. */
    ghost predicate Valid()
      reads this, urlSegmentVector
    {
      && urlSegmentVector.Length == MAX_URL_SEGMENTS && 0 <= urlSegmentTop + 1 <= |Kept(url)|
      && urlSegmentVector[..urlSegmentTop + 1] == Kept(url)[..urlSegmentTop + 1]
      && Segments(currentUrl) == Segments(url)[urlSegmentTop + 1..]
    }

    constructor ()
      ensures Valid() && fresh(urlSegmentVector) && url == ""
    {
      urlSegmentVector := new string[MAX_URL_SEGMENTS](_ => "");
      currentUrl, urlSegmentTop, urlTooLong, url := "", -1, false, "";
    }

    method SetUrl(url: string)
      requires Valid()
      modifies this
      ensures Valid() && this.url == url && urlSegmentTop == -1
      ensures urlTooLong <==> Slashes(url) > MAX_URL_SEGMENTS
    {
      hide Slashes, Segments;
      currentUrl, urlSegmentTop, urlTooLong, this.url := url, -1, Slashes(url) > MAX_URL_SEGMENTS, url;
    }

    method ForgiveLength()
      requires Valid()
      modifies `urlTooLong
      ensures Valid() && !urlTooLong
    {
      urlTooLong := false;
    }

    /** A segment is read from the cache, or parsed into it; segments are asked for one after the other. */
    method GetUrlSegment(urlSegment: nat) returns (segment: string, stop: bool)
      requires Valid() && urlSegment <= urlSegmentTop + 1
      modifies `currentUrl, `urlSegmentTop, urlSegmentVector
      ensures Valid() && urlSegmentTop >= old(urlSegmentTop)
      ensures stop <==> urlSegment == |Kept(url)|
      ensures if stop then segment == "" else urlSegment <= urlSegmentTop && segment == Kept(url)[urlSegment]
    {
      if urlSegment > urlSegmentTop {
        if |currentUrl| == 0 || urlSegment > MAX_URL_SEGMENTS - 1 {
          return "", true;
        }
        ghost var whole := Segments(url);
        ghost var kept := urlSegmentVector[..urlSegment];
        currentUrl := currentUrl[1..];
        var segmentLength := Until(currentUrl);
        urlSegmentVector[urlSegment] := currentUrl[..segmentLength];
        urlSegmentTop := urlSegmentTop + 1;
        currentUrl := currentUrl[segmentLength..];
        assert whole[urlSegment..][1..] == whole[urlSegment + 1..];
        assert urlSegmentVector[..urlSegment + 1] == kept + [whole[urlSegment]];
      }
      return urlSegmentVector[urlSegment], false;
    }
  }
}
