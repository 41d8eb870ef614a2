/** `extractIds` of `CanvasProcessor`: the manifest number and the final canvas segment of a
    canvas URL, read as the regular expression `/\/manifests\/(\d+)\/.*?\/([c]\d+)$/` reads them. */
module CanvasUrls {
  import opened Common

  datatype CanvasIds = CanvasIds(manifestId: string, canvasId: string)

  const ManifestsMarker := "/manifests/"
  const UnmatchedUrl := "Unable to extract IDs from URL: "

  /** The characters `.` does not match in a JavaScript regular expression. */
  predicate IsLineTerminator(c: char) {
    c == '\n' || c == '\r' || c == '\U{2028}' || c == '\U{2029}'
  }

  predicate NoLineTerminator(s: string) {
    forall i :: 0 <= i < |s| ==> !IsLineTerminator(s[i])
  }

  /** `/manifests/` starts at index `i` of `s`. */
  predicate MarkerAt(s: string, i: nat) {
    i + |ManifestsMarker| <= |s| && s[i..i + |ManifestsMarker|] == ManifestsMarker
  }

  /** Where the final `/c<digits>` (anchored by `$`) starts, when the URL ends in one. The
      digits run to the end and are preceded by `c`, so this place is unique. */
  function CanvasSegmentStart(url: string): (q: Option<nat>)
    ensures q.Some? ==> q.value + 3 <= |url| && url[q.value] == '/' && url[q.value + 1] == 'c'
                        && IsDigits(url[q.value + 2..])
  {
    var t := TrailingDigits(url);
    if 1 <= t && t + 2 <= |url| && url[|url| - t - 1] == 'c' && url[|url| - t - 2] == '/' then
      Some(|url| - t - 2)
    else None
  }

  /** The pattern matches from index `p`, given the final segment at `q`: the marker, its
      greedy digit run followed by `/`, then `.*?` up to the final `/` without crossing a line
      terminator. A shorter digit run is followed by a digit, not `/`, so only the longest works. */
  predicate MatchesAt(url: string, p: nat, q: nat)
    requires q <= |url|
  {
    && MarkerAt(url, p)
    && var n := DigitsFrom(url, p + |ManifestsMarker|);
       && n > 0
       && p + |ManifestsMarker| + n < q
       && url[p + |ManifestsMarker| + n] == '/'
       && NoLineTerminator(url[p + |ManifestsMarker| + n + 1..q])
  }

  /** The leftmost index from `p` on where the pattern matches: `String.prototype.match`
      tries start positions from left to right. */
  function FirstMatch(url: string, q: nat, p: nat): (r: Option<nat>)
    requires q <= |url|
    ensures r.Some? ==> p <= r.value < q && MatchesAt(url, r.value, q)
    ensures r.Some? ==> forall k :: p <= k < r.value ==> !MatchesAt(url, k, q)
    ensures r.None? ==> forall k :: p <= k < q ==> !MatchesAt(url, k, q)
    decreases q - p
  {
    if p >= q then None
    else if MatchesAt(url, p, q) then Some(p)
    else FirstMatch(url, q, p + 1)
  }

  /** `extractIds`: the captured manifest digits and the final `c<digits>` segment. */
  function ExtractIds(url: string): Result<CanvasIds> {
    match CanvasSegmentStart(url)
    case None => Failure(UnmatchedUrl + url)
    case Some(q) =>
      match FirstMatch(url, q, 0)
      case None => Failure(UnmatchedUrl + url)
      case Some(p) =>
        var start := p + |ManifestsMarker|;
        Success(CanvasIds(url[start..start + DigitsFrom(url, start)], url[q + 1..]))
  }

  /** The shape the pattern accepts, split at its parts. */
  predicate IsCanvasUrl(url: string, prefix: string, manifestId: string, middle: string, canvasDigits: string) {
    && IsDigits(manifestId)
    && IsDigits(canvasDigits)
    && NoLineTerminator(middle)
    && url == prefix + ManifestsMarker + manifestId + "/" + middle + "/c" + canvasDigits
  }

  lemma {:induction false} SplitSeven(s: string, a: nat, b: nat, c: nat, d: nat, e: nat, f: nat)
    requires a <= b <= c <= d <= e <= f <= |s|
    ensures s == s[..a] + s[a..b] + s[b..c] + s[c..d] + s[d..e] + s[e..f] + s[f..]
  {
    assert s[..b] == s[..a] + s[a..b];
    assert s[..c] == s[..b] + s[b..c];
    assert s[..d] == s[..c] + s[c..d];
    assert s[..e] == s[..d] + s[d..e];
    assert s[..f] == s[..e] + s[e..f];
    assert s == s[..f] + s[f..];
  }

  /** A match at `p` with the final segment at `q` splits the URL into the accepted shape. */
  lemma MatchShape(url: string, p: nat, q: nat) returns (prefix: string, manifestId: string, middle: string, digits: string)
    requires q + 3 <= |url| && url[q] == '/' && url[q + 1] == 'c' && IsDigits(url[q + 2..])
    requires MatchesAt(url, p, q)
    ensures IsCanvasUrl(url, prefix, manifestId, middle, digits)
    ensures var start := p + |ManifestsMarker|; manifestId == url[start..start + DigitsFrom(url, start)]
    ensures url[q + 1..] == "c" + digits
  {
    var start := p + |ManifestsMarker|;
    var n := DigitsFrom(url, start);
    prefix, manifestId, middle, digits := url[..p], url[start..start + n], url[start + n + 1..q], url[q + 2..];
    DigitRun(url, start, n);
    ConcatShape(url, p, n, q);
    SegmentTail(url, q);
  }

  lemma DigitRun(url: string, start: nat, n: nat)
    requires 0 < n && start + n <= |url| && forall i :: start <= i < start + n ==> IsDigit(url[i])
    ensures IsDigits(url[start..start + n])
  {
    var run := url[start..start + n];
    forall i | 0 <= i < n ensures IsDigit(run[i]) {
      assert run[i] == url[start + i];
    }
  }

  lemma ConcatShape(url: string, p: nat, n: nat, q: nat)
    requires p + |ManifestsMarker| + n < q && q + 2 <= |url|
    requires MarkerAt(url, p) && url[p + |ManifestsMarker| + n] == '/' && url[q] == '/' && url[q + 1] == 'c'
    ensures var start := p + |ManifestsMarker|;
      url == url[..p] + ManifestsMarker + url[start..start + n] + "/" + url[start + n + 1..q] + "/c" + url[q + 2..]
  {
    var start := p + |ManifestsMarker|;
    var marker, slash, tail := url[p..start], url[start + n..start + n + 1], url[q..q + 2];
    assert tail == "/c" by {
      assert tail == [url[q], url[q + 1]];
    }
    assert slash == "/" by {
      assert slash == [url[start + n]];
    }
    SplitSeven(url, p, start, start + n, start + n + 1, q, q + 2);
    Substitute(url, url[..p], marker, url[start..start + n], slash, url[start + n + 1..q], tail, url[q + 2..]);
  }

  lemma SegmentTail(url: string, q: nat)
    requires q + 2 <= |url| && url[q + 1] == 'c'
    ensures url[q + 1..] == "c" + url[q + 2..]
  {
    assert url[q + 1..] == [url[q + 1]] + url[q + 2..];
  }

  lemma Substitute(url: string, prefix: string, marker: string, manifestId: string, slash: string,
                   middle: string, tail: string, canvasDigits: string)
    requires url == prefix + marker + manifestId + slash + middle + tail + canvasDigits
    requires marker == ManifestsMarker && slash == "/" && tail == "/c"
    ensures url == prefix + ManifestsMarker + manifestId + "/" + middle + "/c" + canvasDigits
  {
  }

  /** Whatever `extractIds` returns comes from a URL of the accepted shape: the manifest id
      is the digit run after the leftmost `/manifests/` that can match, and the canvas id is
      the final segment. */
  lemma ExtractIdsSound(url: string)
    requires ExtractIds(url).Success?
    ensures var ids := ExtractIds(url).value;
      && |ids.canvasId| > 0 && ids.canvasId[0] == 'c'
      && exists prefix, middle :: IsCanvasUrl(url, prefix, ids.manifestId, middle, ids.canvasId[1..])
  {
    var q, p := Matched(url);
    var prefix, manifestId, middle, digits := MatchShape(url, p, q);
    ShapeOfIds(url, prefix, manifestId, middle, digits, ExtractIds(url).value);
  }

  lemma ShapeOfIds(url: string, prefix: string, manifestId: string, middle: string, digits: string, ids: CanvasIds)
    requires IsCanvasUrl(url, prefix, manifestId, middle, digits)
    requires ids == CanvasIds(manifestId, "c" + digits)
    ensures |ids.canvasId| > 0 && ids.canvasId[0] == 'c'
    ensures exists prefix, middle :: IsCanvasUrl(url, prefix, ids.manifestId, middle, ids.canvasId[1..])
  {
    assert ids.canvasId[1..] == digits;
  }

  /** Where a successful `extractIds` found the final segment (`q`) and the marker (`p`). */
  lemma Matched(url: string) returns (q: nat, p: nat)
    requires ExtractIds(url).Success?
    ensures q + 3 <= |url| && url[q] == '/' && url[q + 1] == 'c' && IsDigits(url[q + 2..])
    ensures p < q && MatchesAt(url, p, q)
    ensures var start := p + |ManifestsMarker|;
      ExtractIds(url).value == CanvasIds(url[start..start + DigitsFrom(url, start)], url[q + 1..])
  {
    q := CanvasSegmentStart(url).value;
    p := FirstMatch(url, q, 0).value;
  }

  /** Where the parts of a URL of the accepted shape sit. */
  lemma ShapeParts(prefix: string, manifestId: string, middle: string, canvasDigits: string)
    ensures var url := prefix + ManifestsMarker + manifestId + "/" + middle + "/c" + canvasDigits;
      var b := |prefix| + |ManifestsMarker|;
      var c := b + |manifestId|;
      var d := c + 1 + |middle|;
      && |url| == d + 2 + |canvasDigits|
      && url[|prefix|..b] == ManifestsMarker
      && url[b..c] == manifestId
      && url[c] == '/'
      && url[c + 1..d] == middle
      && url[d] == '/' && url[d + 1] == 'c'
      && url[d + 2..] == canvasDigits
  {
    var a1 := prefix + ManifestsMarker;
    var a2 := a1 + manifestId;
    var a3 := a2 + "/";
    var a4 := a3 + middle;
    var a5 := a4 + "/c";
    var url := a5 + canvasDigits;
    assert url[..|a5|] == a5;
    assert a5[..|a4|] == a4;
    assert a4[..|a3|] == a3;
    assert a3[..|a2|] == a2;
    assert a2[..|a1|] == a1;
    assert url[|prefix|..|a1|] == a1[|prefix|..] == ManifestsMarker;
    assert url[|a1|..|a2|] == a2[|a1|..] == manifestId;
    assert url[|a2|] == a3[|a2|] == '/';
    assert url[|a3|..|a4|] == a4[|a3|..] == middle;
    assert url[|a4|] == a5[|a4|] == '/';
    assert url[|a4| + 1] == a5[|a4| + 1] == 'c';
    assert url[|a5|..] == canvasDigits;
  }

  /** The final segment is found where the URL ends in `/c<digits>`. */
  lemma SegmentAt(url: string, q: nat)
    requires q + 3 <= |url| && url[q] == '/' && url[q + 1] == 'c' && IsDigits(url[q + 2..])
    ensures CanvasSegmentStart(url) == Some(q)
  {
    var head := url[..q + 2];
    assert url == head + url[q + 2..];
    TrailingDigitsOf(head, url[q + 2..]);
  }

  /** The pattern matches from `p` when its parts sit at the right places. */
  lemma MatchAt(url: string, p: nat, n: nat, q: nat)
    requires p + |ManifestsMarker| + n < q <= |url|
    requires MarkerAt(url, p) && n > 0
    requires forall i :: p + |ManifestsMarker| <= i < p + |ManifestsMarker| + n ==> IsDigit(url[i])
    requires url[p + |ManifestsMarker| + n] == '/'
    requires NoLineTerminator(url[p + |ManifestsMarker| + n + 1..q])
    ensures MatchesAt(url, p, q) && DigitsFrom(url, p + |ManifestsMarker|) == n
  {
    DigitsFromOf(url, p + |ManifestsMarker|, n);
  }

  /** With no marker before `p`, a match at `p` is the leftmost one. */
  lemma LeftmostAt(url: string, p: nat, q: nat)
    requires p < q <= |url| && MatchesAt(url, p, q)
    requires forall i :: 0 <= i < p ==> !MarkerAt(url, i)
    ensures FirstMatch(url, q, 0) == Some(p)
  {
    var r := FirstMatch(url, q, 0);
    assert r.Some? && r.value <= p;
  }

  /** The pattern matches wherever its parts are found at the right places. */
  lemma MatchFromParts(url: string, p: nat, n: nat, q: nat)
    requires p + |ManifestsMarker| + n < q && q + 3 <= |url|
    requires MarkerAt(url, p) && n > 0
    requires forall i :: p + |ManifestsMarker| <= i < p + |ManifestsMarker| + n ==> IsDigit(url[i])
    requires url[p + |ManifestsMarker| + n] == '/'
    requires NoLineTerminator(url[p + |ManifestsMarker| + n + 1..q])
    requires url[q] == '/' && url[q + 1] == 'c' && IsDigits(url[q + 2..])
    ensures ExtractIds(url).Success? && ExtractIds(url).value.canvasId == url[q + 1..]
    ensures (forall i :: 0 <= i < p ==> !MarkerAt(url, i)) ==>
              ExtractIds(url).value.manifestId == url[p + |ManifestsMarker|..p + |ManifestsMarker| + n]
  {
    SegmentAt(url, q);
    MatchAt(url, p, n, q);
    assert FirstMatch(url, q, 0).Some?;
    if forall i :: 0 <= i < p ==> !MarkerAt(url, i) {
      LeftmostAt(url, p, q);
    }
  }

  /** Every URL of the accepted shape is matched: the canvas id is its final segment, and the
      manifest id is its digit run when no `/manifests/` occurs before it. */
  lemma ExtractIdsComplete(url: string, prefix: string, manifestId: string, middle: string, canvasDigits: string)
    requires IsCanvasUrl(url, prefix, manifestId, middle, canvasDigits)
    ensures ExtractIds(url).Success?
    ensures ExtractIds(url).value.canvasId == "c" + canvasDigits
    ensures (forall i :: 0 <= i < |prefix| ==> !MarkerAt(url, i)) ==> ExtractIds(url).value.manifestId == manifestId
  {
    var p := |prefix|;
    var start := p + |ManifestsMarker|;
    var n := |manifestId|;
    var q := start + n + 1 + |middle|;
    PartsAt(url, prefix, manifestId, middle, canvasDigits);
    MatchFromParts(url, p, n, q);
    SegmentTail(url, q);
  }

  /** Where the parts of a URL of the accepted shape sit, index by index. */
  lemma PartsAt(url: string, prefix: string, manifestId: string, middle: string, canvasDigits: string)
    requires IsCanvasUrl(url, prefix, manifestId, middle, canvasDigits)
    ensures var start := |prefix| + |ManifestsMarker|;
      var n := |manifestId|;
      var q := start + n + 1 + |middle|;
      && q + 3 <= |url| && MarkerAt(url, |prefix|) && url[start + n] == '/' && url[q] == '/' && url[q + 1] == 'c'
      && url[start..start + n] == manifestId && url[start + n + 1..q] == middle && url[q + 2..] == canvasDigits
      && (forall i :: start <= i < start + n ==> IsDigit(url[i]))
  {
    ShapeParts(prefix, manifestId, middle, canvasDigits);
    var start := |prefix| + |ManifestsMarker|;
    forall i | start <= i < start + |manifestId| ensures IsDigit(url[i]) {
      assert url[i] == url[start..start + |manifestId|][i - start];
    }
  }


}
