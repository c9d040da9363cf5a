/**
 * Key derivation for the segment cache: which URLs are segments, and the cache key of a
 * segment URL under each of the three key strategies.
 *
 * The source decides both with three fixed regular expressions (all with the `i` flag):
 *   ts_extension  \.ts(?:[\?#]|$)
 *   ts_filename   ^.*?\/([^\/]+\.ts).*$
 *   ts_sequence   ^.*?(\d+\.ts).*$
 * Each is written here twice: as a predicate saying where a match lies (the meaning of the
 * pattern under JavaScript's backtracking rules) and as a search function that finds it.
 * The contracts of the search functions tie the two together.
 */
module SegmentKeys {
  import opened Options

  /** The characters JavaScript's `.` does not match when the `s` flag is absent. */
  predicate IsLineTerminator(c: char) {
    c == '\n' || c == '\r' || c == '\U{2028}' || c == '\U{2029}'
  }

  /** `\d`: ASCII digits only. */
  predicate IsDigit(c: char) {
    '0' <= c <= '9'
  }

  predicate AllDigits(s: string) {
    forall k :: 0 <= k < |s| ==> IsDigit(s[k])
  }

  predicate NoLineTerminator(s: string) {
    forall k :: 0 <= k < |s| ==> !IsLineTerminator(s[k])
  }

  predicate NoSlash(s: string) {
    forall k :: 0 <= k < |s| ==> s[k] != '/'
  }

  /** `\.ts` under the `i` flag, starting at position `i` of `s`. */
  predicate TsAt(s: string, i: int) {
    0 <= i && i + 3 <= |s| && s[i] == '.'
    && (s[i + 1] == 't' || s[i + 1] == 'T')
    && (s[i + 2] == 's' || s[i + 2] == 'S')
  }

  // ---------------------------------------------------------------------------------------
  // Segment recognition: ts_extension
  // ---------------------------------------------------------------------------------------

  /** `\.ts(?:[\?#]|$)` matches at position `i`: `.ts` followed by `?`, `#` or the end. */
  predicate ExtensionAt(s: string, i: int) {
    TsAt(s, i) && (i + 3 == |s| || s[i + 3] == '?' || s[i + 3] == '#')
  }

  /** Unanchored search for the extension marker at position `i` or later. */
  function ExtensionFrom(url: string, i: nat): (found: bool)
    requires i <= |url|
    ensures found <==> exists j :: i <= j < |url| && ExtensionAt(url, j)
    decreases |url| - i
  {
    if i == |url| then false
    else ExtensionAt(url, i) || ExtensionFrom(url, i + 1)
  }

  /** `should_prefetch_url`: the URL names a `.ts` segment. */
  function ShouldPrefetchUrl(url: string): (segment: bool)
    ensures segment <==> exists i :: 0 <= i < |url| && ExtensionAt(url, i)
  {
    ExtensionFrom(url, 0)
  }

  // ---------------------------------------------------------------------------------------
  // Strategy 0: ts_sequence, `^.*?(\d+\.ts).*$`
  // ---------------------------------------------------------------------------------------

  /**
   * The pattern matches with its lazy prefix ending at `p` and `\.ts` at `q`; the group is
   * `url[p..q + 3]`. Every character is consumed by some `.`, so no line terminator may occur.
   */
  predicate SequenceMatch(url: string, p: int, q: int) {
    0 <= p < q && TsAt(url, q) && AllDigits(url[p..q]) && NoLineTerminator(url)
  }

  /** The match the engine reports: the lazy `.*?` takes the smallest prefix that works. */
  ghost predicate LeftmostSequenceMatch(url: string, p: int, q: int) {
    SequenceMatch(url, p, q) && forall p', q' :: 0 <= p' < p ==> !SequenceMatch(url, p', q')
  }

  /** For a fixed start, the greedy `\d+` leaves no choice: the digits end where `.ts` begins. */
  lemma SequenceEndUnique(url: string, p: int, q: int, q': int)
    requires SequenceMatch(url, p, q) && SequenceMatch(url, p, q')
    ensures q == q'
  {
  }

  /** End of the run of digits that starts at `p`. */
  function DigitRunEnd(url: string, p: nat): (q: nat)
    requires p <= |url|
    ensures p <= q <= |url| && AllDigits(url[p..q])
    ensures q == |url| || !IsDigit(url[q])
    decreases |url| - p
  {
    if p < |url| && IsDigit(url[p]) then DigitRunEnd(url, p + 1) else p
  }

  /** Tries the starts `p`, `p + 1`, ... in turn, as the lazy `.*?` does. */
  function FindSequence(url: string, p: nat): (m: Option<(nat, nat)>)
    requires p <= |url| && NoLineTerminator(url)
    ensures m.None? ==> forall p', q' :: p <= p' ==> !SequenceMatch(url, p', q')
    ensures m.Some? ==> p <= m.value.0 && SequenceMatch(url, m.value.0, m.value.1)
    ensures m.Some? ==> forall p', q' :: p <= p' < m.value.0 ==> !SequenceMatch(url, p', q')
    decreases |url| - p
  {
    if p == |url| then None
    else
      var q := DigitRunEnd(url, p);
      if p < q && TsAt(url, q) then Some((p, q))
      else
        NoSequenceMatchAt(url, p, q);
        FindSequence(url, p + 1)
  }

  /** When the digit run at `p` is empty or is not followed by `.ts`, nothing matches at `p`. */
  lemma NoSequenceMatchAt(url: string, p: nat, q: nat)
    requires p < |url| && NoLineTerminator(url)
    requires p <= q <= |url| && AllDigits(url[p..q]) && (q == |url| || !IsDigit(url[q]))
    requires !(p < q && TsAt(url, q))
    ensures forall q' :: !SequenceMatch(url, p, q')
  {
  }

  /** Key strategy 0: `url.replace(ts_sequence, '$1')`. */
  function SequenceKey(url: string): (key: string)
    ensures (forall p, q :: !SequenceMatch(url, p, q)) ==> key == url
    ensures forall p, q :: LeftmostSequenceMatch(url, p, q) ==> key == url[p..q + 3]
    ensures key != url ==> 3 < |key| && TsAt(key, |key| - 3) && AllDigits(key[..|key| - 3])
  {
    if !NoLineTerminator(url) then url
    else
      match FindSequence(url, 0)
      case None => url
      case Some((p, q)) =>
        SequenceLeftmostUnique(url, p, q);
        SequenceGroupShape(url, p, q);
        url[p..q + 3]
  }

  /** The group of a `ts_sequence` match is digits followed by `.ts`. */
  lemma SequenceGroupShape(url: string, p: int, q: int)
    requires SequenceMatch(url, p, q)
    ensures var g := url[p..q + 3]; 3 < |g| && TsAt(g, |g| - 3) && AllDigits(g[..|g| - 3])
  {
    assert url[p..q + 3][..q - p] == url[p..q];
  }

  lemma SequenceLeftmostUnique(url: string, p: int, q: int)
    requires LeftmostSequenceMatch(url, p, q)
    ensures forall p', q' :: LeftmostSequenceMatch(url, p', q') ==> p' == p && q' == q
  {
    forall p', q' | LeftmostSequenceMatch(url, p', q')
      ensures p' == p && q' == q
    {
      assert !(p' < p) && !(p < p');
      SequenceEndUnique(url, p, q, q');
    }
  }

  // ---------------------------------------------------------------------------------------
  // Strategy 1: ts_filename, `^.*?\/([^\/]+\.ts).*$`
  // ---------------------------------------------------------------------------------------

  /**
   * The pattern matches with its `/` at `p` and `\.ts` at `j`; the group is `url[p + 1..j + 3]`.
   * The lazy prefix and the tail after `.ts` are consumed by `.`, the group by `[^\/]`.
   */
  predicate FilenameMatch(url: string, p: int, j: int) {
    0 <= p && p + 2 <= j && TsAt(url, j) && url[p] == '/'
    && NoLineTerminator(url[..p]) && NoSlash(url[p + 1..j]) && NoLineTerminator(url[j + 3..])
  }

  /** The match the engine reports: the smallest prefix, then the longest `[^\/]+`. */
  ghost predicate LeftmostFilenameMatch(url: string, p: int, j: int) {
    && FilenameMatch(url, p, j)
    && (forall p', j' :: 0 <= p' < p ==> !FilenameMatch(url, p', j'))
    && (forall j' :: j < j' ==> !FilenameMatch(url, p, j'))
  }

  /** Backtracking of the greedy `[^\/]+`: the last `.ts` end at or below `hi` that works. */
  function LastFilenameEnd(url: string, p: nat, hi: int): (m: Option<nat>)
    ensures m.None? ==> forall j :: j <= hi ==> !FilenameMatch(url, p, j)
    ensures m.Some? ==> m.value <= hi && FilenameMatch(url, p, m.value)
    ensures m.Some? ==> forall j :: m.value < j <= hi ==> !FilenameMatch(url, p, j)
    decreases hi - p
  {
    if hi < p + 2 then None
    else if FilenameMatch(url, p, hi) then Some(hi)
    else LastFilenameEnd(url, p, hi - 1)
  }

  /** Tries the prefixes ending at `p`, `p + 1`, ... in turn, as the lazy `.*?` does. */
  function FindFilename(url: string, p: nat): (m: Option<(nat, nat)>)
    requires p <= |url|
    ensures m.None? ==> forall p', j :: p <= p' ==> !FilenameMatch(url, p', j)
    ensures m.Some? ==> p <= m.value.0 && FilenameMatch(url, m.value.0, m.value.1)
    ensures m.Some? ==> forall p', j :: p <= p' < m.value.0 ==> !FilenameMatch(url, p', j)
    ensures m.Some? ==> forall j :: m.value.1 < j ==> !FilenameMatch(url, m.value.0, j)
    decreases |url| - p
  {
    if p == |url| then None
    else
      match LastFilenameEnd(url, p, |url| - 3)
      case Some(j) => Some((p, j))
      case None => FindFilename(url, p + 1)
  }

  /** Key strategy 1: `url.replace(ts_filename, '$1')`. */
  function FilenameKey(url: string): (key: string)
    ensures (forall p, j :: !FilenameMatch(url, p, j)) ==> key == url
    ensures forall p, j :: LeftmostFilenameMatch(url, p, j) ==> key == url[p + 1..j + 3]
    ensures key != url ==> 3 < |key| && TsAt(key, |key| - 3) && NoSlash(key)
  {
    match FindFilename(url, 0)
    case None => url
    case Some((p, j)) =>
      FilenameLeftmostUnique(url, p, j);
      FilenameGroupShape(url, p, j);
      url[p + 1..j + 3]
  }

  /** The group of a `ts_filename` match is a file name without `/` that ends in `.ts`. */
  lemma FilenameGroupShape(url: string, p: int, j: int)
    requires FilenameMatch(url, p, j)
    ensures var g := url[p + 1..j + 3]; 3 < |g| && TsAt(g, |g| - 3) && NoSlash(g)
  {
    var g := url[p + 1..j + 3];
    forall k | 0 <= k < |g|
      ensures g[k] != '/'
    {
      if k < j - p - 1 {
        assert g[k] == url[p + 1..j][k];
      }
    }
  }

  lemma FilenameLeftmostUnique(url: string, p: int, j: int)
    requires LeftmostFilenameMatch(url, p, j)
    ensures forall p', j' :: LeftmostFilenameMatch(url, p', j') ==> p' == p && j' == j
  {
  }

  // ---------------------------------------------------------------------------------------
  // get_key_from_url
  // ---------------------------------------------------------------------------------------

  /**
   * `get_key_from_url`: a strict-equality switch on `cache_key`; anything but 1 or 2 is 0.
   * A key other than the URL itself always names a `.ts` file: a bare file name under
   * strategy 1, a sequence number under strategy 0.
   */
  function KeyFromUrl(url: string, cacheKey: int): (key: string)
    ensures cacheKey == 2 ==> key == url
    ensures key != url ==> 3 < |key| && TsAt(key, |key| - 3)
    ensures cacheKey == 1 && key != url ==> NoSlash(key)
    ensures cacheKey != 1 && cacheKey != 2 && key != url ==> AllDigits(key[..|key| - 3])
  {
    if cacheKey == 2 then url
    else if cacheKey == 1 then FilenameKey(url)
    else SequenceKey(url)
  }

  /** Strategy 2 is the identity, and the other two leave a URL without a match unchanged. */
  lemma KeyStrategies(url: string, cacheKey: int)
    ensures KeyFromUrl(url, 2) == url
    ensures cacheKey == 1 && (forall p, j :: !FilenameMatch(url, p, j)) ==> KeyFromUrl(url, cacheKey) == url
    ensures cacheKey != 1 && cacheKey != 2 && (forall p, q :: !SequenceMatch(url, p, q))
            ==> KeyFromUrl(url, cacheKey) == url
  {
  }

  /** A typical segment URL: `http://x/hls/42.ts?foo=bar`. */
  const ExampleUrl: string := "http://x/hls/42.ts?foo=bar"

  /** Positions 13 and 14 of the example URL are the digits `42`. */
  lemma ExampleDigits()
    ensures AllDigits(ExampleUrl[13..15]) && NoSlash(ExampleUrl[13..15])
  {
    var d := ExampleUrl[13..15];
    assert ExampleUrl[13] == '4' && ExampleUrl[14] == '2';
    assert d[0] == ExampleUrl[13] && d[1] == ExampleUrl[14];
  }

  /** The example URL is a segment URL: `.ts` followed by `?`. */
  lemma ExampleIsSegment()
    ensures ShouldPrefetchUrl(ExampleUrl)
  {
    assert ExtensionAt(ExampleUrl, 15);
  }

  /** Positions 13 to 17 of the example URL spell `42.ts`. */
  lemma ExampleGroup()
    ensures ExampleUrl[13..18] == "42.ts"
  {
    var g := ExampleUrl[13..18];
    assert |g| == 5 && g[0] == '4' && g[1] == '2' && g[2] == '.' && g[3] == 't' && g[4] == 's';
  }

  /** The only `.ts` in the example URL starts at position 15. */
  lemma ExampleOnlyTs(j: int)
    requires TsAt(ExampleUrl, j)
    ensures j == 15
  {
  }

  /** Strategy 0 keeps the digits and the extension of the example URL. */
  lemma SequenceKeyExample()
    ensures KeyFromUrl(ExampleUrl, 0) == "42.ts"
  {
    var url := ExampleUrl;
    ExampleDigits();
    assert SequenceMatch(url, 13, 15);
    forall p', q' | 0 <= p' < 13
      ensures !SequenceMatch(url, p', q')
    {
      if p' < q' && TsAt(url, q') {
        ExampleOnlyTs(q');
        assert url[p'..q'][12 - p'] == '/';
      }
    }
    assert LeftmostSequenceMatch(url, 13, 15);
    ExampleGroup();
  }

  /** Strategy 1 keeps the last path segment of the example URL; strategy 2 keeps it whole. */
  lemma FilenameKeyExample()
    ensures KeyFromUrl(ExampleUrl, 1) == "42.ts"
    ensures KeyFromUrl(ExampleUrl, 2) == ExampleUrl
  {
    var url := ExampleUrl;
    ExampleDigits();
    assert FilenameMatch(url, 12, 15);
    forall p', j | 0 <= p' < 12
      ensures !FilenameMatch(url, p', j)
    {
      if p' + 2 <= j && TsAt(url, j) {
        ExampleOnlyTs(j);
        assert url[p' + 1..j][12 - (p' + 1)] == '/';
      }
    }
    forall j | 15 < j
      ensures !FilenameMatch(url, 12, j)
    {
      if TsAt(url, j) {
        ExampleOnlyTs(j);
      }
    }
    assert LeftmostFilenameMatch(url, 12, 15);
    ExampleGroup();
  }
}
