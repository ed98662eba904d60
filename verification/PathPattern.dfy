/** Percent-decoding path normalisation and segment matching. */
module PathPattern {
  import opened Tables
  import opened Text

  datatype NormalizedPathPattern = NormalizedPathPattern(normalizedPath: string, segments: seq<string>, recursive: bool)

  /* ---------- decodeURIComponent ---------- */

  function HexValue(c: char): Option<nat> {
    if '0' <= c <= '9' then Some((c as int) - ('0' as int))
    else if 'a' <= c <= 'f' then Some((c as int) - ('a' as int) + 10)
    else if 'A' <= c <= 'F' then Some((c as int) - ('A' as int) + 10)
    else None
  }

  /** The byte that a leading `%XY` stands for. */
  function PercentByte(s: string): (b: Option<nat>)
    ensures b.Some? ==> |s| >= 3 && s[0] == '%' && b.value < 256
  {
    if |s| >= 3 && s[0] == '%' && HexValue(s[1]).Some? && HexValue(s[2]).Some?
    then Some(16 * HexValue(s[1]).value + HexValue(s[2]).value)
    else None
  }

  /** The low six bits of a leading percent-encoded UTF-8 continuation byte. */
  function Continuation(s: string): (b: Option<nat>)
    ensures b.Some? ==> |s| >= 3 && b.value < 64
  {
    var b := PercentByte(s);
    if b.Some? && 0x80 <= b.value < 0xC0 then Some(b.value - 0x80) else None
  }

  /** The character that a leading percent-encoded UTF-8 sequence stands for, and its length. */
  function Scalar(s: string): (r: Option<(char, nat)>)
    ensures r.Some? ==> 3 <= r.value.1 <= |s|
  {
    var b := PercentByte(s);
    if b.None? then None
    else if b.value < 0x80 then Some((b.value as char, 3))
    else
      var c1 := Continuation(s[3..]);
      if c1.None? then None
      else if 0xC2 <= b.value < 0xE0 then
        Some((((b.value - 0xC0) * 64 + c1.value) as char, 6))
      else
        var c2 := Continuation(s[6..]);
        if c2.None? then None
        else if 0xE0 <= b.value < 0xF0 then
          var code := ((b.value - 0xE0) * 64 + c1.value) * 64 + c2.value;
          if code < 0x800 || 0xD800 <= code < 0xE000 then None else Some((code as char, 9))
        else
          var c3 := Continuation(s[9..]);
          if c3.None? || b.value < 0xF0 || b.value >= 0xF5 then None
          else
            var code := (((b.value - 0xF0) * 64 + c1.value) * 64 + c2.value) * 64 + c3.value;
            if code < 0x10000 || code >= 0x110000 then None else Some((code as char, 12))
  }

  /** `decodeURIComponent`; `None` where it throws. */
  function DecodeUriComponent(s: string): (r: Option<string>)
    ensures r.Some? ==> |r.value| <= |s| && ('%' in s ==> |r.value| < |s|)
    ensures '%' !in s ==> r == Some(s)
    ensures s != "" && r.Some? ==> r.value != ""
  {
    if s == "" then Some("")
    else if s[0] != '%' then
      var rest := DecodeUriComponent(s[1..]);
      assert s == [s[0]] + s[1..];
      if rest.None? then None else Some([s[0]] + rest.value)
    else
      var c := Scalar(s);
      if c.None? then None
      else
        var rest := DecodeUriComponent(s[c.value.1..]);
        if rest.None? then None else Some([c.value.0] + rest.value)
  }

  /* ---------- normalisation ---------- */

  predicate SegmentAllowed(s: string) {
    s != "" && s != "." && s != ".." && '/' !in s && '\\' !in s
  }

  function DecodeSegment(segment: string): Option<string> {
    var decoded := DecodeUriComponent(segment);
    if decoded.None? || !SegmentAllowed(decoded.value) then None else decoded
  }

  /** All segments decoded, or `None` when one of them is rejected. */
  function DecodeAll(raw: seq<string>): (r: Option<seq<string>>)
    ensures r.Some? ==> |r.value| == |raw|
    ensures r.Some? ==> forall i :: 0 <= i < |raw| ==> DecodeSegment(raw[i]) == Some(r.value[i])
  {
    if raw == [] then Some([])
    else
      var head := DecodeSegment(raw[0]);
      var tail := DecodeAll(raw[1..]);
      if head.None? || tail.None? then None else Some([head.value] + tail.value)
  }

  /** The test `/%2f|%5c/iu`. */
  predicate HasEncodedSeparator(s: string) {
    exists i :: 0 <= i < |s| && EncodedSeparatorAt(s, i)
  }

  predicate EncodedSeparatorAt(s: string, i: int) {
    0 <= i && i + 3 <= |s| && s[i] == '%' && s[i + 1..i + 3] in {"2f", "2F", "5c", "5C"}
  }

  predicate EndsWithWildcard(s: string) {
    |s| >= 3 && s[|s| - 3..] == "/**"
  }

  /** The path with a leading slash and without its query. */
  function RawPath(path: string): string {
    Split(if path != "" && path[0] == '/' then path else "/" + path, '?')[0]
  }

  /** The part of a raw path that is split into segments. */
  function BasePath(raw: string, recursive: bool): string
    requires recursive ==> EndsWithWildcard(raw)
  {
    if !recursive then raw else if raw == "/**" then "/" else raw[..|raw| - 3]
  }

  /** `filter(Boolean)` on strings. */
  predicate NonEmpty(s: string) {
    s != ""
  }

  function RawSegments(base: string): seq<string> {
    Filter(Split(base, '/'), NonEmpty)
  }

  /** `replace(/\/+/gu, '/')`. */
  function CollapseSlashes(s: string): string {
    if |s| >= 2 && s[0] == '/' && s[1] == '/' then CollapseSlashes(s[1..])
    else if s == "" then "" else [s[0]] + CollapseSlashes(s[1..])
  }

  function NormalizePathValue(path: string, allowRecursiveWildcard: bool): Option<NormalizedPathPattern> {
    var raw := RawPath(path);
    if path == "" || '\\' in raw || HasEncodedSeparator(raw) then None
    else
      var recursive := allowRecursiveWildcard && EndsWithWildcard(raw);
      var segments := DecodeAll(RawSegments(BasePath(raw, recursive)));
      if segments.None? then None
      else
        Some(NormalizedPathPattern(NormalizedText(segments.value), segments.value, recursive))
  }

  /** The decoded segments joined, with runs of slashes collapsed. */
  function NormalizedText(segments: seq<string>): string {
    var normalizedPath := "/" + Join(segments, '/');
    if normalizedPath == "/" then "/" else CollapseSlashes(normalizedPath)
  }

  function NormalizeRequestPath(path: string): Option<string> {
    var n := NormalizePathValue(path, false);
    if n.Some? then Some(n.value.normalizedPath) else None
  }

  predicate MatchPathPattern(pattern: string, path: string) {
    var p := NormalizePathValue(pattern, true);
    var q := NormalizePathValue(path, false);
    && p.Some?
    && q.Some?
    && (p.value.recursive || |p.value.segments| == |q.value.segments|)
    && EveryAt(p.value.segments, q.value.segments)
  }

  /** `every((segment, index) => path[index] === segment)`. */
  predicate EveryAt(pattern: seq<string>, path: seq<string>) {
    forall i :: 0 <= i < |pattern| ==> i < |path| && path[i] == pattern[i]
  }

  /* ---------- segments and the normalised path ---------- */

  lemma {:induction false} CollapseIsNoOp(segments: seq<string>)
    requires segments != [] && forall i :: 0 <= i < |segments| ==> segments[i] != "" && '/' !in segments[i]
    ensures CollapseSlashes("/" + Join(segments, '/')) == "/" + Join(segments, '/')
  {
    var tail := if |segments| == 1 then "" else "/" + Join(segments[1..], '/');
    assert Join(segments, '/') == segments[0] + tail;
    if |segments| > 1 {
      CollapseIsNoOp(segments[1..]);
    }
    CollapseKeepsWord(segments[0], tail);
    assert "/" + Join(segments, '/') == ['/'] + (segments[0] + tail);
    assert ("/" + Join(segments, '/'))[1..] == segments[0] + tail;
  }

  lemma {:induction false} CollapseKeepsWord(word: string, tail: string)
    requires '/' !in word
    ensures CollapseSlashes(word + tail) == word + CollapseSlashes(tail)
  {
    if word == "" {
      assert word + tail == tail;
    } else {
      assert (word + tail)[1..] == word[1..] + tail;
      CollapseKeepsWord(word[1..], tail);
    }
  }

  lemma {:induction false} FilterKeepsAll(parts: seq<string>)
    requires forall i :: 0 <= i < |parts| ==> parts[i] != ""
    ensures Filter(parts, NonEmpty) == parts
  {
    if parts != [] {
      FilterKeepsAll(parts[1..]);
      assert [parts[0]] + parts[1..] == parts;
    }
  }

  lemma JoinedSegments(segments: seq<string>)
    requires forall i :: 0 <= i < |segments| ==> segments[i] != "" && '/' !in segments[i]
    ensures RawSegments("/" + Join(segments, '/')) == segments
  {
    SplitLeadingSlash(Join(segments, '/'));
    if segments == [] {
      FilterDropsLeadingEmpty([]);
      FilterDropsLeadingEmpty([""]);
    } else {
      SplitJoin(segments, '/');
      FilterDropsLeadingEmpty(segments);
      FilterKeepsAll(segments);
    }
  }

  lemma SplitLeadingSlash(s: string)
    ensures Split("/" + s, '/') == [""] + Split(s, '/')
  {
    assert "/" + s == "" + ['/'] + s;
    SplitAppend("", s, '/');
  }

  lemma FilterDropsLeadingEmpty(parts: seq<string>)
    ensures Filter([""] + parts, NonEmpty) == Filter(parts, NonEmpty)
  {
    assert ([""] + parts)[1..] == parts;
  }

  /** Collapsing never changes anything, and the normalised path splits back to its segments. */
  lemma NormalizedPathSplitsBack(path: string, allowRecursiveWildcard: bool)
    requires NormalizePathValue(path, allowRecursiveWildcard).Some?
    ensures var n := NormalizePathValue(path, allowRecursiveWildcard).value;
            && n.normalizedPath == "/" + Join(n.segments, '/')
            && RawSegments(n.normalizedPath) == n.segments
            && forall s :: s in n.segments ==> SegmentAllowed(s)
  {
    var n := NormalizePathValue(path, allowRecursiveWildcard).value;
    DecodedAreAllowed(RawSegments(BasePath(RawPath(path), n.recursive)));
    NormalizedTextIs(n.segments);
    JoinedSegments(n.segments);
  }

  lemma DecodedAreAllowed(raw: seq<string>)
    requires DecodeAll(raw).Some?
    ensures forall i :: 0 <= i < |raw| ==> SegmentAllowed(DecodeAll(raw).value[i])
  {
  }

  lemma NormalizedTextIs(segments: seq<string>)
    requires forall i :: 0 <= i < |segments| ==> SegmentAllowed(segments[i])
    ensures NormalizedText(segments) == "/" + Join(segments, '/')
  {
    if segments != [] {
      CollapseIsNoOp(segments);
    }
  }

  /* ---------- main results ---------- */

  /** A pattern matches a path exactly when its segments equal, or before a wildcard begin, the path's. */
  lemma MatchMeaning(pattern: string, path: string)
    ensures MatchPathPattern(pattern, path) <==>
            var p := NormalizePathValue(pattern, true);
            var q := NormalizePathValue(path, false);
            p.Some? && q.Some? &&
            if p.value.recursive then p.value.segments <= q.value.segments else p.value.segments == q.value.segments
  {
    var p := NormalizePathValue(pattern, true);
    var q := NormalizePathValue(path, false);
    if p.Some? && q.Some? {
      EveryIsPrefix(p.value.segments, q.value.segments);
    }
  }

  lemma EveryIsPrefix(a: seq<string>, b: seq<string>)
    ensures EveryAt(a, b) <==> a <= b
    ensures EveryAt(a, b) && |a| == |b| <==> a == b
  {
    if EveryAt(a, b) && a != [] {
      var n := |a| - 1;
      assert 0 <= n < |a|;
      assert n < |b| && b[n] == a[n];
    }
  }

  /** The base path of a recursive pattern is a request path with the same segments. */
  lemma BasePathIsWitness(pattern: string)
    requires NormalizePathValue(pattern, true).Some? && NormalizePathValue(pattern, true).value.recursive
    ensures var base := BasePath(RawPath(pattern), true);
            && NormalizePathValue(base, false).Some?
            && NormalizePathValue(base, false).value.segments == NormalizePathValue(pattern, true).value.segments
  {
    var raw := RawPath(pattern);
    var base := BasePath(raw, true);
    assert raw[0] == '/';
    BaseIsPlain(raw);
    assert RawPath(base) == base;
  }

  /** Taking the wildcard off leaves a slash-led path without forbidden characters. */
  lemma BaseIsPlain(raw: string)
    requires EndsWithWildcard(raw) && raw[0] == '/' && '\\' !in raw && !HasEncodedSeparator(raw) && '?' !in raw
    ensures var base := BasePath(raw, true);
            base != "" && base[0] == '/' && '\\' !in base && '?' !in base && !HasEncodedSeparator(base)
  {
    if raw != "/**" {
      PrefixIsPlain(raw, |raw| - 3);
    }
  }

  lemma PrefixIsPlain(s: string, n: nat)
    requires n <= |s| && '\\' !in s && '?' !in s && !HasEncodedSeparator(s)
    ensures '\\' !in s[..n] && '?' !in s[..n] && !HasEncodedSeparator(s[..n])
  {
    assert forall c :: c in s[..n] ==> c in s;
    PrefixHasNoNewSeparator(s, n);
  }

  lemma PrefixHasNoNewSeparator(s: string, n: nat)
    requires n <= |s|
    ensures HasEncodedSeparator(s[..n]) ==> HasEncodedSeparator(s)
  {
    forall i | 0 <= i < n && EncodedSeparatorAt(s[..n], i)
      ensures EncodedSeparatorAt(s, i)
    {
      assert s[..n][i + 1..i + 3] == s[i + 1..i + 3];
    }
  }

  /** One recursive pattern covers another exactly when its segments are a prefix of the other's. */
  lemma RecursiveCover(outer: string, inner: string)
    requires NormalizePathValue(outer, true).Some? && NormalizePathValue(outer, true).value.recursive
    requires NormalizePathValue(inner, true).Some? && NormalizePathValue(inner, true).value.recursive
    ensures (forall path :: MatchPathPattern(inner, path) ==> MatchPathPattern(outer, path))
            <==> NormalizePathValue(outer, true).value.segments <= NormalizePathValue(inner, true).value.segments
  {
    var base := BasePath(RawPath(inner), true);
    BasePathIsWitness(inner);
    MatchMeaning(inner, base);
    MatchMeaning(outer, base);
    if NormalizePathValue(outer, true).value.segments <= NormalizePathValue(inner, true).value.segments {
      forall path | MatchPathPattern(inner, path)
        ensures MatchPathPattern(outer, path)
      {
        MatchMeaning(inner, path);
        MatchMeaning(outer, path);
      }
    }
  }

  lemma {:induction false} FilterTotal(parts: seq<string>)
    ensures var kept := Filter(parts, NonEmpty);
            Total(kept) == Total(parts) && |kept| <= |parts| && ("" in parts ==> |kept| < |parts|)
  {
    if parts != [] {
      FilterTotal(parts[1..]);
    }
  }

  lemma {:induction false} DecodeTotal(raw: seq<string>)
    requires DecodeAll(raw).Some?
    ensures Total(DecodeAll(raw).value) <= Total(raw)
    ensures (exists p :: p in raw && '%' in p) ==> Total(DecodeAll(raw).value) < Total(raw)
  {
    if raw != [] {
      DecodeTotal(raw[1..]);
      assert DecodeSegment(raw[0]).Some?;
      assert raw == [raw[0]] + raw[1..];
    }
  }

  lemma {:induction false} CharInJoin(parts: seq<string>, c: char)
    requires c != '/' && c in Join(parts, '/')
    ensures exists p :: p in parts && c in p
  {
    if |parts| > 1 {
      if c in parts[0] {
        assert parts[0] in parts;
      } else {
        CharInJoin(parts[1..], c);
        var p :| p in parts[1..] && c in p;
        assert p in parts;
      }
    } else if |parts| == 1 {
      assert parts[0] in parts;
    }
  }

  /** Normalising never lengthens a slash-led path, and shortens it when a query or an escape is removed. */
  lemma NormalizingShortens(path: string)
    requires path != "" && path[0] == '/' && NormalizePathValue(path, false).Some?
    ensures '%' in path || '?' in path ==> |NormalizeRequestPath(path).value| < |path|
  {
    var n := NormalizePathValue(path, false).value;
    var raw := RawPath(path);
    NormalizedPathSplitsBack(path, false);
    JoinSplit(path, '?');
    JoinLength(Split(path, '?'), '?');
    assert raw == Split(path, '?')[0];
    assert Total(Split(path, '?')) == |raw| + Total(Split(path, '?')[1..]);
    assert |raw| <= |path| && ('?' in path ==> |raw| < |path|);
    var parts := Split(raw, '/');
    assert raw[0] == '/';
    assert parts[0] == "";
    JoinSplit(raw, '/');
    JoinLength(parts, '/');
    FilterTotal(parts);
    DecodeTotal(RawSegments(raw));
    JoinLength(n.segments, '/');
    if '?' !in path && '%' in path {
      CharInJoin(parts, '%');
    }
  }

  /**
   * Normalising a normalised path changes nothing exactly when no decoded segment holds a percent
   * sign or a question mark.
   */
  lemma IdempotentIff(path: string)
    requires NormalizePathValue(path, false).Some?
    ensures var n := NormalizePathValue(path, false).value;
            NormalizeRequestPath(n.normalizedPath) == Some(n.normalizedPath)
            <==> forall s :: s in n.segments ==> '%' !in s && '?' !in s
  {
    var n := NormalizePathValue(path, false).value;
    var again := n.normalizedPath;
    NormalizedPathSplitsBack(path, false);
    if forall s :: s in n.segments ==> '%' !in s && '?' !in s {
      PlainPathIsFixed(n.segments);
    } else {
      var s :| s in n.segments && ('%' in s || '?' in s);
      var i :| 0 <= i < |n.segments| && n.segments[i] == s;
      JoinContains(n.segments, i);
      if NormalizePathValue(again, false).Some? {
        NormalizingShortens(again);
      }
    }
  }

  lemma {:induction false} JoinContains(parts: seq<string>, i: nat)
    requires i < |parts|
    ensures forall c :: c in parts[i] ==> c in Join(parts, '/')
  {
    if i > 0 {
      JoinContains(parts[1..], i - 1);
    }
  }

  lemma {:induction false} DecodePlain(segments: seq<string>)
    requires forall i :: 0 <= i < |segments| ==> SegmentAllowed(segments[i]) && '%' !in segments[i]
    ensures DecodeAll(segments) == Some(segments)
  {
    if segments != [] {
      DecodePlain(segments[1..]);
      assert [segments[0]] + segments[1..] == segments;
    }
  }

  lemma PlainPathIsFixed(segments: seq<string>)
    requires forall i :: 0 <= i < |segments| ==> SegmentAllowed(segments[i]) && '%' !in segments[i] && '?' !in segments[i]
    ensures NormalizeRequestPath("/" + Join(segments, '/')) == Some("/" + Join(segments, '/'))
  {
    var path := "/" + Join(segments, '/');
    PlainPathIsRaw(segments);
    JoinedSegments(segments);
    DecodePlain(segments);
    NormalizedTextIs(segments);
    NoPercentNoEscape(path);
    assert DecodeAll(RawSegments(BasePath(path, false))) == Some(segments);
  }

  lemma PlainPathIsRaw(segments: seq<string>)
    requires forall i :: 0 <= i < |segments| ==> SegmentAllowed(segments[i]) && '%' !in segments[i] && '?' !in segments[i]
    ensures var path := "/" + Join(segments, '/');
            RawPath(path) == path && '%' !in path && '\\' !in path
  {
    var path := "/" + Join(segments, '/');
    forall c | c in ['%', '?', '\\']
      ensures c !in path
    {
      if c in path {
        assert c in Join(segments, '/');
        CharInJoin(segments, c);
      }
    }
    assert '%' !in path && '?' !in path && '\\' !in path;
  }

  lemma NoPercentNoEscape(s: string)
    requires '%' !in s
    ensures !HasEncodedSeparator(s)
  {
  }
}
