/** The two identifier parsers behind the page's input boxes (src/client/index.ts). */
module Identifiers {
  import opened Playback
  import opened JsString

  // ---------------------------------------------------------------------------
  // YouTube video ids
  // ---------------------------------------------------------------------------

  /** What `new URL(input)` exposes to the parser: `searchParams.get('v')`, `hostname`
      and `pathname`. The WHATWG URL parser itself is not modelled; the parser is given
      as a function that yields None where the constructor throws. */
  datatype Url = Url(v: Option<string>, hostname: string, pathname: string)

  const ShortHost := "youtu.be"

  /** `s.slice(1)`: everything after the first character, "" for "". */
  function DropFirst(s: string): (r: string)
    ensures s == [] ==> r == []
    ensures s != [] ==> s == [s[0]] + r
  {
    if s == [] then [] else s[1..]
  }

  /** `parseYouTubeId`: the `v` query parameter of a URL, else the path of a youtu.be
      short link, else the trimmed input itself. */
  function ParseYouTubeId(input: string, parseUrl: string -> Option<Url>): (r: string)
    ensures var u := parseUrl(Trim(input));
            u.None? ==> r == Trim(input)
    ensures var u := parseUrl(Trim(input));
            u.Some? && Truthy(u.value.v) ==> r == u.value.v.value
    ensures var u := parseUrl(Trim(input));
            u.Some? && !Truthy(u.value.v) && u.value.hostname == ShortHost ==>
              (u.value.pathname == [] ==> r == []) &&
              (u.value.pathname != [] ==> u.value.pathname == [u.value.pathname[0]] + r)
    ensures var u := parseUrl(Trim(input));
            u.Some? && !Truthy(u.value.v) && u.value.hostname != ShortHost ==> r == Trim(input)
  {
    var t := Trim(input);
    match parseUrl(t)
    case None => t
    case Some(u) =>
      if Truthy(u.v) then u.v.value
      else if u.hostname == ShortHost then DropFirst(u.pathname)
      else t
  }

  /** A raw id (input that is not a URL) comes out as its own parse: applying the
      parser to its own output changes nothing. */
  lemma RawYouTubeIdIsFixed(input: string, parseUrl: string -> Option<Url>)
    requires parseUrl(Trim(input)).None?
    ensures ParseYouTubeId(ParseYouTubeId(input, parseUrl), parseUrl) == ParseYouTubeId(input, parseUrl)
  {
    TrimIdempotent(input);
  }

  // ---------------------------------------------------------------------------
  // Spotify URIs: /open\.spotify\.com\/(track|album|playlist)\/([A-Za-z0-9]+)/
  // ---------------------------------------------------------------------------

  const Host := "open.spotify.com/"
  const Kinds := ["track", "album", "playlist"]

  predicate IsAlnum(c: char)
  {
    ('A' <= c <= 'Z') || ('a' <= c <= 'z') || ('0' <= c <= '9')
  }

  predicate AllAlnum(s: string)
  {
    forall i :: 0 <= i < |s| ==> IsAlnum(s[i])
  }

  /** The greedy `[A-Za-z0-9]*` at the start of `s`: the longest alphanumeric prefix. */
  function AlnumRun(s: string): (r: string)
    ensures r <= s && AllAlnum(r)
    ensures |r| == |s| || !IsAlnum(s[|r|])
  {
    if s != [] && IsAlnum(s[0]) then [s[0]] + AlnumRun(s[1..]) else []
  }

  /** The two capture groups of a match. */
  datatype SpotifyLink = SpotifyLink(kind: string, id: string)

  /** Reference definition of the regular expression: it matches at position `i` of `s`
      with capture groups `kind` and `id` (the second group taken greedily). */
  ghost predicate MatchesAt(s: string, i: nat, kind: string, id: string)
  {
    i <= |s| && kind in Kinds && id != [] && AllAlnum(id) &&
    Host + kind + "/" + id <= s[i..] &&
    var end := i + |Host| + |kind| + 1 + |id|;
    end == |s| || !IsAlnum(s[end])
  }

  /** The regular expression does not match at position `i` of `s`. */
  ghost predicate NoMatchAt(s: string, i: nat)
  {
    forall kind, id :: !MatchesAt(s, i, kind, id)
  }

  /** `p` is a prefix of `s`, one character at a time. */
  predicate StartsWith(s: string, p: string)
    decreases |p|
  {
    |p| <= |s| && (p == [] || (s[0] == p[0] && StartsWith(s[1..], p[1..])))
  }

  /** StartsWith is the prefix relation on sequences. */
  lemma {:induction false} StartsWithIsPrefix(s: string, p: string)
    ensures StartsWith(s, p) <==> p <= s
    decreases |p|
  {
    if p != [] && |p| <= |s| {
      StartsWithIsPrefix(s[1..], p[1..]);
      if p[1..] <= s[1..] && s[0] == p[0] {
        assert p == [p[0]] + p[1..];
        assert s[..|p|] == [s[0]] + s[1..][..|p| - 1];
      }
      if p <= s {
        assert p[1..] == s[..|p|][1..];
      }
    }
  }

  /** The kind whose `kind/` follows the host at the start of `s`, if any. The three kinds
      start with different letters, so at most one can follow. */
  function KindAfterHost(s: string): (r: Option<string>)
    ensures r.Some? ==> r.value in Kinds && StartsWith(s, Host + r.value + "/")
    ensures r.None? ==> forall k :: k in Kinds ==> !StartsWith(s, Host + k + "/")
  {
    if StartsWith(s, Host + "track" + "/") then Some("track")
    else if StartsWith(s, Host + "album" + "/") then Some("album")
    else if StartsWith(s, Host + "playlist" + "/") then Some("playlist")
    else None
  }

  /** Two maximal alphanumeric runs that start at the same place are equal. */
  lemma MaximalRunUnique(s: string, a: string, b: string)
    requires a != [] && AllAlnum(a) && a <= s && (|a| == |s| || !IsAlnum(s[|a|]))
    requires AllAlnum(b) && b <= s && (|b| == |s| || !IsAlnum(s[|b|]))
    ensures a == b
  {
    assert |a| == |b|;
    assert a == s[..|a|] == b;
  }

  /** `a + b` is a prefix of `s` exactly when `a` is and `b` is a prefix of the rest. */
  lemma PrefixConcat(a: string, b: string, s: string)
    ensures a + b <= s <==> a <= s && b <= s[|a|..]
  {
    if a <= s && b <= s[|a|..] {
      assert s[..|a| + |b|] == s[..|a|] + s[|a|..][..|b|];
    }
    if a + b <= s {
      assert (a + b)[..|a|] == a;
      assert (a + b)[|a|..] == b;
    }
  }

  /** At most one kind can follow the host at one place. */
  lemma KindUnique(s: string, k: string, k': string)
    requires k in Kinds && k' in Kinds
    requires Host + k + "/" <= s && Host + k' + "/" <= s
    ensures k == k'
  {
    assert s[|Host|] == (Host + k + "/")[|Host|] == k[0];
    assert s[|Host|] == (Host + k' + "/")[|Host|] == k'[0];
  }

  /** A match at `i`, read as its three parts. */
  lemma MatchParts(s: string, i: nat, kind: string, id: string)
    requires i <= |s| && kind in Kinds
    ensures Host + kind + "/" + id <= s[i..] <==>
            Host + kind + "/" <= s[i..] && id <= s[i..][|Host| + |kind| + 1..]
  {
    PrefixConcat(Host + kind + "/", id, s[i..]);
  }

  /** Position `i` of `s` read as the start of a match: a result is a match there. */
  function MatchAt(s: string, i: nat): (r: Option<SpotifyLink>)
    requires i <= |s|
    ensures r.Some? ==> MatchesAt(s, i, r.value.kind, r.value.id)
  {
    var rest := s[i..];
    match KindAfterHost(rest)
    case None => None
    case Some(kind) =>
      var id := AlnumRun(rest[|Host| + |kind| + 1..]);
      StartsWithIsPrefix(rest, Host + kind + "/");
      MatchParts(s, i, kind, id);
      if id == [] then None else Some(SpotifyLink(kind, id))
  }

  /** Every match at `i` is the one MatchAt finds: the groups are unique. */
  lemma MatchAtComplete(s: string, i: nat, kind: string, id: string)
    requires MatchesAt(s, i, kind, id)
    ensures MatchAt(s, i) == Some(SpotifyLink(kind, id))
  {
    var rest := s[i..];
    MatchParts(s, i, kind, id);
    StartsWithIsPrefix(rest, Host + kind + "/");
    var k := KindAfterHost(rest);
    StartsWithIsPrefix(rest, Host + k.value + "/");
    KindUnique(rest, k.value, kind);
    var tail := rest[|Host| + |kind| + 1..];
    MaximalRunUnique(tail, id, AlnumRun(tail));
  }

  /** No match at `i` exactly when MatchAt finds none. */
  lemma NoMatchAtIff(s: string, i: nat)
    requires i <= |s|
    ensures NoMatchAt(s, i) <==> MatchAt(s, i).None?
  {
    if MatchAt(s, i).None? {
      forall kind, id | MatchesAt(s, i, kind, id) ensures false {
        MatchAtComplete(s, i, kind, id);
      }
    }
  }

  /** The first place at or after `from` where the regular expression matches. */
  datatype Found = Found(at: nat, link: SpotifyLink)

  /** The leftmost match at or after `from`. */
  function FirstMatch(s: string, from: nat): (r: Option<Found>)
    requires from <= |s|
    ensures r.Some? ==> from <= r.value.at <= |s| && MatchAt(s, r.value.at) == Some(r.value.link)
    ensures r.Some? ==> forall j :: from <= j < r.value.at ==> MatchAt(s, j).None?
    ensures r.None? ==> forall j :: from <= j <= |s| ==> MatchAt(s, j).None?
    decreases |s| - from
  {
    match MatchAt(s, from)
    case Some(link) => Some(Found(from, link))
    case None =>
      if from == |s| then None
      else
        var r := FirstMatch(s, from + 1);
        assert r.Some? ==> forall j :: from <= j < r.value.at ==> MatchAt(s, j).None? by {
          if r.Some? {
            assert forall j :: from + 1 <= j < r.value.at ==> MatchAt(s, j).None?;
          }
        }
        r
  }

  /** The URI spelling `spotify:<kind>:<id>`. */
  function SpotifyUri(link: SpotifyLink): string
  {
    "spotify:" + link.kind + ":" + link.id
  }

  /** `parseSpotifyUri`: rewrite the first `open.spotify.com/<kind>/<id>` in the trimmed
      input to `spotify:<kind>:<id>`, or else return the trimmed input. */
  function ParseSpotifyUri(input: string): string
  {
    var t := Trim(input);
    match FirstMatch(t, 0)
    case Some(f) => SpotifyUri(f.link)
    case None => t
  }

  /** The leftmost match decides the result. */
  lemma ParseSpotifyUriRewritesFirstMatch(input: string, i: nat, kind: string, id: string)
    requires MatchesAt(Trim(input), i, kind, id)
    requires forall j :: 0 <= j < i ==> NoMatchAt(Trim(input), j)
    ensures ParseSpotifyUri(input) == "spotify:" + kind + ":" + id
  {
    var t := Trim(input);
    MatchAtComplete(t, i, kind, id);
    var f := FirstMatch(t, 0);
    assert f.Some?;
    if f.value.at < i {
      NoMatchAtIff(t, f.value.at);
    }
    assert f.value.at == i;
  }

  /** Without a match the result is the trimmed input. */
  lemma ParseSpotifyUriPassesThrough(input: string)
    requires forall j :: 0 <= j <= |Trim(input)| ==> NoMatchAt(Trim(input), j)
    ensures ParseSpotifyUri(input) == Trim(input)
  {
    var t := Trim(input);
    var f := FirstMatch(t, 0);
    if f.Some? {
      NoMatchAtIff(t, f.value.at);
    }
  }

  /** Where FirstMatch finds nothing the result is the trimmed input. */
  lemma ParseSpotifyUriWithoutMatch(input: string)
    requires FirstMatch(Trim(input), 0).None?
    ensures ParseSpotifyUri(input) == Trim(input)
  {
  }

  /** Every match has the host's `/` sixteen characters in. */
  lemma MatchHasSlash(s: string, j: nat)
    requires j <= |s| && MatchAt(s, j).Some?
    ensures j + 16 < |s| && s[j + 16] == '/'
  {
    var link := MatchAt(s, j).value;
    assert MatchesAt(s, j, link.kind, link.id);
    assert (Host + link.kind + "/" + link.id)[16] == '/';
  }

  /** A string without `/` has no match anywhere. */
  lemma NoSlashNoMatch(s: string)
    requires forall k :: 0 <= k < |s| ==> s[k] != '/'
    ensures forall j :: 0 <= j <= |s| ==> MatchAt(s, j).None?
  {
    forall j | 0 <= j <= |s| ensures MatchAt(s, j).None? {
      if MatchAt(s, j).Some? {
        MatchHasSlash(s, j);
      }
    }
  }

  /** Where no position matches, FirstMatch finds nothing. */
  lemma NothingToFind(s: string)
    requires forall j :: 0 <= j <= |s| ==> MatchAt(s, j).None?
    ensures FirstMatch(s, 0).None?
  {
  }

  /** Rewritten URIs contain no `/`. */
  lemma SpotifyUriHasNoSlash(link: SpotifyLink)
    requires link.kind in Kinds && AllAlnum(link.id)
    ensures forall k :: 0 <= k < |SpotifyUri(link)| ==> SpotifyUri(link)[k] != '/'
  {
    var u := SpotifyUri(link);
    forall k | 0 <= k < |u| ensures u[k] != '/' {
      if k >= 8 + |link.kind| + 1 {
        assert u[k] == link.id[k - (8 + |link.kind| + 1)];
      }
    }
  }

  /** Rewritten URIs start with `s` and end with the last character of the id. */
  lemma SpotifyUriIsTrimmed(link: SpotifyLink)
    requires link.id != [] && AllAlnum(link.id)
    ensures IsTrimmed(SpotifyUri(link))
  {
    var out := SpotifyUri(link);
    assert out[0] == 's';
    assert out[|out| - 1] == link.id[|link.id| - 1];
  }

  /** A trimmed string without `/` parses to itself. */
  lemma TrimmedWithoutSlashIsStable(s: string)
    requires IsTrimmed(s)
    requires forall k :: 0 <= k < |s| ==> s[k] != '/'
    ensures ParseSpotifyUri(s) == s
  {
    TrimmedIsFixed(s);
    NoSlashNoMatch(s);
    NothingToFind(s);
    ParseSpotifyUriWithoutMatch(s);
  }

  /** A rewritten URI parses to itself. */
  lemma SpotifyUriIsStable(link: SpotifyLink)
    requires link.kind in Kinds && link.id != [] && AllAlnum(link.id)
    ensures ParseSpotifyUri(SpotifyUri(link)) == SpotifyUri(link)
  {
    SpotifyUriIsTrimmed(link);
    SpotifyUriHasNoSlash(link);
    TrimmedWithoutSlashIsStable(SpotifyUri(link));
  }

  /** Parsing a parsed identifier changes nothing: a rewritten URI holds no link any
      more, and an unrewritten input is already trimmed. */
  lemma ParseSpotifyUriIdempotent(input: string)
    ensures ParseSpotifyUri(ParseSpotifyUri(input)) == ParseSpotifyUri(input)
  {
    var t := Trim(input);
    var f := FirstMatch(t, 0);
    if f.None? {
      TrimIdempotent(input);
    } else {
      assert MatchesAt(t, f.value.at, f.value.link.kind, f.value.link.id);
      SpotifyUriIsStable(f.value.link);
    }
  }
}
