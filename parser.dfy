/** despot/parser.py: recognising a reference (a `spotify:` URI, a web link,
    a `kind/id` path or a bare id) and expanding it into ordered batches of
    abstract tracks. The metadata fetches and the base-62 decoding are
    librespot's and enter as the opaque functions of an `Api` value. */
module Parser {
  import opened Wrappers
  import opened Exceptions
  import opened Utils
  import opened Enums
  import opened Models
  import Strings
  import Paths
  import Metadata

  /** `_fcbgvsl`: the rot13 of "fcbgvsl". */
  const Scheme: string := "spotify"

  predicate IsAlnum(c: char)
  {
    '0' <= c <= '9' || 'a' <= c <= 'z' || 'A' <= c <= 'Z'
  }

  /** `\w`, restricted to ASCII. */
  predicate IsWord(c: char)
  {
    IsAlnum(c) || c == '_'
  }

  predicate AllAlnum(s: string)
  {
    forall i :: 0 <= i < |s| ==> IsAlnum(s[i])
  }

  predicate StartsWith(s: string, prefix: string)
  {
    |prefix| <= |s| && s[..|prefix|] == prefix
  }

  /** `$` without MULTILINE: the end of the text, or a newline that ends it. */
  predicate AtEnd(r: string)
  {
    r == "" || r == "\n"
  }

  /** `.+?$`: at least one character other than a newline, up to the end or
      to a final newline. */
  predicate LazyRest(x: string)
  {
    (|x| >= 1 && Strings.Lacks(x, '\n'))
    || (|x| >= 2 && x[|x| - 1] == '\n' && Strings.Lacks(x[..|x| - 1], '\n'))
  }

  /** `(?:\?si=.+?)?$` at the start of the text after the id. */
  predicate IdTail(r: string)
  {
    AtEnd(r) || (StartsWith(r, "?si=") && LazyRest(r[4..]))
  }

  /** `ITEM_ID_RE.match(s)`: an optional '/', exactly 22 letters or digits,
      then the tail above; the id when it matches. Leaving the '/' out
      cannot rescue a failed match, as the id cannot start with '/'. */
  function MatchId(s: string): (r: Option<string>)
    ensures r.Some? ==> |r.value| == 22 && AllAlnum(r.value)
  {
    var t := if |s| > 0 && s[0] == '/' then s[1..] else s;
    if |t| >= 22 && AllAlnum(t[..22]) && IdTail(t[22..]) then Some(t[..22]) else None
  }

  /** The first of `values` that `t` starts with, and the text after it. */
  function FirstPrefix(t: string, values: seq<string>): (r: Option<(string, string)>)
    ensures r.Some? ==> r.value.0 in values && t == r.value.0 + r.value.1
  {
    if |values| == 0 then None
    else if StartsWith(t, values[0]) then
      assert t == t[..|values[0]|] + t[|values[0]|..];
      Some((values[0], t[|values[0]|..]))
    else FirstPrefix(t, values[1..])
  }

  /** `/?(?P<item_type>track|episode|album|artist|show)` at the start of `s`.
      No value is a prefix of another, so the first alternative that fits is
      the only one, and backtracking never picks another. */
  function MatchKind(s: string): (r: Option<(string, string)>)
    ensures r.Some? ==> FromValue(r.value.0).Some?
    ensures r.Some? ==> (if |s| > 0 && s[0] == '/' then s[1..] else s) == r.value.0 + r.value.1
  {
    var t := if |s| > 0 && s[0] == '/' then s[1..] else s;
    var r := FirstPrefix(t, MemberValues());
    if r.Some? then MemberValueKnown(r.value.0); r else r
  }

  lemma MemberValueKnown(v: string)
    requires v in MemberValues()
    ensures FromValue(v).Some?
  {
    var vs := MemberValues();
    var i :| 0 <= i < |vs| && vs[i] == v;
    FromValueRoundTrip(Members[i]);
  }

  /** `ITEM_PATH_RE.match(s)`: the kind and the id. */
  function MatchPath(s: string): (r: Option<(string, string)>)
    ensures r.Some? ==> FromValue(r.value.0).Some? && |r.value.1| == 22 && AllAlnum(r.value.1)
  {
    match MatchKind(s)
    case None => None
    case Some((kind, rest)) =>
      match MatchId(rest)
      case None => None
      case Some(id) => Some((kind, id))
  }

  /** The length of the run of word characters that `s` starts with. */
  function WordRun(s: string): (n: nat)
    ensures n <= |s| && forall i :: 0 <= i < n ==> IsWord(s[i])
    ensures n < |s| ==> !IsWord(s[n])
  {
    if |s| == 0 || !IsWord(s[0]) then 0 else 1 + WordRun(s[1..])
  }

  /** `ITEM_URL_RE.match(s)`: an optional "http://" or "https://", then
      "open.", a run of word characters, ".com", and a kind and an id. The
      run stops at the first non-word character, and '.' is one, so `\w+`
      has a single way to reach `\.com`. */
  function MatchUrl(s: string): (r: Option<(string, string)>)
    ensures r.Some? ==> FromValue(r.value.0).Some? && |r.value.1| == 22 && AllAlnum(r.value.1)
  {
    var a := if StartsWith(s, "https://") then s[8..] else if StartsWith(s, "http://") then s[7..] else s;
    if !StartsWith(a, "open.") then None
    else
      var b := a[5..];
      var n := WordRun(b);
      if n >= 1 && StartsWith(b[n..], ".com") then MatchPath(b[n + 4..]) else None
  }

  /** The form `parse` recognises, tried in this order. */
  datatype Form =
    | UriForm(kind: string, id: string)   // "spotify:<kind>:<id>"
    | UriMalformed(pieces: nat)           // starts with "spotify:" but does not split into three
    | LinkForm(kind: string, id: string)  // a web link or a "<kind>/<id>" path
    | BareId(id: string)                  // a bare id, taken as a track
    | NoMatch

  function Classify(s: string): Form
  {
    if StartsWith(s, Scheme + ":") then
      var parts := Strings.Split(s, ':');
      if |parts| == 3 then UriForm(parts[1], parts[2]) else UriMalformed(|parts|)
    else
      match MatchUrl(s)
      case Some((kind, id)) => LinkForm(kind, id)
      case None =>
        match MatchPath(s)
        case Some((kind, id)) => LinkForm(kind, id)
        case None =>
          match MatchId(s)
          case Some(id) => BareId(id)
          case None => NoMatch
  }

  /** What each form guarantees: a link names one of the five kinds and a
      22-character id; a bare id is 22 letters or digits; a URI's pieces hold
      no ':' and its kind is not checked here. */
  lemma ClassifySound(s: string)
    ensures Classify(s).LinkForm? ==> FromValue(Classify(s).kind).Some? && |Classify(s).id| == 22 && AllAlnum(Classify(s).id)
    ensures Classify(s).BareId? ==> |Classify(s).id| == 22 && AllAlnum(Classify(s).id)
    ensures (Classify(s).UriForm? || Classify(s).UriMalformed?) <==> StartsWith(s, "spotify:")
  {
  }

  /** A tail the id pattern accepts is empty or starts with '\n' or '?'. */
  lemma IdTailStart(tail: string)
    requires IdTail(tail)
    ensures tail == "" || tail[0] == '\n' || tail[0] == '?'
  {
    if StartsWith(tail, "?si=") {
      assert tail[0] == "?si="[0];
    }
  }

  /** A 22-character id followed by an accepted tail matches, with or
      without a leading '/'. */
  lemma MatchIdOf(id: string, tail: string)
    requires |id| == 22 && AllAlnum(id) && IdTail(tail)
    ensures MatchId(id + tail) == Some(id)
    ensures MatchId("/" + id + tail) == Some(id)
  {
    assert (id + tail)[..22] == id && (id + tail)[22..] == tail;
    assert ("/" + id + tail)[1..] == id + tail;
  }

  /** Fewer than 22 letters or digits before an accepted tail do not match. */
  lemma MatchIdShort(x: string, tail: string)
    requires 0 < |x| < 22 && AllAlnum(x) && IdTail(tail)
    ensures MatchId(x + tail) == None
  {
    IdTailStart(tail);
    var t := x + tail;
    assert t[0] == x[0];
    if |t| >= 22 {
      assert t[..22][|x|] == tail[0];
    }
  }

  /** The first prefix found is the first of `values` that fits. */
  lemma {:induction false} FirstPrefixAt(t: string, values: seq<string>, k: nat)
    requires k < |values| && StartsWith(t, values[k])
    requires forall j :: 0 <= j < k ==> !StartsWith(t, values[j])
    ensures FirstPrefix(t, values) == Some((values[k], t[|values[k]|..]))
  {
    if k > 0 {
      assert !StartsWith(t, values[0]);
      FirstPrefixAt(t, values[1..], k - 1);
    }
  }

  /** No kind's value starts another kind's value, and none starts with '/'. */
  lemma KindPrefixFree(t: ItemType, rest: string)
    ensures (Enums.Value(t) + rest)[0] != '/'
    ensures FirstPrefix(Enums.Value(t) + rest, MemberValues()) == Some((Enums.Value(t), rest))
  {
    var v := Enums.Value(t);
    var s := v + rest;
    assert s[..|v|] == v && s[|v|..] == rest;
    var vs := MemberValues();
    assert vs == ["track", "episode", "album", "artist", "show"];
    assert s[0] == v[0] && s[1] == v[1];
    var k := match t case TRACK => 0 case EPISODE => 1 case ALBUM => 2 case ARTIST => 3 case SHOW => 4;
    assert vs[k] == v;
    forall j | 0 <= j < k
      ensures !StartsWith(s, vs[j])
    {
      assert vs[j][0] != s[0] || vs[j][1] != s[1];
    }
    FirstPrefixAt(s, vs, k);
  }

  /** A kind's value, with or without a leading '/', is recognised as that
      kind. */
  lemma MatchKindOf(t: ItemType, rest: string)
    ensures MatchKind(Enums.Value(t) + rest) == Some((Enums.Value(t), rest))
    ensures MatchKind("/" + Enums.Value(t) + rest) == Some((Enums.Value(t), rest))
  {
    var s := Enums.Value(t) + rest;
    KindPrefixFree(t, rest);
    assert MatchKind(s) == FirstPrefix(s, MemberValues());
    var u := "/" + s;
    assert u[0] == '/' && u[1..] == s;
    assert MatchKind(u) == FirstPrefix(s, MemberValues());
    assert "/" + Enums.Value(t) + rest == u;
  }

  /** A run of word characters stops at the first character that is not
      one. */
  lemma {:induction false} WordRunOf(w: string, r: string)
    requires forall i :: 0 <= i < |w| ==> IsWord(w[i])
    requires |r| > 0 && !IsWord(r[0])
    ensures WordRun(w + r) == |w|
  {
    if |w| > 0 {
      assert (w + r)[1..] == w[1..] + r;
      WordRunOf(w[1..], r);
    } else {
      assert w + r == r;
    }
  }

  /** The order of the alternatives: a text that is no URI is a link when
      the web-link pattern, or failing that the path pattern, matches. */
  lemma ClassifyLink(s: string, kind: string, id: string)
    requires !StartsWith(s, Scheme + ":")
    requires MatchUrl(s) == Some((kind, id)) || (MatchUrl(s).None? && MatchPath(s) == Some((kind, id)))
    ensures Classify(s) == LinkForm(kind, id)
  {
  }

  /** A text that is no URI and no link is a bare id when the id pattern
      matches. */
  lemma ClassifyBare(s: string, id: string)
    requires !StartsWith(s, Scheme + ":") && MatchUrl(s).None? && MatchPath(s).None? && MatchId(s) == Some(id)
    ensures Classify(s) == BareId(id)
  {
  }

  /** Without "https://", "http://" or "open." at its start, a text is no web
      link. */
  lemma MatchUrlNone(s: string)
    requires !StartsWith(s, "https://") && !StartsWith(s, "http://") && !StartsWith(s, "open.")
    ensures MatchUrl(s).None?
  {
  }

  /** "<kind>/<id>" with an accepted tail matches the path pattern. */
  lemma MatchPathOf(t: ItemType, id: string, tail: string)
    requires |id| == 22 && AllAlnum(id) && IdTail(tail)
    ensures MatchPath(Enums.Value(t) + "/" + id + tail) == Some((Enums.Value(t), id))
    ensures MatchPath("/" + Enums.Value(t) + "/" + id + tail) == Some((Enums.Value(t), id))
  {
    var rest := "/" + id + tail;
    assert Enums.Value(t) + "/" + id + tail == Enums.Value(t) + rest;
    assert "/" + Enums.Value(t) + "/" + id + tail == "/" + Enums.Value(t) + rest;
    MatchKindOf(t, rest);
    MatchIdOf(id, tail);
  }

  /** "<kind>/<id>" with an accepted tail is a link of that kind and id. */
  lemma PathRecognised(t: ItemType, id: string, tail: string)
    requires |id| == 22 && AllAlnum(id) && IdTail(tail)
    ensures Classify(Enums.Value(t) + "/" + id + tail) == LinkForm(Enums.Value(t), id)
  {
    var s := Enums.Value(t) + "/" + id + tail;
    assert s[0] == Enums.Value(t)[0] && s[1] == Enums.Value(t)[1];
    assert !StartsWith(s, Scheme + ":");
    assert !StartsWith(s, "https://") && !StartsWith(s, "http://") && !StartsWith(s, "open.");
    MatchUrlNone(s);
    MatchPathOf(t, id, tail);
    ClassifyLink(s, Enums.Value(t), id);
  }

  /** The web-link prefix leads straight to the path pattern. */
  lemma UrlPrefix(path: string)
    requires |path| > 0 && path[0] == '/'
    ensures MatchUrl("https://open.spotify.com" + path) == MatchPath(path)
  {
    var s := "https://open.spotify.com" + path;
    assert StartsWith(s, "https://");
    var a := s[8..];
    assert a == "open.spotify.com" + path;
    assert StartsWith(a, "open.");
    var b := a[5..];
    assert b == "spotify" + (".com" + path);
    WordRunOf("spotify", ".com" + path);
    assert b[7..] == ".com" + path;
    assert b[11..] == path;
  }

  lemma UrlText(v: string, id: string, tail: string)
    ensures "https://open.spotify.com" + ("/" + v + "/" + id + tail) == "https://open.spotify.com/" + v + "/" + id + tail
  {
    var h := "https://open.spotify.com";
    assert h + "/" == "https://open.spotify.com/";
    Strings.ConcatAssoc(h, "/" + v + "/" + id, tail);
    Strings.ConcatAssoc(h, "/" + v + "/", id);
    Strings.ConcatAssoc(h, "/" + v, "/");
    Strings.ConcatAssoc(h, "/", v);
  }

  /** "https://open.spotify.com/<kind>/<id>" with an accepted tail is a link
      of that kind and id. */
  lemma UrlRecognised(t: ItemType, id: string, tail: string)
    requires |id| == 22 && AllAlnum(id) && IdTail(tail)
    ensures Classify("https://open.spotify.com/" + Enums.Value(t) + "/" + id + tail) == LinkForm(Enums.Value(t), id)
  {
    var path := "/" + Enums.Value(t) + "/" + id + tail;
    var s := "https://open.spotify.com" + path;
    UrlText(Enums.Value(t), id, tail);
    assert !StartsWith(s, Scheme + ":") by { assert s[0] == 'h'; }
    UrlPrefix(path);
    MatchPathOf(t, id, tail);
    ClassifyLink(s, Enums.Value(t), id);
  }

  /** Every kind's value is four to seven characters long. */
  lemma ValueLength(t: ItemType)
    ensures 4 <= |Enums.Value(t)| <= 7
  {
  }

  /** Only an optional '/' and a kind's value can start a path match. */
  lemma MatchPathBare(id: string, tail: string)
    requires |id| == 22 && AllAlnum(id) && IdTail(tail)
    ensures MatchPath(id + tail).None?
  {
    var s := id + tail;
    assert s[0] == id[0] && s[0] != '/';
    match MatchKind(s)
    case None =>
    case Some((v, rest)) =>
      ValueLength(FromValue(v).value);
      assert s[..22] == id;
      assert rest == s[|v|..] == id[|v|..] + tail;
      MatchIdShort(id[|v|..], tail);
  }

  /** A bare 22-character id with an accepted tail is a bare id, even when it
      starts with a kind's value. */
  lemma BareIdRecognised(id: string, tail: string)
    requires |id| == 22 && AllAlnum(id) && IdTail(tail)
    ensures Classify(id + tail) == BareId(id)
  {
    var s := id + tail;
    assert s[4] == id[4] && s[5] == id[5] && s[7] == id[7];
    assert !StartsWith(s, Scheme + ":") by { assert (Scheme + ":")[7] == ':'; }
    assert !StartsWith(s, "https://") by { assert "https://"[5] == ':'; }
    assert !StartsWith(s, "http://") by { assert "http://"[4] == ':'; }
    assert !StartsWith(s, "open.") by { assert "open."[4] == '.'; }
    MatchUrlNone(s);
    MatchPathBare(id, tail);
    MatchIdOf(id, tail);
    ClassifyBare(s, id);
  }

  /** "spotify:<kind>:<id>" splits into its three pieces when neither the
      kind nor the id holds a ':'; the kind is not checked here. */
  lemma UriRecognised(kind: string, id: string)
    requires Strings.Lacks(kind, ':') && Strings.Lacks(id, ':')
    ensures Classify("spotify:" + kind + ":" + id) == UriForm(kind, id)
  {
    var s := "spotify:" + kind + ":" + id;
    assert s == "spotify" + [':'] + (kind + [':'] + id);
    Strings.SplitJoin("spotify", kind + [':'] + id, ':');
    Strings.SplitJoin(kind, id, ':');
    Strings.SplitLacking(id, ':');
    assert StartsWith(s, Scheme + ":");
  }

  /** "spotify:<kind>" splits into two pieces only. */
  lemma ShortUriRecognised(kind: string)
    requires Strings.Lacks(kind, ':')
    ensures Classify("spotify:" + kind) == UriMalformed(2)
  {
    var s := "spotify:" + kind;
    assert s == "spotify" + [':'] + kind;
    Strings.SplitJoin("spotify", kind, ':');
    Strings.SplitLacking(kind, ':');
    assert StartsWith(s, Scheme + ":");
  }

  /** One playable item of a batch and the kind it was reached from. */
  datatype TrackRef = TrackRef(id: PlayableId, originating: Kind)

  /** A batch as the parser builds it, before any track is populated. */
  datatype BatchSpec = BatchSpec(kind: Kind, refs: seq<TrackRef>, description: Option<string>, context: map<string, string>)

  /** A run of the `parse` generator: the batches it yields, in order, and
      the exception that ends it, if one does. */
  datatype Parsed = Parsed(batches: seq<BatchSpec>, error: Option<Exc>)

  /** The metadata fields the parser reads; gids are already hexadecimal. */
  datatype AlbumMeta = AlbumMeta(name: string, artists: seq<Artist>, discs: seq<seq<string>>)
  datatype ShowMeta = ShowMeta(name: string, episodes: seq<string>)
  datatype ArtistMeta = ArtistMeta(albumGroups: seq<seq<string>>)
  datatype PlaylistMeta = PlaylistMeta(name: string, entries: seq<string>)

  /** librespot as the parser sees it: the base-62 decoding of an id into a
      hexadecimal gid, and the four metadata fetches, each of which may
      raise. */
  datatype Api = Api(
    hexGid: string -> Result<string, Exc>,
    album: string -> Result<AlbumMeta, Exc>,
    show: string -> Result<ShowMeta, Exc>,
    artist: string -> Result<ArtistMeta, Exc>,
    playlist: string -> Result<PlaylistMeta, Exc>)

  /** The nested comprehension `for outer in xss for x in outer`. */
  function Flatten<T>(xss: seq<seq<T>>): seq<T>
  {
    if |xss| == 0 then [] else xss[0] + Flatten(xss[1..])
  }

  lemma {:induction false} FlattenAppend<T>(a: seq<seq<T>>, b: seq<seq<T>>)
    ensures Flatten(a + b) == Flatten(a) + Flatten(b)
  {
    if |a| == 0 {
      assert a + b == b;
    } else {
      assert (a + b)[0] == a[0];
      assert (a + b)[1..] == a[1..] + b;
      FlattenAppend(a[1..], b);
    }
  }

  /** Outer order first, then inner order: element `j` of `xss[d]` sits right
      after everything of the earlier sequences. */
  lemma FlattenIndex<T>(xss: seq<seq<T>>, d: nat, j: nat)
    requires d < |xss| && j < |xss[d]|
    ensures |Flatten(xss[..d])| + j < |Flatten(xss)|
    ensures Flatten(xss)[|Flatten(xss[..d])| + j] == xss[d][j]
  {
    assert xss == xss[..d] + xss[d..];
    FlattenAppend(xss[..d], xss[d..]);
    assert xss[d..][0] == xss[d];
  }

  /** `reversed(s)`. */
  function Reverse<T>(s: seq<T>): (r: seq<T>)
    ensures |r| == |s|
  {
    if |s| == 0 then [] else Reverse(s[1..]) + [s[0]]
  }

  lemma {:induction false} ReverseIndex<T>(s: seq<T>, i: nat)
    requires i < |s|
    ensures Reverse(s)[i] == s[|s| - 1 - i]
  {
    if i < |s| - 1 {
      ReverseIndex(s[1..], i);
    }
  }

  function TrackIds(gids: seq<string>): (r: seq<PlayableId>)
    ensures |r| == |gids| && forall i :: 0 <= i < |gids| ==> r[i] == TrackId(gids[i])
  {
    seq(|gids|, i requires 0 <= i < |gids| => TrackId(gids[i]))
  }

  function EpisodeIds(gids: seq<string>): (r: seq<PlayableId>)
    ensures |r| == |gids| && forall i :: 0 <= i < |gids| ==> r[i] == EpisodeId(gids[i])
  {
    seq(|gids|, i requires 0 <= i < |gids| => EpisodeId(gids[i]))
  }

  /** Abstract tracks for `ids`, all reached from `originating`. */
  function RefsFor(ids: seq<PlayableId>, originating: Kind): (r: seq<TrackRef>)
    ensures |r| == |ids| && forall i :: 0 <= i < |ids| ==> r[i] == TrackRef(ids[i], originating)
  {
    seq(|ids|, i requires 0 <= i < |ids| => TrackRef(ids[i], originating))
  }

  /** `_parse_album`: the album's artist text is computed before the tracks,
      so an album without artists raises ValueError. */
  function AlbumSpec(api: Api, gid: string, originating: Kind): Result<BatchSpec, Exc>
  {
    match api.album(gid)
    case Err(e) => Err(e)
    case Ok(m) =>
      match FormatArtist(m.artists)
      case Err(e) => Err(e)
      case Ok(artist) =>
        Ok(BatchSpec(Member(ALBUM), RefsFor(TrackIds(Flatten(m.discs)), originating),
                     Some("album '" + m.name + "' by " + artist), map[]))
  }

  /** `_parse_show`, always with the originating type SHOW. */
  function ShowSpec(api: Api, gid: string): Result<BatchSpec, Exc>
  {
    match api.show(gid)
    case Err(e) => Err(e)
    case Ok(m) =>
      Ok(BatchSpec(Member(SHOW), RefsFor(EpisodeIds(Reverse(m.episodes)), Member(SHOW)),
                   Some("episodes of " + m.name), map[]))
  }

  /** The album loop of `_parse_artist`: one batch per album, yielded until
      the first album that fails. */
  function ArtistAlbums(api: Api, albums: seq<string>): Parsed
  {
    if |albums| == 0 then Parsed([], None)
    else
      match AlbumSpec(api, albums[0], Member(ARTIST))
      case Err(e) => Parsed([], Some(e))
      case Ok(b) =>
        var rest := ArtistAlbums(api, albums[1..]);
        Parsed([b] + rest.batches, rest.error)
  }

  /** `_parse_artist`: the albums of every album group, in group order. */
  function ArtistSpec(api: Api, gid: string): Parsed
  {
    match api.artist(gid)
    case Err(e) => Parsed([], Some(e))
    case Ok(m) => ArtistAlbums(api, Flatten(m.albumGroups))
  }

  /** Python's message when a split does not unpack into three names. */
  function UnpackMessage(n: nat): string
  {
    if n < 3 then "not enough values to unpack (expected 3, got " + Strings.NatToString(n) + ")"
    else "too many values to unpack (expected 3)"
  }

  /** `originating_type or current_type`. */
  function OrElse(originating: Option<Kind>, current: Kind): Kind
  {
    if originating.Some? then originating.value else current
  }

  /** A generator that yields one batch, or raises before yielding. */
  function Single(r: Result<BatchSpec, Exc>): Parsed
  {
    match r
    case Ok(b) => Parsed([b], None)
    case Err(e) => Parsed([], Some(e))
  }

  /** The `match current_type` of `parse`. Only tracks and episodes take the
      caller's originating type. */
  function Dispatch(api: Api, t: ItemType, gid: string, originating: Option<Kind>): Parsed
  {
    match t
    case EPISODE => Single(Ok(BatchSpec(Member(EPISODE), RefsFor([EpisodeId(gid)], OrElse(originating, Member(EPISODE))), None, map[])))
    case SHOW => Single(ShowSpec(api, gid))
    case TRACK => Single(Ok(BatchSpec(Member(TRACK), RefsFor([TrackId(gid)], OrElse(originating, Member(TRACK))), None, map[])))
    case ALBUM => Single(AlbumSpec(api, gid, Member(ALBUM)))
    case ARTIST => ArtistSpec(api, gid)
  }

  /** The id is decoded before the kind is checked, so a bad id's error wins
      over a bad kind's. */
  function Resolve(api: Api, kind: string, id: string, originating: Option<Kind>): Parsed
  {
    match api.hexGid(id)
    case Err(e) => Parsed([], Some(e))
    case Ok(gid) =>
      match FromValue(kind)
      case None => Parsed([], Some(ValueError([NotValidMessage(kind)])))
      case Some(t) => Dispatch(api, t, gid, originating)
  }

  /** `LinkParser.parse(uri_or_link=s, originating_type=originating)`, run to
      its end: the text is classified, then the form is resolved. */
  function ParseSpec(api: Api, s: string, originating: Option<Kind>): Parsed
  {
    ParseForm(api, Classify(s), originating)
  }

  /** What `parse` does once the text's form is known. */
  function ParseForm(api: Api, f: Form, originating: Option<Kind>): Parsed
  {
    match f
    case NoMatch => Parsed([], None)
    case UriMalformed(n) => Parsed([], Some(ValueError([UnpackMessage(n)])))
    case UriForm(kind, id) => Resolve(api, kind, id, originating)
    case LinkForm(kind, id) => Resolve(api, kind, id, originating)
    case BareId(id) => Resolve(api, "track", id, originating)
  }

  /** The tracks of a run of batches, in order. */
  function BatchRefs(bs: seq<BatchSpec>): seq<TrackRef>
  {
    if |bs| == 0 then [] else bs[0].refs + BatchRefs(bs[1..])
  }

  /** The entry loop of `_parse_playlist` over the runs of its entries, in
      entry order: each run is drained (`list(...)`) and its tracks appended
      to the playlist batch; the first run that raises ends the fold. */
  function PlaylistFold(runs: seq<Parsed>): Result<seq<TrackRef>, Exc>
  {
    if |runs| == 0 then Ok([])
    else
      match PlaylistFold(runs[..|runs| - 1])
      case Err(e) => Err(e)
      case Ok(acc) =>
        var p := runs[|runs| - 1];
        if p.error.Some? then Err(p.error.value) else Ok(acc + BatchRefs(p.batches))
  }

  /** Each entry's run as `_parse_playlist` starts it: the playlist kind is
      the originating type. */
  function EntryRuns(api: Api, entries: seq<string>): (r: seq<Parsed>)
    ensures |r| == |entries| && forall i :: 0 <= i < |entries| ==> r[i] == ParseSpec(api, entries[i], Some(PlaylistKind))
  {
    seq(|entries|, i requires 0 <= i < |entries| => ParseSpec(api, entries[i], Some(PlaylistKind)))
  }

  /** `_parse_playlist` over an id, with the playlist kind this model adds. */
  function PlaylistSpec(api: Api, id: string): Result<BatchSpec, Exc>
  {
    match api.playlist(id)
    case Err(e) => Err(e)
    case Ok(m) =>
      match PlaylistFold(EntryRuns(api, m.entries))
      case Err(e) => Err(e)
      case Ok(refs) => Ok(BatchSpec(PlaylistKind, refs, Some("playlist " + m.name), map["playlist_name" := m.name]))
  }

  /** Track `j` of disc `d` sits in `refs` right after the tracks of the
      earlier discs, with the originating type `originating`. */
  predicate DiscSlot(discs: seq<seq<string>>, refs: seq<TrackRef>, originating: Kind, d: nat, j: nat)
    requires d < |discs| && j < |discs[d]|
  {
    |Flatten(discs[..d])| + j < |refs| && refs[|Flatten(discs[..d])| + j] == TrackRef(TrackId(discs[d][j]), originating)
  }

  /** `refs` lists the tracks of `discs` disc by disc, in track order within
      a disc. */
  predicate InDiscOrder(discs: seq<seq<string>>, refs: seq<TrackRef>, originating: Kind)
  {
    |refs| == |Flatten(discs)|
    && forall d: nat, j: nat :: d < |discs| && j < |discs[d]| ==> DiscSlot(discs, refs, originating, d, j)
  }

  lemma DiscOrder(discs: seq<seq<string>>, originating: Kind)
    ensures InDiscOrder(discs, RefsFor(TrackIds(Flatten(discs)), originating), originating)
  {
    forall d: nat, j: nat | d < |discs| && j < |discs[d]|
      ensures DiscSlot(discs, RefsFor(TrackIds(Flatten(discs)), originating), originating, d, j)
    {
      FlattenIndex(discs, d, j);
    }
  }

  /** An album's tracks are every track of every disc, disc by disc and in
      track order within a disc, all with the given originating type; an
      album without artists raises ValueError. */
  lemma AlbumSpecProperties(api: Api, gid: string, originating: Kind)
    requires api.album(gid).Ok?
    ensures var m := api.album(gid).value;
      AlbumSpec(api, gid, originating).Err? <==> |m.artists| == 0
    ensures var m := api.album(gid).value;
      |m.artists| == 0 ==> AlbumSpec(api, gid, originating) == Err(ValueError([]))
    ensures var m := api.album(gid).value;
      AlbumSpec(api, gid, originating).Ok? ==>
        var b := AlbumSpec(api, gid, originating).value;
        b.kind == Member(ALBUM) && b.context == map[]
        && b.description == Some("album '" + m.name + "' by " + FormatArtist(m.artists).value)
        && InDiscOrder(m.discs, b.refs, originating)
  {
    DiscOrder(api.album(gid).value.discs, originating);
  }

  /** A show's episodes come in the reverse of the metadata order, each with
      the originating type SHOW. */
  lemma ShowSpecProperties(api: Api, gid: string)
    ensures ShowSpec(api, gid).Ok? <==> api.show(gid).Ok?
    ensures api.show(gid).Ok? ==>
      var m := api.show(gid).value;
      var b := ShowSpec(api, gid).value;
      b.kind == Member(SHOW) && b.description == Some("episodes of " + m.name) && b.context == map[]
      && |b.refs| == |m.episodes|
      && forall i :: 0 <= i < |m.episodes| ==> b.refs[i] == TrackRef(EpisodeId(m.episodes[|m.episodes| - 1 - i]), Member(SHOW))
  {
    if api.show(gid).Ok? {
      var m := api.show(gid).value;
      forall i | 0 <= i < |m.episodes|
        ensures Reverse(m.episodes)[i] == m.episodes[|m.episodes| - 1 - i]
      {
        ReverseIndex(m.episodes, i);
      }
    }
  }

  /** An artist yields one album batch per album, in order and never merged,
      up to the first album that fails; that album's exception then ends the
      run. */
  lemma {:induction false} ArtistAlbumsPrefix(api: Api, albums: seq<string>)
    ensures var r := ArtistAlbums(api, albums);
      |r.batches| <= |albums|
      && (forall i :: 0 <= i < |r.batches| ==> AlbumSpec(api, albums[i], Member(ARTIST)) == Ok(r.batches[i]))
      && (r.error.None? <==> |r.batches| == |albums|)
      && (r.error.Some? ==> AlbumSpec(api, albums[|r.batches|], Member(ARTIST)) == Err(r.error.value))
  {
    if |albums| > 0 {
      ArtistAlbumsPrefix(api, albums[1..]);
      var r := ArtistAlbums(api, albums);
      if AlbumSpec(api, albums[0], Member(ARTIST)).Ok? {
        var rest := ArtistAlbums(api, albums[1..]);
        assert r.batches == [r.batches[0]] + rest.batches;
        forall i | 0 <= i < |r.batches|
          ensures AlbumSpec(api, albums[i], Member(ARTIST)) == Ok(r.batches[i])
        {
          if i > 0 {
            assert r.batches[i] == rest.batches[i - 1];
            assert albums[i] == albums[1..][i - 1];
          }
        }
        if r.error.Some? {
          assert albums[|r.batches|] == albums[1..][|rest.batches|];
        }
      }
    }
  }

  /** Every kind's value is free of ':'. */
  lemma ValueLacksColon(t: ItemType)
    ensures Strings.Lacks(Enums.Value(t), ':')
  {
    match t
    case TRACK => case EPISODE => case ALBUM => case ARTIST => case SHOW =>
  }

  /** A URI of a known kind dispatches on that kind once its id decodes. */
  lemma ParseUri(api: Api, t: ItemType, id: string, originating: Option<Kind>)
    requires Strings.Lacks(id, ':') && api.hexGid(id).Ok?
    ensures ParseSpec(api, "spotify:" + Enums.Value(t) + ":" + id, originating) == Dispatch(api, t, api.hexGid(id).value, originating)
  {
    ValueLacksColon(t);
    UriRecognised(Enums.Value(t), id);
    FromValueRoundTrip(t);
  }

  /** A URI whose kind is not an item type raises ValueError once its id
      decodes, and a URI that does not split into three pieces raises the
      ValueError of the failed unpacking. */
  lemma ParseUriErrors(api: Api, kind: string, id: string, originating: Option<Kind>)
    requires Strings.Lacks(kind, ':') && Strings.Lacks(id, ':')
    ensures api.hexGid(id).Ok? && FromValue(kind).None? ==>
      ParseSpec(api, "spotify:" + kind + ":" + id, originating) == Parsed([], Some(ValueError([NotValidMessage(kind)])))
    ensures api.hexGid(id).Err? ==>
      ParseSpec(api, "spotify:" + kind + ":" + id, originating) == Parsed([], Some(api.hexGid(id).error))
    ensures ParseSpec(api, "spotify:" + kind, originating) == Parsed([], Some(ValueError(["not enough values to unpack (expected 3, got 2)"])))
  {
    UriRecognised(kind, id);
    ShortUriRecognised(kind);
    assert Strings.NatToString(2) == "2";
    assert UnpackMessage(2) == "not enough values to unpack (expected 3, got 2)";
  }

  /** "spotify:playlist:<id>" is refused by the kind check. */
  lemma ParsePlaylistUri(api: Api, id: string, originating: Option<Kind>)
    requires Strings.Lacks(id, ':') && api.hexGid(id).Ok?
    ensures var kind := "playlist";
      ParseSpec(api, "spotify:" + kind + ":" + id, originating) == Parsed([], Some(ValueError(["'" + kind + "'" + " is not a valid ItemType"])))
  {
    PlaylistNotAKind();
    PlaylistPlain();
    NotValidPlain("playlist");
    ParseUriErrors(api, "playlist", id, originating);
  }

  /** No value in `values` starts `t`: no prefix is found. */
  lemma {:induction false} FirstPrefixNone(t: string, values: seq<string>)
    requires forall j :: 0 <= j < |values| ==> !StartsWith(t, values[j])
    ensures FirstPrefix(t, values).None?
  {
    if |values| > 0 {
      FirstPrefixNone(t, values[1..]);
    }
  }

  /** A text starting with a letter that starts no kind's value, and with
      no '/', matches neither the kind nor the path pattern. */
  lemma NoKindStart(s: string)
    requires |s| > 0 && s[0] != '/' && s[0] != 't' && s[0] != 'e' && s[0] != 'a' && s[0] != 's'
    ensures MatchKind(s).None? && MatchPath(s).None?
  {
    var vs := MemberValues();
    assert vs == ["track", "episode", "album", "artist", "show"];
    forall j | 0 <= j < |vs|
      ensures !StartsWith(s, vs[j])
    {
      assert vs[j][0] == 't' || vs[j][0] == 'e' || vs[j][0] == 'a' || vs[j][0] == 's';
    }
    FirstPrefixNone(s, vs);
  }

  /** "playlist/<id>" matches none of the patterns. */
  lemma PlaylistPathNoMatch(id: string, tail: string)
    requires |id| == 22 && AllAlnum(id) && IdTail(tail)
    ensures var p := "playlist" + "/" + id + tail;
      !StartsWith(p, "spotify:") && MatchUrl(p).None? && MatchPath(p).None? && MatchId(p).None?
  {
    var p := "playlist" + "/" + id + tail;
    assert p[0] == 'p' && p[8] == '/';
    assert !StartsWith(p, "spotify:") && !StartsWith(p, "https://") && !StartsWith(p, "http://") && !StartsWith(p, "open.");
    MatchUrlNone(p);
    NoKindStart(p);
    assert MatchId(p).None? by { assert |p| < 22 || !IsAlnum(p[..22][8]); }
  }

  /** The web-link pattern on "https://open.spotify.com/playlist/<id>"
      reaches the path pattern, which refuses "playlist". */
  lemma PlaylistUrlPath(id: string, tail: string)
    ensures MatchUrl("https://open.spotify.com/" + "playlist" + "/" + id + tail).None?
  {
    var path := "/" + "playlist" + "/" + id + tail;
    UrlText("playlist", id, tail);
    UrlPrefix(path);
    assert path[0] == '/' && path[1] == 'p';
    NoKindStart(path[1..]);
  }

  /** "https://open.spotify.com/playlist/<id>" matches none of the patterns. */
  lemma PlaylistUrlNoMatch(id: string, tail: string)
    requires |id| == 22 && AllAlnum(id) && IdTail(tail)
    ensures var u := "https://open.spotify.com/" + "playlist" + "/" + id + tail;
      !StartsWith(u, "spotify:") && MatchUrl(u).None? && MatchPath(u).None? && MatchId(u).None?
  {
    var u := "https://open.spotify.com/" + "playlist" + "/" + id + tail;
    PlaylistUrlPath(id, tail);
    assert u[0] == 'h' && u[5] == ':';
    NoKindStart(u);
    assert MatchId(u).None? by { assert |u| < 22 || !IsAlnum(u[..22][5]); }
  }

  /** A playlist web link or "playlist/<id>" path matches none of the
      patterns: parsing it yields nothing and raises nothing, unlike the
      "spotify:playlist:<id>" URI, which the kind check refuses. */
  lemma PlaylistLinkIgnored(api: Api, id: string, tail: string, originating: Option<Kind>)
    requires |id| == 22 && AllAlnum(id) && IdTail(tail)
    ensures var kind := "playlist";
      ParseSpec(api, "https://open.spotify.com/" + kind + "/" + id + tail, originating) == Parsed([], None)
    ensures var kind := "playlist";
      ParseSpec(api, kind + "/" + id + tail, originating) == Parsed([], None)
  {
    PlaylistPathNoMatch(id, tail);
    ParseNoMatch(api, "playlist" + "/" + id + tail, originating);
    PlaylistUrlNoMatch(id, tail);
    ParseNoMatch(api, "https://open.spotify.com/" + "playlist" + "/" + id + tail, originating);
  }

  /** A web link or a "<kind>/<id>" path dispatches on its kind. */
  lemma ParseLink(api: Api, t: ItemType, id: string, tail: string, originating: Option<Kind>)
    requires |id| == 22 && AllAlnum(id) && IdTail(tail) && api.hexGid(id).Ok?
    ensures ParseSpec(api, "https://open.spotify.com/" + Enums.Value(t) + "/" + id + tail, originating) == Dispatch(api, t, api.hexGid(id).value, originating)
    ensures ParseSpec(api, Enums.Value(t) + "/" + id + tail, originating) == Dispatch(api, t, api.hexGid(id).value, originating)
  {
    UrlRecognised(t, id, tail);
    PathRecognised(t, id, tail);
    FromValueRoundTrip(t);
  }

  /** A track or an episode yields exactly one batch of one abstract item,
      with no description and the caller's originating type or else the
      item's own kind. */
  lemma DispatchSingleItem(api: Api, gid: string, originating: Option<Kind>)
    ensures Dispatch(api, TRACK, gid, originating) ==
      Parsed([BatchSpec(Member(TRACK), [TrackRef(TrackId(gid), if originating.Some? then originating.value else Member(TRACK))], None, map[])], None)
    ensures Dispatch(api, EPISODE, gid, originating) ==
      Parsed([BatchSpec(Member(EPISODE), [TrackRef(EpisodeId(gid), if originating.Some? then originating.value else Member(EPISODE))], None, map[])], None)
  {
    assert RefsFor([TrackId(gid)], OrElse(originating, Member(TRACK))) == [TrackRef(TrackId(gid), OrElse(originating, Member(TRACK)))];
    assert RefsFor([EpisodeId(gid)], OrElse(originating, Member(EPISODE))) == [TrackRef(EpisodeId(gid), OrElse(originating, Member(EPISODE)))];
  }

  /** A bare id is a track. */
  lemma ParseBareId(api: Api, id: string, tail: string, originating: Option<Kind>)
    requires |id| == 22 && AllAlnum(id) && IdTail(tail) && api.hexGid(id).Ok?
    ensures ParseSpec(api, id + tail, originating) ==
      Parsed([BatchSpec(Member(TRACK), [TrackRef(TrackId(api.hexGid(id).value), if originating.Some? then originating.value else Member(TRACK))], None, map[])], None)
  {
    BareIdRecognised(id, tail);
    DispatchSingleItem(api, api.hexGid(id).value, originating);
  }

  /** A text of no recognised form yields nothing and raises nothing. */
  lemma ParseNoMatch(api: Api, s: string, originating: Option<Kind>)
    requires !StartsWith(s, "spotify:") && MatchUrl(s).None? && MatchPath(s).None? && MatchId(s).None?
    ensures ParseSpec(api, s, originating) == Parsed([], None)
  {
  }

  /** Only a track or an episode carries the caller's originating type: a run
      that yields neither is the same whatever originating type is passed. */
  lemma FormOriginatingOnlyForItems(api: Api, f: Form, o1: Option<Kind>, o2: Option<Kind>)
    requires forall b :: b in ParseForm(api, f, o1).batches ==> b.kind != Member(TRACK) && b.kind != Member(EPISODE)
    ensures ParseForm(api, f, o1) == ParseForm(api, f, o2)
  {
    if f.UriForm? || f.LinkForm? || f.BareId? {
      var kind := if f.BareId? then "track" else f.kind;
      if api.hexGid(f.id).Ok? && FromValue(kind).Some? {
        DispatchSingleItem(api, api.hexGid(f.id).value, o1);
      }
    }
  }

  lemma ParseOriginatingOnlyForItems(api: Api, s: string, o1: Option<Kind>, o2: Option<Kind>)
    requires forall b :: b in ParseSpec(api, s, o1).batches ==> b.kind != Member(TRACK) && b.kind != Member(EPISODE)
    ensures ParseSpec(api, s, o1) == ParseSpec(api, s, o2)
  {
    FormOriginatingOnlyForItems(api, Classify(s), o1, o2);
  }

  /** The tracks each run contributes. */
  function RunTracks(runs: seq<Parsed>): (r: seq<seq<TrackRef>>)
    ensures |r| == |runs| && forall i :: 0 <= i < |runs| ==> r[i] == BatchRefs(runs[i].batches)
  {
    seq(|runs|, i requires 0 <= i < |runs| => BatchRefs(runs[i].batches))
  }

  /** The playlist fold succeeds exactly when no run raises. */
  lemma {:induction false} PlaylistFoldOk(runs: seq<Parsed>)
    ensures PlaylistFold(runs).Ok? <==> forall i :: 0 <= i < |runs| ==> runs[i].error.None?
  {
    if |runs| > 0 {
      var n := |runs| - 1;
      PlaylistFoldOk(runs[..n]);
      assert forall i :: 0 <= i < n ==> runs[..n][i] == runs[i];
    }
  }

  /** A fold that succeeds holds the tracks of every run's batches, in run
      order. */
  lemma {:induction false} PlaylistFoldValue(runs: seq<Parsed>)
    requires PlaylistFold(runs).Ok?
    ensures PlaylistFold(runs).value == Flatten(RunTracks(runs))
  {
    if |runs| > 0 {
      var n := |runs| - 1;
      PlaylistFoldValue(runs[..n]);
      var last := BatchRefs(runs[n].batches);
      assert RunTracks(runs) == RunTracks(runs[..n]) + [last];
      FlattenAppend(RunTracks(runs[..n]), [last]);
      assert Flatten([last]) == last + Flatten([last][1..]);
    }
  }

  /** A fold that fails carries the exception of the first run that raises. */
  lemma {:induction false} PlaylistFoldFirstError(runs: seq<Parsed>)
    requires PlaylistFold(runs).Err?
    ensures exists k ::
      0 <= k < |runs| && runs[k].error == Some(PlaylistFold(runs).error) && (forall i :: 0 <= i < k ==> runs[i].error.None?)
  {
    var n := |runs| - 1;
    var init := runs[..n];
    assert forall i :: 0 <= i < n ==> init[i] == runs[i];
    if PlaylistFold(init).Ok? {
      PlaylistFoldOk(init);
      assert runs[n].error == Some(PlaylistFold(runs).error);
    } else {
      PlaylistFoldFirstError(init);
      var k :| 0 <= k < n && init[k].error == Some(PlaylistFold(init).error)
        && forall i :: 0 <= i < k ==> init[i].error.None?;
      assert runs[k].error == Some(PlaylistFold(runs).error);
    }
  }

  /** The playlist batch is of the playlist kind, describes and names the
      playlist in its context, and holds the entries' tracks in order. */
  lemma PlaylistSpecProperties(api: Api, id: string)
    requires api.playlist(id).Ok?
    ensures var m := api.playlist(id).value;
      PlaylistSpec(api, id).Ok? <==> forall i :: 0 <= i < |m.entries| ==> ParseSpec(api, m.entries[i], Some(PlaylistKind)).error.None?
    ensures var m := api.playlist(id).value;
      PlaylistSpec(api, id).Ok? ==>
        var b := PlaylistSpec(api, id).value;
        b.kind == PlaylistKind && b.description == Some("playlist " + m.name)
        && b.context == map["playlist_name" := m.name]
        && b.refs == Flatten(RunTracks(EntryRuns(api, m.entries)))
  {
    var runs := EntryRuns(api, api.playlist(id).value.entries);
    PlaylistFoldOk(runs);
    if PlaylistFold(runs).Ok? {
      PlaylistFoldValue(runs);
    }
  }

  /** Every batch of a run that holds a track or an episode holds exactly
      that one item, with the caller's originating type or else its own
      kind; albums, shows and artists yield only album and show batches. */
  lemma ItemBatches(api: Api, f: Form, originating: Option<Kind>)
    ensures forall b :: b in ParseForm(api, f, originating).batches && (b.kind == Member(TRACK) || b.kind == Member(EPISODE)) ==>
      |b.refs| == 1 && b.refs[0].originating == OrElse(originating, b.kind)
  {
    if f.UriForm? || f.LinkForm? || f.BareId? {
      var kind := if f.BareId? then "track" else f.kind;
      if api.hexGid(f.id).Ok? && FromValue(kind).Some? {
        DispatchItemBatches(api, FromValue(kind).value, api.hexGid(f.id).value, originating);
      }
    }
  }

  lemma DispatchItemBatches(api: Api, t: ItemType, gid: string, originating: Option<Kind>)
    ensures forall b :: b in Dispatch(api, t, gid, originating).batches && (b.kind == Member(TRACK) || b.kind == Member(EPISODE)) ==>
      |b.refs| == 1 && b.refs[0].originating == OrElse(originating, b.kind)
  {
    DispatchSingleItem(api, gid, originating);
    if t == ARTIST && api.artist(gid).Ok? {
      ArtistAlbumsPrefix(api, Flatten(api.artist(gid).value.albumGroups));
    }
  }

  /** A track or an episode reached through a playlist has the playlist kind
      as originating type, for which no filename template exists. */
  lemma PlaylistItemsHaveNoTemplate(api: Api, entry: string, b: BatchSpec, m: Metadata.WrappedMetadata, destination: Paths.Path, ext: string)
    requires b in ParseSpec(api, entry, Some(PlaylistKind)).batches && (b.kind == Member(TRACK) || b.kind == Member(EPISODE))
    ensures |b.refs| == 1 && b.refs[0].originating == PlaylistKind
    ensures Metadata.GenerateFilename(m, destination, b.refs[0].originating, ext, []) == Err(NotImplementedError)
  {
    ItemBatches(api, Classify(entry), Some(PlaylistKind));
  }

  /** The reference a track object stands for. */
  function RefOf(t: DownloadableTrack): TrackRef
  {
    TrackRef(t.trackId, t.originatingType)
  }

  function RefsOf(ts: seq<DownloadableTrack>): (r: seq<TrackRef>)
    ensures |r| == |ts| && forall i :: 0 <= i < |ts| ==> r[i] == RefOf(ts[i])
  {
    seq(|ts|, i requires 0 <= i < |ts| => RefOf(ts[i]))
  }

  lemma RefsOfConcat(a: seq<DownloadableTrack>, b: seq<DownloadableTrack>)
    ensures RefsOf(a + b) == RefsOf(a) + RefsOf(b)
  {
    assert forall i :: 0 <= i < |a + b| ==> RefsOf(a + b)[i] == (RefsOf(a) + RefsOf(b))[i];
  }

  /** The batch a batch object currently stands for. */
  function Describe(b: DownloadableBatch): BatchSpec
    reads b
  {
    BatchSpec(b.kind, RefsOf(b.tracks), b.description, b.context)
  }

  function DescribeAll(bs: seq<DownloadableBatch>): (r: seq<BatchSpec>)
    reads set b | b in bs
    ensures |r| == |bs| && forall i :: 0 <= i < |bs| ==> r[i] == Describe(bs[i])
    decreases |bs|
  {
    if |bs| == 0 then [] else [Describe(bs[0])] + DescribeAll(bs[1..])
  }

  /** The tracks of a list of batch objects are the tracks their
      descriptions list. */
  lemma {:induction false} RefsOfAllTracks(bs: seq<DownloadableBatch>)
    ensures RefsOf(AllTracks(bs)) == BatchRefs(DescribeAll(bs))
    decreases |bs|
  {
    if |bs| == 0 {
      assert RefsOf([]) == [];
    } else {
      RefsOfAllTracks(bs[1..]);
      RefsOfConcat(bs[0].tracks, AllTracks(bs[1..]));
      assert DescribeAll(bs)[1..] == DescribeAll(bs[1..]);
    }
  }

  lemma DescribeAllSnoc(bs: seq<DownloadableBatch>, b: DownloadableBatch)
    ensures DescribeAll(bs + [b]) == DescribeAll(bs) + [Describe(b)]
  {
  }

  /** `_parse_track` / `_parse_episode` for each id: fresh abstract tracks. */
  method NewTracks(ids: seq<PlayableId>, originating: Kind) returns (ts: seq<DownloadableTrack>)
    ensures RefsOf(ts) == RefsFor(ids, originating)
    ensures forall i :: 0 <= i < |ts| ==> fresh(ts[i]) && ts[i].IsAbstract()
  {
    ts := [];
    var i := 0;
    while i < |ids|
      invariant 0 <= i <= |ids| && |ts| == i
      invariant forall j :: 0 <= j < i ==> RefOf(ts[j]) == TrackRef(ids[j], originating)
      invariant forall j :: 0 <= j < i ==> fresh(ts[j]) && ts[j].IsAbstract()
    {
      var t := new DownloadableTrack(ids[i], originating);
      ts := ts + [t];
      i := i + 1;
    }
  }

  /** `_parse_album`. */
  method ParseAlbum(api: Api, gid: string, originating: Kind) returns (r: Result<DownloadableBatch, Exc>)
    ensures r.Ok? ==> fresh(r.value) && AlbumSpec(api, gid, originating) == Ok(Describe(r.value))
    ensures r.Err? ==> AlbumSpec(api, gid, originating) == Err(r.error)
  {
    match api.album(gid) {
      case Err(e) =>
        r := Err(e);
      case Ok(m) =>
        match FormatArtist(m.artists) {
          case Err(e) =>
            r := Err(e);
          case Ok(artist) =>
            var ts := NewTracks(TrackIds(Flatten(m.discs)), originating);
            var b := new DownloadableBatch(Member(ALBUM), ts, Some("album '" + m.name + "' by " + artist), map[]);
            r := Ok(b);
        }
    }
  }

  /** `_parse_show`. */
  method ParseShow(api: Api, gid: string) returns (r: Result<DownloadableBatch, Exc>)
    ensures r.Ok? ==> fresh(r.value) && ShowSpec(api, gid) == Ok(Describe(r.value))
    ensures r.Err? ==> ShowSpec(api, gid) == Err(r.error)
  {
    match api.show(gid) {
      case Err(e) =>
        r := Err(e);
      case Ok(m) =>
        var ts := NewTracks(EpisodeIds(Reverse(m.episodes)), Member(SHOW));
        var b := new DownloadableBatch(Member(SHOW), ts, Some("episodes of " + m.name), map[]);
        r := Ok(b);
    }
  }

  /** The converse of `ArtistAlbumsPrefix`: batches that are the first
      albums' batches, followed by the end of the albums or by a failing
      album, are the whole run. */
  lemma {:induction false} ArtistAlbumsOf(api: Api, albums: seq<string>, batches: seq<BatchSpec>, err: Option<Exc>)
    requires |batches| <= |albums|
    requires forall j :: 0 <= j < |batches| ==> AlbumSpec(api, albums[j], Member(ARTIST)) == Ok(batches[j])
    requires err.None? ==> |batches| == |albums|
    requires err.Some? ==> |batches| < |albums| && AlbumSpec(api, albums[|batches|], Member(ARTIST)) == Err(err.value)
    ensures ArtistAlbums(api, albums) == Parsed(batches, err)
  {
    if |albums| > 0 && |batches| > 0 {
      assert forall j :: 0 <= j < |batches| - 1 ==> albums[1..][j] == albums[j + 1] && batches[1..][j] == batches[j + 1];
      ArtistAlbumsOf(api, albums[1..], batches[1..], err);
      assert batches == [batches[0]] + batches[1..];
    }
  }

  /** The album loop of `_parse_artist`: the album batches in order, up to
      the first album that raises. */
  method ParseAlbums(api: Api, albums: seq<string>) returns (bs: seq<DownloadableBatch>, err: Option<Exc>)
    ensures forall b :: b in bs ==> fresh(b)
    ensures ArtistAlbums(api, albums) == Parsed(DescribeAll(bs), err)
  {
    bs, err := [], None;
    var i := 0;
    while i < |albums|
      invariant 0 <= i <= |albums| && |bs| == i
      invariant forall b :: b in bs ==> fresh(b)
      invariant forall j :: 0 <= j < i ==> AlbumSpec(api, albums[j], Member(ARTIST)) == Ok(Describe(bs[j]))
    {
      var r := ParseAlbum(api, albums[i], Member(ARTIST));
      if r.Err? {
        err := Some(r.error);
        ArtistAlbumsOf(api, albums, DescribeAll(bs), err);
        return;
      }
      bs := bs + [r.value];
      i := i + 1;
    }
    ArtistAlbumsOf(api, albums, DescribeAll(bs), err);
  }

  /** `_parse_artist`. */
  method ParseArtist(api: Api, gid: string) returns (bs: seq<DownloadableBatch>, err: Option<Exc>)
    ensures forall b :: b in bs ==> fresh(b)
    ensures ArtistSpec(api, gid) == Parsed(DescribeAll(bs), err)
  {
    match api.artist(gid) {
      case Err(e) =>
        bs, err := [], Some(e);
      case Ok(m) =>
        bs, err := ParseAlbums(api, Flatten(m.albumGroups));
    }
  }

  /** `LinkParser.parse`, run to its end: the batches it yields and the
      exception that ends it. */
  method Parse(api: Api, s: string, originating: Option<Kind>) returns (bs: seq<DownloadableBatch>, err: Option<Exc>)
    ensures forall b :: b in bs ==> fresh(b)
    ensures ParseSpec(api, s, originating) == Parsed(DescribeAll(bs), err)
  {
    bs, err := [], None;
    var kind: string, id: string;
    match Classify(s) {
      case NoMatch =>
        return;
      case UriMalformed(n) =>
        err := Some(ValueError([UnpackMessage(n)]));
        return;
      case UriForm(k, x) =>
        kind, id := k, x;
      case LinkForm(k, x) =>
        kind, id := k, x;
      case BareId(x) =>
        kind, id := "track", x;
    }
    var gid: string;
    match api.hexGid(id) {
      case Err(e) =>
        err := Some(e);
        return;
      case Ok(g) =>
        gid := g;
    }
    var t: ItemType;
    match FromValue(kind) {
      case None =>
        err := Some(ValueError([NotValidMessage(kind)]));
        return;
      case Some(x) =>
        t := x;
    }
    bs, err := ParseItem(api, t, gid, originating);
  }

  /** The `match current_type` arm of `parse` for a decoded id. */
  method ParseItem(api: Api, t: ItemType, gid: string, originating: Option<Kind>) returns (bs: seq<DownloadableBatch>, err: Option<Exc>)
    ensures forall b :: b in bs ==> fresh(b)
    ensures Dispatch(api, t, gid, originating) == Parsed(DescribeAll(bs), err)
  {
    bs, err := [], None;
    match t {
      case EPISODE =>
        var ts := NewTracks([EpisodeId(gid)], OrElse(originating, Member(EPISODE)));
        var b := new DownloadableBatch(Member(EPISODE), ts, None, map[]);
        bs := [b];
      case SHOW =>
        var r := ParseShow(api, gid);
        if r.Ok? { bs := [r.value]; } else { err := Some(r.error); }
      case TRACK =>
        var ts := NewTracks([TrackId(gid)], OrElse(originating, Member(TRACK)));
        var b := new DownloadableBatch(Member(TRACK), ts, None, map[]);
        bs := [b];
      case ALBUM =>
        var r := ParseAlbum(api, gid, Member(ALBUM));
        if r.Ok? { bs := [r.value]; } else { err := Some(r.error); }
      case ARTIST =>
        bs, err := ParseArtist(api, gid);
    }
  }

  /** Once a prefix of the runs fails, the whole fold fails the same way. */
  lemma {:induction false} PlaylistFoldErrPrefix(runs: seq<Parsed>, k: nat)
    requires k <= |runs| && PlaylistFold(runs[..k]).Err?
    ensures PlaylistFold(runs) == PlaylistFold(runs[..k])
    decreases |runs| - k
  {
    if k < |runs| {
      assert runs[..k + 1][..k] == runs[..k];
      PlaylistFoldErrPrefix(runs, k + 1);
    } else {
      assert runs[..k] == runs;
    }
  }

  /** One step of the entry loop of `_parse_playlist`. */
  lemma PlaylistFoldStep(runs: seq<Parsed>, i: nat)
    requires i < |runs|
    ensures PlaylistFold(runs[..i + 1]) ==
      match PlaylistFold(runs[..i])
      case Err(e) => Err(e)
      case Ok(acc) => if runs[i].error.Some? then Err(runs[i].error.value) else Ok(acc + BatchRefs(runs[i].batches))
  {
    assert runs[..i + 1][..i] == runs[..i] && runs[..i + 1][i] == runs[i];
  }

  /** One pass of the entry loop of `_parse_playlist`: the entry is parsed
      to its end and, unless it raises, its batches are added to the
      playlist batch in place. */
  method AddEntry(api: Api, batch: DownloadableBatch, entry: string) returns (err: Option<Exc>)
    modifies batch
    ensures var run := ParseSpec(api, entry, Some(PlaylistKind));
      err == run.error && (err.None? ==> RefsOf(batch.tracks) == RefsOf(old(batch.tracks)) + BatchRefs(run.batches))
  {
    var bs;
    bs, err := Parse(api, entry, Some(PlaylistKind));
    if err.None? {
      AddRun(batch, bs);
    }
  }

  /** `batch += list(run)` for a run that ended without raising: the run's
      tracks follow the batch's own. */
  method AddRun(batch: DownloadableBatch, bs: seq<DownloadableBatch>)
    requires batch !in bs
    modifies batch
    ensures RefsOf(batch.tracks) == RefsOf(old(batch.tracks)) + BatchRefs(DescribeAll(bs))
  {
    ghost var before := batch.tracks;
    var _ := batch.Add(BatchList(bs));
    batch.AppendedIsConcat(before, bs);
    RefsOfAllTracks(bs);
    RefsOfConcat(before, AllTracks(bs));
  }

  /** `_parse_playlist`: every entry is parsed to its end and its batches
      added to the playlist batch in place; the first entry that raises
      ends the call with its exception. */
  method ParsePlaylist(api: Api, id: string) returns (r: Result<DownloadableBatch, Exc>)
    ensures r.Ok? ==> fresh(r.value) && PlaylistSpec(api, id) == Ok(Describe(r.value))
    ensures r.Err? ==> PlaylistSpec(api, id) == Err(r.error)
  {
    match api.playlist(id) {
      case Err(e) =>
        r := Err(e);
      case Ok(m) =>
        var batch := new DownloadableBatch(PlaylistKind, [], Some("playlist " + m.name), map["playlist_name" := m.name]);
        ghost var runs := EntryRuns(api, m.entries);
        assert runs[..0] == [];
        var i := 0;
        while i < |m.entries|
          invariant 0 <= i <= |m.entries|
          invariant fresh(batch)
          invariant PlaylistFold(runs[..i]) == Ok(RefsOf(batch.tracks))
        {
          var err := AddEntry(api, batch, m.entries[i]);
          PlaylistFoldStep(runs, i);
          if err.Some? {
            PlaylistFoldErrPrefix(runs, i + 1);
            return Err(err.value);
          }
          i := i + 1;
        }
        assert runs[..|m.entries|] == runs;
        r := Ok(batch);
    }
  }
}
