/** despot/enums.py: the kinds of item a reference can name. */
module Enums {
  import opened Wrappers
  import Strings

  /** `ItemType`, a string enum with exactly five members. */
  datatype ItemType = TRACK | EPISODE | ALBUM | ARTIST | SHOW

  /** The members in declaration order. */
  const Members: seq<ItemType> := [TRACK, EPISODE, ALBUM, ARTIST, SHOW]

  /** The string value of a member (`ItemType.TRACK == "track"`). */
  function Value(t: ItemType): string
  {
    match t
    case TRACK => "track"
    case EPISODE => "episode"
    case ALBUM => "album"
    case ARTIST => "artist"
    case SHOW => "show"
  }

  /** `ItemType(s)`: the member whose value is `s`; `None` stands for the
      ValueError the enum raises for any other string. */
  function FromValue(s: string): (r: Option<ItemType>)
    ensures r.Some? ==> Value(r.value) == s
    ensures r.None? ==> forall t: ItemType :: Value(t) != s
  {
    if s == "track" then Some(TRACK)
    else if s == "episode" then Some(EPISODE)
    else if s == "album" then Some(ALBUM)
    else if s == "artist" then Some(ARTIST)
    else if s == "show" then Some(SHOW)
    else None
  }

  /** The ValueError text of `ItemType(s)` for a value no member has:
      CPython's enum writes `"%r is not a valid %s"` with the value's `repr`. */
  function NotValidMessage(s: string): string
  {
    Strings.Repr(s) + " is not a valid ItemType"
  }

  /** "playlist" is no member's value: the five values differ from it in
      length. */
  lemma PlaylistNotAKind()
    ensures FromValue("playlist") == None
  {
    assert |"playlist"| == 8;
  }

  /** "playlist" holds plain characters only, so no colon. */
  lemma PlaylistPlain()
    ensures forall i :: 0 <= i < |"playlist"| ==> Strings.Plain("playlist"[i])
    ensures Strings.Lacks("playlist", ':')
  {
  }

  /** For a value of plain characters the message quotes it as it is. */
  lemma NotValidPlain(s: string)
    requires forall i :: 0 <= i < |s| ==> Strings.Plain(s[i])
    ensures NotValidMessage(s) == "'" + s + "'" + " is not a valid ItemType"
  {
    Strings.ReprPlain(s);
  }

  /** Every member is built back from its value, and the members are listed
      once each in `Members`. */
  lemma FromValueRoundTrip(t: ItemType)
    ensures FromValue(Value(t)) == Some(t)
    ensures t in Members
  {
  }

  /** The member values, in declaration order (`[t.value for t in ItemType]`). */
  function MemberValues(): (r: seq<string>)
    ensures |r| == |Members| && forall i :: 0 <= i < |r| ==> r[i] == Value(Members[i])
  {
    [Value(TRACK), Value(EPISODE), Value(ALBUM), Value(ARTIST), Value(SHOW)]
  }

  /** `ItemType.human_names(conn)`: all values but the last joined by ", ",
      then `conn` and the last value. */
  function HumanNames(conn: string): string
  {
    var names := MemberValues();
    Strings.Join(names[..|names| - 1], ", ") + " " + conn + " " + names[|names| - 1]
  }

  /** Joining puts the separator after the first piece. */
  lemma JoinStep(p: string, rest: seq<string>, sep: string, joined: string)
    requires |rest| > 0 && Strings.Join(rest, sep) == joined
    ensures Strings.Join([p] + rest, sep) == p + sep + joined
  {
    assert ([p] + rest)[0] == p && ([p] + rest)[1..] == rest;
  }

  /** The first four values joined by ", ". */
  lemma JoinedInit()
    ensures Strings.Join(["track", "episode", "album", "artist"], ", ") == "track, episode, album, artist"
  {
    assert Strings.Join(["artist"], ", ") == "artist";
    JoinStep("album", ["artist"], ", ", "artist");
    assert ["album"] + ["artist"] == ["album", "artist"];
    assert "album" + ", " + "artist" == "album, artist";
    JoinStep("episode", ["album", "artist"], ", ", "album, artist");
    assert ["episode"] + ["album", "artist"] == ["episode", "album", "artist"];
    assert "episode" + ", " + "album, artist" == "episode, album, artist";
    JoinStep("track", ["episode", "album", "artist"], ", ", "episode, album, artist");
    assert ["track"] + ["episode", "album", "artist"] == ["track", "episode", "album", "artist"];
    assert "track" + ", " + "episode, album, artist" == "track, episode, album, artist";
  }

  /** Any connective takes the place of "or" before the last kind. */
  lemma HumanNamesText(conn: string)
    ensures HumanNames(conn) == "track, episode, album, artist " + conn + " show"
  {
    assert MemberValues()[..4] == ["track", "episode", "album", "artist"];
    JoinedInit();
    assert HumanNames(conn) == "track, episode, album, artist" + " " + conn + " " + "show";
  }

  /** With the default connective the text is the fixed list of the five
      kinds. */
  lemma HumanNamesDefault()
    ensures HumanNames("or") == "track, episode, album, artist or show"
  {
    HumanNamesText("or");
  }

  /** The kind carried by a batch or by a track's originating type: one of
      the five members, or the playlist kind that parser.py refers to as
      `ItemType.PLAYLIST` although enums.py does not define it. The playlist
      kind is an addition of this model. */
  datatype Kind = Member(t: ItemType) | PlaylistKind

  /** The text a kind formats to in an f-string. */
  function KindValue(k: Kind): string
  {
    match k
    case Member(t) => Value(t)
    case PlaylistKind => "playlist"
  }
}
