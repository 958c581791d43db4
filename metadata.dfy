/** despot/metadata.py: property maps over track and episode metadata,
    `WrappedMetadata.get`, filename templates and the tag dictionary. */
module Metadata {
  import opened Wrappers
  import opened Exceptions
  import opened Utils
  import opened Enums
  import opened Paths
  import Strings

  /** The parts of librespot's protobuf metadata that the accessors read. */
  datatype AlbumInfo = AlbumInfo(name: string, artist: seq<Artist>, date: Date)
  datatype TrackMeta = TrackMeta(name: string, artist: seq<Artist>, album: AlbumInfo, discNumber: int, number: int)
  datatype EpisodeMeta = EpisodeMeta(name: string, showName: string, publishTime: Date)

  /** `WrappedMetadata`: a wrapped track or episode. */
  datatype WrappedMetadata = TrackMetadata(track: TrackMeta) | EpisodeMetadata(episode: EpisodeMeta)

  /** The keys of `_PROPERTY_MAP_TRACK` and `_PROPERTY_MAP_EPISODE`, in order. */
  const TrackKeys: seq<string> := ["name", "artist", "album", "album_artist", "album_year", "disc", "track"]
  const EpisodeKeys: seq<string> := ["name", "show", "publish_time"]

  /** `propmap`: the track map for track metadata, the episode map otherwise. */
  function PropertyNames(m: WrappedMetadata): seq<string>
  {
    if m.TrackMetadata? then TrackKeys else EpisodeKeys
  }

  /** The accessor registered under `name`, applied to the metadata; `None`
      when the map has no such key. */
  function Accessor(m: WrappedMetadata, name: string): Option<Result<Value, Exc>>
  {
    match m
    case TrackMetadata(t) =>
      if name == "name" then Some(Ok(Str(t.name)))
      else if name == "artist" then Some(StrOf(FormatArtist(t.artist)))
      else if name == "album" then Some(StrOf(FormatArtistOfString(t.album.name)))
      else if name == "album_artist" then Some(StrOf(FormatArtist(t.album.artist)))
      else if name == "album_year" then Some(Ok(Int(t.album.date.year)))
      else if name == "disc" then Some(Ok(Int(t.discNumber)))
      else if name == "track" then Some(Ok(Int(t.number)))
      else None
    case EpisodeMetadata(e) =>
      if name == "name" then Some(Ok(Str(e.name)))
      else if name == "show" then Some(Ok(Str(e.showName)))
      else if name == "publish_time" then Some(StrOf(FormatDate(e.publishTime)))
      else None
  }

  function StrOf(r: Result<string, Exc>): Result<Value, Exc>
  {
    match r
    case Ok(s) => Ok(Str(s))
    case Err(e) => Err(e)
  }

  /** Every key of the selected map has an accessor and no other name does. */
  lemma AccessorDomain(m: WrappedMetadata, name: string)
    ensures Accessor(m, name).Some? <==> name in PropertyNames(m)
  {
  }

  /** `get(name, default)`: the accessor's value, or the default when there
      is no accessor or it raises AttributeError; other exceptions escape.
      Strings are sanitised. */
  function Get(m: WrappedMetadata, name: string, default: Value): Result<Value, Exc>
  {
    var raw :=
      match Accessor(m, name)
      case None => Ok(default)
      case Some(Err(AttributeError)) => Ok(default)
      case Some(r) => r;
    match raw
    case Ok(v) => Ok(MakeSafeFilename(v))
    case Err(e) => Err(e)
  }

  /** What `get` gives: the sanitised default for an unknown name; for the
      `album` key of a track, the sanitised default when the album has a
      name (the accessor's AttributeError is suppressed) and ValueError when
      it has none; integers unchanged. */
  lemma GetProperties(m: WrappedMetadata, name: string, default: Value)
    ensures name !in PropertyNames(m) ==> Get(m, name, default) == Ok(MakeSafeFilename(default))
    ensures m.TrackMetadata? && name == "album" ==>
      Get(m, name, default) == if m.track.album.name == "" then Err(ValueError([])) else Ok(MakeSafeFilename(default))
    ensures m.TrackMetadata? && name == "disc" ==> Get(m, name, default) == Ok(Int(m.track.discNumber))
    ensures Get(m, name, default).Ok? && Get(m, name, default).value.Str? ==>
      MakeSafeFilename(Get(m, name, default).value) == Get(m, name, default).value
  {
    AccessorDomain(m, name);
    if Get(m, name, default).Ok? {
      var raw := match Accessor(m, name)
        case None => Ok(default)
        case Some(Err(AttributeError)) => Ok(default)
        case Some(r) => r;
      MakeSafeFilenameIdempotent(raw.value);
    }
  }

  /** `{key: get(key) for key in propmap}`, evaluated key by key; the first
      exception escapes. */
  function PartsOf(m: WrappedMetadata, keys: seq<string>): Result<map<string, Value>, Exc>
  {
    if |keys| == 0 then Ok(map[])
    else
      match Get(m, keys[0], Str(""))
      case Err(e) => Err(e)
      case Ok(v) =>
        match PartsOf(m, keys[1..])
        case Err(e) => Err(e)
        case Ok(rest) => Ok(rest[keys[0] := v])
  }

  function ToFilenameParts(m: WrappedMetadata): Result<map<string, Value>, Exc>
  {
    PartsOf(m, PropertyNames(m))
  }

  /** The parts have exactly the keys asked for, each holding `get(key)`;
      and they fail exactly when some key's `get` raises. */
  lemma {:induction false} PartsOfKeys(m: WrappedMetadata, keys: seq<string>)
    ensures PartsOf(m, keys).Ok? <==> forall i :: 0 <= i < |keys| ==> Get(m, keys[i], Str("")).Ok?
    ensures PartsOf(m, keys).Ok? ==>
      PartsOf(m, keys).value.Keys == (set k | k in keys)
      && forall k :: k in keys ==> k in PartsOf(m, keys).value && PartsOf(m, keys).value[k] == Get(m, k, Str("")).value
  {
    if |keys| > 0 {
      PartsOfKeys(m, keys[1..]);
      if PartsOf(m, keys).Ok? {
        var rest := PartsOf(m, keys[1..]).value;
        assert (set k | k in keys) == (set k | k in keys[1..]) + {keys[0]} by {
          forall k | k in keys ensures k == keys[0] || k in keys[1..] {
            var i :| 0 <= i < |keys| && keys[i] == k;
            if i > 0 { assert keys[1..][i - 1] == k; }
          }
        }
      } else if Get(m, keys[0], Str("")).Ok? {
        var i :| 0 <= i < |keys[1..]| && !Get(m, keys[1..][i], Str("")).Ok?;
        assert keys[i + 1] == keys[1..][i];
      }
    }
  }

  /** One piece of a `str.format` template: literal text, a plain field
      `{name}` or a field with the format spec `02d`. */
  datatype Piece = Lit(text: string) | Field(name: string) | Padded2(name: string)

  /** The templates of `generate_filename`, by originating type; `None` for
      the `case _` that raises NotImplementedError. */
  function Template(k: Kind): Option<seq<Piece>>
  {
    match k
    case Member(TRACK) =>
      Some([Field("artist"), Lit(" - "), Field("name"), Lit("."), Field("ext")])
    case Member(SHOW) | Member(EPISODE) =>
      Some([Field("show"), Lit("/"), Field("publish_time"), Lit(" - "), Field("name"), Lit("."), Field("ext")])
    case Member(ALBUM) | Member(ARTIST) =>
      Some([Field("album_artist"), Lit("/"), Field("album"), Lit(" ("), Field("album_year"), Lit(")/"),
            Padded2("disc"), Lit("-"), Padded2("track"), Lit(" "), Field("name"), Lit("."), Field("ext")])
    case PlaylistKind => None
  }

  /** `format(value, "")`. */
  function Plain(v: Value): string
  {
    match v
    case Str(s) => s
    case Int(i) => Strings.IntToString(i)
  }

  /** `format(args[n], spec)` for one piece: a missing key raises KeyError,
      the spec `02d` on a string raises ValueError. */
  function PieceText(p: Piece, args: map<string, Value>): Result<string, Exc>
  {
    match p
    case Lit(t) => Ok(t)
    case Field(n) => if n in args then Ok(Plain(args[n])) else Err(KeyError(n))
    case Padded2(n) =>
      if n !in args then Err(KeyError(n))
      else if args[n].Str? then Err(ValueError(["Unknown format code 'd' for object of type 'str'"]))
      else Ok(Strings.FormatZeroPadded(args[n].i, 2))
  }

  /** `template.format(**args)`, field by field from the left; the first
      failing field decides the error. */
  function FormatPieces(pieces: seq<Piece>, args: map<string, Value>): Result<string, Exc>
  {
    if |pieces| == 0 then Ok("")
    else
      match PieceText(pieces[0], args)
      case Err(e) => Err(e)
      case Ok(h) =>
        match FormatPieces(pieces[1..], args)
        case Err(e) => Err(e)
        case Ok(t) => Ok(h + t)
  }

  /** Formatting a template one piece longer on the left. */
  lemma FormatPiecesCons(p: Piece, rest: seq<Piece>, args: map<string, Value>, h: string, t: string)
    requires PieceText(p, args) == Ok(h) && FormatPieces(rest, args) == Ok(t)
    ensures FormatPieces([p] + rest, args) == Ok(h + t)
  {
    assert ([p] + rest)[0] == p;
    assert ([p] + rest)[1..] == rest;
  }

  /** The two `except` clauses of `generate_filename`: KeyError and ValueError
      become FilenameTemplateError("Invalid field '<arg>' for <type>
      filename"); a ValueError without arguments makes `exc.args[0]` itself
      raise IndexError. */
  function TemplateError(k: Kind, e: Exc): Exc
  {
    match e
    case KeyError(f) => Raise(FilenameTemplateErrorClass, Some("Invalid field '" + f + "' for " + KindValue(k) + " filename"))
    case ValueError(args) =>
      if |args| > 0 then Raise(FilenameTemplateErrorClass, Some("Invalid field '" + args[0] + "' for " + KindValue(k) + " filename"))
      else IndexError
    case _ => e
  }

  /** `generate_filename(destination, originating_type=k, ext=ext, **extra)`.
      Merging `extra` into the explicit keywords fails when it repeats
      `originating_type` or `ext`; binding then takes the keywords in order,
      and the first one fails the call: `self` and `destination` are already
      given, and the method accepts no other. Either way TypeError is raised
      before the body runs. */
  function GenerateFilename(m: WrappedMetadata, destination: Path, k: Kind, ext: string, extra: seq<string>): Result<Path, Exc>
  {
    if "originating_type" in extra || "ext" in extra then Err(DuplicateKeyword)
    else if |extra| > 0 then
      if extra[0] == "self" || extra[0] == "destination" then Err(DuplicateKeyword) else Err(TypeError(extra[0]))
    else
      match Template(k)
      case None => Err(NotImplementedError)
      case Some(tmpl) =>
        match ToFilenameParts(m)
        case Err(e) => Err(TemplateError(k, e))
        case Ok(parts) =>
          match FormatPieces(tmpl, parts["ext" := Str(ext)])
          case Err(e) => Err(TemplateError(k, e))
          case Ok(rel) => Ok(JoinPath(destination, rel))
  }

  /** Extra keywords always fail the call, whatever the metadata: one that
      repeats an argument with a TypeError for the duplicate, otherwise with
      a TypeError naming the first. */
  lemma GenerateFilenameRejectsKeywords(m: WrappedMetadata, destination: Path, k: Kind, ext: string, extra: seq<string>)
    requires |extra| > 0
    ensures GenerateFilename(m, destination, k, ext, extra).Err?
    ensures GenerateFilename(m, destination, k, ext, extra) == Err(TypeError(extra[0])) <==>
      "originating_type" !in extra && "ext" !in extra && extra[0] != "self" && extra[0] != "destination"
  {
  }

  /** A track whose artist lists are non-empty and whose album has a name
      gets all seven parts, with an empty `album` part. */
  lemma TrackParts(t: TrackMeta)
    requires |t.artist| > 0 && |t.album.artist| > 0 && t.album.name != ""
    ensures ToFilenameParts(TrackMetadata(t)).Ok?
    ensures var p := ToFilenameParts(TrackMetadata(t)).value;
      p.Keys == (set k | k in TrackKeys)
      && "name" in p && p["name"] == Str(SafeChars(t.name))
      && "artist" in p && p["artist"] == Str(SafeChars(FormatArtist(t.artist).value))
      && "album" in p && p["album"] == Str("")
      && "album_artist" in p && p["album_artist"] == Str(SafeChars(FormatArtist(t.album.artist).value))
      && "album_year" in p && p["album_year"] == Int(t.album.date.year)
      && "disc" in p && p["disc"] == Int(t.discNumber)
      && "track" in p && p["track"] == Int(t.number)
  {
    var m := TrackMetadata(t);
    assert Get(m, "name", Str("")) == Ok(Str(SafeChars(t.name)));
    assert Get(m, "artist", Str("")) == Ok(Str(SafeChars(FormatArtist(t.artist).value)));
    assert Get(m, "album", Str("")) == Ok(Str("")) by { assert SafeChars("") == ""; }
    assert Get(m, "album_artist", Str("")) == Ok(Str(SafeChars(FormatArtist(t.album.artist).value)));
    assert Get(m, "album_year", Str("")).Ok?;
    assert Get(m, "disc", Str("")).Ok?;
    assert Get(m, "track", Str("")).Ok?;
    forall i | 0 <= i < |TrackKeys| ensures Get(m, TrackKeys[i], Str("")).Ok? {
      assert TrackKeys[i] in {"name", "artist", "album", "album_artist", "album_year", "disc", "track"};
    }
    PartsOfKeys(m, TrackKeys);
    var p := ToFilenameParts(m).value;
    assert "name" in TrackKeys && "artist" in TrackKeys && "album" in TrackKeys && "album_artist" in TrackKeys;
    assert "album_year" in TrackKeys && "disc" in TrackKeys && "track" in TrackKeys;
  }

  /** An episode with a valid publication date gets its three parts. */
  lemma EpisodeParts(e: EpisodeMeta)
    requires FormatDate(e.publishTime).Ok?
    ensures ToFilenameParts(EpisodeMetadata(e)).Ok?
    ensures var p := ToFilenameParts(EpisodeMetadata(e)).value;
      p.Keys == (set k | k in EpisodeKeys)
      && "name" in p && p["name"] == Str(SafeChars(e.name))
      && "show" in p && p["show"] == Str(SafeChars(e.showName))
      && "publish_time" in p && p["publish_time"] == Str(SafeChars(FormatDate(e.publishTime).value))
  {
    var m := EpisodeMetadata(e);
    assert Get(m, "name", Str("")) == Ok(Str(SafeChars(e.name)));
    assert Get(m, "show", Str("")) == Ok(Str(SafeChars(e.showName)));
    assert Get(m, "publish_time", Str("")) == Ok(Str(SafeChars(FormatDate(e.publishTime).value)));
    forall i | 0 <= i < |EpisodeKeys| ensures Get(m, EpisodeKeys[i], Str("")).Ok? {
      assert EpisodeKeys[i] in {"name", "show", "publish_time"};
    }
    PartsOfKeys(m, EpisodeKeys);
    assert "name" in EpisodeKeys && "show" in EpisodeKeys && "publish_time" in EpisodeKeys;
  }

  /** A sanitised text holds no '/'. */
  lemma SafeHasNoSlash(s: string)
    ensures HasNoSlash(SafeChars(s))
  {
    SafeCharsAt(s);
  }

  lemma HasNoSlashConcat(a: string, b: string)
    requires HasNoSlash(a) && HasNoSlash(b)
    ensures HasNoSlash(a + b)
  {
    assert forall i :: 0 <= i < |a + b| ==> (a + b)[i] == if i < |a| then a[i] else b[i - |a|];
  }

  /** The "<name>.<ext>" tail shared by every template. */
  lemma NameExtText(args: map<string, Value>, name: string, ext: string)
    requires "name" in args && args["name"] == Str(name)
    requires "ext" in args && args["ext"] == Str(ext)
    ensures FormatPieces([Field("name"), Lit("."), Field("ext")], args) == Ok(name + "." + ext)
  {
    var r2: seq<Piece> := [Field("ext")];
    FormatPiecesCons(Field("ext"), [], args, ext, "");
    assert [Field("ext")] + [] == r2 && ext + "" == ext;
    var r1 := [Lit(".")] + r2;
    FormatPiecesCons(Lit("."), r2, args, ".", ext);
    FormatPiecesCons(Field("name"), r1, args, name, "." + ext);
    assert [Field("name")] + r1 == [Field("name"), Lit("."), Field("ext")];
    assert name + ("." + ext) == name + "." + ext;
  }

  /** The TRACK template formats as "<artist> - <name>.<ext>". */
  lemma TrackTemplateText(args: map<string, Value>, artist: string, name: string, ext: string)
    requires "artist" in args && args["artist"] == Str(artist)
    requires "name" in args && args["name"] == Str(name)
    requires "ext" in args && args["ext"] == Str(ext)
    ensures FormatPieces(Template(Member(TRACK)).value, args) == Ok(artist + " - " + name + "." + ext)
  {
    var r2 := [Field("name"), Lit("."), Field("ext")];
    var t2 := name + "." + ext;
    NameExtText(args, name, ext);
    var r1 := [Lit(" - ")] + r2;
    FormatPiecesCons(Lit(" - "), r2, args, " - ", t2);
    FormatPiecesCons(Field("artist"), r1, args, artist, " - " + t2);
    assert Template(Member(TRACK)).value == [Field("artist")] + r1;
    assert artist + (" - " + t2) == artist + " - " + t2;
    assert artist + " - " + t2 == artist + " - " + name + "." + ext;
  }

  lemma TrackFilenameText(t: TrackMeta, ext: string)
    requires |t.artist| > 0 && |t.album.artist| > 0 && t.album.name != ""
    ensures ToFilenameParts(TrackMetadata(t)).Ok?
    ensures FormatPieces(Template(Member(TRACK)).value, ToFilenameParts(TrackMetadata(t)).value["ext" := Str(ext)]) ==
      Ok(SafeChars(FormatArtist(t.artist).value) + " - " + SafeChars(t.name) + "." + ext)
  {
    TrackParts(t);
    var args := ToFilenameParts(TrackMetadata(t)).value["ext" := Str(ext)];
    TrackTemplateText(args, SafeChars(FormatArtist(t.artist).value), SafeChars(t.name), ext);
  }

  /** "<a> - <b>.<ext>" holds no '/' when its parts hold none. */
  lemma FileNameNoSlash(a: string, b: string, ext: string)
    requires HasNoSlash(a) && HasNoSlash(b) && HasNoSlash(ext)
    ensures HasNoSlash(a + " - " + b + "." + ext) && |a + " - " + b + "." + ext| >= 4
  {
    HasNoSlashConcat(a, " - ");
    HasNoSlashConcat(a + " - ", b);
    HasNoSlashConcat(a + " - " + b, ".");
    HasNoSlashConcat(a + " - " + b + ".", ext);
  }

  /** Joining "<dir>/<file>" onto a destination adds the two components. */
  lemma JoinTwoNamed(destination: Path, dir: string, file: string)
    requires HasNoSlash(dir) && dir != "" && dir != "."
    requires HasNoSlash(file) && file != "" && file != "."
    ensures JoinPath(destination, dir + "/" + file) == Path(destination.parts + [dir, file])
  {
    assert (dir + "/" + file)[0] == dir[0];
    assert JoinedBySlash([dir, file]) == dir + "/" + file;
    ComponentsOfNamed([dir, file], dir + "/" + file);
  }

  /** Joining a single named component onto a destination appends it. */
  lemma JoinOneNamed(destination: Path, file: string)
    requires HasNoSlash(file) && file != "" && file != "."
    ensures JoinPath(destination, file) == Path(destination.parts + [file])
  {
    ComponentsOfNamed([file], file);
  }

  /** The TRACK template puts "<artist> - <name>.<ext>" directly inside the
      destination. */
  lemma TrackFilename(t: TrackMeta, destination: Path, ext: string)
    requires |t.artist| > 0 && |t.album.artist| > 0 && t.album.name != ""
    requires HasNoSlash(ext)
    ensures GenerateFilename(TrackMetadata(t), destination, Member(TRACK), ext, []) ==
      Ok(Path(destination.parts + [SafeChars(FormatArtist(t.artist).value) + " - " + SafeChars(t.name) + "." + ext]))
  {
    TrackFilenameText(t, ext);
    GenerateFilenameSteps(TrackMetadata(t), destination, Member(TRACK), ext);
    SafeHasNoSlash(FormatArtist(t.artist).value);
    SafeHasNoSlash(t.name);
    FileNameNoSlash(SafeChars(FormatArtist(t.artist).value), SafeChars(t.name), ext);
    JoinOneNamed(destination, SafeChars(FormatArtist(t.artist).value) + " - " + SafeChars(t.name) + "." + ext);
  }

  /** Without an "artist" entry the TRACK template fails on its first field. */
  lemma TrackTemplateMissingArtist(args: map<string, Value>)
    requires "artist" !in args
    ensures FormatPieces(Template(Member(TRACK)).value, args) == Err(KeyError("artist"))
  {
    assert Template(Member(TRACK)).value[0] == Field("artist");
  }

  /** With no extra keyword, `generate_filename` is the formatted template
      joined onto the destination, or the template error of whatever the
      parts or the formatting raised. */
  lemma GenerateFilenameSteps(m: WrappedMetadata, destination: Path, k: Kind, ext: string)
    requires Template(k).Some? && ToFilenameParts(m).Ok?
    ensures var f := FormatPieces(Template(k).value, ToFilenameParts(m).value["ext" := Str(ext)]);
      GenerateFilename(m, destination, k, ext, []) ==
        if f.Ok? then Ok(JoinPath(destination, f.value)) else Err(TemplateError(k, f.error))
  {
  }

  lemma MissingArtistMessage()
    ensures TemplateError(Member(TRACK), KeyError("artist")) ==
      Despot(FilenameTemplateErrorClass, "Invalid field 'artist' for track filename")
  {
    assert KindValue(Member(TRACK)) == "track";
    assert "Invalid field '" + "artist" + "' for " + "track" + " filename" == "Invalid field 'artist' for track filename";
  }

  /** The TRACK template over episode metadata fails on its first field. */
  lemma TrackTemplateOverEpisode(e: EpisodeMeta, destination: Path, ext: string)
    requires FormatDate(e.publishTime).Ok?
    ensures GenerateFilename(EpisodeMetadata(e), destination, Member(TRACK), ext, []) ==
      Err(Despot(FilenameTemplateErrorClass, "Invalid field 'artist' for track filename"))
  {
    EpisodeParts(e);
    var args := ToFilenameParts(EpisodeMetadata(e)).value["ext" := Str(ext)];
    assert "artist" !in EpisodeKeys;
    TrackTemplateMissingArtist(args);
    GenerateFilenameSteps(EpisodeMetadata(e), destination, Member(TRACK), ext);
    MissingArtistMessage();
  }

  /** The SHOW and EPISODE template formats as
      "<show>/<publish_time> - <name>.<ext>". */
  lemma EpisodeTemplateText(k: Kind, args: map<string, Value>, show: string, date: string, name: string, ext: string)
    requires k == Member(SHOW) || k == Member(EPISODE)
    requires "show" in args && args["show"] == Str(show)
    requires "publish_time" in args && args["publish_time"] == Str(date)
    requires "name" in args && args["name"] == Str(name)
    requires "ext" in args && args["ext"] == Str(ext)
    ensures FormatPieces(Template(k).value, args) == Ok(show + "/" + (date + " - " + name + "." + ext))
  {
    var r3 := [Field("name"), Lit("."), Field("ext")];
    var t3 := name + "." + ext;
    NameExtText(args, name, ext);
    var r2 := [Lit(" - ")] + r3;
    FormatPiecesCons(Lit(" - "), r3, args, " - ", t3);
    var r1 := [Field("publish_time")] + r2;
    FormatPiecesCons(Field("publish_time"), r2, args, date, " - " + t3);
    var t1 := date + (" - " + t3);
    assert t1 == date + " - " + name + "." + ext;
    var r0 := [Lit("/")] + r1;
    FormatPiecesCons(Lit("/"), r1, args, "/", t1);
    FormatPiecesCons(Field("show"), r0, args, show, "/" + t1);
    assert Template(k).value == [Field("show")] + r0;
    assert show + ("/" + t1) == show + "/" + t1;
  }

  lemma EpisodeFilenameText(e: EpisodeMeta, k: Kind, ext: string)
    requires k == Member(SHOW) || k == Member(EPISODE)
    requires FormatDate(e.publishTime).Ok?
    ensures ToFilenameParts(EpisodeMetadata(e)).Ok?
    ensures FormatPieces(Template(k).value, ToFilenameParts(EpisodeMetadata(e)).value["ext" := Str(ext)]) ==
      Ok(SafeChars(e.showName) + "/" + (SafeChars(FormatDate(e.publishTime).value) + " - " + SafeChars(e.name) + "." + ext))
  {
    EpisodeParts(e);
    var args := ToFilenameParts(EpisodeMetadata(e)).value["ext" := Str(ext)];
    EpisodeTemplateText(k, args, SafeChars(e.showName), SafeChars(FormatDate(e.publishTime).value), SafeChars(e.name), ext);
  }

  /** The SHOW and EPISODE template puts "<date> - <name>.<ext>" in a folder
      named after the show, inside the destination. */
  lemma EpisodeFilename(e: EpisodeMeta, destination: Path, k: Kind, ext: string)
    requires k == Member(SHOW) || k == Member(EPISODE)
    requires FormatDate(e.publishTime).Ok?
    requires var show := SafeChars(e.showName); show != "" && show != "."
    requires HasNoSlash(ext)
    ensures GenerateFilename(EpisodeMetadata(e), destination, k, ext, []) ==
      Ok(Path(destination.parts + [SafeChars(e.showName),
        SafeChars(FormatDate(e.publishTime).value) + " - " + SafeChars(e.name) + "." + ext]))
  {
    EpisodeFilenameText(e, k, ext);
    GenerateFilenameSteps(EpisodeMetadata(e), destination, k, ext);
    var date := SafeChars(FormatDate(e.publishTime).value);
    SafeHasNoSlash(e.showName);
    SafeHasNoSlash(FormatDate(e.publishTime).value);
    SafeHasNoSlash(e.name);
    FileNameNoSlash(date, SafeChars(e.name), ext);
    JoinTwoNamed(destination, SafeChars(e.showName), date + " - " + SafeChars(e.name) + "." + ext);
  }

  /** " (<album_year>)/" in front of any formatted rest. */
  lemma AlbumYearText(args: map<string, Value>, year: int, rest: seq<Piece>, tail: string)
    requires "album_year" in args && args["album_year"] == Int(year)
    requires FormatPieces(rest, args) == Ok(tail)
    ensures FormatPieces([Lit(" ("), Field("album_year"), Lit(")/")] + rest, args) ==
      Ok(" (" + Strings.IntToString(year) + ")/" + tail)
  {
    var y := Strings.IntToString(year);
    var r3: seq<Piece> := [Lit(")/")] + rest;
    FormatPiecesCons(Lit(")/"), rest, args, ")/", tail);
    var r2 := [Field("album_year")] + r3;
    FormatPiecesCons(Field("album_year"), r3, args, y, ")/" + tail);
    FormatPiecesCons(Lit(" ("), r2, args, " (", y + (")/" + tail));
    assert [Lit(" ("), Field("album_year"), Lit(")/")] + rest == [Lit(" (")] + r2;
    Strings.ConcatAssoc(" (", y, ")/" + tail);
    Strings.ConcatAssoc(" (" + y, ")/", tail);
  }

  /** The album folder part of the ALBUM and ARTIST template,
      "<album_artist>/<album> (<album_year>)/", in front of any formatted
      rest. */
  lemma AlbumFolderText(args: map<string, Value>, aa: string, album: string, year: int, rest: seq<Piece>, tail: string)
    requires "album_artist" in args && args["album_artist"] == Str(aa)
    requires "album" in args && args["album"] == Str(album)
    requires "album_year" in args && args["album_year"] == Int(year)
    requires FormatPieces(rest, args) == Ok(tail)
    ensures FormatPieces([Field("album_artist"), Lit("/"), Field("album"), Lit(" ("), Field("album_year"), Lit(")/")] + rest, args) ==
      Ok(aa + "/" + album + (" (" + Strings.IntToString(year) + ")/" + tail))
  {
    var r4 := [Lit(" ("), Field("album_year"), Lit(")/")] + rest;
    var t4 := " (" + Strings.IntToString(year) + ")/" + tail;
    AlbumYearText(args, year, rest, tail);
    var r3 := [Field("album")] + r4;
    FormatPiecesCons(Field("album"), r4, args, album, t4);
    var r2 := [Lit("/")] + r3;
    FormatPiecesCons(Lit("/"), r3, args, "/", album + t4);
    FormatPiecesCons(Field("album_artist"), r2, args, aa, "/" + (album + t4));
    assert [Field("album_artist"), Lit("/"), Field("album"), Lit(" ("), Field("album_year"), Lit(")/")] + rest == [Field("album_artist")] + r2;
    Strings.ConcatAssoc(aa, "/", album + t4);
    Strings.ConcatAssoc(aa + "/", album, t4);
  }

  /** "<track:02d> <name>.<ext>". */
  lemma AlbumTrackText(args: map<string, Value>, num: int, name: string, ext: string)
    requires "track" in args && args["track"] == Int(num)
    requires "name" in args && args["name"] == Str(name)
    requires "ext" in args && args["ext"] == Str(ext)
    ensures FormatPieces([Padded2("track"), Lit(" "), Field("name"), Lit("."), Field("ext")], args) ==
      Ok(Strings.FormatZeroPadded(num, 2) + " " + name + "." + ext)
  {
    var n := Strings.FormatZeroPadded(num, 2);
    var r3 := [Field("name"), Lit("."), Field("ext")];
    var t3 := name + "." + ext;
    NameExtText(args, name, ext);
    var r2 := [Lit(" ")] + r3;
    FormatPiecesCons(Lit(" "), r3, args, " ", t3);
    FormatPiecesCons(Padded2("track"), r2, args, n, " " + t3);
    assert [Padded2("track"), Lit(" "), Field("name"), Lit("."), Field("ext")] == [Padded2("track")] + r2;
    assert n + (" " + t3) == n + " " + name + "." + ext;
  }

  /** The file part of the ALBUM and ARTIST template:
      "<disc:02d>-<track:02d> <name>.<ext>". */
  lemma AlbumFileText(args: map<string, Value>, disc: int, num: int, name: string, ext: string)
    requires "disc" in args && args["disc"] == Int(disc)
    requires "track" in args && args["track"] == Int(num)
    requires "name" in args && args["name"] == Str(name)
    requires "ext" in args && args["ext"] == Str(ext)
    ensures FormatPieces([Padded2("disc"), Lit("-"), Padded2("track"), Lit(" "), Field("name"), Lit("."), Field("ext")], args) ==
      Ok(Strings.FormatZeroPadded(disc, 2) + "-" + (Strings.FormatZeroPadded(num, 2) + " " + name + "." + ext))
  {
    var d := Strings.FormatZeroPadded(disc, 2);
    var r3 := [Padded2("track"), Lit(" "), Field("name"), Lit("."), Field("ext")];
    var t3 := Strings.FormatZeroPadded(num, 2) + " " + name + "." + ext;
    AlbumTrackText(args, num, name, ext);
    var r2 := [Lit("-")] + r3;
    FormatPiecesCons(Lit("-"), r3, args, "-", t3);
    FormatPiecesCons(Padded2("disc"), r2, args, d, "-" + t3);
    assert [Padded2("disc"), Lit("-"), Padded2("track"), Lit(" "), Field("name"), Lit("."), Field("ext")] == [Padded2("disc")] + r2;
    assert d + ("-" + t3) == d + "-" + t3;
  }

  /** The ALBUM and ARTIST template formats as
      "<album_artist>/<album> (<album_year>)/<disc:02d>-<track:02d> <name>.<ext>". */
  lemma AlbumTemplateText(k: Kind, args: map<string, Value>, aa: string, album: string, year: int,
                          disc: int, num: int, name: string, ext: string)
    requires k == Member(ALBUM) || k == Member(ARTIST)
    requires "album_artist" in args && args["album_artist"] == Str(aa)
    requires "album" in args && args["album"] == Str(album)
    requires "album_year" in args && args["album_year"] == Int(year)
    requires "disc" in args && args["disc"] == Int(disc)
    requires "track" in args && args["track"] == Int(num)
    requires "name" in args && args["name"] == Str(name)
    requires "ext" in args && args["ext"] == Str(ext)
    ensures FormatPieces(Template(k).value, args) ==
      Ok(aa + "/" + album + (" (" + Strings.IntToString(year) + ")/"
        + (Strings.FormatZeroPadded(disc, 2) + "-" + (Strings.FormatZeroPadded(num, 2) + " " + name + "." + ext))))
  {
    var folder := [Field("album_artist"), Lit("/"), Field("album"), Lit(" ("), Field("album_year"), Lit(")/")];
    var file := [Padded2("disc"), Lit("-"), Padded2("track"), Lit(" "), Field("name"), Lit("."), Field("ext")];
    AlbumFileText(args, disc, num, name, ext);
    AlbumFolderText(args, aa, album, year, file,
      Strings.FormatZeroPadded(disc, 2) + "-" + (Strings.FormatZeroPadded(num, 2) + " " + name + "." + ext));
    AlbumTemplateParts(k);
  }

  /** The ALBUM and ARTIST template is its folder part followed by its file
      part. */
  lemma AlbumTemplateParts(k: Kind)
    requires k == Member(ALBUM) || k == Member(ARTIST)
    ensures Template(k).value ==
      [Field("album_artist"), Lit("/"), Field("album"), Lit(" ("), Field("album_year"), Lit(")/")] +
      [Padded2("disc"), Lit("-"), Padded2("track"), Lit(" "), Field("name"), Lit("."), Field("ext")]
  {
  }

  /** For a track, the ALBUM and ARTIST template writes disc and track numbers
      as at least two digits, and the album folder's name part is always
      empty. */
  lemma AlbumFilenameText(t: TrackMeta, k: Kind, ext: string)
    requires k == Member(ALBUM) || k == Member(ARTIST)
    requires |t.artist| > 0 && |t.album.artist| > 0 && t.album.name != ""
    ensures ToFilenameParts(TrackMetadata(t)).Ok?
    ensures FormatPieces(Template(k).value, ToFilenameParts(TrackMetadata(t)).value["ext" := Str(ext)]) ==
      Ok(SafeChars(FormatArtist(t.album.artist).value) + "/" + "" + (" (" + Strings.IntToString(t.album.date.year) + ")/"
        + (Strings.FormatZeroPadded(t.discNumber, 2) + "-"
           + (Strings.FormatZeroPadded(t.number, 2) + " " + SafeChars(t.name) + "." + ext))))
  {
    TrackParts(t);
    var args := ToFilenameParts(TrackMetadata(t)).value["ext" := Str(ext)];
    AlbumTemplateText(k, args, SafeChars(FormatArtist(t.album.artist).value), "", t.album.date.year,
                      t.discNumber, t.number, SafeChars(t.name), ext);
  }

  /** `_to_tags()`: the Vorbis comments written for a track. */
  datatype Tags = Tags(title: string, artist: seq<string>, albumArtist: seq<string>, album: string,
                       date: string, trackNumber: string, discNumber: string)

  function ToTags(t: TrackMeta): Result<Tags, Exc>
  {
    match FormatDate(t.album.date)
    case Err(e) => Err(e)
    case Ok(date) =>
      Ok(Tags(t.name, Names(t.artist), Names(t.album.artist), t.album.name, date,
              Strings.IntToString(t.number), Strings.IntToString(t.discNumber)))
  }

  /** The tags `write_tags` would write: none for an episode. */
  function TagsToWrite(m: WrappedMetadata): Result<Option<Tags>, Exc>
  {
    match m
    case EpisodeMetadata(_) => Ok(None)
    case TrackMetadata(t) =>
      match ToTags(t)
      case Err(e) => Err(e)
      case Ok(tags) => Ok(Some(tags))
  }

  /** Episodes are never tagged; a track's TRACKNUMBER and DISCNUMBER are
      decimal texts that read back as its numbers, and ARTIST and ALBUMARTIST
      list the artists' names in order. */
  lemma TagsProperties(m: WrappedMetadata)
    ensures m.EpisodeMetadata? ==> TagsToWrite(m) == Ok(None)
    ensures m.TrackMetadata? ==> (TagsToWrite(m).Ok? <==> FormatDate(m.track.album.date).Ok?)
    ensures TagsToWrite(m).Ok? && m.TrackMetadata? ==>
      var tags := TagsToWrite(m).value.value;
      var s := tags.trackNumber;
      var d := tags.discNumber;
      |s| > 0 && (s[0] == '-' || Strings.IsDigit(s[0])) && Strings.AllDigits(s[1..]) && Strings.ParseInt(s) == m.track.number
      && |d| > 0 && (d[0] == '-' || Strings.IsDigit(d[0])) && Strings.AllDigits(d[1..]) && Strings.ParseInt(d) == m.track.discNumber
      && |tags.artist| == |m.track.artist|
      && forall i :: 0 <= i < |tags.artist| ==> tags.artist[i] == m.track.artist[i].name
  {
    if m.TrackMetadata? {
      Strings.IntToStringRoundTrip(m.track.number);
      Strings.IntToStringRoundTrip(m.track.discNumber);
    }
  }
}
