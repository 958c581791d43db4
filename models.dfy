/** despot/models.py: audio quality names, the downloadable track (abstract
    until its metadata is populated), the batch of tracks and the result of
    processing one track. */
module Models {
  import opened Wrappers
  import opened Exceptions
  import opened Utils
  import opened Enums
  import opened Paths
  import opened Metadata
  import Strings

  /** librespot's `AudioQuality` members. */
  datatype AudioQuality = NORMAL | HIGH | VERY_HIGH

  const Qualities: seq<AudioQuality> := [NORMAL, HIGH, VERY_HIGH]

  function QualityName(q: AudioQuality): string
  {
    match q
    case NORMAL => "NORMAL"
    case HIGH => "HIGH"
    case VERY_HIGH => "VERY_HIGH"
  }

  /** The patched `__str__`: the member's name in lower case. */
  function QualityStr(q: AudioQuality): (r: string)
    ensures |r| == |QualityName(q)| && Strings.Upper(r) == QualityName(q)
    ensures forall i :: 0 <= i < |r| ==> !('A' <= r[i] <= 'Z')
  {
    Strings.UpperLower(QualityName(q));
    Strings.Lower(QualityName(q))
  }

  /** An argument handed to `AudioQuality(...)` that matched no member value. */
  datatype QualityArg = QualityText(s: string) | QualityNumber(n: int)

  /** The member named `name`, scanning the members in order. */
  function FindQuality(name: string, members: seq<AudioQuality>): (r: Option<AudioQuality>)
    ensures r.Some? ==> r.value in members && QualityName(r.value) == name
    ensures r.None? ==> forall q :: q in members ==> QualityName(q) != name
  {
    if |members| == 0 then None
    else if QualityName(members[0]) == name then Some(members[0])
    else FindQuality(name, members[1..])
  }

  /** The patched `_missing_`: a string is upper-cased and compared with the
      member names; anything else, or a string naming no member, re-enters
      the patched `_missing_` through the class attribute and never returns,
      which ends in RecursionError. */
  function QualityMissing(v: QualityArg): (r: Result<AudioQuality, Exc>)
    ensures r.Ok? <==> v.QualityText? && exists q :: QualityName(q) == Strings.Upper(v.s)
    ensures r.Ok? ==> QualityName(r.value) == Strings.Upper(v.s)
    ensures r.Err? ==> r.error == RecursionError
  {
    match v
    case QualityNumber(_) => Err(RecursionError)
    case QualityText(s) =>
      match FindQuality(Strings.Upper(s), Qualities)
      case Some(q) => Ok(q)
      case None =>
        assert Qualities[0] == NORMAL && Qualities[1] == HIGH && Qualities[2] == VERY_HIGH;
        Err(RecursionError)
  }

  /** Upper-casing forgets any lower-casing done before. */
  lemma UpperOfLower(s: string)
    ensures Strings.Upper(Strings.Lower(s)) == Strings.Upper(s)
  {
    forall i | 0 <= i < |s|
      ensures Strings.UpperChar(Strings.LowerChar(s[i])) == Strings.UpperChar(s[i])
    {
    }
  }

  /** The lookup ignores case: texts that agree once upper-cased give the
      same member, and the string form of a member reads back as it. */
  lemma QualityCaseInsensitive(q: AudioQuality, s: string)
    ensures QualityMissing(QualityText(QualityStr(q))) == Ok(q)
    ensures QualityMissing(QualityText(Strings.Lower(s))) == QualityMissing(QualityText(s))
  {
    Strings.UpperLower(QualityName(q));
    UpperOfLower(s);
  }

  /** `TrackId` or `EpisodeId`, holding the hexadecimal gid. */
  datatype PlayableId = TrackId(gid: string) | EpisodeId(gid: string)

  /** The parts of librespot's `LoadedStream` the downloader reads:
      `stream.track or stream.episode`, the codec, the stream's size and the
      chunks successive reads return (the last read, returning nothing, is
      not listed). */
  datatype LoadedStream = LoadedStream(content: WrappedMetadata, codec: Codec, size: int, chunks: seq<seq<bv8>>)

  /** What `populate_metadata` computes for `target_filename`: the extension
      first (NotImplementedError for an unknown codec), then the call to
      `generate_filename` with the extra keywords `extra`. */
  function PopulateTarget(stream: LoadedStream, destination: Path, k: Kind, extra: seq<string>): Result<Path, Exc>
  {
    match GetFilenameExt(stream.codec)
    case Err(e) => Err(e)
    case Ok(ext) => GenerateFilename(stream.content, destination, k, ext, extra)
  }

  /** With a known codec, any extra keyword makes `populate_metadata` fail
      with TypeError: for an argument given twice, or else naming the first
      extra keyword; with an unknown codec the extension fails first. */
  lemma PopulateTargetErrors(stream: LoadedStream, destination: Path, k: Kind, extra: seq<string>)
    ensures stream.codec == OtherCodec ==> PopulateTarget(stream, destination, k, extra) == Err(NotImplementedError)
    ensures stream.codec != OtherCodec && |extra| > 0 ==>
      PopulateTarget(stream, destination, k, extra) ==
        Err(if "originating_type" in extra || "ext" in extra || extra[0] == "self" || extra[0] == "destination"
            then DuplicateKeyword else TypeError(extra[0]))
  {
  }

  /** With no extra keyword and track metadata, a track reference gets the
      TRACK filename next to the destination. */
  lemma PopulateTrackTarget(stream: LoadedStream, destination: Path)
    requires stream.content.TrackMetadata? && stream.codec != OtherCodec
    requires var t := stream.content.track; |t.artist| > 0 && |t.album.artist| > 0 && t.album.name != ""
    ensures var t := stream.content.track;
      PopulateTarget(stream, destination, Member(TRACK), []) ==
        Ok(Path(destination.parts + [SafeChars(FormatArtist(t.artist).value) + " - " + SafeChars(t.name) + "."
                                     + GetFilenameExt(stream.codec).value]))
  {
    var ext := GetFilenameExt(stream.codec).value;
    assert HasNoSlash(ext);
    TrackFilename(stream.content.track, destination, ext);
  }

  /** `task_description`: "[blue]<publish_time>[/] <name>" for an episode
      reference, the name for a track reference. */
  function TaskText(id: PlayableId, m: WrappedMetadata): Result<string, Exc>
  {
    if id.EpisodeId? then
      match Get(m, "publish_time", Str(""))
      case Err(e) => Err(e)
      case Ok(time) =>
        match Get(m, "name", Str(""))
        case Err(e) => Err(e)
        case Ok(name) => Ok("[blue]" + Plain(time) + "[/] " + Plain(name))
    else
      match Get(m, "name", Str(""))
      case Err(e) => Err(e)
      case Ok(name) => Ok(Plain(name))
  }

  /** `header_description`: "episode '<name>' of <show>" for an episode
      reference, "song '<name>' by <artist>" for a track reference. */
  function HeaderText(id: PlayableId, m: WrappedMetadata): Result<string, Exc>
  {
    match Get(m, "name", Str(""))
    case Err(e) => Err(e)
    case Ok(name) =>
      var other := if id.EpisodeId? then "show" else "artist";
      match Get(m, other, Str(""))
      case Err(e) => Err(e)
      case Ok(v) =>
        if id.EpisodeId? then Ok("episode '" + Plain(name) + "' of " + Plain(v))
        else Ok("song '" + Plain(name) + "' by " + Plain(v))
  }

  /** The descriptions of an episode and of a track, spelled out. */
  lemma DescriptionTexts(gid: string, e: EpisodeMeta, t: TrackMeta)
    requires FormatDate(e.publishTime).Ok? && |t.artist| > 0
    ensures TaskText(EpisodeId(gid), EpisodeMetadata(e)) ==
      Ok("[blue]" + SafeChars(FormatDate(e.publishTime).value) + "[/] " + SafeChars(e.name))
    ensures HeaderText(EpisodeId(gid), EpisodeMetadata(e)) ==
      Ok("episode '" + SafeChars(e.name) + "' of " + SafeChars(e.showName))
    ensures TaskText(TrackId(gid), TrackMetadata(t)) == Ok(SafeChars(t.name))
    ensures HeaderText(TrackId(gid), TrackMetadata(t)) ==
      Ok("song '" + SafeChars(t.name) + "' by " + SafeChars(FormatArtist(t.artist).value))
  {
    assert Get(EpisodeMetadata(e), "name", Str("")) == Ok(Str(SafeChars(e.name)));
    assert Get(EpisodeMetadata(e), "show", Str("")) == Ok(Str(SafeChars(e.showName)));
    assert Get(EpisodeMetadata(e), "publish_time", Str("")) == Ok(Str(SafeChars(FormatDate(e.publishTime).value)));
    assert Get(TrackMetadata(t), "name", Str("")) == Ok(Str(SafeChars(t.name)));
    assert Get(TrackMetadata(t), "artist", Str("")) == Ok(Str(SafeChars(FormatArtist(t.artist).value)));
  }

  /** `p.with_stem("." + p.stem).with_suffix(".part")`. */
  function TempFilenameOf(target: Path): Result<Path, Exc>
  {
    match WithStem(target, "." + Stem(Name(target)))
    case Err(e) => Err(e)
    case Ok(p) => WithSuffix(p, ".part")
  }

  /** The last dot of a text is the one after which no dot follows. */
  lemma LastDotIs(s: string, j: int)
    requires 0 <= j < |s| && s[j] == '.'
    requires forall k :: j < k < |s| ==> s[k] != '.'
    ensures LastDot(s) == j
  {
  }

  /** The temporary file sits in the target's directory and is named
      "." + stem + ".part", for a target whose name has a suffix (every
      generated filename ends in "." and an extension). */
  lemma TempFilenameShape(target: Path)
    requires Name(target) != "" && HasNoSlash(Name(target)) && Suffix(Name(target)) != ""
    ensures TempFilenameOf(target).Ok?
    ensures var tmp := TempFilenameOf(target).value;
      Name(tmp) != "" && Parent(tmp) == Parent(target) && Name(tmp) == "." + Stem(Name(target)) + ".part"
  {
    var name := Name(target);
    var i := LastDot(name);
    var stem := Stem(name);
    var sfx := Suffix(name);
    assert 0 < i < |name| - 1 && sfx == name[i..] && stem == name[..i];
    var n1 := "." + stem + sfx;
    assert n1[1 + i] == '.' by { assert n1[1 + i] == sfx[0] == name[i]; }
    forall k | 1 + i < k < |n1| ensures n1[k] != '.' {
      assert n1[k] == name[k - 1];
    }
    LastDotIs(n1, 1 + i);
    assert Suffix(n1) == sfx by { assert n1[1 + i..] == sfx; }
    assert HasNoSlash(n1) by {
      forall k | 0 <= k < |n1| ensures n1[k] != '/' {
        if k > 0 { assert n1[k] == name[k - 1]; }
      }
    }
    assert n1 != "" && n1 != "." && |n1| > 1;
    var p1 := Path(target.parts[..|target.parts| - 1] + [n1]);
    assert WithStem(target, "." + stem) == Ok(p1);
    assert Name(p1) == n1;
    var n2 := n1[..|n1| - |sfx|] + ".part";
    assert n1[..|n1| - |sfx|] == "." + stem;
    assert HasNoSlash(n2) by {
      forall k | 0 <= k < |n2| ensures n2[k] != '/' {
        if k < |n1| - |sfx| { assert n2[k] == n1[k]; } else { assert n2[k] == ".part"[k - (|n1| - |sfx|)]; }
      }
    }
    assert n2 != "" && n2 != ".";
    assert TempFilenameOf(target) == Ok(Path(p1.parts[..|p1.parts| - 1] + [n2]));
    assert p1.parts[..|p1.parts| - 1] == target.parts[..|target.parts| - 1];
  }

  /** `DownloadableTrack`: a reference to one song or episode, with the
      originating type that picks its filename template. `metadata` and
      `target_filename` have no value until `populate_metadata` assigns
      them. */
  class DownloadableTrack {
    const trackId: PlayableId
    const originatingType: Kind
    var metadata: Option<WrappedMetadata>
    var targetFilename: Option<Path>

    constructor (trackId: PlayableId, originatingType: Kind)
      ensures this.trackId == trackId && this.originatingType == originatingType
      ensures metadata == None && targetFilename == None
      ensures IsAbstract()
    {
      this.trackId := trackId;
      this.originatingType := originatingType;
      metadata := None;
      targetFilename := None;
    }

    /** `is_abstract`: no metadata assigned yet. */
    predicate IsAbstract()
      reads this
    {
      metadata.None?
    }

    /** `populate_metadata`: the metadata is assigned first, then the target
        filename is computed; when that fails, the exception escapes and the
        track keeps its metadata but gets no new target. */
    method PopulateMetadata(stream: LoadedStream, destination: Path, extra: seq<string>) returns (err: Option<Exc>)
      modifies this
      ensures metadata == Some(stream.content) && !IsAbstract()
      ensures var r := PopulateTarget(stream, destination, originatingType, extra);
        (r.Ok? ==> err == None && targetFilename == Some(r.value))
        && (r.Err? ==> err == Some(r.error) && targetFilename == old(targetFilename))
    {
      metadata := Some(stream.content);
      match PopulateTarget(stream, destination, originatingType, extra)
      case Ok(p) =>
        targetFilename := Some(p);
        err := None;
      case Err(e) =>
        err := Some(e);
    }

    /** `task_description`; AttributeError while the track is abstract. */
    function TaskDescription(): Result<string, Exc>
      reads this
    {
      match metadata
      case None => Err(AttributeError)
      case Some(m) => TaskText(trackId, m)
    }

    /** `header_description`; AttributeError while the track is abstract. */
    function HeaderDescription(): Result<string, Exc>
      reads this
    {
      match metadata
      case None => Err(AttributeError)
      case Some(m) => HeaderText(trackId, m)
    }

    /** `temp_filename`; AttributeError while no target is assigned. */
    function TempFilename(): Result<Path, Exc>
      reads this
    {
      match targetFilename
      case None => Err(AttributeError)
      case Some(t) => TempFilenameOf(t)
    }
  }

  /** The right operand of `batch + other`. */
  datatype AddOperand = OneBatch(batch: DownloadableBatch) | BatchList(batches: seq<DownloadableBatch>) | OtherOperand

  /** `DownloadableBatch`: the tracks one reference expands to, with the
      batch's type, description and the context passed on to filename
      generation. */
  class DownloadableBatch {
    const kind: Kind
    var tracks: seq<DownloadableTrack>
    const description: Option<string>
    const context: map<string, string>

    constructor (kind: Kind, tracks: seq<DownloadableTrack>, description: Option<string>, context: map<string, string>)
      ensures this.kind == kind && this.tracks == tracks
      ensures this.description == description && this.context == context
    {
      this.kind := kind;
      this.tracks := tracks;
      this.description := description;
      this.context := context;
    }

    /** The list `self.tracks` becomes after `+=` with each batch of `bs` in
        turn, starting from `acc`; when `self` is itself in the list, its
        tracks at that point are the ones already accumulated. */
    function Appended(acc: seq<DownloadableTrack>, bs: seq<DownloadableBatch>): seq<DownloadableTrack>
      reads set b | b in bs && b != this
      decreases |bs|
    {
      if |bs| == 0 then acc
      else Appended(acc + (if bs[0] == this then acc else bs[0].tracks), bs[1..])
    }

    /** `__add__`: the other batch's tracks, or every listed batch's tracks in
        list order, are appended to this batch's list in place and the batch
        itself is returned; any other operand raises NotImplementedError. */
    method Add(other: AddOperand) returns (r: Result<DownloadableBatch, Exc>)
      modifies this
      ensures other.OtherOperand? ==> r == Err(NotImplementedError) && tracks == old(tracks)
      ensures other.OneBatch? ==> r == Ok(this) && tracks == old(tracks) + old(other.batch.tracks)
      ensures other.BatchList? ==> r == Ok(this) && tracks == old(Appended(tracks, other.batches))
    {
      match other
      case OtherOperand =>
        r := Err(NotImplementedError);
      case OneBatch(b) =>
        tracks := tracks + b.tracks;
        r := Ok(this);
      case BatchList(bs) =>
        ghost var goal := Appended(tracks, bs);
        var i := 0;
        while i < |bs|
          invariant 0 <= i <= |bs|
          invariant Appended(tracks, bs[i..]) == goal
        {
          assert bs[i..][1..] == bs[i + 1..];
          tracks := tracks + bs[i].tracks;
          i := i + 1;
        }
        r := Ok(this);
    }

    /** When `self` is not in the list, `+` appends the concatenation of the
        listed batches' tracks. */
    lemma {:induction false} AppendedIsConcat(acc: seq<DownloadableTrack>, bs: seq<DownloadableBatch>)
      requires this !in bs
      ensures Appended(acc, bs) == acc + AllTracks(bs)
      decreases |bs|
    {
      if |bs| > 0 {
        AppendedIsConcat(acc + bs[0].tracks, bs[1..]);
        assert acc + bs[0].tracks + AllTracks(bs[1..]) == acc + (bs[0].tracks + AllTracks(bs[1..]));
      }
    }
  }

  /** The tracks of every listed batch, in list order. */
  function AllTracks(bs: seq<DownloadableBatch>): seq<DownloadableTrack>
    reads set b | b in bs
    decreases |bs|
  {
    if |bs| == 0 then [] else bs[0].tracks + AllTracks(bs[1..])
  }

  /** `ProcessingResult`: the track, the exception it ended with (if any)
      and the `interrupted` flag. */
  datatype ProcessingResult = ProcessingResult(track: DownloadableTrack, exception: Option<Exc>, interrupted: bool)

  /** `ProcessingResult(track=track)`: no exception, not interrupted. */
  function NewResult(track: DownloadableTrack): (r: ProcessingResult)
    ensures r.track == track && r.exception.None? && !r.interrupted
  {
    ProcessingResult(track, None, false)
  }
}
