# despot in Dafny

This project models the core of despot, a command-line downloader for
Spotify tracks, episodes, albums, shows, artists and playlists. The model
covers five parts:

- **The reference resolver** (`LinkParser`). It recognises a `spotify:`
  URI, a web link, a `<kind>/<id>` path or a bare 22-character id, in that
  order. It then expands the item into batches of abstract tracks:
  - an album gives its discs, then the tracks of each disc;
  - a show gives its episodes in reverse;
  - an artist gives one album batch per album;
  - a playlist gives the tracks of every entry, concatenated.
- **The per-item download logic of `BatchProcessor`**, run one item after
  another. This covers:
  - the worker count, the queue order and the retry loop of
    `_load_stream` with its error classification;
  - the exists/dry-run bail decision and the chunk-copy loop with its stop
    flag;
  - the move to the target, the success and failure counters of
    `_callback`, and the temporary-file cleanup of `shutdown`.
- **The data model**: `DownloadableTrack`, `DownloadableBatch.__add__`,
  `ProcessingResult` and the patched `AudioQuality` name lookup.
- **The filename and metadata helpers**: the property maps, `get`, the
  per-kind filename templates and their error, the tags, filename
  sanitising, artist joining, date formatting and the codec extension.
- **The item kinds and the exception taxonomy.**

There is one module per source file: `Enums`, `Exceptions`, `Utils`,
`Metadata`, `Models`, `Parser` and `Batch`. Three helper modules stand in
for Python and its libraries:
- `Wrappers` holds `Option` and `Result`;
- `Strings` holds `join`, `split`, `str(int)`, zero padding and ASCII case;
- `Paths` holds the parts of `pathlib` that are used.

Exceptions are values of one datatype (`Exceptions.Exc`). A function that
can raise returns a `Result`. A generator that is run to its end is the
list of what it yielded plus the exception it ended with, if any
(`Parser.Parsed`).

The three objects whose fields the source updates in place are classes:
`DownloadableTrack`, `DownloadableBatch` and `BatchProcessor`. The
file system is the field `fs` of `BatchProcessor`, a map from paths to
bytes.

The outside world enters as inputs:
- librespot's API is a record of functions (`Parser.Api`): metadata fetches,
  the playlist fetch, and the base-62 decoding of an id into a hex gid;
- the content feeder is the list of its answers to successive calls
  (`Batch.FeedAnswer`), and calls past the list's end get nothing;
- a stream is its metadata, its codec, its size and the chunks its reads
  return;
- the moment another thread sets the stop event is the index of the first
  chunk after which the copy loop sees it.

Two places where the source does not do what it evidently means are
modelled as written:

- `ItemType` has five members (despot/enums.py:4-9). parser.py still refers
  to `ItemType.PLAYLIST`: in the `match` of `parse` and as the default
  argument of `_parse_playlist`. That default is evaluated when the class
  body runs, so as written importing parser.py raises AttributeError.
  The model adds a sixth kind, `Enums.Kind.PlaylistKind`. Batches and
  originating types carry a `Kind`, and the five-member `ItemType` stays the
  kind check of `parse`. The kind check runs on the text, so
  `spotify:playlist:<id>` is refused with ValueError
  (`Parser.ParsePlaylistUri`). Every unknown kind gets CPython's enum
  message, `repr(kind) + " is not a valid ItemType"` (`Enums.NotValidMessage`),
  so `spotify:it's:<id>` gives `"it's" is not a valid ItemType`; `repr` is
  modelled in `Strings.Repr`. A playlist web link or a `playlist/<id>` path
  matches none of the three patterns, so `parse` yields nothing and raises
  nothing for it (`Parser.PlaylistLinkIgnored`). The playlist fold of
  `_parse_playlist` is modelled on its own (`Parser.PlaylistSpec`,
  `Parser.ParsePlaylist`).
  Tracks reached through a playlist carry the playlist kind, for which
  `generate_filename` has no template (`Parser.PlaylistItemsHaveNoTemplate`).
- `_download_track` passes `idx=` and the batch context as keywords to
  `populate_metadata`, which hands them to `generate_filename`. That
  function accepts no extra keywords (despot/batch.py:116,
  despot/models.py:46-51, despot/metadata.py:59). So every item whose stream
  loads fails with TypeError, or with NotImplementedError when the codec has
  no extension, and every other item fails with its stream error. A batch
  context with a key `self`, `stream`, `destination` or `idx` makes the call
  to `populate_metadata` itself raise TypeError for an argument given twice
  (`Batch.CallClash`); a key `ext` or `originating_type` does the same at the
  call to `generate_filename`. `parse` builds no such context: its contexts
  are empty or hold `playlist_name` alone.
  `Batch.BatchProcessor.DownloadTrack` models this: the exception lands in
  the result, or becomes Abort under `fail_early`, and `Batch.ItemAlwaysFails`
  states it. No success is ever counted by `Batch.BatchProcessor.Process`.
  The rest of `_download_track` (lines 117-144) is unreachable as written.
  It is modelled for a track whose metadata and target are populated, as
  `Batch.BatchProcessor.Transfer` with `Prepare`, `CopyInto` and
  `WriteFromStream`.

## Model

| member | source | states |
|---|---|---|
| Enums.FromValue | despot/enums.py:4-9 | `ItemType(s)` gives a member whose value is `s`, and fails exactly when no member has that value |
| Enums.FromValueRoundTrip | despot/enums.py:4-9 | every member is rebuilt from its value, and is listed among the members |
| Enums.MemberValues | despot/enums.py:13 | the values of the members, in declaration order |
| Enums.HumanNamesText | despot/enums.py:11-14 | `human_names(conn)` is "track, episode, album, artist " + conn + " show" for any connective |
| Enums.HumanNamesDefault | despot/enums.py:12-14 | with the default connective the text is "track, episode, album, artist or show" |
| Enums.NotValidPlain | despot/parser.py:52 | the ValueError text of `ItemType(s)` for a value of printable ASCII characters other than `\` and `'` is `'s' is not a valid ItemType` |
| Enums.PlaylistNotAKind | despot/parser.py:52 | "playlist" is the value of no `ItemType` member |
| Exceptions.Raise | despot/exceptions.py:7-8 | the message is `msg` when it is given and non-empty, and the class default when it is None or empty |
| Exceptions.RaiseProperties | despot/exceptions.py:4-20 | a despot exception never has an empty message; ContentUnavailableError is a StreamError and FilenameTemplateError is not |
| Utils.SafeCharsAt | despot/utils.py:14-21 | sanitising keeps the length, turns exactly the characters `/ \ ? % * : \| " < >` into '-' and leaves every other character in place |
| Utils.MakeSafeFilenameIdempotent | despot/utils.py:19-22 | sanitising twice equals sanitising once, a sanitised string holds no unsafe character, and integers pass unchanged |
| Utils.GetFilenameExt | despot/utils.py:25-33 | MP3 gives "mp3", VORBIS "ogg" and AAC "m4a"; any other codec raises NotImplementedError |
| Utils.GetFilenameExtInjective | despot/utils.py:25-33 | the three codecs get three different extensions |
| Utils.FormatArtist | despot/utils.py:36-41 | ValueError exactly for no artists; one artist gives the name; more give the others joined by ", ", then " & " and the last name |
| Utils.FormatArtistShape | despot/utils.py:39-40 | with two or more artists the text starts with the first name and ends with " & " and the last one |
| Utils.FormatArtistCons | despot/utils.py:40 | one more artist in front of two or more adds its name and ", " in front |
| Utils.FormatArtistOfString | despot/metadata.py:23 | `format_artist` over a plain string raises ValueError when it is empty and AttributeError otherwise |
| Utils.FormatDateShape | despot/utils.py:44-52 | a valid date with a 4-digit year is ten characters YYYY-MM-DD whose fields read back as the year, the month (1 when zero) and the day (1 when zero) |
| Utils.PaddedWidth | despot/metadata.py:66 | a value below 10^w pads to exactly w digits |
| Utils.FormatDateIgnoresTime | despot/utils.py:44-52 | dates that differ only in a valid hour or minute format alike |
| Strings.SplitLacking | despot/parser.py:41 | a text without the separator splits into itself |
| Strings.SplitJoin | despot/parser.py:41 | a separator-free piece followed by the separator splits off as the first piece |
| Strings.NatToString | despot/metadata.py:84-85 | `str(n)` is a non-empty run of digits with no leading zero |
| Strings.ParseNatToString | despot/metadata.py:84-85 | `int(str(n)) == n` for n >= 0 |
| Strings.IntToStringRoundTrip | despot/metadata.py:84-85 | `str(i)` is an optional '-' and digits, and reads back as `i` |
| Strings.FormatZeroPadded | despot/metadata.py:66 | `format(i, "02d")` and the like: at least `width` characters that read back as `i`, with a '-' in front when negative |
| Strings.UpperLower | despot/models.py:16-24 | upper-casing the lower-cased name of a member gives the name back |
| Strings.ReprQuote | despot/parser.py:52 | `repr` quotes with `"` exactly when the text holds `'` and no `"`; when the text holds at most one kind of quote, the chosen quote is not in it |
| Strings.UnescapeStep | despot/parser.py:52 | each character as `repr` writes it (`\\`, the escaped quote, `\t`, `\n`, `\r`, `\xhh` or itself) reads back as that character |
| Strings.EscapeAllRoundTrip | despot/parser.py:52 | the escaped text reads back as the text, for either quote |
| Strings.Repr | despot/parser.py:52 | `repr(s)` starts and ends with the quote `ReprQuote` picks |
| Strings.ReprRoundTrip | despot/parser.py:52 | the text between the quotes of `repr(s)` reads back, as a Python literal body, as `s` |
| Strings.ReprPlain | despot/parser.py:52 | text of printable ASCII characters other than `\` and `'` is shown as `'` + text + `'` |
| Strings.ReprExample | despot/parser.py:52 | `repr("it's")` is `"it's"`, in double quotes |
| Metadata.AccessorDomain | despot/metadata.py:20-42 | an accessor exists exactly for the keys of the map the metadata selects: 7 for a track, 3 for an episode |
| Metadata.GetProperties | despot/metadata.py:47-54 | an unknown name gives the sanitised default; a track's `album` gives the default (AttributeError suppressed) or ValueError for an empty album name; ints pass unchanged; strings come out sanitised |
| Metadata.PartsOfKeys | despot/metadata.py:56-57 | the parts have exactly the requested keys, each holding `get(key)`, and fail exactly when some `get` raises |
| Metadata.GenerateFilenameRejectsKeywords | despot/metadata.py:59 | any extra keyword makes `generate_filename` raise TypeError, whatever the metadata; the error names the first keyword exactly when none repeats `originating_type`, `ext`, `self` or `destination` |
| Metadata.TrackParts | despot/metadata.py:20-28 | a track with artists and a named album gets all seven parts: sanitised name and artists, an empty album, and the year, disc and track as ints |
| Metadata.EpisodeParts | despot/metadata.py:30-34 | an episode with a valid date gets its name, show and publication date, sanitised |
| Metadata.SafeHasNoSlash | despot/utils.py:14-21 | a sanitised text holds no '/' |
| Metadata.TrackTemplateText | despot/metadata.py:61-62 | the TRACK template formats as "<artist> - <name>.<ext>" |
| Metadata.TrackFilenameText | despot/metadata.py:56-70 | a track's parts fill the TRACK template with its sanitised artists and name |
| Metadata.TrackFilename | despot/metadata.py:59-70 | a TRACK filename is one component "<artist> - <name>.<ext>" directly inside the destination |
| Metadata.TrackTemplateMissingArtist | despot/metadata.py:62 | without an `artist` part the TRACK template raises KeyError('artist') |
| Metadata.GenerateFilenameSteps | despot/metadata.py:69-75 | the result is the destination joined with the formatted template, or the template error of what formatting raised |
| Metadata.MissingArtistMessage | despot/metadata.py:74-75 | a missing `artist` field in a TRACK template reads "Invalid field 'artist' for track filename" |
| Metadata.TrackTemplateOverEpisode | despot/metadata.py:59-75 | the TRACK template over episode metadata raises that FilenameTemplateError |
| Metadata.EpisodeTemplateText | despot/metadata.py:63-64 | the SHOW/EPISODE template formats as "<show>/<publish_time> - <name>.<ext>" |
| Metadata.EpisodeFilenameText | despot/metadata.py:56-70 | an episode's parts fill that template with its sanitised show, date and name |
| Metadata.EpisodeFilename | despot/metadata.py:59-70 | an episode's file sits in a folder named after its show inside the destination |
| Metadata.AlbumYearText | despot/metadata.py:66 | " (<album_year>)/" puts the year's decimal text between the brackets |
| Metadata.AlbumFolderText | despot/metadata.py:66 | the folder part formats as "<album_artist>/<album> (<album_year>)/" |
| Metadata.AlbumTrackText | despot/metadata.py:66 | "<track:02d> <name>.<ext>" pads the track number to two digits |
| Metadata.AlbumFileText | despot/metadata.py:66 | the file part formats as "<disc:02d>-<track:02d> <name>.<ext>" |
| Metadata.AlbumTemplateText | despot/metadata.py:65-66 | the ALBUM/ARTIST template is the folder part followed by the file part, for any parts with those values |
| Metadata.AlbumTemplateParts | despot/metadata.py:66 | the ALBUM/ARTIST template is its folder pieces followed by its file pieces |
| Metadata.AlbumFilenameText | despot/metadata.py:56-70 | a track under the ALBUM/ARTIST template gets its album artists, an empty album name, its year and its two-digit disc and track numbers |
| Metadata.TagsProperties | despot/metadata.py:77-91 | episodes are never tagged; a track's tags exist exactly when its album date is valid; TRACKNUMBER and DISCNUMBER read back as the numbers; ARTIST lists the names in order |
| Models.QualityStr | despot/models.py:16-17 | the string form of a quality holds no capital letter and upper-cases back to the member's name |
| Models.FindQuality | despot/models.py:23-25 | the scan finds a member with that name, or none exists |
| Models.QualityMissing | despot/models.py:20-27 | a string matches exactly when some member's name equals it upper-cased; no match fails |
| Models.QualityCaseInsensitive | despot/models.py:16-31 | a quality's string form parses back to it, and lower-casing the argument never changes the lookup |
| Models.PopulateTargetErrors | despot/models.py:42-51 | an unknown codec raises NotImplementedError; with a known codec any extra keyword raises TypeError, for a repeated argument or naming the first keyword |
| Models.PopulateTrackTarget | despot/models.py:42-51 | with no extra keyword, a track reference gets "<artist> - <name>.<ext>" in the destination |
| Models.DescriptionTexts | despot/models.py:57-67 | episode: "[blue]<publish_time>[/] <name>" and "episode '<name>' of <show>"; track: "<name>" and "song '<name>' by <artist>" |
| Models.TempFilenameShape | despot/models.py:69-72 | the temporary file sits in the target's directory and is named "." + stem + ".part" |
| Models.DownloadableTrack.constructor | despot/models.py:34-40 | a new track holds its id and originating type and is abstract |
| Models.DownloadableTrack.PopulateMetadata | despot/models.py:42-51 | metadata is assigned first, so the track is no longer abstract; the target is set on success and left unchanged when the filename fails |
| Models.DownloadableBatch.constructor | despot/models.py:75-80 | a new batch holds its kind, tracks, description and context |
| Models.DownloadableBatch.Add | despot/models.py:82-90 | `+ batch` appends that batch's tracks in place and returns self; `+ list` appends each listed batch's tracks in order; any other operand raises NotImplementedError and changes nothing |
| Models.DownloadableBatch.AppendedIsConcat | despot/models.py:85-87 | when self is not in the list, `+ list` appends the concatenation of the listed batches' tracks |
| Models.NewResult | despot/models.py:93-97 | a new result has no exception and is not interrupted |
| Parser.MatchId | despot/parser.py:19-22 | a match of the id pattern is exactly 22 letters or digits |
| Parser.MatchKind | despot/parser.py:20 | a match of the kind pattern is one of the five values, after an optional '/' |
| Parser.MatchPath | despot/parser.py:23 | a path match gives a known kind and a 22-character id |
| Parser.WordRun | despot/parser.py:24 | the run of `\w` characters at the start stops at the first other character |
| Parser.MatchUrl | despot/parser.py:24 | a URL match gives a known kind and a 22-character id |
| Parser.ClassifySound | despot/parser.py:40-49 | a link names a known kind and a 22-character id, a bare id is 22 characters, and the URI branch is taken exactly for texts starting "spotify:" |
| Parser.IdTailStart | despot/parser.py:19 | what may follow an id is empty or starts with '?' or a newline |
| Parser.MatchIdOf | despot/parser.py:19 | a 22-character id with an accepted tail matches, with or without a leading '/' |
| Parser.MatchIdShort | despot/parser.py:19 | fewer than 22 letters or digits do not match |
| Parser.KindPrefixFree | despot/parser.py:20 | no kind value is a prefix of another, so each value is matched as itself |
| Parser.MatchKindOf | despot/parser.py:20 | each kind value matches as that kind, with or without a leading '/' |
| Parser.ClassifyLink | despot/parser.py:40-43 | a text that is no URI is a link when the URL pattern, or failing that the path pattern, matches |
| Parser.ClassifyBare | despot/parser.py:44-46 | a text that is no URI, URL or path is a bare id when the id pattern matches |
| Parser.MatchUrlNone | despot/parser.py:24 | without "http://", "https://" or "open." in front, no URL matches |
| Parser.MatchPathOf | despot/parser.py:23 | "<kind>/<id>" with an accepted tail matches the path pattern |
| Parser.PathRecognised | despot/parser.py:42-43 | "<kind>/<id>" is a link of that kind and id |
| Parser.UrlPrefix | despot/parser.py:24 | after "https://open.spotify.com" the URL pattern is the path pattern |
| Parser.UrlRecognised | despot/parser.py:42-43 | "https://open.spotify.com/<kind>/<id>" is a link of that kind and id |
| Parser.MatchPathBare | despot/parser.py:23 | a bare id never matches the path pattern |
| Parser.BareIdRecognised | despot/parser.py:42-46 | a bare 22-character id is classified as a bare id |
| Parser.UriRecognised | despot/parser.py:40-41 | "spotify:<kind>:<id>" splits into the kind and the id |
| Parser.ShortUriRecognised | despot/parser.py:40-41 | "spotify:<kind>" splits into two pieces only |
| Parser.ReverseIndex | despot/parser.py:115 | element i of the reverse is element n-1-i |
| Parser.DiscOrder | despot/parser.py:99-103 | track j of disc d sits right after all tracks of the earlier discs and the earlier tracks of its disc |
| Parser.AlbumSpecProperties | despot/parser.py:92-105 | an album batch has every track of every disc in disc, then track, order, with the given originating type; its description is "album '<name>' by <artist>"; an album without artists raises ValueError |
| Parser.ShowSpecProperties | despot/parser.py:107-118 | a show batch exists exactly when the show loads; episodes come in reverse metadata order, of originating type SHOW; its description is "episodes of <name>" |
| Parser.ArtistAlbumsPrefix | despot/parser.py:120-126 | an artist yields one album batch per album in order, each of originating type ARTIST and never merged, up to the first album that fails |
| Parser.ParseUri | despot/parser.py:40-52 | a URI of a known kind dispatches on that kind once its id decodes |
| Parser.ParseUriErrors | despot/parser.py:40-52 | an unknown kind raises ValueError after the id decodes, with CPython's enum message `repr(kind) + " is not a valid ItemType"` (`Enums.NotValidMessage`); a bad id's error comes first; a two-piece URI raises the unpacking ValueError |
| Parser.ParsePlaylistUri | despot/parser.py:51-52 | "spotify:playlist:<id>" is refused by the five-member kind check, with the message `'playlist' is not a valid ItemType` |
| Parser.PlaylistLinkIgnored | despot/parser.py:39-48 | a playlist web link or "playlist/<id>" path matches no pattern: `parse` yields nothing and raises nothing |
| Parser.ParseLink | despot/parser.py:42-43 | a web link or a path dispatches on its kind |
| Parser.DispatchSingleItem | despot/parser.py:54-70 | a track or episode yields one batch of one abstract item, with no description, of the caller's originating type or else its own kind |
| Parser.ParseBareId | despot/parser.py:44-46 | a bare id is a track |
| Parser.ParseNoMatch | despot/parser.py:47-49 | a text of no recognised form yields nothing and raises nothing |
| Parser.FormOriginatingOnlyForItems | despot/parser.py:54-78 | the caller's originating type matters only for tracks and episodes |
| Parser.ParseOriginatingOnlyForItems | despot/parser.py:38-78 | a reference that yields no track or episode batch parses alike whatever the originating type |
| Parser.PlaylistFoldOk | despot/parser.py:138-139 | the playlist loop succeeds exactly when no entry raises |
| Parser.PlaylistFoldValue | despot/parser.py:138-139 | a successful loop holds the tracks of every entry's batches, in entry order |
| Parser.PlaylistFoldFirstError | despot/parser.py:138-139 | a failed loop carries the exception of the first entry that raises |
| Parser.PlaylistSpecProperties | despot/parser.py:128-140 | the playlist batch has the playlist kind, describes the playlist, carries `playlist_name` in its context, and holds the concatenated entry tracks |
| Parser.ItemBatches | despot/parser.py:54-70 | every track or episode batch holds exactly one item |
| Parser.DispatchItemBatches | despot/parser.py:54-78 | the same for every kind dispatched |
| Parser.PlaylistItemsHaveNoTemplate | despot/parser.py:128-139 | a track or episode reached through a playlist has the playlist kind, for which `generate_filename` raises NotImplementedError |
| Parser.NewTracks | despot/parser.py:84-90 | fresh abstract tracks, one per id, with the given originating type |
| Parser.ParseAlbum | despot/parser.py:92-105 | the batch built is the album batch, or the error is the album's |
| Parser.ParseShow | despot/parser.py:107-118 | the batch built is the show batch, or the error is the show's |
| Parser.ArtistAlbumsOf | despot/parser.py:124-126 | the album batches, in order up to the first failing album, are the artist loop's run |
| Parser.ParseAlbums | despot/parser.py:124-126 | the album loop yields fresh batches that are the album batches, stopping at the first error |
| Parser.ParseArtist | despot/parser.py:120-126 | the batches yielded are the artist's run |
| Parser.Parse | despot/parser.py:38-78 | the batches yielded, and the exception raised, are those the resolver's specification gives |
| Parser.ParseItem | despot/parser.py:54-78 | the arm for a decoded id yields the dispatched batches |
| Parser.PlaylistFoldErrPrefix | despot/parser.py:138-139 | once an entry raises, the loop ends with that exception |
| Parser.PlaylistFoldStep | despot/parser.py:138-139 | one pass of the loop adds the entry's tracks, or stops at its exception |
| Parser.AddEntry | despot/parser.py:139 | the entry is parsed to its end; its tracks are appended to the playlist batch unless it raised |
| Parser.AddRun | despot/parser.py:139 | `+=` with the list of yielded batches appends their tracks in order |
| Parser.ParsePlaylist | despot/parser.py:128-140 | the batch built is the playlist batch, or the error is the first entry's |
| Batch.PoolSize | despot/batch.py:45 | one worker under paranoia, `concurrency` otherwise; ValueError exactly when that is below one |
| Batch.ProgressTotal | despot/batch.py:126 | the progress total is the stream size less the 0xA7-byte Ogg header |
| Batch.QueueOrder | despot/batch.py:73-77 | the tracks are reversed exactly when `newest_first` is set and the batch is a show; otherwise they keep batch order |
| Batch.QueueMembers | despot/batch.py:73-77 | the queue holds exactly the batch's tracks |
| Batch.StreamFailure | despot/batch.py:201-204 | a feeder exception becomes a StreamError with its default message; it is ContentUnavailableError exactly for HTTP 451 |
| Batch.LoadProperties | despot/batch.py:194-205 | at most `retries` calls, all but the last returning nothing; the last call's stream is returned, its exception classified, and nothing on the last attempt raises StreamError |
| Batch.FirstStreamLoaded | despot/batch.py:197-199 | the first stream within the attempts is returned, after that many calls |
| Batch.BailSize | despot/batch.py:174-192 | skip exactly when the target exists without overwrite (showing its size) or on dry-run (size 0); the exists check wins |
| Batch.PlanProperties | despot/batch.py:117-131 | for any item, the first included, whose header and task texts compute: an existing target is skipped whatever dry-run says; dry-run skips with 0; otherwise the copy goes to ".<stem>.part" in the target's directory |
| Batch.ReadCount | despot/batch.py:160 | the chunks before the first empty read are all non-empty |
| Batch.StopIndexFirst | despot/batch.py:160-168 | the loop bails after the first chunk whose check sees the stop flag, and only then |
| Batch.WrittenPrefix | despot/batch.py:158-172 | what is written is a prefix of the stream's bytes, all of them unless the loop bailed, and a bail comes after at least one chunk |
| Batch.Move | despot/batch.py:144 | the move puts the source's bytes at the destination, removes the source and touches nothing else |
| Batch.AfterCopyProperties | despot/batch.py:132-144 | a finished copy puts every byte at the target and removes the temporary file; a bailed one raises nothing and leaves the target unchanged; no other path changes |
| Batch.Tally | despot/batch.py:207-219 | a cancelled future counts nothing; otherwise one count, a success exactly for a result without exception |
| Batch.PopulateAlwaysFails | despot/batch.py:116 | `populate_metadata` with `idx` and the keys of a context that does not clash with the call fails as `ItemError` says, whatever the destination and kind |
| Batch.MetadataUntouched | despot/batch.py:86-98 | a track no item has run on yet keeps its metadata |
| Batch.MetadataQueuedOnce | despot/batch.py:115-116 | a track queued once ends with the metadata its item's stream loaded, or keeps its own when the load or the call failed first |
| Batch.ItemAlwaysFails | despot/batch.py:115-116 | each item ends with its stream error, NotImplementedError or TypeError; for the contexts `parse` builds and a known codec the TypeError names `idx` |
| Batch.KeysOf | despot/batch.py:116 | the keywords spread from the batch context are exactly its keys |
| Batch.BatchProcessor.constructor | despot/batch.py:42-51 | a new processor has zero counters, no temporary files and the stop flag clear |
| Batch.BatchProcessor.Open | despot/batch.py:42-51 | construction fails exactly when the worker count is refused; otherwise it has that many workers |
| Batch.BatchProcessor.MarkSuccess | despot/batch.py:221-223 | adds one success and changes nothing else |
| Batch.BatchProcessor.MarkFailure | despot/batch.py:225-227 | adds one failure and changes nothing else |
| Batch.BatchProcessor.Callback | despot/batch.py:207-219 | the counters grow by the tally of how the item completed |
| Batch.BatchProcessor.LoadStream | despot/batch.py:194-205 | the retry loop ends as the load specification says, after the same number of feeder calls |
| Batch.BatchProcessor.WriteFromStream | despot/batch.py:158-172 | the file gets the chunks up to the bail point or the first empty read; the result is whether it bailed |
| Batch.BatchProcessor.Prepare | despot/batch.py:117-131 | the header, skip and temporary-name steps end as the plan says, changing nothing |
| Batch.BatchProcessor.CopyInto | despot/batch.py:130-144 | the temporary file is listed before it is opened; the copy, tags and move end as `AfterCopy` says |
| Batch.BatchProcessor.Transfer | despot/batch.py:117-144 | a skip or an error before the copy changes nothing; otherwise the copy goes as `AfterCopy` says |
| Batch.BatchProcessor.DownloadTrack | despot/batch.py:100-156 | the stream is loaded with 3 attempts; a context clashing with the call raises before `populate_metadata`, else the track takes the loaded metadata and keeps its target; the item's exception lands in its result, or becomes Abort under `fail_early`; nothing is written |
| Batch.BatchProcessor.RunItem | despot/batch.py:86-95 | one item is downloaded, its track's metadata updated as the download says, and its completion counted as one failure |
| Batch.BatchProcessor.RunNext | despot/batch.py:86-95 | one more item runs as `RunItem` says; its result, unless it raised, joins the earlier ones; every queued track's metadata is as `MetadataAfter` says for one more item, and no target changes |
| Batch.BatchProcessor.Process | despot/batch.py:70-98 | one result per queued track in queue order, each with its item's exception; an Abort ends the run; failures grow by one per item run; each track's metadata is that of the last item run on it that assigned metadata, and no target changes; the temporary-file list is reset |
| Batch.BatchProcessor.RunQueue | despot/batch.py:86-98 | the loop over the queue yields the results in order until an item raises, and leaves each track's metadata as the items run on it assigned |
| Batch.BatchProcessor.Shutdown | despot/batch.py:53-66 | sets the stop flag and deletes exactly the listed temporary files that exist, touching nothing else |

## Left out

- Concurrency: the thread pool, the lock, the stop `Event` and futures.
  Items run one after another, and `_callback` runs after each one. Another
  thread's `shutdown` is the chunk index at which the stop is seen. An Abort
  raised under `fail_early` ends `process` at that item, as `future.result()`
  would re-raise it. Items queued after it are not run in the model.
- Timing: chunk durations, the paranoia `sleep` and the speed log.
  `_write_from_stream` returns whether it bailed, in place of -1 or a
  duration. The speed log divides by the download's duration, so a clock
  that does not advance raises ZeroDivisionError there and leaves the
  temporary file unmoved. That exception is dropped: `Batch.AfterCopy`
  always moves.
- The progress display and console output: the header print, task updates
  and error lines. `batch_size` reaches only the display, so it is not
  modelled. The header and task texts are computed, because computing them
  can raise.
- librespot: the content feeder, the stream reads and the API calls are
  inputs, and so are the base-62 decoding and `bytes_to_hex` (one function of
  the `Api` record).
- `mkdir` of the target's parent: the file system is a map of paths.
- mutagen: the tags are computed (`Metadata.TagsToWrite`), but the file keeps
  the raw bytes of the stream, and the double `save` is not modelled.
- The `breakpoint()` in the ValueError branch of `generate_filename`: it
  continues into the template error.
- Models.QualityMissing: a name that matches no member re-enters the patched
  `_missing_` through the class attribute and recurses until Python's
  recursion limit raises RecursionError, which the model returns.
- Utils.FormatDateShape: states the text only for 4-digit years, because
  `strftime` pads shorter years differently per platform.
- Batch.KeysOf: the context's keys come in some order, not insertion order.
  Only the set is stated; `idx` always comes first, and a repeated argument
  is decided by which keys are present, so the order decides no error.
- The TypeError for an argument given twice (`DuplicateKeyword`) does not
  record which argument it names, which depends on the context's key order.
- Models.QualityMissing: `upper()` and `lower()` are modelled on ASCII
  letters only (`Strings.Upper`, `Strings.Lower`). Python maps every Unicode
  letter and can change the length ('ß' gives "SS"), so "hıgh" with a
  dotless i matches HIGH in the source but no member in the model.
- Parser.MatchUrl: `\w` is taken as ASCII letters, digits and '_'
  (`Parser.WordRun`). Python's `re` on a `str` also takes Unicode letters and
  digits, so a link whose host word holds "ö" matches in the source and not
  in the model.
- Strings.Repr: characters above U+00FF are kept as they are. Python's
  `repr` writes the ones `str.isprintable` refuses (U+2028, say) as `\uXXXX`
  or `\UXXXXXXXX`, which needs the Unicode character database. Up to U+00FF
  the escapes are those of CPython.
- Batch.BatchProcessor.RunItem: the item index is passed on but plays no part
  in the outcome as written. The header print it controls is not modelled.
- `stream.track or stream.episode` is one metadata field of the stream.
- Models.DownloadableTrack.TempFilename: `temp_filename` is a
  `cached_property`, computed once, while the model recomputes it from the
  current target on each call. As written the target is never set, so no
  difference can be seen.
- cli.py, logging.py, base.py and config.py are not part of this model.
  Config's fields used here are `Batch.Config`. From constants.py only
  `OGG_HEADER_SIZE` and the "spotify" scheme are used.
- The AttributeError that parser.py raises at import as written, from the
  `ItemType.PLAYLIST` default at class definition, is described above and not
  modelled. The model adds the playlist kind instead.
