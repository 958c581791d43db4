/** despot/batch.py: the per-item download logic of `BatchProcessor`, run
    one item after another. The thread pool, the lock and the progress
    display are not modelled; the content feeder's answers, the chunks a
    stream returns and the moment another thread sets the stop flag are
    inputs; a map from paths to bytes stands in for the file system. */
module Batch {
  import opened Wrappers
  import opened Exceptions
  import opened Enums
  import opened Paths
  import opened Metadata
  import opened Models
  import Parser

  /** The fields of despot/config.py the processor reads. */
  datatype Config = Config(destination: Path, debug: bool, failEarly: bool, dryRun: bool,
                           concurrency: int, overwrite: bool, newestFirst: bool, paranoia: bool)

  /** `OGG_HEADER_SIZE` of despot/constants.py. */
  const OGG_HEADER_SIZE: int := 0xA7

  /** `ThreadPoolExecutor(max_workers=1 if config.paranoia else
      config.concurrency)`: the executor refuses a worker count below one. */
  function PoolSize(config: Config): (r: Result<nat, Exc>)
    ensures config.paranoia ==> r == Ok(1)
    ensures !config.paranoia && config.concurrency > 0 ==> r == Ok(config.concurrency)
    ensures r.Err? <==> !config.paranoia && config.concurrency <= 0
    ensures r.Ok? ==> r.value >= 1
  {
    var workers := if config.paranoia then 1 else config.concurrency;
    if workers <= 0 then Err(ValueError(["max_workers must be greater than 0"])) else Ok(workers)
  }

  /** The progress total of a stream of `size` bytes: the Ogg header is not
      counted. */
  function ProgressTotal(size: int): (total: int)
    ensures total + OGG_HEADER_SIZE == size && total < size
  {
    size - OGG_HEADER_SIZE
  }

  lemma ReverseAll<T>(s: seq<T>)
    ensures forall i :: 0 <= i < |s| ==> Parser.Reverse(s)[i] == s[|s| - 1 - i]
  {
    forall i | 0 <= i < |s|
      ensures Parser.Reverse(s)[i] == s[|s| - 1 - i]
    {
      Parser.ReverseIndex(s, i);
    }
  }

  /** The order `process` queues a batch's tracks in: the latest first for a
      show when `newest_first` is set, the batch's own order otherwise. */
  function QueueOrder<T>(config: Config, kind: Kind, tracks: seq<T>): (r: seq<T>)
    ensures |r| == |tracks|
    ensures config.newestFirst && kind == Member(SHOW) ==>
      forall i :: 0 <= i < |r| ==> r[i] == tracks[|tracks| - 1 - i]
    ensures !(config.newestFirst && kind == Member(SHOW)) ==> r == tracks
  {
    if config.newestFirst && kind == Member(SHOW) then ReverseAll(tracks); Parser.Reverse(tracks) else tracks
  }

  /** The queue holds exactly the batch's tracks. */
  lemma QueueMembers<T>(config: Config, kind: Kind, tracks: seq<T>)
    ensures forall x :: x in QueueOrder(config, kind, tracks) <==> x in tracks
  {
    var r := QueueOrder(config, kind, tracks);
    forall x | x in r
      ensures x in tracks
    {
      var i :| 0 <= i < |r| && r[i] == x;
      if config.newestFirst && kind == Member(SHOW) {
        assert x == tracks[|tracks| - 1 - i];
      }
    }
    forall x | x in tracks
      ensures x in r
    {
      var k :| 0 <= k < |tracks| && tracks[k] == x;
      if config.newestFirst && kind == Member(SHOW) {
        assert r[|tracks| - 1 - k] == x;
      }
    }
  }

  /** One answer of the content feeder's `load`: a stream, nothing, or an
      exception. */
  datatype FeedAnswer = Stream(stream: LoadedStream) | NoStream | Fails(exc: Exc)

  /** The feeder's answer to its k-th call; calls past the listed answers
      get nothing. */
  function AnswerAt(answers: seq<FeedAnswer>, k: nat): FeedAnswer
  {
    if k < |answers| then answers[k] else NoStream
  }

  /** The exception `_load_stream` raises for a feeder exception: HTTP 451
      (unavailable for legal reasons) becomes ContentUnavailableError,
      anything else StreamError, both with their default messages. */
  function StreamFailure(e: Exc): (r: Exc)
    ensures IsStreamError(r) && r.message == DefaultMessage(r.cls)
    ensures r.cls == ContentUnavailableErrorClass <==> e.StatusCodeException? && e.code == 451
  {
    if e.StatusCodeException? && e.code == 451 then Raise(ContentUnavailableErrorClass, None)
    else Raise(StreamErrorClass, None)
  }

  /** What `_load_stream` ends with, and after how many feeder calls. */
  datatype Load = Load(outcome: Result<LoadedStream, Exc>, calls: nat)

  /** `_load_stream` with `retries` attempts left, the next feeder call being
      the k-th. */
  function LoadFrom(answers: seq<FeedAnswer>, k: nat, retries: int): Load
    decreases if retries > 0 then retries else 0
  {
    if retries <= 0 then Load(Err(Raise(StreamErrorClass, None)), k)
    else
      match AnswerAt(answers, k)
      case Stream(s) => Load(Ok(s), k + 1)
      case Fails(e) => Load(Err(StreamFailure(e)), k + 1)
      case NoStream => LoadFrom(answers, k + 1, retries - 1)
  }

  /** The feeder is called at most `retries` times; every call but the last
      returned nothing. The last call decides: a stream is returned, an
      exception ends the attempts at once and is classified, and nothing on
      the last attempt (or no attempt at all) is a StreamError. */
  lemma {:induction false} LoadProperties(answers: seq<FeedAnswer>, k: nat, retries: int)
    ensures var l := LoadFrom(answers, k, retries);
      k <= l.calls <= k + (if retries > 0 then retries else 0)
      && (l.calls == k <==> retries <= 0)
      && (forall j :: k <= j < l.calls - 1 ==> AnswerAt(answers, j) == NoStream)
      && (l.calls == k ==> l.outcome == Err(Raise(StreamErrorClass, None)))
      && (l.calls > k ==>
           match AnswerAt(answers, l.calls - 1)
           case Stream(s) => l.outcome == Ok(s)
           case Fails(e) => l.outcome == Err(StreamFailure(e))
           case NoStream => l.calls == k + retries && l.outcome == Err(Raise(StreamErrorClass, None)))
    decreases if retries > 0 then retries else 0
  {
    if retries > 0 && AnswerAt(answers, k).NoStream? {
      LoadProperties(answers, k + 1, retries - 1);
    }
  }

  /** The first stream among the answers is what `_load_stream` returns when
      it comes within the attempts and only empty answers precede it. */
  lemma FirstStreamLoaded(answers: seq<FeedAnswer>, retries: int, n: nat, s: LoadedStream)
    requires n < retries && AnswerAt(answers, n) == Stream(s)
    requires forall j :: 0 <= j < n ==> AnswerAt(answers, j) == NoStream
    ensures LoadFrom(answers, 0, retries) == Load(Ok(s), n + 1)
  {
    LoadProperties(answers, 0, retries);
  }

  /** `_bail_condition`: the size shown when the item is skipped, or None to
      go on. An existing target (unless overwriting) is checked before
      dry-run. */
  function BailSize(config: Config, fs: map<Path, seq<bv8>>, target: Path): (r: Option<nat>)
    ensures r.Some? <==> (target in fs && !config.overwrite) || config.dryRun
    ensures target in fs && !config.overwrite ==> r == Some(|fs[target]|)
    ensures !(target in fs && !config.overwrite) && config.dryRun ==> r == Some(0)
  {
    if target in fs && !config.overwrite then Some(|fs[target]|)
    else if config.dryRun then Some(0)
    else None
  }

  /** How lines 117-131 of `_download_track` go for a populated track:
      an exception, a skip, or the copy into a registered temporary file. */
  datatype Plan = Fail(exc: Exc) | Skip(shown: nat) | Copy(temp: Path)

  /** The header is printed for the batch's first item, with the track's own
      header description when the batch has none; the skip test comes next
      and shows the task description; then the task description and the
      temporary filename are computed. */
  function PlanOf(config: Config, id: PlayableId, m: WrappedMetadata, target: Path, fs: map<Path, seq<bv8>>,
                  batchIdx: nat, description: Option<string>): Plan
  {
    var header := if batchIdx == 0 && (description.None? || description.value == "") then HeaderText(id, m) else Ok("");
    if header.Err? then Fail(header.error)
    else
      var task := TaskText(id, m);
      match BailSize(config, fs, target)
      case Some(shown) => if task.Err? then Fail(task.error) else Skip(shown)
      case None =>
        if task.Err? then Fail(task.error)
        else
          match TempFilenameOf(target)
          case Err(e) => Fail(e)
          case Ok(temp) => Copy(temp)
  }

  /** An existing target is skipped whatever dry-run says, showing its size;
      dry-run skips with size 0 otherwise; only an item that is not skipped
      gets a temporary file, next to its target. This holds for every item
      whose header, when one is printed, and task description compute. */
  lemma PlanProperties(config: Config, id: PlayableId, m: WrappedMetadata, target: Path, fs: map<Path, seq<bv8>>,
                       batchIdx: nat, description: Option<string>)
    requires batchIdx > 0 || (description.Some? && description.value != "") || HeaderText(id, m).Ok?
    requires TaskText(id, m).Ok?
    requires Name(target) != "" && HasNoSlash(Name(target)) && Suffix(Name(target)) != ""
    ensures var p := PlanOf(config, id, m, target, fs, batchIdx, description);
      (target in fs && !config.overwrite ==> p == Skip(|fs[target]|))
      && (!(target in fs && !config.overwrite) && config.dryRun ==> p == Skip(0))
      && (!(target in fs && !config.overwrite) && !config.dryRun ==>
            p.Copy? && Name(p.temp) != "" && Parent(p.temp) == Parent(target) && Name(p.temp) == "." + Stem(Name(target)) + ".part")
  {
    var header := if batchIdx == 0 && (description.None? || description.value == "") then HeaderText(id, m) else Ok("");
    assert header.Ok?;
    var p := PlanOf(config, id, m, target, fs, batchIdx, description);
    if BailSize(config, fs, target).None? {
      TempFilenameShape(target);
      assert p == Copy(TempFilenameOf(target).value);
    }
  }

  /** Index of the first empty read, or the number of reads: the chunks the
      copy loop consumes. */
  function ReadCount(chunks: seq<seq<bv8>>): (n: nat)
    ensures n <= |chunks|
    ensures forall j :: 0 <= j < n ==> chunks[j] != []
    ensures n < |chunks| ==> chunks[n] == []
  {
    if |chunks| == 0 || chunks[0] == [] then 0 else 1 + ReadCount(chunks[1..])
  }

  /** Whether the stop flag is seen after the k-th chunk: it was set before
      the copy started, or another thread set it in time for that check. */
  predicate StopSeen(stopped: bool, stopAt: Option<nat>, k: nat)
  {
    stopped || (stopAt.Some? && stopAt.value <= k)
  }

  /** The chunk after which the copy loop bails, if any. */
  function StopIndex(chunks: seq<seq<bv8>>, stopped: bool, stopAt: Option<nat>): Option<nat>
  {
    var n := ReadCount(chunks);
    if n == 0 then None
    else if stopped then Some(0)
    else if stopAt.Some? && stopAt.value < n then Some(stopAt.value)
    else None
  }

  /** The copy bails after the first chunk whose check sees the flag, and
      only then. */
  lemma StopIndexFirst(chunks: seq<seq<bv8>>, stopped: bool, stopAt: Option<nat>)
    ensures var r := StopIndex(chunks, stopped, stopAt);
      (r.Some? ==> r.value < ReadCount(chunks) && StopSeen(stopped, stopAt, r.value)
                   && forall j :: 0 <= j < r.value ==> !StopSeen(stopped, stopAt, j))
      && (r.None? ==> forall j :: 0 <= j < ReadCount(chunks) ==> !StopSeen(stopped, stopAt, j))
  {
  }

  /** The number of chunks written before the copy loop ends. */
  function WrittenCount(chunks: seq<seq<bv8>>, stopped: bool, stopAt: Option<nat>): nat
  {
    var r := StopIndex(chunks, stopped, stopAt);
    if r.Some? then r.value + 1 else ReadCount(chunks)
  }

  /** What the copy writes is a prefix of the stream's bytes, all of them
      unless it bailed, and it bails only after a chunk was written. */
  lemma WrittenPrefix(chunks: seq<seq<bv8>>, stopped: bool, stopAt: Option<nat>)
    ensures var n := WrittenCount(chunks, stopped, stopAt);
      var all := Parser.Flatten(chunks[..ReadCount(chunks)]);
      n <= ReadCount(chunks)
      && Parser.Flatten(chunks[..n]) <= all
      && (StopIndex(chunks, stopped, stopAt).None? ==> Parser.Flatten(chunks[..n]) == all)
      && (StopIndex(chunks, stopped, stopAt).Some? ==> n > 0 && |Parser.Flatten(chunks[..n])| > 0)
  {
    var n := WrittenCount(chunks, stopped, stopAt);
    var r := ReadCount(chunks);
    assert chunks[..r] == chunks[..n] + chunks[n..r];
    Parser.FlattenAppend(chunks[..n], chunks[n..r]);
    if n > 0 {
      assert chunks[..n] == chunks[..n - 1] + [chunks[n - 1]];
      Parser.FlattenAppend(chunks[..n - 1], [chunks[n - 1]]);
    }
  }

  lemma FlattenSnoc(chunks: seq<seq<bv8>>, i: nat)
    requires i < |chunks|
    ensures Parser.Flatten(chunks[..i + 1]) == Parser.Flatten(chunks[..i]) + chunks[i]
  {
    assert chunks[..i + 1] == chunks[..i] + [chunks[i]];
    Parser.FlattenAppend(chunks[..i], [chunks[i]]);
    assert Parser.Flatten([chunks[i]]) == chunks[i] + Parser.Flatten([chunks[i]][1..]);
  }

  /** `shutil.move(src, dst)` on the modelled file system. */
  function Move(fs: map<Path, seq<bv8>>, src: Path, dst: Path): (r: map<Path, seq<bv8>>)
    requires src in fs
    ensures dst in r && r[dst] == fs[src]
    ensures forall p :: p != src && p != dst ==> (p in r <==> p in fs) && (p in r ==> r[p] == fs[p])
    ensures src != dst ==> src !in r
  {
    (fs - {src})[dst := fs[src]]
  }

  /** The result of the copy into `temp` and what follows it (lines
      132-144): the exception, if any, and the new file system. A copy that
      bails leaves the temporary file as written and raises nothing; the
      tags of a track are computed before the move, and an error there
      leaves the temporary file in place. */
  datatype Step = Step(exc: Option<Exc>, fs: map<Path, seq<bv8>>)

  function AfterCopy(fs: map<Path, seq<bv8>>, temp: Path, target: Path, stream: LoadedStream,
                     stopped: bool, stopAt: Option<nat>): Step
  {
    var data := Parser.Flatten(stream.chunks[..WrittenCount(stream.chunks, stopped, stopAt)]);
    var written := fs[temp := data];
    if StopIndex(stream.chunks, stopped, stopAt).Some? then Step(None, written)
    else
      match TagsToWrite(stream.content)
      case Err(e) => Step(Some(e), written)
      case Ok(_) => Step(None, Move(written, temp, target))
  }

  /** A finished copy puts every byte the stream returned at the target and
      removes the temporary file; a bailed copy leaves the target as it was
      and raises nothing. No other path is touched. */
  lemma AfterCopyProperties(fs: map<Path, seq<bv8>>, temp: Path, target: Path, stream: LoadedStream,
                            stopped: bool, stopAt: Option<nat>)
    requires temp != target
    ensures var s := AfterCopy(fs, temp, target, stream, stopped, stopAt);
      var all := Parser.Flatten(stream.chunks[..ReadCount(stream.chunks)]);
      (forall p :: p != temp && p != target ==> (p in s.fs <==> p in fs) && (p in s.fs ==> s.fs[p] == fs[p]))
      && (StopIndex(stream.chunks, stopped, stopAt).Some? ==>
            s.exc.None? && temp in s.fs && s.fs[temp] <= all && (target in s.fs <==> target in fs)
            && (target in fs ==> s.fs[target] == fs[target]))
      && (StopIndex(stream.chunks, stopped, stopAt).None? && TagsToWrite(stream.content).Ok? ==>
            s.exc.None? && temp !in s.fs && target in s.fs && s.fs[target] == all)
  {
    WrittenPrefix(stream.chunks, stopped, stopAt);
  }

  /** How the future of one item ends, as `_callback` sees it. */
  datatype Completion = Cancelled | Raised(exc: Exc) | Finished(result: ProcessingResult)

  /** What the callback adds to the success and failure counters. */
  datatype Counts = Counts(successes: nat, failures: nat)

  /** A cancelled future counts nothing; every other completion counts once:
      as a success exactly when it returned a result without exception. */
  function Tally(c: Completion): (d: Counts)
    ensures d.successes + d.failures == (if c.Cancelled? then 0 else 1)
    ensures d.successes == 1 <==> c.Finished? && c.result.exception.None?
    ensures d.failures == 1 <==> c.Raised? || (c.Finished? && c.result.exception.Some?)
  {
    match c
    case Cancelled => Counts(0, 0)
    case Raised(_) => Counts(0, 1)
    case Finished(r) => if r.exception.None? then Counts(1, 0) else Counts(0, 1)
  }

  /** `track.populate_metadata(stream=..., destination=..., idx=...,
      **batch_ctx)` gives an argument twice, and raises TypeError before the
      method runs, when the batch context has a key `self`, `stream`,
      `destination` or `idx`. */
  predicate CallClash(context: map<string, string>)
  {
    "self" in context || "stream" in context || "destination" in context || "idx" in context
  }

  /** The exception item processing ends with, as written: the stream's
      error, the clash of the call above, or the error of
      `populate_metadata`, which passes the `idx` keyword and the batch
      context on to `generate_filename`. */
  function ItemError(load: Result<LoadedStream, Exc>, context: map<string, string>): Exc
  {
    match load
    case Err(e) => e
    case Ok(s) =>
      if CallClash(context) then DuplicateKeyword
      else if s.codec == Utils.OtherCodec then NotImplementedError
      else if "originating_type" in context || "ext" in context then DuplicateKeyword
      else TypeError("idx")
  }

  /** The metadata an item leaves on its track: the loaded content once
      `populate_metadata` runs, nothing when the load or the call fails
      first. */
  function AssignedMetadata(input: ItemInput, context: map<string, string>): Option<WrappedMetadata>
  {
    var l := LoadFrom(input.answers, 0, 3).outcome;
    if l.Ok? && !CallClash(context) then Some(l.value.content) else None
  }

  /** The metadata of `t` once the first `n` items of `queue` have run,
      starting from `before`: the last of those items that ran on `t` and
      assigned metadata decides. */
  function MetadataAfter(queue: seq<DownloadableTrack>, context: map<string, string>, inputs: nat -> ItemInput,
                         n: nat, t: DownloadableTrack, before: Option<WrappedMetadata>): Option<WrappedMetadata>
    requires n <= |queue|
  {
    if n == 0 then before
    else
      var m := AssignedMetadata(inputs(n - 1), context);
      if queue[n - 1] == t && m.Some? then m else MetadataAfter(queue, context, inputs, n - 1, t, before)
  }

  /** What `process` yields for an item that does not raise: its track, not
      interrupted, with the item's exception. */
  predicate ItemResult(r: ProcessingResult, track: DownloadableTrack, input: ItemInput, context: map<string, string>)
  {
    r.track == track && !r.interrupted && r.exception == Some(ItemError(LoadFrom(input.answers, 0, 3).outcome, context))
  }

  /** A track none of the first `n` items ran on keeps its metadata. */
  lemma {:induction false} MetadataUntouched(queue: seq<DownloadableTrack>, context: map<string, string>, inputs: nat -> ItemInput,
                                             n: nat, t: DownloadableTrack, before: Option<WrappedMetadata>)
    requires n <= |queue| && t !in queue[..n]
    ensures MetadataAfter(queue, context, inputs, n, t, before) == before
  {
    if n > 0 {
      assert queue[n - 1] == queue[..n][n - 1];
      assert queue[..n - 1] == queue[..n][..n - 1];
      MetadataUntouched(queue, context, inputs, n - 1, t, before);
    }
  }

  /** A track queued once, at `k`, ends with the metadata its item assigned,
      or with `before` when that item assigned none. */
  lemma {:induction false} MetadataQueuedOnce(queue: seq<DownloadableTrack>, context: map<string, string>, inputs: nat -> ItemInput,
                                              n: nat, k: nat, before: Option<WrappedMetadata>)
    requires k < n <= |queue|
    requires forall j :: 0 <= j < n && j != k ==> queue[j] != queue[k]
    ensures var m := AssignedMetadata(inputs(k), context);
      MetadataAfter(queue, context, inputs, n, queue[k], before) == if m.Some? then m else before
  {
    if n - 1 > k {
      MetadataQueuedOnce(queue, context, inputs, n - 1, k, before);
    } else {
      forall x | x in queue[..k]
        ensures x != queue[k]
      {
        var j :| 0 <= j < k && queue[..k][j] == x;
        assert queue[j] == x;
      }
      MetadataUntouched(queue, context, inputs, k, queue[k], before);
    }
  }

  /** `populate_metadata` handed `idx` and the keys of a context that does
      not clash with the call fails the way `ItemError` says, whatever the
      destination and originating type. */
  lemma PopulateAlwaysFails(s: LoadedStream, destination: Path, k: Kind, context: map<string, string>, keys: seq<string>)
    requires forall x :: x in keys <==> x in context
    requires !CallClash(context)
    ensures PopulateTarget(s, destination, k, ["idx"] + keys) == Err(ItemError(Ok(s), context))
  {
    var extra := ["idx"] + keys;
    assert extra[0] == "idx";
    assert "originating_type" in extra <==> "originating_type" in keys;
    assert "ext" in extra <==> "ext" in keys;
    PopulateTargetErrors(s, destination, k, extra);
  }

  /** As written, no item gets past `populate_metadata`: it ends with the
      stream's error, NotImplementedError for an unknown codec, or
      TypeError, which names the `idx` keyword for the contexts `parse`
      builds (none, or the playlist's name alone). */
  lemma ItemAlwaysFails(answers: seq<FeedAnswer>, context: map<string, string>)
    ensures var l := LoadFrom(answers, 0, 3).outcome;
      var e := ItemError(l, context);
      (l.Err? ==> IsStreamError(e))
      && (l.Ok? && l.value.codec == Utils.OtherCodec && !CallClash(context) ==> e == NotImplementedError)
      && (l.Ok? ==> e.TypeError? || e.DuplicateKeyword? || e == NotImplementedError)
      && (l.Ok? && l.value.codec != Utils.OtherCodec && context.Keys <= {"playlist_name"} ==> e == TypeError("idx"))
  {
    LoadProperties(answers, 0, 3);
    var l := LoadFrom(answers, 0, 3);
    if l.outcome.Err? && l.calls > 0 {
      match AnswerAt(answers, l.calls - 1)
      case Stream(s) =>
      case Fails(x) =>
      case NoStream =>
    }
  }

  /** The inputs of one item: the feeder's answers and the chunk from whose
      check on another thread's stop is seen. */
  datatype ItemInput = ItemInput(answers: seq<FeedAnswer>, stopAt: Option<nat>)

  /** The keys of a map, in some order. */
  method KeysOf(m: map<string, string>) returns (ks: seq<string>)
    ensures forall k :: k in ks <==> k in m
  {
    ks := [];
    var left := m.Keys;
    while left != {}
      invariant left <= m.Keys
      invariant forall k :: k in m ==> (k in ks <==> k !in left)
      invariant forall k :: k in ks ==> k in m
      decreases left
    {
      var k :| k in left;
      ks := ks + [k];
      left := left - {k};
    }
  }

  /** `BatchProcessor`: the configuration, the worker count, the two
      counters, the temporary files of the current batch, the stop flag and
      the file system the downloads write to. */
  class BatchProcessor {
    const config: Config
    const workers: nat
    var successes: int
    var failures: int
    var tempfiles: seq<Path>
    var stopped: bool
    var fs: map<Path, seq<bv8>>

    constructor (config: Config, workers: nat, fs: map<Path, seq<bv8>>)
      ensures this.config == config && this.workers == workers && this.fs == fs
      ensures successes == 0 && failures == 0 && tempfiles == [] && !stopped
    {
      this.config := config;
      this.workers := workers;
      this.fs := fs;
      successes := 0;
      failures := 0;
      tempfiles := [];
      stopped := false;
    }

    /** `BatchProcessor(config, session)`: the executor's worker count is
        checked first. */
    static method Open(config: Config, fs: map<Path, seq<bv8>>) returns (r: Result<BatchProcessor, Exc>)
      ensures r.Err? <==> PoolSize(config).Err?
      ensures r.Err? ==> r.error == PoolSize(config).error
      ensures r.Ok? ==> fresh(r.value) && r.value.workers == PoolSize(config).value && r.value.config == config
      ensures r.Ok? ==> r.value.fs == fs && r.value.successes == 0 && r.value.failures == 0
      ensures r.Ok? ==> r.value.tempfiles == [] && !r.value.stopped
    {
      match PoolSize(config) {
        case Err(e) =>
          r := Err(e);
        case Ok(n) =>
          var p := new BatchProcessor(config, n, fs);
          r := Ok(p);
      }
    }

    /** `_mark_success` */
    method MarkSuccess()
      modifies this
      ensures successes == old(successes) + 1 && failures == old(failures)
      ensures tempfiles == old(tempfiles) && stopped == old(stopped) && fs == old(fs)
    {
      successes := successes + 1;
    }

    /** `_mark_failure` */
    method MarkFailure()
      modifies this
      ensures failures == old(failures) + 1 && successes == old(successes)
      ensures tempfiles == old(tempfiles) && stopped == old(stopped) && fs == old(fs)
    {
      failures := failures + 1;
    }

    /** `_callback`: a cancelled future changes nothing, a future that
        raised is a failure, and a result is a success exactly when it
        carries no exception. */
    method Callback(c: Completion)
      modifies this
      ensures successes == old(successes) + Tally(c).successes
      ensures failures == old(failures) + Tally(c).failures
      ensures tempfiles == old(tempfiles) && stopped == old(stopped) && fs == old(fs)
    {
      match c {
        case Cancelled =>
        case Raised(_) =>
          MarkFailure();
        case Finished(result) =>
          if result.exception.None? {
            MarkSuccess();
          } else {
            MarkFailure();
          }
      }
    }

    /** `_load_stream(track_id, retries)`: the feeder is asked while attempts
        remain, and its first stream is returned. */
    method LoadStream(answers: seq<FeedAnswer>, retries: int) returns (r: Result<LoadedStream, Exc>, calls: nat)
      ensures LoadFrom(answers, 0, retries) == Load(r, calls)
    {
      calls := 0;
      var left := retries;
      while left > 0
        invariant LoadFrom(answers, 0, retries) == LoadFrom(answers, calls, left)
        decreases left
      {
        match AnswerAt(answers, calls) {
          case Stream(s) =>
            return Ok(s), calls + 1;
          case Fails(e) =>
            return Err(StreamFailure(e)), calls + 1;
          case NoStream =>
        }
        calls := calls + 1;
        left := left - 1;
      }
      r := Err(Raise(StreamErrorClass, None));
    }

    /** `_write_from_stream` into the open file `temp`: chunks are read and
        appended until an empty read; the stop flag is checked after every
        chunk written. Returns whether the copy bailed (the source's -1). */
    method WriteFromStream(temp: Path, chunks: seq<seq<bv8>>, stopAt: Option<nat>) returns (bailed: bool)
      requires temp in fs
      modifies this
      ensures bailed == StopIndex(chunks, stopped, stopAt).Some?
      ensures fs == old(fs)[temp := old(fs)[temp] + Parser.Flatten(chunks[..WrittenCount(chunks, stopped, stopAt)])]
      ensures successes == old(successes) && failures == old(failures)
      ensures tempfiles == old(tempfiles) && stopped == old(stopped)
    {
      ghost var start := fs[temp];
      StopIndexFirst(chunks, stopped, stopAt);
      assert chunks[..0] == [] && Parser.Flatten(chunks[..0]) == [] && start + [] == start;
      assert old(fs)[temp := start + Parser.Flatten(chunks[..0])] == old(fs);
      var i := 0;
      while i < |chunks| && chunks[i] != []
        invariant i <= ReadCount(chunks)
        invariant forall j :: 0 <= j < i ==> !StopSeen(stopped, stopAt, j)
        invariant fs == old(fs)[temp := start + Parser.Flatten(chunks[..i])]
        invariant successes == old(successes) && failures == old(failures)
        invariant tempfiles == old(tempfiles) && stopped == old(stopped)
      {
        FlattenSnoc(chunks, i);
        assert start + Parser.Flatten(chunks[..i]) + chunks[i] == start + Parser.Flatten(chunks[..i + 1]);
        fs := fs[temp := fs[temp] + chunks[i]];
        if StopSeen(stopped, stopAt, i) {
          return true;
        }
        i := i + 1;
      }
      return false;
    }

    /** Lines 117-131 of `_download_track` up to the registration of the
        temporary file, for a track populated from metadata `m`: nothing
        changes. */
    method Prepare(track: DownloadableTrack, m: WrappedMetadata, batchIdx: nat, description: Option<string>)
      returns (plan: Plan)
      requires track.metadata == Some(m) && track.targetFilename.Some?
      ensures plan == PlanOf(config, track.trackId, m, track.targetFilename.value, fs, batchIdx, description)
    {
      var target := track.targetFilename.value;
      if batchIdx == 0 && (description.None? || description.value == "") {
        var header := track.HeaderDescription();
        if header.Err? {
          return Fail(header.error);
        }
      }
      var task := track.TaskDescription();
      var bail := BailSize(config, fs, target);
      if bail.Some? {
        if task.Err? {
          return Fail(task.error);
        }
        return Skip(bail.value);
      }
      if task.Err? {
        return Fail(task.error);
      }
      var tempName := track.TempFilename();
      if tempName.Err? {
        return Fail(tempName.error);
      }
      return Copy(tempName.value);
    }

    /** Lines 131-144 of `_download_track`: the temporary file is listed
        before it is opened (and emptied), the stream is copied into it,
        and unless the copy bailed the tags are computed and the file moved
        to the target. Returns the exception caught, if any. */
    method CopyInto(temp: Path, target: Path, stream: LoadedStream, stopAt: Option<nat>) returns (exc: Option<Exc>)
      modifies this
      ensures successes == old(successes) && failures == old(failures) && stopped == old(stopped)
      ensures tempfiles == old(tempfiles) + [temp]
      ensures Step(exc, fs) == AfterCopy(old(fs), temp, target, stream, stopped, stopAt)
    {
      ghost var data := Parser.Flatten(stream.chunks[..WrittenCount(stream.chunks, stopped, stopAt)]);
      ghost var written := old(fs)[temp := data];
      tempfiles := tempfiles + [temp];
      fs := fs[temp := []];
      var bailed := WriteFromStream(temp, stream.chunks, stopAt);
      assert [] + data == data;
      assert fs == written;
      if bailed {
        return None;
      }
      var tags := TagsToWrite(stream.content);
      assert AfterCopy(old(fs), temp, target, stream, stopped, stopAt) ==
        if tags.Err? then Step(Some(tags.error), written) else Step(None, Move(written, temp, target));
      if tags.Err? {
        return Some(tags.error);
      }
      fs := Move(fs, temp, target);
      return None;
    }

    /** Lines 117-144 of `_download_track` for a track whose metadata and
        target were populated from `stream`: a skip or an exception before
        the copy changes nothing; otherwise the temporary file is listed and
        the copy goes as `AfterCopy` says. Returns the exception caught, if
        any. */
    method Transfer(track: DownloadableTrack, stream: LoadedStream, stopAt: Option<nat>,
                    batchIdx: nat, description: Option<string>) returns (exc: Option<Exc>)
      requires track.metadata == Some(stream.content) && track.targetFilename.Some?
      modifies this
      ensures successes == old(successes) && failures == old(failures) && stopped == old(stopped)
      ensures var target := track.targetFilename.value;
        var plan := PlanOf(config, track.trackId, stream.content, target, old(fs), batchIdx, description);
        match plan
        case Fail(e) => exc == Some(e) && fs == old(fs) && tempfiles == old(tempfiles)
        case Skip(_) => exc == None && fs == old(fs) && tempfiles == old(tempfiles)
        case Copy(temp) =>
          tempfiles == old(tempfiles) + [temp]
          && Step(exc, fs) == AfterCopy(old(fs), temp, target, stream, stopped, stopAt)
    {
      var plan := Prepare(track, stream.content, batchIdx, description);
      match plan {
        case Fail(e) =>
          exc := Some(e);
        case Skip(_) =>
          exc := None;
        case Copy(temp) =>
          exc := CopyInto(temp, track.targetFilename.value, stream, stopAt);
      }
    }

    /** `_download_track` as written: the stream is loaded (three attempts),
        then `populate_metadata` is called with the `idx` keyword and the
        batch context, which always raises, before its body runs when the
        context clashes with the call; the exception lands in the result, or
        ends the item with Abort under `fail_early`. */
    method DownloadTrack(track: DownloadableTrack, context: map<string, string>, batchIdx: nat, input: ItemInput)
      returns (c: Completion)
      modifies this, track
      ensures successes == old(successes) && failures == old(failures) && stopped == old(stopped)
      ensures fs == old(fs) && tempfiles == old(tempfiles)
      ensures var m := AssignedMetadata(input, context);
        track.metadata == (if m.Some? then m else old(track.metadata))
        && track.targetFilename == old(track.targetFilename)
      ensures var e := ItemError(LoadFrom(input.answers, 0, 3).outcome, context);
        c == if config.failEarly then Raised(Abort(e)) else Finished(ProcessingResult(track, Some(e), false))
    {
      var e: Exc;
      var loaded, _ := LoadStream(input.answers, 3);
      match loaded {
        case Err(x) =>
          e := x;
        case Ok(stream) =>
          if CallClash(context) {
            e := DuplicateKeyword;
          } else {
            var keys := KeysOf(context);
            var err := track.PopulateMetadata(stream, config.destination, ["idx"] + keys);
            PopulateAlwaysFails(stream, config.destination, track.originatingType, context, keys);
            assert err.Some?;
            e := err.value;
          }
      }
      if config.failEarly {
        c := Raised(Abort(e));
      } else {
        c := Finished(ProcessingResult(track, Some(e), false));
      }
    }

    /** One item of `process`: its download, then the callback on how it
        completed. */
    method RunItem(track: DownloadableTrack, context: map<string, string>, batchIdx: nat, input: ItemInput)
      returns (c: Completion)
      modifies this, track
      ensures var e := ItemError(LoadFrom(input.answers, 0, 3).outcome, context);
        c == if config.failEarly then Raised(Abort(e)) else Finished(ProcessingResult(track, Some(e), false))
      ensures var m := AssignedMetadata(input, context);
        track.metadata == (if m.Some? then m else old(track.metadata))
        && track.targetFilename == old(track.targetFilename)
      ensures successes == old(successes) && failures == old(failures) + 1
      ensures tempfiles == old(tempfiles) && fs == old(fs) && stopped == old(stopped)
    {
      c := DownloadTrack(track, context, batchIdx, input);
      Callback(c);
    }

    /** `process(batch)`, run one item after another: the temporary-file
        list is reset, the tracks are queued, and each item is downloaded
        and counted by the callback, its result yielded in queue order. An
        item that raises (Abort under `fail_early`) ends the run with that
        exception. As written every item fails, so no success is ever
        counted. */
    method Process(batch: DownloadableBatch, inputs: nat -> ItemInput)
      returns (results: seq<ProcessingResult>, raised: Option<Exc>)
      modifies this, set t | t in batch.tracks
      ensures var queue := QueueOrder(config, batch.kind, batch.tracks);
        |results| <= |queue|
        && (raised.None? ==> |results| == |queue|)
        && (raised.Some? ==> config.failEarly && |results| < |queue| && raised.value.Abort?)
        && (!config.failEarly ==> raised.None?)
        && forall j :: 0 <= j < |results| ==>
             results[j].track == queue[j] && !results[j].interrupted
             && results[j].exception == Some(ItemError(LoadFrom(inputs(j).answers, 0, 3).outcome, batch.context))
      ensures var queue := QueueOrder(config, batch.kind, batch.tracks);
        var n := |results| + (if raised.Some? then 1 else 0);
        n <= |queue|
        && forall t :: t in batch.tracks ==>
             t.metadata == MetadataAfter(queue, batch.context, inputs, n, t, old(t.metadata))
             && t.targetFilename == old(t.targetFilename)
      ensures successes == old(successes)
      ensures failures == old(failures) + |results| + (if raised.Some? then 1 else 0)
      ensures tempfiles == [] && fs == old(fs) && stopped == old(stopped)
    {
      tempfiles := [];
      var queue := QueueOrder(config, batch.kind, batch.tracks);
      QueueMembers(config, batch.kind, batch.tracks);
      ghost var before := map t | t in queue :: t.metadata;
      assert forall t :: t in batch.tracks ==> t in queue && before[t] == old(t.metadata);
      results, raised := RunQueue(queue, batch.context, inputs, before);
    }

    /** One pass of the loop of `process`: item `i` runs as `RunItem` says,
        its result, unless it raised, joins those of the items before it,
        and the metadata of every queued track moves on by that item. */
    method RunNext(queue: seq<DownloadableTrack>, context: map<string, string>, inputs: nat -> ItemInput,
                   results: seq<ProcessingResult>, ghost before: map<DownloadableTrack, Option<WrappedMetadata>>)
      returns (c: Completion, results': seq<ProcessingResult>)
      requires |results| < |queue|
      requires forall j :: 0 <= j < |results| ==> ItemResult(results[j], queue[j], inputs(j), context)
      requires forall t :: t in queue ==> t in before && t.metadata == MetadataAfter(queue, context, inputs, |results|, t, before[t])
      modifies this, queue[|results|]
      ensures var i := |results|; var e := ItemError(LoadFrom(inputs(i).answers, 0, 3).outcome, context);
        c == if config.failEarly then Raised(Abort(e)) else Finished(ProcessingResult(queue[i], Some(e), false))
      ensures results' == if c.Finished? then results + [c.result] else results
      ensures c.Finished? ==> forall j :: 0 <= j < |results'| ==> ItemResult(results'[j], queue[j], inputs(j), context)
      ensures forall t :: t in queue ==>
        t.metadata == MetadataAfter(queue, context, inputs, |results| + 1, t, before[t])
        && t.targetFilename == old(t.targetFilename)
      ensures c.Finished? ==> forall t :: t in queue ==> t.metadata == MetadataAfter(queue, context, inputs, |results'|, t, before[t])
      ensures successes == old(successes) && failures == old(failures) + 1
      ensures tempfiles == old(tempfiles) && fs == old(fs) && stopped == old(stopped)
    {
      var i := |results|;
      c := RunItem(queue[i], context, i, inputs(i));
      forall t | t in queue
        ensures t.metadata == MetadataAfter(queue, context, inputs, i + 1, t, before[t])
      {
        var m := AssignedMetadata(inputs(i), context);
        assert t.metadata == (if t == queue[i] && m.Some? then m else old(t.metadata));
      }
      results' := results;
      if c.Finished? {
        results' := results + [c.result];
        assert forall j :: 0 <= j < i ==> results'[j] == results[j];
      }
    }

    /** The loop of `process` over the queued tracks. */
    method RunQueue(queue: seq<DownloadableTrack>, context: map<string, string>, inputs: nat -> ItemInput,
                    ghost before: map<DownloadableTrack, Option<WrappedMetadata>>)
      returns (results: seq<ProcessingResult>, raised: Option<Exc>)
      requires forall t :: t in queue ==> t in before && t.metadata == before[t]
      modifies this, set t | t in queue
      ensures |results| <= |queue|
      ensures raised.None? ==> |results| == |queue|
      ensures raised.Some? ==> config.failEarly && |results| < |queue| && raised.value.Abort?
      ensures !config.failEarly ==> raised.None?
      ensures forall j :: 0 <= j < |results| ==> ItemResult(results[j], queue[j], inputs(j), context)
      ensures var n := |results| + (if raised.Some? then 1 else 0);
        n <= |queue|
        && forall t :: t in queue ==>
             t.metadata == MetadataAfter(queue, context, inputs, n, t, before[t])
             && t.targetFilename == old(t.targetFilename)
      ensures successes == old(successes)
      ensures failures == old(failures) + |results| + (if raised.Some? then 1 else 0)
      ensures tempfiles == old(tempfiles) && fs == old(fs) && stopped == old(stopped)
    {
      results := [];
      raised := None;
      while |results| < |queue|
        invariant |results| <= |queue|
        invariant forall j :: 0 <= j < |results| ==> ItemResult(results[j], queue[j], inputs(j), context)
        invariant forall t :: t in queue ==>
          t.metadata == MetadataAfter(queue, context, inputs, |results|, t, before[t])
          && t.targetFilename == old(t.targetFilename)
        invariant successes == old(successes) && failures == old(failures) + |results|
        invariant tempfiles == old(tempfiles) && fs == old(fs) && stopped == old(stopped)
        decreases |queue| - |results|
      {
        var c;
        c, results := RunNext(queue, context, inputs, results, before);
        if c.Raised? {
          raised := Some(c.exc);
          return;
        }
      }
    }

    /** `shutdown`: the stop flag is set and every listed temporary file that
        still exists is deleted; nothing else is touched. */
    method Shutdown()
      modifies this
      ensures stopped
      ensures fs == map p | p in old(fs) && p !in old(tempfiles) :: old(fs)[p]
      ensures tempfiles == old(tempfiles) && successes == old(successes) && failures == old(failures)
    {
      stopped := true;
      var i := 0;
      while i < |tempfiles|
        invariant 0 <= i <= |tempfiles|
        invariant stopped
        invariant tempfiles == old(tempfiles) && successes == old(successes) && failures == old(failures)
        invariant fs == map p | p in old(fs) && p !in tempfiles[..i] :: old(fs)[p]
      {
        assert tempfiles[..i + 1] == tempfiles[..i] + [tempfiles[i]];
        if tempfiles[i] in fs {
          fs := fs - {tempfiles[i]};
        }
        i := i + 1;
      }
      assert tempfiles[..i] == tempfiles;
    }
  }
}
