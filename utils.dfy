/** despot/utils.py: filename sanitising, codec extensions, artist joining
    and date formatting. */
module Utils {
  import opened Wrappers
  import opened Exceptions
  import Strings

  /** A value of a metadata field: Python `str` or `int`. */
  datatype Value = Str(s: string) | Int(i: int)

  /** The characters of the `_safefilename` pattern `[/\\?%*:|"<>]`. */
  predicate IsUnsafe(c: char)
  {
    c == '/' || c == '\\' || c == '?' || c == '%' || c == '*' || c == ':' || c == '|' || c == '"' || c == '<' || c == '>'
  }

  /** `_safefilename.sub("-", s)`: every unsafe character becomes '-'. */
  function SafeChars(s: string): string
  {
    if |s| == 0 then "" else SafeChars(s[..|s| - 1]) + [if IsUnsafe(s[|s| - 1]) then '-' else s[|s| - 1]]
  }

  /** `make_safe_filename(value)`: strings are sanitised, integers returned
      unchanged. */
  function MakeSafeFilename(v: Value): Value
  {
    match v
    case Str(s) => Str(SafeChars(s))
    case Int(_) => v
  }

  /** Sanitising keeps the length, replaces exactly the unsafe characters by
      '-' and leaves every other character where it was. */
  lemma {:induction false} SafeCharsAt(s: string)
    ensures |SafeChars(s)| == |s|
    ensures forall i :: 0 <= i < |s| ==> SafeChars(s)[i] == if IsUnsafe(s[i]) then '-' else s[i]
  {
    if |s| > 0 {
      SafeCharsAt(s[..|s| - 1]);
    }
  }

  /** A sanitised string holds no unsafe character, and sanitising twice is
      the same as sanitising once; integers pass through. */
  lemma MakeSafeFilenameIdempotent(v: Value)
    ensures MakeSafeFilename(MakeSafeFilename(v)) == MakeSafeFilename(v)
    ensures v.Str? ==> forall i :: 0 <= i < |MakeSafeFilename(v).s| ==> !IsUnsafe(MakeSafeFilename(v).s[i])
    ensures v.Int? ==> MakeSafeFilename(v) == v
  {
    if v.Str? {
      var once := SafeChars(v.s);
      SafeCharsAt(v.s);
      SafeCharsAt(once);
      assert SafeChars(once) == once;
    }
  }

  /** librespot's `SuperAudioFormat`; `OtherCodec` stands for any value the
      match in `get_filename_ext` does not list. */
  datatype Codec = MP3 | VORBIS | AAC | OtherCodec

  /** `get_filename_ext(codec)`. */
  function GetFilenameExt(codec: Codec): (r: Result<string, Exc>)
    ensures r.Ok? <==> codec != OtherCodec
    ensures r.Err? ==> r.error == NotImplementedError
    ensures codec == MP3 ==> r == Ok("mp3")
    ensures codec == VORBIS ==> r == Ok("ogg")
    ensures codec == AAC ==> r == Ok("m4a")
    ensures r.Ok? ==> |r.value| == 3 && forall i :: 0 <= i < 3 ==> 'a' <= r.value[i] <= 'z' || '0' <= r.value[i] <= '9'
  {
    match codec
    case MP3 => Ok("mp3")
    case VORBIS => Ok("ogg")
    case AAC => Ok("m4a")
    case OtherCodec => Err(NotImplementedError)
  }

  /** The three codecs map to three different extensions. */
  lemma GetFilenameExtInjective(a: Codec, b: Codec)
    requires GetFilenameExt(a).Ok? && GetFilenameExt(b).Ok?
    ensures GetFilenameExt(a) == GetFilenameExt(b) <==> a == b
  {
  }

  /** librespot's `Metadata.Artist`, of which only the name is read. */
  datatype Artist = Artist(name: string)

  function Names(artists: seq<Artist>): (r: seq<string>)
    ensures |r| == |artists| && forall i :: 0 <= i < |r| ==> r[i] == artists[i].name
  {
    seq(|artists|, i requires 0 <= i < |artists| => artists[i].name)
  }

  /** `format_artist(artists)`. */
  function FormatArtist(artists: seq<Artist>): (r: Result<string, Exc>)
    ensures r.Err? <==> |artists| == 0
    ensures r.Err? ==> r.error == ValueError([])
    ensures |artists| == 1 ==> r == Ok(artists[0].name)
    ensures |artists| > 1 ==> r == Ok(Strings.Join(Names(artists[..|artists| - 1]), ", ") + " & " + artists[|artists| - 1].name)
  {
    if |artists| == 1 then Ok(artists[0].name)
    else if |artists| > 1 then Ok(Strings.Join(Names(artists[..|artists| - 1]), ", ") + " & " + artists[|artists| - 1].name)
    else Err(ValueError([]))
  }

  /** With two or more artists the text starts with the first artist's name
      and ends with " & " and the last one's; adding an artist in front of a
      list of two or more adds that name and ", " in front. */
  lemma {:induction false} FormatArtistShape(artists: seq<Artist>)
    requires |artists| > 1
    ensures var r := FormatArtist(artists).value;
      var last := " & " + artists[|artists| - 1].name;
      |r| >= |artists[0].name| + |last|
      && r[..|artists[0].name|] == artists[0].name
      && r[|r| - |last|..] == last
  {
    var init := Names(artists[..|artists| - 1]);
    Strings.JoinStartsWithFirst(init, ", ");
  }

  /** Adding an artist in front of two or more puts its name and ", " in front. */
  lemma {:induction false} FormatArtistCons(a: Artist, artists: seq<Artist>)
    requires |artists| > 1
    ensures FormatArtist([a] + artists).value == a.name + ", " + FormatArtist(artists).value
  {
    var all := [a] + artists;
    var init := Names(all[..|all| - 1]);
    assert init[1..] == Names(artists[..|artists| - 1]);
    assert |init| > 1;
  }

  /** `format_artist` applied, as the `album` accessor does, to a plain
      string: an empty string raises ValueError from the length check, and a
      non-empty one raises AttributeError because characters have no `name`. */
  function FormatArtistOfString(s: string): (r: Result<string, Exc>)
    ensures r.Err?
    ensures r.error == (if |s| == 0 then ValueError([]) else AttributeError)
  {
    if |s| == 0 then Err(ValueError([])) else Err(AttributeError)
  }

  /** librespot's `Metadata.Date`; absent fields read as 0. */
  datatype Date = Date(year: int, month: int, day: int, hour: int, minute: int)

  predicate IsLeap(y: int)
  {
    y % 4 == 0 && (y % 100 != 0 || y % 400 == 0)
  }

  function DaysInMonth(y: int, m: int): int
    requires 1 <= m <= 12
  {
    if m == 2 then (if IsLeap(y) then 29 else 28)
    else if m == 4 || m == 6 || m == 9 || m == 11 then 30
    else 31
  }

  /** The fields `datetime(...)` receives: a zero month or day becomes 1, a
      zero hour or minute stays 0. */
  function EffectiveDate(d: Date): Date
  {
    Date(d.year, if d.month == 0 then 1 else d.month, if d.day == 0 then 1 else d.day, d.hour, d.minute)
  }

  /** The ValueError `datetime(...)` raises for out-of-range fields (checked
      in the order year, month, day, hour, minute, with the messages of
      CPython's C implementation), or `None` for a valid date. */
  function DateError(d: Date): Option<Exc>
  {
    if !(1 <= d.year <= 9999) then Some(ValueError(["year " + Strings.IntToString(d.year) + " is out of range"]))
    else if !(1 <= d.month <= 12) then Some(ValueError(["month must be in 1..12"]))
    else if !(1 <= d.day <= DaysInMonth(d.year, d.month)) then Some(ValueError(["day is out of range for month"]))
    else if !(0 <= d.hour <= 23) then Some(ValueError(["hour must be in 0..23"]))
    else if !(0 <= d.minute <= 59) then Some(ValueError(["minute must be in 0..59"]))
    else None
  }

  /** `format_date(d)`: `datetime(...)` with the defaults above, formatted
      with "%Y-%m-%d". */
  function FormatDate(d: Date): Result<string, Exc>
  {
    var e := EffectiveDate(d);
    match DateError(e)
    case Some(err) => Err(err)
    case None =>
      Ok(Strings.FormatZeroPadded(e.year, 4) + "-" + Strings.FormatZeroPadded(e.month, 2) + "-" + Strings.FormatZeroPadded(e.day, 2))
  }

  /** A valid date with a four-digit year formats as ten characters
      YYYY-MM-DD whose fields read back as the year, the month (1 when
      absent) and the day (1 when absent). */
  lemma FormatDateShape(d: Date)
    requires 1000 <= d.year <= 9999 && DateError(EffectiveDate(d)).None?
    ensures FormatDate(d).Ok?
    ensures var r := FormatDate(d).value;
      |r| == 10 && r[4] == '-' && r[7] == '-'
      && Strings.AllDigits(r[..4]) && Strings.ParseNat(r[..4]) == d.year
      && Strings.AllDigits(r[5..7]) && Strings.ParseNat(r[5..7]) == (if d.month == 0 then 1 else d.month)
      && Strings.AllDigits(r[8..]) && Strings.ParseNat(r[8..]) == (if d.day == 0 then 1 else d.day)
  {
    var e := EffectiveDate(d);
    var y := Strings.FormatZeroPadded(e.year, 4);
    var m := Strings.FormatZeroPadded(e.month, 2);
    var dd := Strings.FormatZeroPadded(e.day, 2);
    PaddedWidth(e.year, 4);
    PaddedWidth(e.month, 2);
    PaddedWidth(e.day, 2);
    var r := y + "-" + m + "-" + dd;
    assert FormatDate(d) == Ok(r);
    assert r[..4] == y;
    assert r[5..7] == m;
    assert r[8..] == dd;
  }

  /** A non-negative value below 10^width pads to exactly `width` digits. */
  lemma PaddedWidth(v: int, width: nat)
    requires width >= 1 && 0 <= v < Power10(width)
    ensures |Strings.FormatZeroPadded(v, width)| == width
  {
    NatToStringLength(v, width);
  }

  lemma {:induction false} NatToStringLength(n: nat, k: nat)
    requires n < Power10(k)
    requires k >= 1
    ensures |Strings.NatToString(n)| <= k
  {
    if n >= 10 {
      NatToStringLength(n / 10, k - 1);
    }
  }

  function Power10(k: nat): nat
  {
    if k == 0 then 1 else 10 * Power10(k - 1)
  }

  /** Hour and minute never show in the output: two dates that differ only
      there format alike whenever both are valid. */
  lemma FormatDateIgnoresTime(d: Date, hour: int, minute: int)
    requires 0 <= d.hour <= 23 && 0 <= d.minute <= 59
    requires 0 <= hour <= 23 && 0 <= minute <= 59
    ensures FormatDate(d) == FormatDate(Date(d.year, d.month, d.day, hour, minute))
  {
    var e1 := EffectiveDate(d);
    var e2 := EffectiveDate(Date(d.year, d.month, d.day, hour, minute));
    assert e2 == e1.(hour := hour, minute := minute);
    assert DateError(e1).None? <==> DateError(e2).None?;
    if DateError(e1).Some? {
      assert DateError(e1) == DateError(e2);
    }
  }
}
