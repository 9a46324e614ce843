/**
 * The lyrics cache of cmd/lyrics.go: `saveCache` writes one
 * `"<seconds>,<text>\n"` record per line, `loadCache` reads the file back
 * line by line, and `fetchLyrics` consults the cache before the network.
 *
 * The cache directory is a map from file name to file contents; the HTTP
 * exchange is an input value.
 */
module LyricsCache {
  import opened Wrappers
  import opened GoText
  import opened Lyrics

  // ---------------------------------------------------------- saveCache

  /** Decimals `saveCache` writes for a timestamp (`%.6f`). */
  const CachePrecision: nat := 6

  /** One record of the cache file. */
  function CacheRecord(l: LyricLine): string
  {
    RenderFixed(l.timestamp, CachePrecision) + "," + l.text + "\n"
  }

  /** The whole cache file for `lines`, records in order. */
  function CacheText(lines: seq<LyricLine>): (file: string)
    ensures |lines| == 0 <==> file == ""
    ensures |lines| > 0 ==> file[|file| - 1] == '\n'
  {
    if |lines| == 0 then ""
    else CacheText(lines[..|lines| - 1]) + CacheRecord(lines[|lines| - 1])
  }

  /** The file for the first `i + 1` lines: the one for `i` lines and record `i`. */
  lemma CacheTextStep(lines: seq<LyricLine>, i: nat)
    requires i < |lines|
    ensures CacheText(lines[..i + 1]) == CacheText(lines[..i]) + CacheRecord(lines[i])
  {
    assert lines[..i + 1][..i] == lines[..i];
  }

  /**
   * How writing the cache file can fail: the file cannot be created, or
   * the write of record `k` fails after records `0..k-1` went out, leaving
   * the first `kept` bytes of record `k` in the file (a short write).
   */
  datatype SaveFault = NoFault | CreateFails | WriteFailsAt(k: nat, kept: nat)

  /** The records that reach the file whole before the write fails. */
  function WrittenCount(lines: seq<LyricLine>, fault: SaveFault): (n: nat)
    ensures n <= |lines|
  {
    match fault
    case WriteFailsAt(k, _) => if k < |lines| then k else |lines|
    case _ => |lines|
  }

  /**
   * What a failing write leaves of a record: `os.File.Write` reports an
   * error only when it wrote fewer bytes than it was given, so at most all
   * but the last byte (`kept` is capped there).
   */
  function ShortWrite(record: string, kept: nat): (part: string)
    requires |record| > 0
    ensures |part| < |record| && part == record[..|part|]
    ensures kept < |record| ==> |part| == kept
  {
    record[..if kept < |record| then kept else |record| - 1]
  }

  /**
   * The file `saveCache` leaves: the whole records written before the
   * failing write, then what that write got out.
   */
  function SavedText(lines: seq<LyricLine>, fault: SaveFault): (file: string)
    ensures var whole := CacheText(lines[..WrittenCount(lines, fault)]);
      |whole| <= |file| && file[..|whole|] == whole
    ensures !fault.CreateFails? && WrittenCount(lines, fault) == |lines| ==> file == CacheText(lines)
  {
    match fault
    case WriteFailsAt(k, kept) =>
      if k < |lines| then CacheText(lines[..k]) + ShortWrite(CacheRecord(lines[k]), kept)
      else assert lines[..|lines|] == lines; CacheText(lines)
    case _ => assert lines[..|lines|] == lines; CacheText(lines)
  }

  /** `saveCache` reports success: the file was created and every record written. */
  predicate SaveSucceeds(lines: seq<LyricLine>, fault: SaveFault)
  {
    !fault.CreateFails? && WrittenCount(lines, fault) == |lines|
  }

  /**
   * `saveCache` (cmd/lyrics.go:147-161): `os.Create` truncates or creates
   * the file, then the records go out one by one and the first failing
   * write ends the call. `file` is what the file then holds (None when it
   * was never created).
   */
  method SaveCache(lines: seq<LyricLine>, fault: SaveFault) returns (file: Option<string>, ok: bool)
    ensures fault.CreateFails? ==> file.None? && !ok
    ensures !fault.CreateFails? ==> file == Some(SavedText(lines, fault))
    ensures ok <==> SaveSucceeds(lines, fault)
  {
    if fault.CreateFails? {
      return None, false;
    }
    var text := "";
    for i := 0 to |lines|
      invariant i <= WrittenCount(lines, fault)
      invariant text == CacheText(lines[..i])
    {
      if fault.WriteFailsAt? && fault.k == i {
        return Some(text + ShortWrite(CacheRecord(lines[i]), fault.kept)), false;
      }
      text := WriteRecord(lines, i, text);
    }
    assert lines[..|lines|] == lines;
    return Some(text), true;
  }

  /** One `fmt.Fprintf` of the save loop: record `i` goes after the earlier ones. */
  method WriteRecord(lines: seq<LyricLine>, i: nat, text: string) returns (next: string)
    requires i < |lines| && text == CacheText(lines[..i])
    ensures next == CacheText(lines[..i + 1])
  {
    CacheTextStep(lines, i);
    next := text + CacheRecord(lines[i]);
  }

  // ----------------------------------------------------------- scanning

  /** `bufio.ScanLines` drops one carriage return before the newline. */
  function DropCR(s: string): string
  {
    if |s| > 0 && s[|s| - 1] == '\r' then s[..|s| - 1] else s
  }

  /**
   * The lines `bufio.Scanner` with `ScanLines` yields: the pieces between
   * newlines, less a trailing carriage return, and no empty piece after a
   * final newline.
   */
  function ScanLines(data: string): (lines: seq<string>)
    ensures forall i :: 0 <= i < |lines| ==> '\n' !in lines[i]
    decreases |data|
  {
    if |data| == 0 then []
    else
      match IndexOf(data, '\n')
      case None => [DropCR(data)]
      case Some(i) => [DropCR(data[..i])] + ScanLines(data[i + 1..])
  }

  /** A record that ends in a newline is one scanned line, and the rest scans on its own. */
  lemma ScanRecord(r: string, rest: string)
    requires '\n' !in r
    ensures ScanLines(r + "\n" + rest) == [DropCR(r)] + ScanLines(rest)
  {
    var data := r + "\n" + rest;
    assert data == r + ['\n'] + rest;
    assert SplitFirst(data, '\n') == Some((r, rest)) by {
      SplitFirstAt(r, rest, '\n');
    }
    assert data[..|r|] == r;
    assert data[|r| + 1..] == rest;
  }

  /** Text that ends in a newline scans apart from what follows it. */
  lemma {:induction false} ScanAppend(a: string, b: string)
    requires |a| == 0 || a[|a| - 1] == '\n'
    ensures ScanLines(a + b) == ScanLines(a) + ScanLines(b)
    decreases |a|
  {
    if |a| == 0 {
      assert a + b == b;
    } else {
      var (r, rest) := SplitFirst(a, '\n').value;
      assert a == r + "\n" + rest;
      assert a + b == r + "\n" + (rest + b);
      assert |rest| == 0 || rest[|rest| - 1] == '\n' by {
        if |rest| > 0 {
          assert rest[|rest| - 1] == a[|a| - 1];
        }
      }
      calc {
        ScanLines(a + b);
        { ScanRecord(r, rest + b); }
        [DropCR(r)] + ScanLines(rest + b);
        { ScanAppend(rest, b); }
        [DropCR(r)] + (ScanLines(rest) + ScanLines(b));
        ([DropCR(r)] + ScanLines(rest)) + ScanLines(b);
        { ScanRecord(r, rest); }
        ScanLines(a) + ScanLines(b);
      }
    }
  }

  // ---------------------------------------------------------- loadCache

  /** Why `loadCache` gives up: the file cannot be opened, or a timestamp does not parse. */
  datatype LoadError = OpenFailed | BadTimestamp(field: string)

  /** One scanned line: skipped (no comma), fatal (bad timestamp) or a lyric line. */
  function LoadLine(line: string): Option<Result<LyricLine, LoadError>>
  {
    match SplitFirst(line, ',')
    case None => None
    case Some((ts, text)) =>
      match ParseDecimal(ts)
      case None => Some(Err(BadTimestamp(ts)))
      case Some(t) => Some(Ok(LyricLine(t, text)))
  }

  /** The lines `loadCache` collects from the scanned lines; the first bad timestamp wins. */
  function LoadLines(lines: seq<string>): Result<seq<LyricLine>, LoadError>
  {
    if |lines| == 0 then Ok([])
    else
      match LoadLines(lines[..|lines| - 1])
      case Err(e) => Err(e)
      case Ok(init) =>
        match LoadLine(lines[|lines| - 1])
        case None => Ok(init)
        case Some(Err(e)) => Err(e)
        case Some(Ok(l)) => Ok(init + [l])
  }

  /** What `loadCache` returns for a file's contents (None: the file cannot be opened). */
  function LoadCacheSpec(file: Option<string>): Result<seq<LyricLine>, LoadError>
  {
    match file
    case None => Err(OpenFailed)
    case Some(data) => LoadLines(ScanLines(data))
  }

  /** Once the lines read so far hold a bad timestamp, later lines change nothing. */
  lemma {:induction false} LoadLinesErrSticks(a: seq<string>, b: seq<string>)
    requires LoadLines(a).Err?
    ensures LoadLines(a + b) == LoadLines(a)
    decreases |b|
  {
    if |b| > 0 {
      assert (a + b)[..|a + b| - 1] == a + b[..|b| - 1];
      LoadLinesErrSticks(a, b[..|b| - 1]);
    } else {
      assert a + b == a;
    }
  }

  /** One more scanned line extends the load by what that line reads as. */
  lemma LoadLinesStep(scanned: seq<string>, i: nat)
    requires i < |scanned|
    ensures LoadLines(scanned[..i]).Err? ==> LoadLines(scanned[..i + 1]) == LoadLines(scanned[..i])
    ensures LoadLines(scanned[..i]).Ok? ==>
      LoadLines(scanned[..i + 1]) ==
        match LoadLine(scanned[i])
        case None => LoadLines(scanned[..i])
        case Some(Err(e)) => Err(e)
        case Some(Ok(l)) => Ok(LoadLines(scanned[..i]).value + [l])
  {
    assert scanned[..i + 1][..i] == scanned[..i];
  }

  /** A bad timestamp among the first `i` lines is the result for the whole file. */
  lemma LoadStopsAt(scanned: seq<string>, i: nat)
    requires i <= |scanned| && LoadLines(scanned[..i]).Err?
    ensures LoadLines(scanned) == LoadLines(scanned[..i])
  {
    LoadLinesErrSticks(scanned[..i], scanned[i..]);
    assert scanned[..i] + scanned[i..] == scanned;
  }

  /** The body of the scan loop (cmd/lyrics.go:175-186) for one line. */
  method ReadRecord(line: string) returns (r: Option<Result<LyricLine, LoadError>>)
    ensures r == LoadLine(line)
  {
    var parts := SplitFirst(line, ',');
    if parts.None? {
      return None;
    }
    var timestamp := ParseDecimal(parts.value.0);
    if timestamp.None? {
      return Some(Err(BadTimestamp(parts.value.0)));
    }
    return Some(Ok(LyricLine(timestamp.value, parts.value.1)));
  }

  /**
   * `loadCache` (cmd/lyrics.go:163-192): the scan loop; lines without a
   * comma are skipped and the first timestamp that does not parse aborts
   * the load.
   */
  method LoadCache(file: Option<string>) returns (r: Result<seq<LyricLine>, LoadError>)
    ensures r == LoadCacheSpec(file)
  {
    if file.None? {
      return Err(OpenFailed);
    }
    var scanned := ScanLines(file.value);
    var lines: seq<LyricLine> := [];
    for i := 0 to |scanned|
      invariant LoadLines(scanned[..i]) == Ok(lines)
    {
      LoadLinesStep(scanned, i);
      var record := ReadRecord(scanned[i]);
      match record
      case None =>
      case Some(Err(e)) =>
        LoadStopsAt(scanned, i + 1);
        return Err(e);
      case Some(Ok(l)) =>
        lines := lines + [l];
    }
    assert scanned[..|scanned|] == scanned;
    return Ok(lines);
  }

  /** An empty cache file loads as an empty list, without an error. */
  lemma LoadEmptyFile()
    ensures LoadCacheSpec(Some("")) == Ok([])
  {
  }

  /** Lines without a comma are skipped. */
  lemma LoadSkipsCommaless(a: seq<string>, line: string)
    requires ',' !in line
    ensures LoadLines(a + [line]) == LoadLines(a)
  {
    assert (a + [line])[..|a|] == a;
  }

  // ---------------------------------------------------------- round trip

  /** What `%.6f` keeps of the timestamps: the lines as `loadCache` reads them back. */
  function Rounded(lines: seq<LyricLine>): (r: seq<LyricLine>)
    ensures |r| == |lines|
    ensures forall i :: 0 <= i < |lines| ==>
      r[i] == LyricLine(RoundFixed(lines[i].timestamp, CachePrecision), lines[i].text)
  {
    if |lines| == 0 then []
    else
      Rounded(lines[..|lines| - 1])
      + [LyricLine(RoundFixed(lines[|lines| - 1].timestamp, CachePrecision), lines[|lines| - 1].text)]
  }

  /** A record whose number has no newline scans as one line, the record less its newline. */
  lemma RecordScans(ts: string, text: string)
    requires '\n' !in ts && CacheSafe(text)
    ensures ScanLines(ts + "," + text + "\n") == [ts + "," + text]
  {
    var body := ts + "," + text;
    assert '\n' !in body by {
      assert forall i :: 0 <= i < |ts| ==> body[i] == ts[i];
      assert forall i :: 0 <= i < |text| ==> body[|ts| + 1 + i] == text[i];
    }
    ScanRecord(body, "");
    assert ts + "," + text + "\n" == body + "\n" + "";
    assert DropCR(body) == body by {
      if |text| == 0 {
        assert body[|body| - 1] == ',';
      } else {
        assert body[|body| - 1] == text[|text| - 1];
      }
    }
  }

  /** A scanned line whose comma-free number parses loads as that number and the rest. */
  lemma RecordLoads(ts: string, text: string, v: real)
    requires ',' !in ts && ParseDecimal(ts) == Some(v)
    ensures LoadLine(ts + "," + text) == Some(Ok(LyricLine(v, text)))
  {
    assert ts + "," + text == ts + [','] + text;
    SplitFirstAt(ts, text, ',');
  }

  /** One record reads back as its line, timestamp rounded. */
  lemma RecordRoundTrip(l: LyricLine)
    requires CacheSafe(l.text)
    ensures ScanLines(CacheRecord(l)) == [RenderFixed(l.timestamp, CachePrecision) + "," + l.text]
    ensures LoadLine(RenderFixed(l.timestamp, CachePrecision) + "," + l.text)
      == Some(Ok(LyricLine(RoundFixed(l.timestamp, CachePrecision), l.text)))
  {
    var ts := RenderFixed(l.timestamp, CachePrecision);
    CacheNumber(l.timestamp);
    RecordScans(ts, l.text);
    RecordLoads(ts, l.text, RoundFixed(l.timestamp, CachePrecision));
  }

  /**
   * The round trip of cmd/lyrics.go:147-192: reading back what `saveCache`
   * wrote gives the same lines, in order, with the same texts, and with
   * each timestamp as `%.6f` rounded it.
   */
  lemma {:induction false} CacheRoundTrip(lines: seq<LyricLine>)
    requires AllCacheSafe(lines)
    ensures LoadCacheSpec(Some(CacheText(lines))) == Ok(Rounded(lines))
    decreases |lines|
  {
    if |lines| > 0 {
      var init, last := lines[..|lines| - 1], lines[|lines| - 1];
      assert AllCacheSafe(init) by {
        assert forall i :: 0 <= i < |init| ==> init[i] == lines[i];
      }
      CacheRoundTrip(init);
      ScanAppend(CacheText(init), CacheRecord(last));
      RecordRoundTrip(last);
      var scanned := ScanLines(CacheText(init)) + [RenderFixed(last.timestamp, CachePrecision) + "," + last.text];
      assert scanned[..|scanned| - 1] == ScanLines(CacheText(init));
    }
  }

  /** Saving then loading keeps the number of lines. */
  lemma CacheRoundTripCount(lines: seq<LyricLine>)
    requires AllCacheSafe(lines)
    ensures LoadCacheSpec(Some(CacheText(lines))).Ok?
    ensures |LoadCacheSpec(Some(CacheText(lines))).value| == |lines|
  {
    CacheRoundTrip(lines);
  }

  /** Text without a newline scans as one line, less a final carriage return. */
  lemma ScanOne(x: string)
    requires |x| > 0 && '\n' !in x
    ensures ScanLines(x) == [DropCR(x)]
  {
  }

  /**
   * A record cut inside its text, `j` characters in: it scans as one line
   * and loads as the number and the cut text, less a carriage return the
   * cut may leave at its end.
   */
  lemma CutRecordLoads(ts: string, text: string, j: nat, v: real)
    requires '\n' !in ts && ',' !in ts && ParseDecimal(ts) == Some(v)
    requires '\n' !in text && j <= |text|
    ensures ScanLines(ts + "," + text[..j]) == [ts + "," + DropCR(text[..j])]
    ensures LoadLine(ts + "," + DropCR(text[..j])) == Some(Ok(LyricLine(v, DropCR(text[..j]))))
  {
    var cut := text[..j];
    assert '\n' !in cut;
    JoinedNoNewline(ts, cut);
    ScanOne(ts + "," + cut);
    DropCRAfterComma(ts, cut);
    RecordLoads(ts, DropCR(cut), v);
  }

  /** A number, a comma and a text, none with a newline, make one line. */
  lemma JoinedNoNewline(ts: string, cut: string)
    requires '\n' !in ts && '\n' !in cut
    ensures '\n' !in ts + "," + cut
  {
    var part := ts + "," + cut;
    assert forall i :: 0 <= i < |ts| ==> part[i] == ts[i];
    assert forall i :: 0 <= i < |cut| ==> part[|ts| + 1 + i] == cut[i];
  }

  /** A carriage return at the end of a record comes from its text, never from the number. */
  lemma DropCRAfterComma(ts: string, cut: string)
    ensures DropCR(ts + "," + cut) == ts + "," + DropCR(cut)
  {
    var part := ts + "," + cut;
    if |cut| == 0 {
      assert part[|part| - 1] == ',';
    } else {
      assert part[|part| - 1] == cut[|cut| - 1];
      if cut[|cut| - 1] == '\r' {
        assert part[..|part| - 1] == ts + "," + cut[..|cut| - 1];
      }
    }
  }

  /** The first `|ts| + 1 + j` bytes of a record are its number, the comma and `j` text characters. */
  lemma RecordPrefix(ts: string, text: string, j: nat)
    requires j <= |text|
    ensures (ts + "," + text + "\n")[..|ts| + 1 + j] == ts + "," + text[..j]
  {
  }

  /**
   * A short write that stops inside the text of record `k` leaves a file
   * that still loads without an error: the earlier lines, rounded, and
   * line `k` with its text cut short. The next fetch, as written or
   * corrected, returns that cut text as a cached line.
   */
  lemma ShortWriteLoadsCut(lines: seq<LyricLine>, k: nat, kept: nat)
    requires AllCacheSafe(lines) && k < |lines|
    requires |RenderFixed(lines[k].timestamp, CachePrecision)| < kept
    requires kept <= |RenderFixed(lines[k].timestamp, CachePrecision)| + 1 + |lines[k].text|
    ensures var ts := RenderFixed(lines[k].timestamp, CachePrecision);
      var cut := DropCR(lines[k].text[..kept - |ts| - 1]);
      LoadCacheSpec(Some(SavedText(lines, WriteFailsAt(k, kept))))
        == Ok(Rounded(lines[..k]) + [LyricLine(RoundFixed(lines[k].timestamp, CachePrecision), cut)])
  {
    var l := lines[k];
    var ts := RenderFixed(l.timestamp, CachePrecision);
    var j: nat := kept - |ts| - 1;
    CacheNumber(l.timestamp);
    ShortRecord(l, kept);
    SavedShort(lines, k, kept);
    assert AllCacheSafe(lines[..k]) by {
      assert forall i :: 0 <= i < k ==> lines[..k][i] == lines[i];
    }
    CutFileLoads(lines[..k], ts, l.text, j, RoundFixed(l.timestamp, CachePrecision));
  }

  /** A number `saveCache` prints has no newline or comma and parses back rounded. */
  lemma CacheNumber(x: real)
    ensures var ts := RenderFixed(x, CachePrecision);
      '\n' !in ts && ',' !in ts && ParseDecimal(ts) == Some(RoundFixed(x, CachePrecision))
  {
    var ts := RenderFixed(x, CachePrecision);
    RenderFixedChars(x, CachePrecision);
    assert forall i :: 0 <= i < |ts| ==> ts[i] != '\n' && ts[i] != ',';
    ParseRenderFixed(x, CachePrecision);
  }

  /** A short write that stops inside the text keeps the number, the comma and part of the text. */
  lemma ShortRecord(l: LyricLine, kept: nat)
    requires |RenderFixed(l.timestamp, CachePrecision)| < kept
    requires kept <= |RenderFixed(l.timestamp, CachePrecision)| + 1 + |l.text|
    ensures var ts := RenderFixed(l.timestamp, CachePrecision);
      ShortWrite(CacheRecord(l), kept) == ts + "," + l.text[..kept - |ts| - 1]
  {
    var ts := RenderFixed(l.timestamp, CachePrecision);
    RecordPrefix(ts, l.text, kept - |ts| - 1);
  }

  /** The file a failing write of record `k` leaves. */
  lemma SavedShort(lines: seq<LyricLine>, k: nat, kept: nat)
    requires k < |lines|
    ensures SavedText(lines, WriteFailsAt(k, kept)) == CacheText(lines[..k]) + ShortWrite(CacheRecord(lines[k]), kept)
  {
  }

  /** Whole records followed by one cut inside its text load as their lines and the cut line. */
  lemma CutFileLoads(pre: seq<LyricLine>, ts: string, text: string, j: nat, v: real)
    requires AllCacheSafe(pre)
    requires '\n' !in ts && ',' !in ts && ParseDecimal(ts) == Some(v)
    requires '\n' !in text && j <= |text|
    ensures LoadCacheSpec(Some(CacheText(pre) + (ts + "," + text[..j])))
      == Ok(Rounded(pre) + [LyricLine(v, DropCR(text[..j]))])
  {
    var cut := DropCR(text[..j]);
    CacheRoundTrip(pre);
    ScanAppend(CacheText(pre), ts + "," + text[..j]);
    CutRecordLoads(ts, text, j, v);
    var scanned := ScanLines(CacheText(pre)) + [ts + "," + cut];
    assert scanned[..|scanned| - 1] == ScanLines(CacheText(pre));
  }

  // -------------------------------------------------------- fetchLyrics

  /** The cache file name for a track URI: every `/` becomes `-`, then `.csv`. */
  function CacheFileName(uri: string): (name: string)
    ensures '/' !in name
    ensures |name| == |uri| + 4
    ensures forall i :: 0 <= i < |uri| ==> name[i] == (if uri[i] == '/' then '-' else uri[i])
    ensures name[|uri|..] == ".csv"
  {
    ReplaceChar(uri, '/', '-') + ".csv"
  }

  /** The body of an LRCLIB reply, as far as `fetchLyrics` is concerned. */
  datatype Body = ReadFailed | Malformed | Decoded(syncedLyrics: string)

  /** The outcome of the `http.Get` call. */
  datatype Response = ConnectFailed | Reply(status: int, body: Body)

  /** The `fetchLyrics` error cases, in the order the code checks them. */
  datatype FetchError =
    | FetchFailed
    | BadStatus(code: int)
    | BodyUnreadable
    | BodyMalformed
    | NoSyncedLines
    | CacheDirFailed
    | CacheWriteFailed

  /** Everything outside the process: cache files, the network reply and the file system's faults. */
  datatype Env = Env(cache: map<string, string>, response: Response, mkdirOk: bool, fault: SaveFault)

  /** What a fetch returns, the cache afterwards, and whether the network was asked. */
  datatype FetchOutcome = FetchOutcome(
    result: Result<seq<LyricLine>, FetchError>,
    cache: map<string, string>,
    queried: bool)

  /** The cache after `saveCache` wrote `lines` under `name`. */
  function CacheAfterSave(cache: map<string, string>, name: string, lines: seq<LyricLine>, fault: SaveFault): map<string, string>
  {
    if fault.CreateFails? then cache
    else cache[name := SavedText(lines, fault)]
  }

  /** The network half of `fetchLyrics` (cmd/lyrics.go:64-103), once the cache missed. */
  function FetchRemote(env: Env, name: string): (o: FetchOutcome)
    ensures o.queried
    ensures o.result.Ok? ==> |o.result.value| > 0
  {
    match env.response
    case ConnectFailed => FetchOutcome(Err(FetchFailed), env.cache, true)
    case Reply(status, body) =>
      if status != 200 then FetchOutcome(Err(BadStatus(status)), env.cache, true)
      else
        match body
        case ReadFailed => FetchOutcome(Err(BodyUnreadable), env.cache, true)
        case Malformed => FetchOutcome(Err(BodyMalformed), env.cache, true)
        case Decoded(synced) => StoreLyrics(env, name, Transcript(synced))
  }

  /** The end of `fetchLyrics` (cmd/lyrics.go:90-103): refuse an empty parse, then create the directory and save. */
  function StoreLyrics(env: Env, name: string, lyrics: seq<LyricLine>): (o: FetchOutcome)
    ensures o.queried
    ensures o.result.Ok? ==> o.result.value == lyrics && |lyrics| > 0
    ensures |lyrics| == 0 ==> o.cache == env.cache
  {
    if |lyrics| == 0 then FetchOutcome(Err(NoSyncedLines), env.cache, true)
    else if !env.mkdirOk then FetchOutcome(Err(CacheDirFailed), env.cache, true)
    else
      var cache := CacheAfterSave(env.cache, name, lyrics, env.fault);
      if SaveSucceeds(lyrics, env.fault) then FetchOutcome(Ok(lyrics), cache, true)
      else FetchOutcome(Err(CacheWriteFailed), cache, true)
  }

  /**
   * `fetchLyrics` as written (cmd/lyrics.go:53-104): any cache load
   * without an error is a hit, an empty one included.
   */
  function FetchLyricsAsWritten(env: Env, uri: string): (o: FetchOutcome)
    ensures var loaded := LoadCacheSpec(if CacheFileName(uri) in env.cache then Some(env.cache[CacheFileName(uri)]) else None);
      && (loaded.Ok? ==> o == FetchOutcome(Ok(loaded.value), env.cache, false))
      && (loaded.Err? ==> o == FetchRemote(env, CacheFileName(uri)))
  {
    var name := CacheFileName(uri);
    var stored := if name in env.cache then Some(env.cache[name]) else None;
    match LoadCacheSpec(stored)
    case Ok(cached) => FetchOutcome(Ok(cached), env.cache, false)
    case Err(_) => FetchRemote(env, name)
  }

  /**
   * `fetchLyrics` with an empty cache load counted as a miss: a hit is a
   * load that gives at least one line.
   */
  function FetchLyrics(env: Env, uri: string): (o: FetchOutcome)
    ensures o.result.Ok? ==> |o.result.value| > 0
  {
    var name := CacheFileName(uri);
    var stored := if name in env.cache then Some(env.cache[name]) else None;
    match LoadCacheSpec(stored)
    case Ok(cached) =>
      if |cached| > 0 then FetchOutcome(Ok(cached), env.cache, false)
      else FetchRemote(env, name)
    case Err(_) => FetchRemote(env, name)
  }

  /** A cache hit returns the cached lines before any network call (cmd/lyrics.go:60-62). */
  lemma FetchHitSkipsNetwork(env: Env, uri: string, data: string)
    requires env.cache == map[CacheFileName(uri) := data]
    requires LoadCacheSpec(Some(data)).Ok? && |LoadCacheSpec(Some(data)).value| > 0
    ensures !FetchLyrics(env, uri).queried
    ensures FetchLyrics(env, uri).result == Ok(LoadCacheSpec(Some(data)).value)
    ensures FetchLyrics(env, uri).cache == env.cache
  {
  }

  /** A reply without synced lines is an error, and nothing is written to the cache (cmd/lyrics.go:90-92). */
  lemma FetchEmptyParseNotCached(env: Env, uri: string)
    requires CacheFileName(uri) !in env.cache
    requires env.response.Reply? && env.response.status == 200
    requires env.response.body.Decoded? && Transcript(env.response.body.syncedLyrics) == []
    ensures FetchLyrics(env, uri) == FetchOutcome(Err(NoSyncedLines), env.cache, true)
  {
  }

  /**
   * A miss followed by a successful download stores the lines, and the
   * next fetch of the same URI is a hit that gives them back, rounded to
   * the cache's precision, without a network call.
   */
  lemma FetchThenHit(env: Env, uri: string, next: Response)
    requires CacheFileName(uri) !in env.cache
    requires FetchLyrics(env, uri).result.Ok?
    ensures var o := FetchLyrics(env, uri);
      var again := FetchLyrics(Env(o.cache, next, env.mkdirOk, env.fault), uri);
      !again.queried && again.result == Ok(Rounded(o.result.value))
  {
    var name := CacheFileName(uri);
    var o := FetchLyrics(env, uri);
    FetchMiss(env, uri);
    var synced := env.response.body.syncedLyrics;
    RemoteDecoded(env, name);
    var lyrics := Transcript(synced);
    TranscriptCacheSafe(synced);
    StoreThenLoad(env, name, lyrics);
    var again := FetchLyrics(Env(o.cache, next, env.mkdirOk, env.fault), uri);
    CacheRoundTripCount(lyrics);
    assert again.result == Ok(Rounded(lyrics));
  }

  /** Without a cache file the fetch goes straight to the network, as written and as corrected. */
  lemma FetchMiss(env: Env, uri: string)
    requires CacheFileName(uri) !in env.cache
    ensures FetchLyrics(env, uri) == FetchRemote(env, CacheFileName(uri))
    ensures FetchLyricsAsWritten(env, uri) == FetchRemote(env, CacheFileName(uri))
  {
  }

  /** A good reply goes on to the parse and the save. */
  lemma RemoteDecoded(env: Env, name: string)
    requires FetchRemote(env, name).result.Ok? || FetchRemote(env, name).result == Err(CacheWriteFailed)
    ensures env.response.Reply? && env.response.status == 200 && env.response.body.Decoded?
    ensures FetchRemote(env, name) == StoreLyrics(env, name, Transcript(env.response.body.syncedLyrics))
  {
  }

  /** What a successful save stored reads back as the lines, rounded. */
  lemma StoreThenLoad(env: Env, name: string, lyrics: seq<LyricLine>)
    requires AllCacheSafe(lyrics) && StoreLyrics(env, name, lyrics).result.Ok?
    ensures name in StoreLyrics(env, name, lyrics).cache
    ensures LoadCacheSpec(Some(StoreLyrics(env, name, lyrics).cache[name])) == Ok(Rounded(lyrics))
  {
    assert WrittenCount(lyrics, env.fault) == |lyrics|;
    assert lyrics[..|lyrics|] == lyrics;
    CacheRoundTrip(lyrics);
  }

  /**
   * The flaw: a cache file that exists but is empty is a hit with no
   * lines, and the network is never asked.
   */
  lemma EmptyCacheFileIsHit(env: Env, uri: string)
    requires env.cache == map[CacheFileName(uri) := ""]
    ensures FetchLyricsAsWritten(env, uri) == FetchOutcome(Ok([]), env.cache, false)
    ensures FetchLyrics(env, uri).queried
  {
    LoadEmptyFile();
  }

  /**
   * How such a file arises: a download whose first cache write fails
   * leaves an empty file behind, and the next fetch as written takes it
   * for a hit with no lines.
   */
  lemma FailedSaveLeavesEmptyFile(env: Env, uri: string, next: Response)
    requires CacheFileName(uri) !in env.cache && env.mkdirOk && env.fault == WriteFailsAt(0, 0)
    requires env.response.Reply? && env.response.status == 200
    requires env.response.body.Decoded? && |Transcript(env.response.body.syncedLyrics)| > 0
    ensures var o := FetchLyricsAsWritten(env, uri);
      o.result == Err(CacheWriteFailed) && o.cache == env.cache[CacheFileName(uri) := ""]
      && FetchLyricsAsWritten(Env(o.cache, next, true, NoFault), uri) == FetchOutcome(Ok([]), o.cache, false)
  {
    var name := CacheFileName(uri);
    FetchMiss(env, uri);
    var lyrics := Transcript(env.response.body.syncedLyrics);
    assert FetchRemote(env, name) == StoreLyrics(env, name, lyrics);
    assert lyrics[..0] == [];
    LoadEmptyFile();
  }
}
