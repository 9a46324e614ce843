/**
 * The one-shot `lyrics` command of cmd/lyrics.go: the Spotify player pick,
 * the byte-based truncation, the current-line search, the seven-line
 * tooltip window and the choice of what is printed.
 *
 * The player's metadata, status and position are inputs; the lyrics come
 * from `LyricsCache.FetchLyrics` on an explicit environment.
 */
module LyricsCommand {
  import opened Wrappers
  import opened GoText
  import opened Lyrics
  import opened LyricsCache

  // ----------------------------------------------------------- truncate

  /** The bytes of "...". */
  const Ellipsis: seq<byte> := [46, 46, 46]

  /**
   * `truncate` (cmd/lyrics.go:194-204) on the UTF-8 bytes of a string.
   * None is the slice-bounds panic that a negative limit causes.
   */
  function TruncateBytes(input: seq<byte>, limit: int): (r: Option<seq<byte>>)
    ensures r.None? <==> limit < 0
    ensures r.Some? ==> |r.value| == if |input| <= limit then |input| else limit
    ensures r.Some? && |input| <= limit ==> r.value == input
    ensures r.Some? && |input| > limit > 3 ==> r.value == input[..limit - 3] + Ellipsis
    ensures r.Some? && |input| > limit && limit <= 3 ==> r.value == input[..limit]
  {
    if |input| <= limit then Some(input)
    else if limit > 3 then Some(input[..limit - 3] + Ellipsis)
    else if limit >= 0 then Some(input[..limit])
    else None
  }

  /** Truncating what was truncated with the same limit changes nothing. */
  lemma TruncateBytesIdempotent(input: seq<byte>, limit: int)
    requires limit >= 0
    ensures TruncateBytes(TruncateBytes(input, limit).value, limit) == TruncateBytes(input, limit)
  {
  }

  // ------------------------------------------------------- player choice

  /** A bus name the command takes for Spotify: "spotify" occurs in its ASCII lower case. */
  predicate IsSpotify(name: string)
  {
    Contains(ToLowerAscii(name), "spotify")
  }

  /** The first Spotify name, if any. */
  function FirstSpotify(names: seq<string>): (r: Option<nat>)
    ensures r.None? <==> forall i :: 0 <= i < |names| ==> !IsSpotify(names[i])
    ensures r.Some? ==> r.value < |names| && IsSpotify(names[r.value])
    ensures r.Some? ==> forall j :: 0 <= j < r.value ==> !IsSpotify(names[j])
  {
    if |names| == 0 then None
    else if IsSpotify(names[0]) then Some(0)
    else
      match FirstSpotify(names[1..])
      case None => None
      case Some(i) => Some(i + 1)
  }

  /**
   * The player pick of cmd/lyrics.go:267-274: the first bus name that
   * contains "spotify" in any ASCII case, or "" when there is none.
   */
  method PickSpotify(names: seq<string>) returns (player: string)
    ensures FirstSpotify(names).None? ==> player == ""
    ensures FirstSpotify(names).Some? ==> player == names[FirstSpotify(names).value]
  {
    player := "";
    for i := 0 to |names|
      invariant forall j :: 0 <= j < i ==> !IsSpotify(names[j])
      invariant player == ""
    {
      if IsSpotify(names[i]) {
        player := names[i];
        return;
      }
    }
  }

  // --------------------------------------------------------- active line

  /** The number of leading lines whose timestamp is at most `position`. */
  function LeadCount(lyrics: seq<LyricLine>, position: real): (k: nat)
    ensures k <= |lyrics|
    ensures forall j :: 0 <= j < k ==> lyrics[j].timestamp <= position
    ensures k < |lyrics| ==> position < lyrics[k].timestamp
  {
    if |lyrics| == 0 || position < lyrics[0].timestamp then 0
    else 1 + LeadCount(lyrics[1..], position)
  }

  /**
   * The line the command shows (cmd/lyrics.go:351-357): the last of the
   * leading lines with timestamp at most `position`, or line 0 when there
   * is none.
   */
  function LineIndex(lyrics: seq<LyricLine>, position: real): (idx: nat)
    ensures |lyrics| > 0 ==> idx < |lyrics|
    ensures LeadCount(lyrics, position) > 0 ==>
      (forall j :: 0 <= j <= idx ==> lyrics[j].timestamp <= position)
      && (idx + 1 < |lyrics| ==> position < lyrics[idx + 1].timestamp)
    ensures LeadCount(lyrics, position) == 0 ==> idx == 0
  {
    var k := LeadCount(lyrics, position);
    if k == 0 then 0 else k - 1
  }

  /** The search loop: stop at the first line that lies ahead, keep the index of the last one passed. */
  method FindLine(lyrics: seq<LyricLine>, position: real) returns (idx: nat)
    ensures idx == LineIndex(lyrics, position)
  {
    idx := 0;
    var i := 0;
    while i < |lyrics|
      invariant i <= |lyrics|
      invariant forall j :: 0 <= j < i ==> lyrics[j].timestamp <= position
      invariant idx == if i == 0 then 0 else i - 1
    {
      if position < lyrics[i].timestamp {
        break;
      }
      idx := i;
      i := i + 1;
    }
    assert LeadCount(lyrics, position) == i;
  }

  // ------------------------------------------------------ tooltip window

  /** First line of the window: two lines before `idx`, clamped at 0. */
  function WindowStart(idx: nat): nat
  {
    if idx < 2 then 0 else idx - 2
  }

  /** End (exclusive) of the window: five lines after `idx`'s start, clamped at `n`. */
  function WindowEnd(idx: nat, n: nat): nat
  {
    if idx + 5 > n then n else idx + 5
  }

  /** The window holds `idx` and at most seven lines (cmd/lyrics.go:361-371). */
  lemma WindowBounds(idx: nat, n: nat)
    requires idx < n
    ensures WindowStart(idx) <= idx < WindowEnd(idx, n) <= n
    ensures WindowEnd(idx, n) - WindowStart(idx) <= 7
  {
  }

  /** One tooltip line: the lyric text, with "> " before the current one. */
  function WindowEntry(lyrics: seq<LyricLine>, idx: nat, j: nat): string
    requires j < |lyrics|
  {
    (if j == idx then "> " else "") + lyrics[j].text
  }

  /** The tooltip lines `start..end-1`, as a list. */
  function WindowLines(lyrics: seq<LyricLine>, idx: nat, start: nat, end: nat): (ls: seq<string>)
    requires start <= end <= |lyrics|
    ensures |ls| == end - start
  {
    seq(end - start, k requires 0 <= k < end - start => WindowEntry(lyrics, idx, start + k))
  }

  /** The builder's contents after lines `start..end-1`, each followed by a newline. */
  function WindowBody(lyrics: seq<LyricLine>, idx: nat, start: nat, end: nat): string
    requires start <= end <= |lyrics|
  {
    Terminated(WindowLines(lyrics, idx, start, end), '\n')
  }

  /** A lyric line without newlines, so that it stays one tooltip line. */
  predicate OneLine(lyrics: seq<LyricLine>)
  {
    forall j :: 0 <= j < |lyrics| ==> '\n' !in lyrics[j].text
  }

  /** The whole builder, read back line by line: the window's lines and an empty last piece. */
  lemma WindowSplit(lyrics: seq<LyricLine>, idx: nat, start: nat, end: nat)
    requires start <= end <= |lyrics| && OneLine(lyrics)
    ensures Split(WindowBody(lyrics, idx, start, end), '\n') == WindowLines(lyrics, idx, start, end) + [""]
  {
    var wl := WindowLines(lyrics, idx, start, end);
    forall k | 0 <= k < |wl|
      ensures '\n' !in wl[k]
    {
      assert wl[k] == WindowEntry(lyrics, idx, start + k);
      assert '\n' !in lyrics[start + k].text;
    }
    SplitTerminated(wl, '\n');
  }

  /** The window's lines: the current one marked with "> ", the others as they are. */
  lemma WindowEntries(lyrics: seq<LyricLine>, idx: nat, start: nat, end: nat)
    requires start <= idx < end <= |lyrics|
    ensures var wl := WindowLines(lyrics, idx, start, end);
      && wl[idx - start] == "> " + lyrics[idx].text
      && forall k :: 0 <= k < end - start && start + k != idx ==> wl[k] == lyrics[start + k].text
  {
    var wl := WindowLines(lyrics, idx, start, end);
    assert wl[idx - start] == WindowEntry(lyrics, idx, idx);
    forall k | 0 <= k < end - start && start + k != idx
      ensures wl[k] == lyrics[start + k].text
    {
      assert wl[k] == WindowEntry(lyrics, idx, start + k);
      assert "" + lyrics[start + k].text == lyrics[start + k].text;
    }
  }

  /** The builder for lines `start..end-1`, read back: the marked lines, then the empty piece. */
  lemma WindowMarksIn(lyrics: seq<LyricLine>, idx: nat, start: nat, end: nat)
    requires start <= idx < end <= |lyrics| && OneLine(lyrics)
    ensures var ls := Split(WindowBody(lyrics, idx, start, end), '\n');
      |ls| == end - start + 1
      && ls[idx - start] == "> " + lyrics[idx].text
      && (forall k :: 0 <= k < end - start && start + k != idx ==> ls[k] == lyrics[start + k].text)
      && ls[end - start] == ""
  {
    WindowSplit(lyrics, idx, start, end);
    WindowEntries(lyrics, idx, start, end);
    var ls := Split(WindowBody(lyrics, idx, start, end), '\n');
    var wl := WindowLines(lyrics, idx, start, end);
    assert ls == wl + [""];
    forall k | 0 <= k < end - start
      ensures ls[k] == wl[k]
    {
    }
  }

  /**
   * The window around `idx` as tooltip lines: at most seven, the current
   * line marked with "> ", the others as they are, then the empty piece
   * after the last newline.
   */
  lemma WindowMarks(lyrics: seq<LyricLine>, idx: nat)
    requires idx < |lyrics| && OneLine(lyrics)
    ensures var start, end := WindowStart(idx), WindowEnd(idx, |lyrics|);
      var ls := Split(WindowBody(lyrics, idx, start, end), '\n');
      |ls| == end - start + 1 <= 8
      && ls[idx - start] == "> " + lyrics[idx].text
      && (forall k :: 0 <= k < end - start && start + k != idx ==> ls[k] == lyrics[start + k].text)
      && ls[end - start] == ""
  {
    WindowBounds(idx, |lyrics|);
    WindowMarksIn(lyrics, idx, WindowStart(idx), WindowEnd(idx, |lyrics|));
  }

  /** The tooltip for line `idx`: the window's lines, trimmed of outer white space. */
  function WindowTooltip(lyrics: seq<LyricLine>, idx: nat): string
    requires idx < |lyrics|
  {
    TrimSpace(WindowBody(lyrics, idx, WindowStart(idx), WindowEnd(idx, |lyrics|)))
  }

  /** The `strings.Builder` loop of cmd/lyrics.go:372-379. */
  method BuildWindowTooltip(lyrics: seq<LyricLine>, idx: nat) returns (tooltip: string)
    requires idx < |lyrics|
    ensures tooltip == WindowTooltip(lyrics, idx)
  {
    var start := WindowStart(idx);
    var end := WindowEnd(idx, |lyrics|);
    var builder := "";
    for i := 0 to end - start
      invariant builder == WindowBody(lyrics, idx, start, start + i)
    {
      builder := WriteWindowLine(lyrics, idx, start, start + i, builder);
    }
    tooltip := TrimSpace(builder);
  }

  /** One pass of the builder loop (cmd/lyrics.go:374-379): line `j`, marked when current, and a newline. */
  method WriteWindowLine(lyrics: seq<LyricLine>, idx: nat, start: nat, j: nat, builder: string) returns (next: string)
    requires start <= j < |lyrics| && builder == WindowBody(lyrics, idx, start, j)
    ensures next == WindowBody(lyrics, idx, start, j + 1)
  {
    var done := WindowLines(lyrics, idx, start, j);
    assert WindowLines(lyrics, idx, start, j + 1) == done + [WindowEntry(lyrics, idx, j)];
    TerminatedSnoc(done, WindowEntry(lyrics, idx, j), '\n');
    next := builder;
    if j == idx {
      next := next + "> ";
    }
    next := next + (lyrics[j].text + "\n");
  }

  // -------------------------------------------------------------- command

  /** The metadata fields the command reads. */
  datatype Track = Track(artist: string, title: string, uri: string)

  /** The JSON object the command prints (the percentage is not modelled). */
  datatype Payload = Payload(text: seq<byte>, className: string, alt: string, tooltip: string)

  /** How a run ends: a nonzero or silent exit, a printed object, or a runtime panic. */
  datatype Output = Exit(code: int) | Emit(payload: Payload) | Panic

  /** The "artist - title" object with class "info". */
  function InfoPayload(track: Track, alt: string): Payload
  {
    Payload(Utf8(track.artist + " - " + track.title), "info", alt, "")
  }

  /** What the command prints once the lyrics are known (cmd/lyrics.go:342-397). */
  function Respond(maxLength: int, track: Track, position: real, fetched: Result<seq<LyricLine>, FetchError>): Output
  {
    match fetched
    case Err(_) => Emit(InfoPayload(track, "playing"))
    case Ok(lyrics) =>
      if |lyrics| == 0 then Panic
      else
        var idx := LineIndex(lyrics, position);
        var current := lyrics[idx].text;
        if current == "" then Emit(InfoPayload(track, "playing"))
        else
          match TruncateBytes(Utf8(current), maxLength)
          case None => Panic
          case Some(text) => Emit(Payload(text, "lyric", "lyric", WindowTooltip(lyrics, idx)))
  }

  /** The inputs of one run: flag, player state, and the environment of the fetch. */
  datatype Request = Request(maxLength: int, track: Track, status: string, position: real, env: Env)

  /** A run's printed outcome and the cache directory afterwards. */
  datatype Outcome = Outcome(out: Output, cache: map<string, string>)

  /**
   * The command from the metadata on (cmd/lyrics.go:300-397), fetching
   * with `fetch` as written or as corrected.
   */
  function CommandWith(req: Request, asWritten: bool): Outcome
  {
    var track := req.track;
    if track.title == "" || track.artist == "" then Outcome(Exit(1), req.env.cache)
    else if req.status == "Paused" then Outcome(Emit(InfoPayload(track, "paused")), req.env.cache)
    else if req.status == "Stopped" then Outcome(Exit(0), req.env.cache)
    else
      var o := if asWritten then FetchLyricsAsWritten(req.env, track.uri) else FetchLyrics(req.env, track.uri);
      Outcome(Respond(req.maxLength, track, req.position, o.result), o.cache)
  }

  /** The command as written. */
  function CommandAsWritten(req: Request): Outcome
  {
    CommandWith(req, true)
  }

  /** The command with the corrected fetch. */
  function Command(req: Request): Outcome
  {
    CommandWith(req, false)
  }

  /** One run, step by step, with the search and the builder as loops. */
  method RunCommand(req: Request) returns (out: Output, cache: map<string, string>)
    ensures Outcome(out, cache) == Command(req)
  {
    var track := req.track;
    cache := req.env.cache;
    if track.title == "" || track.artist == "" {
      return Exit(1), cache;
    }
    if req.status == "Paused" {
      return Emit(InfoPayload(track, "paused")), cache;
    }
    if req.status == "Stopped" {
      return Exit(0), cache;
    }
    var o := FetchLyrics(req.env, track.uri);
    cache := o.cache;
    if o.result.Err? {
      return Emit(InfoPayload(track, "playing")), cache;
    }
    var lyrics := o.result.value;
    var idx := FindLine(lyrics, req.position);
    var current := lyrics[idx].text;
    if current != "" {
      var text := TruncateBytes(Utf8(current), req.maxLength);
      if text.None? {
        return Panic, cache;
      }
      var tooltip := BuildWindowTooltip(lyrics, idx);
      return Emit(Payload(text.value, "lyric", "lyric", tooltip)), cache;
    }
    return Emit(InfoPayload(track, "playing")), cache;
  }

  /** With a non-negative length limit, the corrected command never panics. */
  lemma CommandNeverPanics(req: Request)
    requires req.maxLength >= 0
    ensures !Command(req).out.Panic?
  {
  }

  /** Paused and stopped players are answered without a fetch, and the cache is untouched. */
  lemma NotPlayingSkipsFetch(req: Request)
    requires req.track.title != "" && req.track.artist != ""
    requires req.status == "Paused" || req.status == "Stopped"
    ensures Command(req).cache == req.env.cache
    ensures Command(req).out == if req.status == "Paused" then Emit(InfoPayload(req.track, "paused")) else Exit(0)
  {
  }

  /** A missing title or artist ends the run with status 1, whatever the player does. */
  lemma MissingMetadataFails(req: Request)
    requires req.track.title == "" || req.track.artist == ""
    ensures Command(req) == Outcome(Exit(1), req.env.cache)
    ensures CommandAsWritten(req) == Outcome(Exit(1), req.env.cache)
  {
  }

  /**
   * A lyric payload shows the current line, cut to the limit, with the
   * window's lines as the tooltip.
   */
  lemma LyricPayload(req: Request)
    requires req.maxLength >= 0
    requires Command(req).out.Emit? && Command(req).out.payload.className == "lyric"
    ensures var lyrics := FetchLyrics(req.env, req.track.uri).result.value;
      var idx := LineIndex(lyrics, req.position);
      Command(req).out.payload.text == TruncateBytes(Utf8(lyrics[idx].text), req.maxLength).value
      && Command(req).out.payload.tooltip == WindowTooltip(lyrics, idx)
      && |Command(req).out.payload.text| <= req.maxLength
  {
  }

  /**
   * The flaw: with an empty cache file for the playing track, the fetch
   * as written hands back no lines and `lyrics[idx]` panics; the
   * corrected fetch goes to the network instead.
   */
  lemma EmptyCacheFilePanics(req: Request)
    requires req.track.title != "" && req.track.artist != ""
    requires req.status == "Playing"
    requires req.env.cache == map[CacheFileName(req.track.uri) := ""]
    ensures CommandAsWritten(req).out == Panic
  {
    EmptyCacheFileIsHit(req.env, req.track.uri);
  }
}
