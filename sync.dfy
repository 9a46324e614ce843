/**
 * The lyric synchronisation loop of main.go.
 *
 * One pass of the `for { select ... }` loop is a `Step` on an explicit
 * `EngineState` (the four loop variables `lastInfo`, `lastLine`,
 * `lyricsNotFound`, `playerOpened`). The player queries and the lyrics
 * lookup of that pass arrive as one `Wake` record; what the pass prints and
 * the delay it hands to `lyricTicker.Reset` come back in the `StepResult`.
 * `Run` is the loop itself, written imperatively and proved to print what
 * the fold of `Step` prints.
 */
module Sync {
  import opened Wrappers
  import opened GoText
  import opened Seqs

  const MprisPrefix: string := "org.mpris.MediaPlayer2."
  const StatusPlaying: string := "Playing"
  const StatusPaused: string := "Paused"
  const StatusStopped: string := "Stopped"
  /** The music glyph used as the tooltip title and for empty lines. */
  const MusicGlyph: char := '\U{F075A}'
  /** Timestamp of the "before the first line" marker stored in `lastLine`. */
  const PreFirstStamp: int := -1

  /** A lyric line; the timestamp is a `time.Duration` in nanoseconds. */
  datatype Line = Line(timestamp: int, text: string)

  /** What `GetSpotifyInfo` reports about the player. */
  datatype PlayerInfo = PlayerInfo(id: string, status: string, position: int, artist: string, title: string)

  /** The settings the loop reads: `MaxTextLength`, `TooltipLines`, `TootlipColor`. */
  datatype Config = Config(maxTextLength: int, tooltipLines: int, tooltipColor: string)

  /** `main` refuses to start unless at least four tooltip lines are asked for. */
  predicate ValidConfig(cfg: Config) { cfg.tooltipLines >= 4 }

  /** What one wake of the loop learns from the outside world. */
  datatype Wake = Wake(
    positionOk: bool,                      // player.GetPosition() succeeded
    info: Result<PlayerInfo, string>,      // GetSpotifyInfo(player)
    lyrics: Result<seq<Line>, string>)     // GetLyrics(info), asked only while playing

  /** What one wake prints on standard output. */
  datatype Emission =
    | Silent                                          // nothing
    | EmptyObject                                     // "{}"
    | InfoPayload(info: PlayerInfo)                   // info.Waybar()
    | PreFirstPayload(info: PlayerInfo, tooltip: string)
    | LinePayload(info: PlayerInfo, lyrics: seq<Line>, idx: nat, fallbackText: Option<string>)

  datatype EngineState = EngineState(
    lastInfo: Option<PlayerInfo>,
    lastLine: Option<Line>,
    lyricsNotFound: bool,
    playerOpened: bool)

  datatype StepResult = StepResult(state: EngineState, out: Emission, delay: Option<int>)

  const Initial: EngineState := EngineState(None, None, false, true)

  // ------------------------------------------------------------ truncate

  /**
   * `truncate` (main.go:23-35): at most `maxLen` runes; text that fits is
   * returned as it is, longer text is cut, ending in "..." when there is
   * room for more than the dots.
   */
  function Truncate(input: string, maxLen: int): (r: string)
    requires maxLen >= 0
    ensures |r| == if |input| <= maxLen then |input| else maxLen
    ensures |input| <= maxLen ==> r == input
    ensures |input| > maxLen && maxLen > 3 ==> r[..maxLen - 3] == input[..maxLen - 3] && r[maxLen - 3..] == "..."
    ensures |input| > maxLen && maxLen <= 3 ==> r == input[..maxLen]
  {
    if |input| <= maxLen then input
    else if maxLen > 3 then input[..maxLen - 3] + "..."
    else input[..maxLen]
  }

  /** Truncating an already truncated text changes nothing. */
  lemma TruncateIdempotent(input: string, maxLen: int)
    requires maxLen >= 0
    ensures Truncate(Truncate(input, maxLen), maxLen) == Truncate(input, maxLen)
  {
  }

  // ------------------------------------------------------- player choice

  /**
   * The player-name scan of main.go:69-74: the last bus name that starts
   * with the MPRIS prefix, or "" when none does.
   */
  method PickPlayer(names: seq<string>) returns (player: string)
    ensures player == "" <==> forall i :: 0 <= i < |names| ==> !HasPrefix(names[i], MprisPrefix)
    ensures player != "" ==>
      exists k :: (0 <= k < |names| && names[k] == player && HasPrefix(names[k], MprisPrefix)
                   && forall j :: k < j < |names| ==> !HasPrefix(names[j], MprisPrefix))
  {
    player := "";
    ghost var k := -1;
    for i := 0 to |names|
      invariant -1 <= k < i
      invariant k == -1 ==> player == "" && forall j :: 0 <= j < i ==> !HasPrefix(names[j], MprisPrefix)
      invariant k >= 0 ==>
        (names[k] == player && HasPrefix(player, MprisPrefix)
         && forall j :: k < j < i ==> !HasPrefix(names[j], MprisPrefix))
    {
      var name := names[i];
      if |name| >= |MprisPrefix| && name[..|MprisPrefix|] == MprisPrefix {
        player := name;
        k := i;
      }
    }
  }

  // ------------------------------------------------------ active line

  /**
   * The line being sung at `position`: the number of leading lines whose
   * timestamp is strictly before `position`, minus one.
   */
  function ActiveIndex(lyrics: seq<Line>, position: int): (idx: int)
    ensures -1 <= idx < |lyrics|
    ensures forall j :: 0 <= j <= idx ==> lyrics[j].timestamp < position
    ensures idx + 1 < |lyrics| ==> position <= lyrics[idx + 1].timestamp
    ensures idx == -1 <==> |lyrics| == 0 || position <= lyrics[0].timestamp
  {
    if |lyrics| == 0 || position <= lyrics[0].timestamp then -1
    else 1 + ActiveIndex(lyrics[1..], position)
  }

  /** The search loop of main.go:172-178. */
  method FindActiveLine(lyrics: seq<Line>, position: int) returns (idx: int)
    ensures idx == ActiveIndex(lyrics, position)
  {
    idx := -1;
    var i := 0;
    while i < |lyrics|
      invariant 0 <= i <= |lyrics|
      invariant idx == i - 1
      invariant forall j :: 0 <= j < i ==> lyrics[j].timestamp < position
    {
      if position <= lyrics[i].timestamp {
        break;
      }
      idx := i;
      i := i + 1;
    }
    ActiveIndexUnique(lyrics, position, idx);
  }

  /** The three properties of `ActiveIndex` pin it down. */
  lemma {:induction false} ActiveIndexUnique(lyrics: seq<Line>, position: int, idx: int)
    requires -1 <= idx < |lyrics|
    requires forall j :: 0 <= j <= idx ==> lyrics[j].timestamp < position
    requires idx + 1 < |lyrics| ==> position <= lyrics[idx + 1].timestamp
    ensures idx == ActiveIndex(lyrics, position)
  {
    if idx >= 0 {
      assert lyrics[0].timestamp < position;
      ActiveIndexUnique(lyrics[1..], position, idx - 1);
    }
  }

  // ---------------------------------------------------- pre-first tooltip

  /** One tooltip entry: the text, or the glyph for an instrumental gap. */
  function TooltipEntry(l: Line): (e: string)
    ensures e != ""
    ensures l.text != "" ==> e == l.text
    ensures l.text == "" ==> e == [MusicGlyph, ' ']
  {
    if l.text != "" then l.text else [MusicGlyph, ' ']
  }

  /** The tooltip lines, each followed by a newline. */
  function TooltipBody(lines: seq<Line>): string
  {
    Terminated(TooltipEntries(lines), '\n')
  }

  function TooltipHeader(color: string): string
  {
    "<b><big>" + [MusicGlyph, ' '] + "</big></b>\n" + "<span foreground=\"" + color + "\">"
  }

  /** The number of lines the pre-first tooltip shows. */
  function TooltipCount(cfg: Config, lyrics: seq<Line>): (n: nat)
    requires ValidConfig(cfg)
    ensures n <= |lyrics| && n <= cfg.tooltipLines
    ensures n == |lyrics| || n == cfg.tooltipLines
  {
    if cfg.tooltipLines < |lyrics| then cfg.tooltipLines else |lyrics|
  }

  /** The tooltip of the pre-first payload (main.go:186-201). */
  function PreFirstTooltip(cfg: Config, lyrics: seq<Line>): string
    requires ValidConfig(cfg)
  {
    TrimSpace(TooltipHeader(cfg.tooltipColor) + TooltipBody(lyrics[..TooltipCount(cfg, lyrics)])) + "</span>"
  }

  /** The tooltip entries of `lines`, one per line, in order. */
  function TooltipEntries(lines: seq<Line>): seq<string>
  {
    seq(|lines|, i requires 0 <= i < |lines| => TooltipEntry(lines[i]))
  }

  /**
   * Between the header and the closing tag, the tooltip holds one entry per
   * shown line, in order, each on its own line: splitting the body at the
   * newlines gives the entries and the empty text after the last newline.
   */
  lemma TooltipBodyLines(lines: seq<Line>)
    requires forall i :: 0 <= i < |lines| ==> '\n' !in lines[i].text
    ensures Split(TooltipBody(lines), '\n') == TooltipEntries(lines) + [""]
  {
    var entries := TooltipEntries(lines);
    forall i | 0 <= i < |entries|
      ensures '\n' !in entries[i]
    {
      assert entries[i] == TooltipEntry(lines[i]);
    }
    SplitTerminated(entries, '\n');
  }

  /** The builder loop of main.go:192-198: one entry and a newline per shown line. */
  method WriteTooltipLines(shown: seq<Line>) returns (body: string)
    ensures body == TooltipBody(shown)
  {
    body := "";
    for i := 0 to |shown|
      invariant body == TooltipBody(shown[..i])
    {
      assert shown[..i + 1][..i] == shown[..i];
      assert TooltipEntries(shown[..i + 1]) == TooltipEntries(shown[..i]) + [TooltipEntry(shown[i])];
      TerminatedSnoc(TooltipEntries(shown[..i]), TooltipEntry(shown[i]), '\n');
      if shown[i].text != "" {
        body := body + (shown[i].text + "\n");
      } else {
        body := body + ([MusicGlyph, ' '] + "\n");
      }
    }
    assert shown[..|shown|] == shown;
  }

  /** The builder of main.go:186-198 and the closing of main.go:201. */
  method BuildPreFirstTooltip(cfg: Config, lyrics: seq<Line>) returns (tooltip: string)
    requires ValidConfig(cfg)
    ensures tooltip == PreFirstTooltip(cfg, lyrics)
  {
    var end := if cfg.tooltipLines < |lyrics| then cfg.tooltipLines else |lyrics|;
    var body := WriteTooltipLines(lyrics[..end]);
    var builder := TooltipHeader(cfg.tooltipColor) + body;
    tooltip := TrimSpace(builder) + "</span>";
  }

  // ---------------------------------------------------------------- step

  /** main.go:140: the player changed when its track ID or status differs. */
  predicate PlayerUpdated(last: Option<PlayerInfo>, info: PlayerInfo)
  {
    last.None? || last.value.id != info.id || last.value.status != info.status
  }

  /** The text shown for a line without words: "artist - title". */
  function FallbackText(info: PlayerInfo): string
  {
    info.artist + " - " + info.title
  }

  /** One pass of the loop body, main.go:122-229. */
  function Step(cfg: Config, s: EngineState, w: Wake): StepResult
    requires ValidConfig(cfg)
  {
    if !w.positionOk then
      StepResult(s.(playerOpened := false), if s.playerOpened then EmptyObject else Silent, None)
    else
      var s1 := s.(playerOpened := true);
      match w.info
      case Err(_) => StepResult(s1, EmptyObject, None)
      case Ok(info) =>
        var updated := PlayerUpdated(s.lastInfo, info);
        var s2 := if updated then s1.(lastInfo := Some(info)) else s1;
        if info.status == StatusStopped then StepResult(s2, EmptyObject, None)
        else if info.status == StatusPaused then
          if updated then StepResult(s2.(lastLine := None), InfoPayload(info), None)
          else StepResult(s2, Silent, None)
        else
          match w.lyrics
          case Err(_) =>
            if !s.lyricsNotFound then StepResult(s2.(lyricsNotFound := true), InfoPayload(info), None)
            else StepResult(s2, Silent, None)
          case Ok(lyrics) => StepLyrics(cfg, s2.(lyricsNotFound := false), info, lyrics)
  }

  /**
   * A wake that found the player playing with its lyrics (main.go:161-228):
   * the active line is shown when it is not the one shown last.
   */
  function StepLyrics(cfg: Config, s: EngineState, info: PlayerInfo, lyrics: seq<Line>): StepResult
    requires ValidConfig(cfg)
  {
    var idx := ActiveIndex(lyrics, info.position);
    if idx == -1 then
      if s.lastLine.Some? && s.lastLine.value.timestamp == PreFirstStamp then StepResult(s, Silent, None)
      else
        StepResult(s.(lastLine := Some(Line(PreFirstStamp, ""))),
                   PreFirstPayload(info, PreFirstTooltip(cfg, lyrics)), None)
    else
      var line := lyrics[idx];
      if s.lastLine.Some? && s.lastLine.value.timestamp == line.timestamp then StepResult(s, Silent, None)
      else
        var fallback := if line.text != "" then None else Some(FallbackText(info));
        StepResult(s.(lastLine := Some(line)), LinePayload(info, lyrics, idx, fallback), ResetDelay(lyrics, idx, info.position))
  }

  /**
   * The duration main.go:225-227 hands to `lyricTicker.Reset` after line
   * `idx`: the time until the next line starts, when there is one.
   */
  function NextLineDelay(lyrics: seq<Line>, idx: nat, position: int): (d: Option<int>)
    requires idx < |lyrics|
    ensures d.Some? <==> idx + 1 < |lyrics|
    ensures d.Some? ==> position + d.value == lyrics[idx + 1].timestamp
  {
    if idx + 1 < |lyrics| then Some(lyrics[idx + 1].timestamp - position) else None
  }

  /** `time.Ticker.Reset` panics unless the duration is positive. */
  predicate ResetPanics(delay: Option<int>)
  {
    delay.Some? && delay.value <= 0
  }

  /**
   * The reset the loop performs: `NextLineDelay`, except that the ticker is
   * left alone when the next line starts exactly now (the fixed ticker
   * wakes the loop again anyway).
   */
  function ResetDelay(lyrics: seq<Line>, idx: nat, position: int): (d: Option<int>)
    requires idx < |lyrics|
    ensures !ResetPanics(d)
    ensures d.Some? <==> idx + 1 < |lyrics| && position < lyrics[idx + 1].timestamp
    ensures d.Some? ==> d == NextLineDelay(lyrics, idx, position)
  {
    var next := NextLineDelay(lyrics, idx, position);
    if next.Some? && next.value > 0 then next else None
  }

  /** The loop state and everything printed after the given wakes, in order. */
  function Trace(cfg: Config, s: EngineState, wakes: seq<Wake>): (EngineState, seq<StepResult>)
    requires ValidConfig(cfg)
  {
    if |wakes| == 0 then (s, [])
    else
      var (t, outs) := Trace(cfg, s, wakes[..|wakes| - 1]);
      var r := Step(cfg, t, wakes[|wakes| - 1]);
      (r.state, outs + [r])
  }

  // -------------------------------------------------------- the loop itself

  /** One pass of the loop body (main.go:122-229), on the loop's variables. */
  method WakeOnce(cfg: Config, s: EngineState, w: Wake) returns (r: StepResult)
    requires ValidConfig(cfg)
    ensures r == Step(cfg, s, w)
  {
    var lastInfo, lastLine, lyricsNotFound, playerOpened := s.lastInfo, s.lastLine, s.lyricsNotFound, s.playerOpened;
    var out: Emission := Silent;
    var delay: Option<int> := None;
    if !w.positionOk {
      if playerOpened {
        out := EmptyObject;
        playerOpened := false;
      }
    } else {
      playerOpened := true;
      match w.info
      case Err(_) =>
        out := EmptyObject;
      case Ok(info) =>
        var playerUpdated := lastInfo.None? || lastInfo.value.id != info.id || lastInfo.value.status != info.status;
        if playerUpdated {
          lastInfo := Some(info);
        }
        if info.status == StatusStopped {
          out := EmptyObject;
        } else if info.status == StatusPaused {
          if playerUpdated {
            out := InfoPayload(info);
            lastLine := None;
          }
        } else {
          match w.lyrics
          case Err(_) =>
            if !lyricsNotFound {
              out := InfoPayload(info);
              lyricsNotFound := true;
            }
          case Ok(lyrics) =>
            r := ShowLyrics(cfg, EngineState(lastInfo, lastLine, false, playerOpened), info, lyrics);
            return;
        }
    }
    r := StepResult(EngineState(lastInfo, lastLine, lyricsNotFound, playerOpened), out, delay);
  }

  /** The lyrics half of the loop body (main.go:161-228). */
  method ShowLyrics(cfg: Config, s: EngineState, info: PlayerInfo, lyrics: seq<Line>) returns (r: StepResult)
    requires ValidConfig(cfg)
    ensures r == StepLyrics(cfg, s, info, lyrics)
  {
    var lastLine := s.lastLine;
    var out: Emission := Silent;
    var delay: Option<int> := None;
    var idx := FindActiveLine(lyrics, info.position);
    if idx == -1 {
      if !(lastLine.Some? && lastLine.value.timestamp == PreFirstStamp) {
        lastLine := Some(Line(PreFirstStamp, ""));
        var tooltip := BuildPreFirstTooltip(cfg, lyrics);
        out := PreFirstPayload(info, tooltip);
      }
    } else {
      var lyric := lyrics[idx];
      if !(lastLine.Some? && lastLine.value.timestamp == lyric.timestamp) {
        lastLine := Some(lyric);
        var fallback := if lyric.text != "" then None else Some(FallbackText(info));
        out := LinePayload(info, lyrics, idx, fallback);
        if |lyrics| > idx + 1 {
          var d := lyrics[idx + 1].timestamp - info.position;
          if d > 0 {
            delay := Some(d);
          }
        }
      }
    }
    r := StepResult(s.(lastLine := lastLine), out, delay);
  }

  /** The `for { select ... }` loop of main.go:106-231, one iteration per wake. */
  method Run(cfg: Config, wakes: seq<Wake>) returns (outs: seq<StepResult>)
    requires ValidConfig(cfg)
    ensures outs == Trace(cfg, Initial, wakes).1
  {
    var s := Initial;
    outs := [];
    for n := 0 to |wakes|
      invariant (s, outs) == Trace(cfg, Initial, wakes[..n])
    {
      assert wakes[..n + 1][..n] == wakes[..n];
      var r := WakeOnce(cfg, s, wakes[n]);
      s := r.state;
      outs := outs + [r];
    }
    assert wakes[..|wakes|] == wakes;
  }

  // ----------------------------------------------------- what a wake does

  /**
   * main.go:122-131: "{}" is printed only when the player goes away (the
   * flag was set), nothing while it stays away, and a position that can be
   * read again marks the player as open.
   */
  lemma StepPlayerGone(cfg: Config, s: EngineState, w: Wake)
    requires ValidConfig(cfg)
    ensures var r := Step(cfg, s, w);
      && (!w.positionOk ==> r.out == (if s.playerOpened then EmptyObject else Silent))
      && (!w.positionOk ==> r.state == s.(playerOpened := false) && r.delay.None?)
      && (w.positionOk ==> r.state.playerOpened)
      && (r.out == EmptyObject && !w.positionOk ==> s.playerOpened)
  {
  }

  /**
   * main.go:140-145: the remembered player info is replaced exactly when the
   * track ID or the status changed, so afterwards it agrees with the new info
   * on both.
   */
  lemma StepPlayerUpdate(cfg: Config, s: EngineState, w: Wake)
    requires ValidConfig(cfg)
    requires w.positionOk && w.info.Ok?
    ensures var r := Step(cfg, s, w); var info := w.info.value;
      && r.state.lastInfo == (if PlayerUpdated(s.lastInfo, info) then Some(info) else s.lastInfo)
      && r.state.lastInfo.Some?
      && r.state.lastInfo.value.id == info.id && r.state.lastInfo.value.status == info.status
  {
  }

  /**
   * main.go:147-159: a stopped player prints "{}" on every wake and leaves
   * the line and lyrics flags alone; a paused one prints its info only when
   * the player was updated, and then forgets the last line.
   */
  lemma StepStoppedPaused(cfg: Config, s: EngineState, w: Wake)
    requires ValidConfig(cfg)
    requires w.positionOk && w.info.Ok?
    requires w.info.value.status == StatusStopped || w.info.value.status == StatusPaused
    ensures var r := Step(cfg, s, w); var info := w.info.value;
      && r.delay.None?
      && r.state.lyricsNotFound == s.lyricsNotFound
      && (info.status == StatusStopped ==> r.out == EmptyObject && r.state.lastLine == s.lastLine)
      && (info.status == StatusPaused ==>
            r.out == (if PlayerUpdated(s.lastInfo, info) then InfoPayload(info) else Silent))
      && (info.status == StatusPaused ==>
            r.state.lastLine == (if PlayerUpdated(s.lastInfo, info) then None else s.lastLine))
  {
  }

  /**
   * main.go:161-170: while lyrics cannot be had, the info payload is printed
   * only when the flag was clear, and the flag is then set; only a lookup
   * that succeeds clears it again, so a new track alone does not.
   */
  lemma StepLyricsFailure(cfg: Config, s: EngineState, w: Wake)
    requires ValidConfig(cfg)
    ensures var r := Step(cfg, s, w);
      && (w.positionOk && w.info.Ok? && w.info.value.status != StatusStopped
          && w.info.value.status != StatusPaused && w.lyrics.Err? ==>
            r.state.lyricsNotFound && r.out == (if s.lyricsNotFound then Silent else InfoPayload(w.info.value)))
      && (s.lyricsNotFound && !r.state.lyricsNotFound ==>
            w.positionOk && w.info.Ok? && w.lyrics.Ok?
            && w.info.value.status != StatusStopped && w.info.value.status != StatusPaused)
  {
  }

  /**
   * main.go:180-221: the pre-first payload is printed only when the last
   * line was not already the "before the first line" marker, and a line's
   * payload only when its timestamp differs from the last line's. The
   * payload is for the active line, and a line without words shows
   * "artist - title" instead.
   */
  lemma StepLineDebounce(cfg: Config, s: EngineState, w: Wake)
    requires ValidConfig(cfg)
    ensures var r := Step(cfg, s, w);
      && (r.out.PreFirstPayload? ==>
            && w.lyrics.Ok? && ActiveIndex(w.lyrics.value, r.out.info.position) == -1
            && !(s.lastLine.Some? && s.lastLine.value.timestamp == PreFirstStamp)
            && r.state.lastLine == Some(Line(PreFirstStamp, "")))
      && (r.out.LinePayload? ==>
            && w.lyrics.Ok? && r.out.lyrics == w.lyrics.value
            && r.out.idx == ActiveIndex(r.out.lyrics, r.out.info.position)
            && r.out.idx < |r.out.lyrics|
            && !(s.lastLine.Some? && s.lastLine.value.timestamp == r.out.lyrics[r.out.idx].timestamp)
            && r.state.lastLine == Some(r.out.lyrics[r.out.idx])
            && (r.out.fallbackText.Some? <==> r.out.lyrics[r.out.idx].text == ""))
  {
    var r := Step(cfg, s, w);
    StepReachesLyrics(cfg, s, w);
    if r.out.PreFirstPayload? || r.out.LinePayload? {
      var t: EngineState :| t.lastLine == s.lastLine && r == StepLyrics(cfg, t, w.info.value, w.lyrics.value);
      LyricsDebounce(cfg, t, w.info.value, w.lyrics.value);
    }
  }

  /**
   * main.go:223-228: the ticker is reset only after a line's payload, only
   * when a following line exists, to the time until that line starts, and
   * never to a duration `Ticker.Reset` would refuse; it is reset exactly
   * when that line starts after the position.
   */
  lemma StepNextDelay(cfg: Config, s: EngineState, w: Wake)
    requires ValidConfig(cfg)
    ensures var r := Step(cfg, s, w);
      && (r.delay.Some? ==>
            && r.out.LinePayload? && r.out.idx + 1 < |r.out.lyrics|
            && r.delay.value == r.out.lyrics[r.out.idx + 1].timestamp - r.out.info.position
            && r.delay.value > 0)
      && (r.out.LinePayload? && r.out.idx + 1 < |r.out.lyrics| ==>
            (r.delay.Some? <==> r.out.info.position < r.out.lyrics[r.out.idx + 1].timestamp))
  {
    var r := Step(cfg, s, w);
    StepReachesLyrics(cfg, s, w);
    if r.out.LinePayload? || r.delay.Some? {
      var t: EngineState :| t.lastLine == s.lastLine && r == StepLyrics(cfg, t, w.info.value, w.lyrics.value);
      LyricsDebounce(cfg, t, w.info.value, w.lyrics.value);
    }
  }

  /** Lines are printed, and the ticker reset, only on the lyrics path of a wake. */
  lemma StepReachesLyrics(cfg: Config, s: EngineState, w: Wake)
    requires ValidConfig(cfg)
    ensures var r := Step(cfg, s, w);
      (r.out.PreFirstPayload? || r.out.LinePayload? || r.delay.Some?) ==>
        && w.positionOk && w.info.Ok? && w.lyrics.Ok?
        && exists t: EngineState :: t.lastLine == s.lastLine && r == StepLyrics(cfg, t, w.info.value, w.lyrics.value)
  {
  }

  /**
   * The lyrics path, on its own: what is printed is decided by the active
   * line and the line shown last, and the delay by the line after it.
   */
  lemma LyricsDebounce(cfg: Config, t: EngineState, info: PlayerInfo, lyrics: seq<Line>)
    requires ValidConfig(cfg)
    ensures var r := StepLyrics(cfg, t, info, lyrics);
      && (r.out.PreFirstPayload? ==>
            && ActiveIndex(lyrics, r.out.info.position) == -1
            && !(t.lastLine.Some? && t.lastLine.value.timestamp == PreFirstStamp)
            && r.state.lastLine == Some(Line(PreFirstStamp, "")))
      && (r.out.LinePayload? ==>
            && r.out.lyrics == lyrics
            && r.out.idx == ActiveIndex(r.out.lyrics, r.out.info.position)
            && r.out.idx < |r.out.lyrics|
            && !(t.lastLine.Some? && t.lastLine.value.timestamp == r.out.lyrics[r.out.idx].timestamp)
            && r.state.lastLine == Some(r.out.lyrics[r.out.idx])
            && (r.out.fallbackText.Some? <==> r.out.lyrics[r.out.idx].text == ""))
      && (r.delay.Some? ==>
            && r.out.LinePayload? && r.out.idx + 1 < |r.out.lyrics|
            && r.delay.value == r.out.lyrics[r.out.idx + 1].timestamp - r.out.info.position
            && r.delay.value > 0)
      && (r.out.LinePayload? && r.out.idx + 1 < |r.out.lyrics| ==>
            (r.delay.Some? <==> r.out.info.position < r.out.lyrics[r.out.idx + 1].timestamp))
  {
  }

  /**
   * Debounce: feeding the same wake again prints nothing and changes
   * nothing, except that a stopped player or unreadable metadata prints
   * "{}" every time.
   */
  lemma StepSettles(cfg: Config, s: EngineState, w: Wake)
    requires ValidConfig(cfg)
    requires !(w.positionOk && (w.info.Err? || w.info.value.status == StatusStopped))
    ensures var r := Step(cfg, s, w);
      Step(cfg, r.state, w) == StepResult(r.state, Silent, None)
  {
    var r := Step(cfg, s, w);
    if w.positionOk {
      var info := w.info.value;
      assert !PlayerUpdated(r.state.lastInfo, info);
      if info.status != StatusPaused && w.lyrics.Ok? {
        var s1 := s.(playerOpened := true);
        var s2 := if PlayerUpdated(s.lastInfo, info) then s1.(lastInfo := Some(info)) else s1;
        var t := s2.(lyricsNotFound := false);
        assert r == StepLyrics(cfg, t, info, w.lyrics.value);
        LyricsSettle(cfg, t, info, w.lyrics.value);
        assert r.state.(playerOpened := true).(lyricsNotFound := false) == r.state;
      }
    }
  }

  /** A wake with lyrics, repeated, finds its line already shown. */
  lemma LyricsSettle(cfg: Config, t: EngineState, info: PlayerInfo, lyrics: seq<Line>)
    requires ValidConfig(cfg)
    ensures var r := StepLyrics(cfg, t, info, lyrics);
      && StepLyrics(cfg, r.state, info, lyrics) == StepResult(r.state, Silent, None)
      && r.state.lastInfo == t.lastInfo && r.state.playerOpened == t.playerOpened
      && r.state.lyricsNotFound == t.lyricsNotFound
  {
  }

  /**
   * The same wake, again and again (a heartbeat with nothing changed):
   * only the first pass can print anything.
   */
  lemma {:induction false} RepeatedWakeEmitsOnce(cfg: Config, s: EngineState, w: Wake, n: nat)
    requires ValidConfig(cfg)
    requires !(w.positionOk && (w.info.Err? || w.info.value.status == StatusStopped))
    requires n >= 1
    ensures var (t, outs) := Trace(cfg, s, Repeat(w, n));
      && |outs| == n && outs[0] == Step(cfg, s, w) && t == Step(cfg, s, w).state
      && forall i :: 1 <= i < n ==> outs[i].out == Silent && outs[i].delay.None?
  {
    var first := Step(cfg, s, w);
    assert Repeat(w, n)[..n - 1] == Repeat(w, n - 1);
    if n == 1 {
      assert Trace(cfg, s, Repeat(w, 0)) == (s, []);
    } else {
      RepeatedWakeEmitsOnce(cfg, s, w, n - 1);
      StepSettles(cfg, s, w);
    }
  }

  /**
   * The reset as written: after a line's payload the loop hands
   * `NextLineDelay` to `Ticker.Reset`, which panics exactly when the next
   * line starts at the position itself. The search stops only at a line at
   * or after the position, so no other delay is refused.
   */
  lemma ResetAsWritten(cfg: Config, s: EngineState, w: Wake)
    requires ValidConfig(cfg)
    ensures var r := Step(cfg, s, w);
      r.out.LinePayload? && r.out.idx + 1 < |r.out.lyrics| ==>
        (ResetPanics(NextLineDelay(r.out.lyrics, r.out.idx, r.out.info.position))
         <==> r.out.info.position == r.out.lyrics[r.out.idx + 1].timestamp)
  {
    var r := Step(cfg, s, w);
    StepLineDebounce(cfg, s, w);
  }

  /**
   * The panic is reachable from the start: lines at 0 s and 10 s, and a
   * first wake at exactly 10 s, show the first line, and the reset as
   * written gets a zero duration. The loop as modelled leaves the ticker
   * alone instead.
   */
  lemma ZeroDelayPanics()
    ensures var ls := [Line(0, "A"), Line(10_000_000_000, "B")];
      var info := PlayerInfo("t", StatusPlaying, 10_000_000_000, "x", "y");
      var r := Step(Config(30, 5, "#ffffff"), Initial, Wake(true, Ok(info), Ok(ls)));
      && r.out == LinePayload(info, ls, 0, None)
      && NextLineDelay(ls, 0, info.position) == Some(0)
      && ResetPanics(NextLineDelay(ls, 0, info.position))
      && r.delay.None?
  {
    var ls := [Line(0, "A"), Line(10_000_000_000, "B")];
    ActiveIndexUnique(ls, 10_000_000_000, 0);
  }

  /**
   * Lines at 0 s "A", 10 s "B" and 20 s "C": at 15 s the second line is
   * active, at 0 s none is yet, at 25 s the last one is.
   */
  lemma ActiveIndexExample()
    ensures var ls := [Line(0, "A"), Line(10_000_000_000, "B"), Line(20_000_000_000, "C")];
      && ActiveIndex(ls, 15_000_000_000) == 1
      && ActiveIndex(ls, 0) == -1
      && ActiveIndex(ls, 25_000_000_000) == 2
  {
    var ls := [Line(0, "A"), Line(10_000_000_000, "B"), Line(20_000_000_000, "C")];
    ActiveIndexUnique(ls, 15_000_000_000, 1);
    ActiveIndexUnique(ls, 25_000_000_000, 2);
  }
}
