# waybar-lyric in Dafny

This project models the core of waybar-lyric. The program prints one JSON object per update for a waybar status-bar widget. It has four parts:

- **Sync** (`sync.dfy`): the long-running loop of `main.go`. Each wake:
  - reads the MPRIS player's position, metadata and status;
  - finds the lyric line active at the position;
  - prints `{}`, an info payload, a "before the first line" payload or a line payload, suppressing repeats;
  - schedules the next wake for when the following line starts.

  One wake is the pure function `Step` on an explicit `EngineState` (last player info, last line, the lyrics-not-found flag, the player-open flag). The loop itself is the method `Run`, proved equal to the fold `Trace`.
- **Lyrics, LyricsCache, LyricsCommand** (`lyrics.dfy`, `cache.dfy`, `lyricscmd.dfy`): the one-shot `lyrics` command of `cmd/lyrics.go`:
  - the `[mm:ss.xx]text` transcript parser;
  - the `"<seconds>,<text>"` cache file, written with `%.6f` and read back with a line scanner;
  - the cache-or-network `fetchLyrics`;
  - the Spotify player pick, the byte-based `truncate`, the current-line search and the seven-line tooltip window.
- **Docker** (`docker.dfy`): `generateSimpleTable` and the replacements of `toTitle` in `cmd/docker.go`.
- **Weather** (`weather.dfy`): the output half of `cmd/weather.go`: the icon switch, the description table, the unit flag and the printed object.

`gotext.dfy` (module `GoText`) holds the Go library behaviour the core relies on:

- `strings.Split`, `SplitN(…, 2)`, `TrimSpace`, `ReplaceAll`, `Contains` and `ToLower` (ASCII only);
- `strconv.ParseFloat` on plain decimals;
- `fmt`'s `%.Nf`;
- UTF-8 encoding.

`wrappers.dfy` holds `Option` and `Result`.

Timestamps in `main.go` are `time.Duration` values, modelled as `int` nanoseconds. In `cmd/lyrics.go` they are `float64` seconds, modelled as exact `real` values. I/O is replaced by inputs:

- the player's answers are a `Wake` (loop) or a `Request` (command);
- the cache directory is a `map` from file name to contents;
- the HTTP reply is a `Response` value;
- file-system faults are explicit parameters (`SaveFault`, `mkdirOk`).

Points where the code's behaviour is easy to misread:

- The code has no negative ("not found") cache marker.
- A transcript with no lines parses to an empty list. `fetchLyrics` turns that into an error; `parseLyrics` does not.
- The cache stores `%.6f` seconds, not integer timestamps.
- The loop's search stops at the first line whose timestamp is at or after the position (`main.go:174`). A line that starts exactly at the position is therefore not yet active in the loop. The one-shot command stops only at a line strictly after the position (`cmd/lyrics.go:353`).
- The delay handed to `lyricTicker.Reset` is not checked. It is zero when the position equals the next line's start, and `Ticker.Reset` panics on it. This is listed under Findings; the modelled loop leaves the ticker alone then.
- An empty cache file is a hit; see Findings.

## Model

| member | source | states |
|---|---|---|
| Sync.Truncate | main.go:23-35 | the result is the text when it fits; otherwise it has exactly the limit's length, ending in "..." after the first limit−3 characters when the limit exceeds 3, else it is the first limit characters |
| Sync.TruncateIdempotent | main.go:23-35 | truncating a truncated text with the same limit changes nothing |
| Sync.PickPlayer | main.go:68-74 | "" exactly when no bus name has the MPRIS prefix; otherwise the last name with the prefix |
| Sync.ActiveIndex | main.go:172-178 | −1 ≤ idx < n; every line up to idx starts before the position; the next line does not; −1 exactly when there are no lines or the first is not before the position |
| Sync.FindActiveLine | main.go:172-178 | the search loop with its early break returns `ActiveIndex` |
| Sync.ActiveIndexUnique | main.go:172-178 | any index with the three properties of `ActiveIndex` is `ActiveIndex` |
| Sync.ActiveIndexExample | main.go:172-178 | lines at 0 s, 10 s and 20 s: 15 s gives index 1, 0 s gives −1 ("before the first line"), 25 s gives index 2 |
| Sync.TooltipEntry | main.go:192-197 | a tooltip entry is never empty: the text, or the music glyph for a line without words |
| Sync.TooltipCount | main.go:190-191 | the pre-first tooltip shows min(tooltip lines, number of lyrics) lines |
| Sync.TooltipBodyLines | main.go:186-198 | read back by newlines, the builder holds one entry per shown line, in order, and nothing after the last newline |
| Sync.WriteTooltipLines | main.go:192-198 | the entry loop writes each shown line's entry followed by a newline, in order |
| Sync.BuildPreFirstTooltip | main.go:186-201 | the builder loop produces the pre-first tooltip (header, entries, trimmed, closing tag) |
| Sync.WakeOnce | main.go:122-229 | one pass of the loop body, with its `continue`s, gives the output, next state and timer of `Step` |
| Sync.ShowLyrics | main.go:172-229 | the search, payload and timer part of a wake (with the ticker reset only for a positive delay) gives what `StepLyrics` specifies |
| Sync.LyricsDebounce | main.go:172-229 | after a successful lookup: a pre-first payload only before the first line and not twice in a row; a line payload only for the active line with a new timestamp, which becomes the last line; the timer only after a line payload with a following line, and then exactly when that line starts after the position, to a positive delay |
| Sync.StepReachesLyrics | main.go:122-171 | a lyric payload or a timer reset happens only when the position and metadata were read and the lookup succeeded, starting from the same last line |
| Sync.Run | main.go:106-231 | the loop's outputs over a sequence of wakes are those of the fold of `Step` from the initial state |
| Sync.StepPlayerGone | main.go:122-131 | with no position, "{}" is printed only on the wake the player goes away, nothing after, and the player is marked closed; a readable position marks it open |
| Sync.StepPlayerUpdate | main.go:140-145 | the remembered info is replaced exactly when the track ID or status changed, and afterwards agrees with the new info on both |
| Sync.StepStoppedPaused | main.go:147-159 | stopped: "{}" every wake, line and flag kept; paused: the info payload only when the player was updated, then the last line is forgotten |
| Sync.StepLyricsFailure | main.go:161-170 | a failed lookup prints the info payload only when the flag was clear and sets the flag; only a successful lookup clears it |
| Sync.StepLineDebounce | main.go:180-221 | a pre-first payload only when the last line was not the pre-first marker; a line payload only for the active line and only when its timestamp differs from the last line's; "artist - title" exactly for a line without words |
| Sync.StepNextDelay | main.go:223-228 | the timer is reset only after a line payload with a following line, to that line's start minus the position, which is always positive; after such a payload it is reset exactly when that line starts after the position |
| Sync.NextLineDelay | main.go:225-227 | the duration the code hands to `Reset`: present exactly when a following line exists, and the position plus it is that line's start |
| Sync.ResetDelay | main.go:223-228 | the corrected reset never gives `Ticker.Reset` a non-positive duration; it is present exactly when a following line starts after the position, and then equals `NextLineDelay` |
| Sync.ResetAsWritten | main.go:172-228 | after a line payload with a following line, the reset as written panics exactly when that line starts at the position |
| Sync.ZeroDelayPanics | main.go:172-228 | lines at 0 s and 10 s and a first wake at 10 s: the first line is shown, the reset as written gets 0 and panics, the modelled loop does not reset |
| Sync.StepSettles | main.go:140-228 | repeating a wake (unless the player is stopped or its metadata unreadable) prints nothing, schedules nothing and changes no state |
| Sync.LyricsSettle | main.go:172-212 | after a wake with lyrics, the same wake again finds its line already shown: nothing printed, no timer, state kept |
| Sync.RepeatedWakeEmitsOnce | main.go:106-231 | the same wake n times: only the first pass can print or schedule anything |
| Lyrics.ParseTimestamp | cmd/lyrics.go:130-145 | Ok exactly when every colon group is a number, with value Σ group·60^(distance from the last); on error, names the rightmost group that is not a number |
| Lyrics.DigitGroup | cmd/lyrics.go:136 | a group of plain digits is worth the number it spells |
| Lyrics.TimestampMinutes | cmd/lyrics.go:130-145 | "02:03" is 123 seconds |
| Lyrics.FractionGroup | cmd/lyrics.go:136 | the group "03.4" is worth 3.4 |
| Lyrics.PaddedGroup | cmd/lyrics.go:136 | a zero-padded one-digit group such as "02" is worth its digit |
| Lyrics.TimestampHours | cmd/lyrics.go:130-145 | "01:02:03.4" is 3723.4 seconds |
| Lyrics.ParseGroup | cmd/lyrics.go:136-139 | one group is trimmed and parsed as its entry in the list of group values |
| Lyrics.ReadLyricLine | cmd/lyrics.go:110-125 | the loop body's skips and its appended line are those of `ParseLine` |
| Lyrics.ParseLine | cmd/lyrics.go:110-125 | a line yields a lyric line only if it is non-empty and contains `]` |
| Lyrics.ParseLineAt | cmd/lyrics.go:113-125 | a line `head]rest` (no `]` in head) is kept exactly when head less a leading `[` is a timestamp, and then gives that time and the trimmed rest |
| Lyrics.ParseLineExample | cmd/lyrics.go:110-125 | "[02:03] Hi" is the line "Hi" at 123 seconds |
| Lyrics.ParseLyrics | cmd/lyrics.go:106-128 | the loop never fails and returns the parsed lines of the transcript, in order |
| Seqs.KeepAppend | cmd/lyrics.go:109-126 | the loop keeps what each line gives on its own: over a + b it gives the result for a followed by that for b |
| Lyrics.TranscriptAppend | cmd/lyrics.go:108-126 | a transcript joined at a newline parses to the concatenation of the two parses |
| Lyrics.TranscriptDropsLine | cmd/lyrics.go:110-123 | a line that does not parse is dropped without disturbing the lines around it |
| Lyrics.TranscriptEmpty | cmd/lyrics.go:106-128 | an empty transcript parses to no lines and no error |
| Lyrics.ParsedTextCacheSafe | cmd/lyrics.go:118 | a parsed text is trimmed and contains no newline |
| Lyrics.ParsedTextsCacheSafe | cmd/lyrics.go:106-128 | every parsed text of newline-free lines is trimmed and fit for the cache |
| Lyrics.TranscriptCacheSafe | cmd/lyrics.go:106-128 | every parsed text meets the cache round trip's precondition: trimmed, no newline, no final carriage return |
| LyricsCache.CacheText | cmd/lyrics.go:154-159 | the file is empty exactly when there are no lines, and otherwise ends in a newline |
| LyricsCache.CacheTextStep | cmd/lyrics.go:154-158 | writing line i appends exactly its record to what the earlier lines wrote |
| LyricsCache.WriteRecord | cmd/lyrics.go:155-157 | one write of the save loop leaves the file holding the records of all lines so far |
| LyricsCache.WrittenCount | cmd/lyrics.go:154-158 | no more records reach the file than there are lines |
| LyricsCache.SaveCache | cmd/lyrics.go:147-161 | a create failure leaves no file; otherwise the file holds the whole records written before the first failing write, then what that write got out; success exactly when all were written |
| LyricsCache.ShortWrite | cmd/lyrics.go:155-157 | a failing write leaves a proper prefix of its record, of the given length when that is shorter than the record |
| LyricsCache.SavedText | cmd/lyrics.go:147-161 | the saved file starts with the whole records written before the failure, and is the full cache text when every write succeeded |
| LyricsCache.ShortWriteLoadsCut | cmd/lyrics.go:155-186 | a write cut inside record k's text leaves a file that loads without error as the earlier lines, rounded, and line k with its text cut short |
| LyricsCache.CutFileLoads | cmd/lyrics.go:163-186 | whole records followed by a record cut inside its text load as their lines and the cut line |
| LyricsCache.ScanLines | cmd/lyrics.go:171-174 | no scanned line contains a newline |
| LyricsCache.ScanRecord | cmd/lyrics.go:171-174 | a newline-terminated record scans as one line (less a final carriage return), the rest on its own |
| LyricsCache.ScanAppend | cmd/lyrics.go:171-174 | text ending in a newline scans independently of what follows |
| LyricsCache.ReadRecord | cmd/lyrics.go:175-186 | one scanned line is skipped without a comma, is the bad-timestamp error when the part before the first comma does not parse, and otherwise is the lyric line of that number and the rest of the line |
| LyricsCache.LoadLinesErrSticks | cmd/lyrics.go:180-183 | after a bad timestamp, later lines do not change the error |
| LyricsCache.LoadCache | cmd/lyrics.go:163-192 | the scan loop returns `LoadCacheSpec`: open failure, the first bad timestamp, or the lines in order with comma-less lines skipped |
| LyricsCache.LoadEmptyFile | cmd/lyrics.go:163-192 | an empty file loads as an empty list without error |
| LyricsCache.LoadSkipsCommaless | cmd/lyrics.go:175-178 | a line without a comma changes nothing |
| LyricsCache.Rounded | cmd/lyrics.go:155 | same length; each line keeps its text and has its timestamp rounded to 6 decimals |
| LyricsCache.RecordRoundTrip | cmd/lyrics.go:155-185 | one record scans as one line and loads as its lyric line with the timestamp rounded |
| LyricsCache.CacheRoundTrip | cmd/lyrics.go:147-192 | loading what `saveCache` wrote gives the same lines in order, same texts, timestamps rounded to 6 decimals |
| LyricsCache.CacheRoundTripCount | cmd/lyrics.go:147-192 | saving then loading keeps the number of lines |
| LyricsCache.CacheFileName | cmd/lyrics.go:57-58 | every `/` of the URI becomes `-` and every other character stays in place, followed by ".csv"; the name has no `/` |
| LyricsCache.FetchRemote | cmd/lyrics.go:64-103 | the network is asked, and a success has at least one line |
| LyricsCache.StoreLyrics | cmd/lyrics.go:90-103 | a success returns the parsed lines, which are non-empty; an empty parse leaves the cache untouched |
| LyricsCache.FetchLyricsAsWritten | cmd/lyrics.go:53-104 | any cache load without an error is the result, returned without asking the network or touching the cache; a failed load goes to the network half |
| LyricsCache.FetchLyrics | cmd/lyrics.go:53-104 | the corrected fetch never returns an empty success |
| LyricsCache.FetchHitSkipsNetwork | cmd/lyrics.go:60-62 | a cache file that loads with lines is returned as is, without a network call, cache unchanged |
| LyricsCache.FetchEmptyParseNotCached | cmd/lyrics.go:90-92 | a reply without synced lines is the "no synced lines" error and nothing is cached |
| LyricsCache.FetchThenHit | cmd/lyrics.go:53-104 | after a successful download, the next fetch is a hit that returns the lines with timestamps rounded, without the network |
| LyricsCache.FetchMiss | cmd/lyrics.go:60-64 | without a cache file both fetches go to the network |
| LyricsCache.RemoteDecoded | cmd/lyrics.go:64-85 | a success or a save failure implies a 200 reply with a decoded body, whose parse goes to the save |
| LyricsCache.StoreThenLoad | cmd/lyrics.go:94-103 | what a successful save stored loads back as the lines, rounded |
| LyricsCache.EmptyCacheFileIsHit | cmd/lyrics.go:60-62 | an empty cache file is a hit with no lines for the fetch as written; the corrected fetch asks the network |
| LyricsCache.FailedSaveLeavesEmptyFile | cmd/lyrics.go:147-158 | a first write that fails leaves an empty file, which the next fetch as written returns as zero lines without the network |
| LyricsCommand.TruncateBytes | cmd/lyrics.go:194-204 | a panic exactly for a negative limit; otherwise the bytes when they fit, else exactly limit bytes: a prefix plus "..." above 3, a bare prefix otherwise |
| LyricsCommand.TruncateBytesIdempotent | cmd/lyrics.go:194-204 | truncating twice with the same limit equals truncating once |
| LyricsCommand.FirstSpotify | cmd/lyrics.go:267-274 | none exactly when no name contains "spotify" in any ASCII case; otherwise the first such name |
| LyricsCommand.PickSpotify | cmd/lyrics.go:267-274 | the loop with its break returns the first Spotify name, or "" when none |
| LyricsCommand.LeadCount | cmd/lyrics.go:351-357 | the leading lines that start at or before the position, and the next one starts after it |
| LyricsCommand.LineIndex | cmd/lyrics.go:351-357 | an index in range for non-empty lyrics; the last leading line at or before the position, or 0 when none is |
| LyricsCommand.FindLine | cmd/lyrics.go:351-357 | the search loop returns `LineIndex` |
| LyricsCommand.WindowBounds | cmd/lyrics.go:361-371 | the window contains the current line and at most seven lines, within bounds |
| LyricsCommand.WindowLines | cmd/lyrics.go:372-379 | one tooltip line per window line |
| LyricsCommand.WindowSplit | cmd/lyrics.go:372-380 | the builder, read back, is the window's lines and an empty last piece |
| LyricsCommand.WindowMarks | cmd/lyrics.go:361-386 | at most seven lines, the current one with "> " in front, every other one as it is |
| LyricsCommand.WriteWindowLine | cmd/lyrics.go:374-379 | one pass of the builder loop appends the next window line, marked with "> " when current, and its newline |
| LyricsCommand.BuildWindowTooltip | cmd/lyrics.go:372-386 | the builder loop produces the trimmed window tooltip |
| LyricsCommand.RunCommand | cmd/lyrics.go:300-398 | the step-by-step run gives the modelled command's output and cache |
| LyricsCommand.CommandNeverPanics | cmd/lyrics.go:339-390 | with a non-negative limit the corrected command never panics |
| LyricsCommand.NotPlayingSkipsFetch | cmd/lyrics.go:310-323 | paused prints the "paused" info object and stopped exits 0, both without a fetch or a cache change |
| LyricsCommand.MissingMetadataFails | cmd/lyrics.go:306-308 | an empty title or artist exits with status 1 and leaves the cache alone |
| LyricsCommand.LyricPayload | cmd/lyrics.go:381-388 | a lyric object shows the current line truncated to the limit and the window tooltip, and is within the limit |
| LyricsCommand.EmptyCacheFilePanics | cmd/lyrics.go:359 | with an empty cache file for the playing track, the command as written panics |
| Seqs.Repeat | cmd/docker.go:93 | n copies of the element: of a dash or a space for the table, of a wake for a repeated heartbeat |
| Docker.Pad | cmd/docker.go:88 | `%-*s`: the text followed by spaces up to the width, never cut |
| Docker.ColWidth | cmd/docker.go:72-83 | a column's width is at least its header and each of its cells |
| Docker.ColWidthAttained | cmd/docker.go:72-83 | a column's width is the length of its header or of one of its cells |
| Docker.Widths | cmd/docker.go:72-83 | one width per header |
| Docker.RowLines | cmd/docker.go:97-102 | one line per row, in order, each the row's padded cells |
| Docker.ColumnWidths | cmd/docker.go:72-83 | the width loops panic exactly when a row has more cells than there are headers, and otherwise give `Widths` |
| Docker.WidenRow | cmd/docker.go:77-81 | one row widens every column to cover its cell, panicking exactly when the row has more cells than headers |
| Docker.WriteCells | cmd/docker.go:87-89 | the cell loop writes the padded cells |
| Docker.WriteRule | cmd/docker.go:92-95 | the rule loop writes the dashes |
| Docker.WriteTable | cmd/docker.go:85-104 | the writing pass gives the trimmed layout |
| Docker.GenerateSimpleTable | cmd/docker.go:71-105 | a panic exactly for a row longer than the headers, otherwise the trimmed table |
| Docker.PaddedCellsLength | cmd/docker.go:87-89 | a line of k padded cells is as long as the first k widths plus two each |
| Docker.DashesShape | cmd/docker.go:92-95 | the rule is Σ(width + 2) characters, all dashes |
| Docker.HeaderMatchesRule | cmd/docker.go:87-95 | the header line is exactly as long as the rule |
| Docker.FullRowMatchesRule | cmd/docker.go:92-100 | a row with a cell per column is exactly as long as the rule |
| Docker.PaddedCellsOneLine | cmd/docker.go:97-101 | padding adds no newline |
| Docker.TableLines | cmd/docker.go:85-102 | before trimming, the table is the header line, the rule, and one line per row in order |
| Docker.TitleSpacing | cmd/docker.go:107-110 | same length, every `-` and `_` is a space, every other character is kept |
| Weather.IconDefined | cmd/weather.go:186-202 | a code has an icon exactly when the switch names it |
| Weather.ConditionDefined | cmd/weather.go:166-184 | a code has a description exactly when the table lists it |
| Weather.LookupGaps | cmd/weather.go:166-204 | icon but no description exactly for 52, 62, 72; description but no icon exactly for 55, 65, 75 |
| Weather.IconMatchesCondition | cmd/weather.go:166-202 | every listed code except 55, 65, 75 has an icon; drizzle, rain and snow icons go exactly to their light and moderate codes |
| Weather.UnitOf | cmd/weather.go:206-214 | Fahrenheit exactly for "f"/"F", Kelvin exactly for "k"/"K", otherwise Celsius |
| Weather.NumberTextValue | cmd/weather.go:207-213 | the printed number reads back as the temperature in the unit, rounded to one decimal |
| Weather.Report | cmd/weather.go:204-221 | the classes are the description then the icon, the alt is the icon (empty exactly for codes without one), the text is the temperature in the flag's unit, and the tooltip is the text, "/", and the description |
| Weather.ReportTemperature | cmd/weather.go:206-221 | the printed text is the number in the flag's unit and the unit's suffix, and the number reads back as the converted temperature rounded to one decimal |
| Weather.FreezingFahrenheit | cmd/weather.go:208-209 | 0 °C in Fahrenheit is 32, and the text printed is "32.0°F" (number "32.0") |
| GoText.SplitJoin | cmd/lyrics.go:108 | joining the pieces of a split with the separator gives back the text |
| GoText.SplitFirstAt | cmd/lyrics.go:113 | a split at the first separator gives the text before it and the rest |
| GoText.TrimSpaceIdempotent | cmd/lyrics.go:118 | trimming twice equals trimming once |
| GoText.ReplaceChar | cmd/lyrics.go:57 | `strings.ReplaceAll` of one character: same length, each occurrence replaced, every other character kept |
| GoText.TrimSpaceWithin | cmd/lyrics.go:118 | trimming introduces no character that was not in the text |
| GoText.SplitAppend | cmd/lyrics.go:108 | splitting text joined at a separator gives the pieces of each side |
| GoText.SplitTerminated | main.go:192-198 | newline-free lines each written with a newline split back into those lines and one empty piece |
| GoText.TerminatedSnoc | main.go:192-198 | writing one more line with its newline appends exactly that to the text |
| GoText.RenderFixedChars | cmd/lyrics.go:155 | `%.Nf` prints only digits, `.` and `-`, and a `.` when N > 0 |
| GoText.ParseRenderFixed | cmd/lyrics.go:155-180 | a number printed with `%.Nf` (N > 0) parses back as that number rounded to N decimals |

## Left out

- The D-Bus/MPRIS binding is not modelled. Its answers (position, metadata, status, bus names) are inputs: a `Wake` for the loop, a `Request` for the command. The player's `PlayPause` toggle is not modelled.
- HTTP and JSON are not modelled. The lrclib query string, `http.Get`, `io.ReadAll` and `json.Unmarshal` become the `Response` and `Body` values. The JSON encoding of the payloads is not modelled; payloads are datatypes.
- The file system is a map from file name to contents. `os.UserCacheDir`, `filepath.Join` and `filepath.Base` are not modelled. The cache name is the URI with `/` replaced. `MkdirAll` success and write faults are parameters.
- The `flock` lock file, signal handling, context cancellation, the channels and the `select` are not modelled. Each wake is one element of the input sequence; which timer fired does not affect the body.
- `Sync.StepNextDelay`: the model returns the delay it would hand to `Ticker.Reset`; the ticker itself is not modelled. The zero delay the code can produce, on which `Ticker.Reset` panics, is listed under Findings.
- `GetLyrics` and `PlayerInfo.Waybar`/`NewWaybar` of the loop are not part of this model. The lookup result is an input of each wake, and payloads are abstract emissions.
- The `percentage` field (`int(100 * position / duration)`) is floating-point division and truncation. It is not modelled.
- `GoText.ParseDecimal` accepts only `[+-]digits[.digits]`. Go's `ParseFloat` also accepts exponents, hexadecimal, `inf`, `nan` and underscores; those forms are not modelled.
- `GoText.RenderFixed` rounds exact decimals half away from zero. Go's `%.Nf` rounds the binary `float64` value. The two can differ on halfway decimals.
- `Lyrics.ParseTimestamp`: seconds are exact reals. `math.Pow` and float64 rounding are not modelled.
- `GoText.ToLowerAscii` lower-cases ASCII letters only. `strings.ToLower` is Unicode-aware; for example the Kelvin sign lowers to `k`.
- `Docker.TitleSpacing` models only the `-`/`_` replacement of `toTitle`. The Unicode title-casing by `cases.Title` is not modelled.
- `Docker.Pad`: widths count characters. Go's `len` counts bytes and `fmt` pads by runes; the two agree only on ASCII cells.
- `LyricsCache.ScanLines`: the 64 KiB token limit of `bufio.Scanner` and its error path are not modelled.
- `LyricsCommand.TruncateBytes` works on bytes as the source does. Cutting inside a multi-byte character, and how the JSON encoder would then print invalid UTF-8, are not modelled.
- `Sync.Truncate` and `LyricsCommand.CommandNeverPanics` require a non-negative limit. A negative flag value makes the source's slice panic; `TruncateBytes` models that panic as `None`.
- The command's metadata type assertions are not modelled. An empty artist list or a wrong value type makes the source panic; the model takes `artist` and `title` as plain strings.
- The `--init`, `--toggle` and `--version` flags and their printed snippets are not modelled. `cmd/pipewire.go`, `cmd/root.go`, `fetchWeather`, the weather location file and the Docker stats command are not part of this model.
- `Weather.Convert`: temperatures are exact reals, so `T*9/5+32` and `T+273.15` carry no float64 rounding.

## Findings

| source | as written | input that shows it | evidently intended | confidence | as-written member | corrected member |
|---|---|---|---|---|---|---|
| cmd/lyrics.go:60-62 | `fetchLyrics` returns any cache load without an error. An empty cache file loads as an empty list, so it is a hit with no lines. `lyrics[idx]` at line 359 then indexes an empty slice and panics. | A cache file `<uri>.csv` that exists but is empty. A download whose first `Fprintf` fails before writing anything leaves one behind, since `os.Create` already made the file. | An empty load is a cache miss, and the lyrics are fetched again. | not executed | LyricsCache.EmptyCacheFileIsHit, LyricsCommand.EmptyCacheFilePanics | LyricsCache.FetchLyrics, LyricsCommand.CommandNeverPanics |
| main.go:223-228 | After a line payload with a following line, the loop calls `lyricTicker.Reset(next - position)`. The search stops at the first line at or after the position (`main.go:174`), so the duration is zero when the next line starts exactly at the position. `time.Ticker.Reset` panics on a duration that is not positive. | Lines at 0 s and 10 s, and a first wake while playing at exactly 10 s, before any line was shown. | The ticker is reset only to a positive duration; otherwise the fixed ticker's next wake shows the following line. | not executed | Sync.NextLineDelay, Sync.ResetAsWritten, Sync.ZeroDelayPanics | Sync.ResetDelay, Sync.StepNextDelay |
