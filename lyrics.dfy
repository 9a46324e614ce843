/**
 * The lyrics command of cmd/lyrics.go: the `[mm:ss.xx]text` parser, the
 * `"<seconds>,<text>"` cache file, the cache-or-network lookup, and the
 * one-shot command that prints the current line with a tooltip window.
 *
 * Timestamps are exact decimals (`real` seconds). Files are text held in
 * memory: the cache directory is a map from file name to file contents.
 */
module Lyrics {
  import opened Wrappers
  import opened GoText
  import opened Seqs

  datatype LyricLine = LyricLine(timestamp: real, text: string)

  // ----------------------------------------------------- parseTimestamp

  /** One colon-separated group of a timestamp, read as a number. */
  function GroupValue(part: string): Option<real>
  {
    ParseDecimal(TrimSpace(part))
  }

  /** The value of every group, in order. */
  function GroupValues(parts: seq<string>): (vs: seq<Option<real>>)
    ensures |vs| == |parts|
  {
    Map(GroupValue, parts)
  }

  /** Every value from `k` on is a number. */
  predicate AllParsedFrom(vs: seq<Option<real>>, k: nat)
    requires k <= |vs|
    decreases |vs| - k
  {
    k == |vs| || (vs[k].Some? && AllParsedFrom(vs, k + 1))
  }

  /** What `AllParsedFrom` promises about each value. */
  lemma {:induction false} AllParsedAt(vs: seq<Option<real>>, k: nat, j: nat)
    requires k <= j < |vs| && AllParsedFrom(vs, k)
    ensures vs[j].Some?
    decreases j - k
  {
    if k < j {
      AllParsedAt(vs, k + 1, j);
    }
  }

  /** A value that is not a number, followed only by numbers, is the last bad one. */
  lemma BadGroupStops(vs: seq<Option<real>>, i: nat)
    requires i < |vs| && vs[i].None? && AllParsedFrom(vs, i + 1)
    ensures LastBadGroup(vs, i) && !AllParsedFrom(vs, 0)
  {
    if AllParsedFrom(vs, 0) {
      AllParsedAt(vs, 0, i);
    }
  }

  function Pow60(n: nat): (p: nat)
    ensures p >= 1
  {
    if n == 0 then 1 else 60 * Pow60(n - 1)
  }

  /** A group's worth: `v * 60^n`, for the group `n` places from the last. */
  function Weigh(v: real, n: nat): real
  {
    v * Pow60(n) as real
  }

  /**
   * The values from `k` on, each weighted by 60 to the power of its
   * distance from the last one: `sum_{j >= k} v_j * 60^(n-1-j)`.
   */
  function PlaceSum(vs: seq<Option<real>>, k: nat): real
    requires k <= |vs| && AllParsedFrom(vs, k)
    decreases |vs| - k
  {
    if k == |vs| then 0.0
    else Weigh(vs[k].value, |vs| - 1 - k) + PlaceSum(vs, k + 1)
  }

  /** Value `i` is not a number, and every value after it is. */
  predicate LastBadGroup(vs: seq<Option<real>>, i: int)
  {
    0 <= i < |vs| && vs[i].None? && AllParsedFrom(vs, i + 1)
  }

  /** What `parseTimestamp` gives, with every error as None. */
  function TimestampSeconds(ts: string): Option<real>
  {
    var vs := GroupValues(Split(ts, ':'));
    if AllParsedFrom(vs, 0) then Some(PlaceSum(vs, 0)) else None
  }

  /** One group, trimmed and read with `strconv.ParseFloat` (cmd/lyrics.go:136). */
  method ParseGroup(parts: seq<string>, i: nat) returns (v: Option<real>)
    requires i < |parts|
    ensures v == GroupValues(parts)[i]
  {
    v := GroupValue(parts[i]);
    MapAt(GroupValue, parts, i);
  }

  /**
   * `parseTimestamp` (cmd/lyrics.go:130-145): the groups are read from the
   * last to the first, and the first one (from the right) that is not a
   * number is the one the error names.
   */
  method ParseTimestamp(ts: string) returns (r: Result<real, string>)
    ensures r.Ok? <==> TimestampSeconds(ts).Some?
    ensures r.Ok? ==> r.value == TimestampSeconds(ts).value
    ensures r.Err? ==>
      exists i :: (LastBadGroup(GroupValues(Split(ts, ':')), i)
                   && r.error == "invalid timestamp part: " + Split(ts, ':')[i])
  {
    var parts := Split(ts, ':');
    ghost var vs := GroupValues(parts);
    var seconds := 0.0;
    var i := |parts|;
    while i > 0
      invariant 0 <= i <= |parts|
      invariant AllParsedFrom(vs, i)
      invariant seconds == PlaceSum(vs, i)
    {
      i := i - 1;
      var part := ParseGroup(parts, i);
      if part.None? {
        BadGroupStops(vs, i);
        return Err("invalid timestamp part: " + parts[i]);
      }
      seconds := seconds + Weigh(part.value, |parts| - 1 - i);
    }
    return Ok(seconds);
  }

  /** A group of plain digits is worth the number it spells. */
  lemma DigitGroup(part: string)
    requires |part| > 0 && AllDigits(part)
    ensures GroupValue(part) == Some(DigitsValue(part) as real)
  {
    assert IsDigit(part[0]) && IsDigit(part[|part| - 1]);
    TrimSpaceKeeps(part);
  }

  /** A group of a zero and one more digit, as in "07", is worth that digit. */
  lemma PaddedGroup(d: nat)
    requires d < 10
    ensures GroupValue(['0', Digit(d)]) == Some(d as real)
  {
    var part := ['0', Digit(d)];
    DigitGroup(part);
    assert part[..1] == "0" && "0"[..0] == "";
    assert DigitsValue(part) == 10 * DigitsValue("0") + d;
  }

  /** A group `ip.fp` of digits, starting with a digit, is worth `ip + fp / 10^|fp|`. */
  lemma FractionDigits(ip: string, fp: string)
    requires |ip| > 0 && AllDigits(ip) && AllDigits(fp)
    requires |fp| == 0 || !IsSpace(fp[|fp| - 1])
    ensures GroupValue(ip + "." + fp) == Some(DecimalValue(ip, fp))
  {
    var s := ip + "." + fp;
    assert s == ip + ['.'] + fp;
    assert s[0] == ip[0] && IsDigit(ip[0]);
    assert s[|s| - 1] == if |fp| == 0 then '.' else fp[|fp| - 1];
    TrimSpaceKeeps(s);
    SplitFirstAt(ip, fp, '.');
    assert ParseDecimal(s) == ParseUnsigned(s);
  }

  /** The digits "03" and "4" after a point are worth 3.4. */
  lemma FractionValue()
    ensures DecimalValue("03", "4") == 3.4
  {
    assert DigitsValue("03") == 3 by { assert "03"[..1] == "0"; }
    assert DigitsValue("4") == 4 by { assert "4"[..0] == ""; }
  }

  /** A group with a fractional part: "03.4" is 3.4. */
  lemma FractionGroup()
    ensures GroupValue("03.4") == Some(3.4)
  {
    assert "03.4" == "03" + "." + "4";
    FractionDigits("03", "4");
    FractionValue();
  }

  /** Three separator-free pieces joined by the separator split back into them. */
  lemma SplitThree(a: string, b: string, c: string, sep: char)
    requires sep !in a && sep !in b && sep !in c
    ensures Split(a + [sep] + b + [sep] + c, sep) == [a, b, c]
  {
    assert a + [sep] + b + [sep] + c == a + [sep] + (b + [sep] + c);
    SplitLead(a, b + [sep] + c, sep);
    SplitLead(b, c, sep);
    SplitWithout(c, sep);
  }

  /** "02:03" is 123 seconds. */
  lemma TimestampMinutes()
    ensures TimestampSeconds("02:03") == Some(123.0)
  {
    assert Split("02:03", ':') == ["02", "03"] by {
      assert "02:03" == "02" + [':'] + "03";
      SplitLead("02", "03", ':');
      SplitWithout("03", ':');
    }
    MapTwo(GroupValue, "02", "03");
    PaddedGroup(2);
    PaddedGroup(3);
    var vs := [Some(2.0), Some(3.0)];
    assert Pow60(0) == 1 && Pow60(1) == 60;
    assert PlaceSum(vs, 1) == 3.0;
    assert PlaceSum(vs, 0) == 2.0 * 60.0 + 3.0;
  }

  /** "01:02:03.4" is 3723.4 seconds. */
  lemma TimestampHours()
    ensures TimestampSeconds("01:02:03.4") == Some(3723.4)
  {
    assert Split("01:02:03.4", ':') == ["01", "02", "03.4"] by {
      assert "01:02:03.4" == "01" + [':'] + "02" + [':'] + "03.4";
      SplitThree("01", "02", "03.4", ':');
    }
    MapThree(GroupValue, "01", "02", "03.4");
    PaddedGroup(1);
    PaddedGroup(2);
    FractionGroup();
    var vs := [Some(1.0), Some(2.0), Some(3.4)];
    assert Pow60(0) == 1 && Pow60(1) == 60 && Pow60(2) == 3600;
    assert PlaceSum(vs, 2) == 3.4;
    assert PlaceSum(vs, 1) == 2.0 * 60.0 + 3.4;
    assert PlaceSum(vs, 0) == 1.0 * 3600.0 + 2.0 * 60.0 + 3.4;
  }

  // -------------------------------------------------------- parseLyrics

  /** `strings.TrimPrefix(s, "[")`. */
  function TrimBracket(s: string): string
  {
    if |s| > 0 && s[0] == '[' then s[1..] else s
  }

  /**
   * One transcript line (cmd/lyrics.go:110-125): empty lines, lines without
   * `]` and lines whose timestamp does not parse are dropped; otherwise the
   * timestamp is what precedes the first `]` (less a leading `[`) and the
   * text is the trimmed rest.
   */
  function ParseLine(line: string): (r: Option<LyricLine>)
    ensures r.Some? ==> line != "" && ']' in line
  {
    if line == "" then None
    else
      match SplitFirst(line, ']')
      case None => None
      case Some((head, rest)) =>
        match TimestampSeconds(TrimBracket(head))
        case None => None
        case Some(t) => Some(LyricLine(t, TrimSpace(rest)))
  }

  /**
   * A line `<head>]<rest>` with no `]` in `head` is kept exactly when
   * `head`, less a leading `[`, is a timestamp, and then gives that time
   * and the rest with the surrounding white space trimmed.
   */
  lemma ParseLineAt(head: string, rest: string)
    requires ']' !in head
    ensures ParseLine(head + "]" + rest).Some? <==> TimestampSeconds(TrimBracket(head)).Some?
    ensures ParseLine(head + "]" + rest).Some? ==>
      ParseLine(head + "]" + rest) == Some(LyricLine(TimestampSeconds(TrimBracket(head)).value, TrimSpace(rest)))
  {
    assert head + "]" + rest == head + [']'] + rest;
    SplitFirstAt(head, rest, ']');
  }

  /** "[02:03] Hi" is the line "Hi" at 123 seconds. */
  lemma ParseLineExample()
    ensures ParseLine("[02:03] Hi") == Some(LyricLine(123.0, "Hi"))
  {
    TrimmedHi();
    BracketedMinutes();
    ParseLineAt("[02:03", " Hi");
    HiLine();
  }

  /** Helper for ParseLineExample: the example line is its bracket part, the bracket and the text. */
  lemma HiLine()
    ensures "[02:03" + "]" + " Hi" == "[02:03] Hi"
  {
  }

  /** Helper for ParseLineExample: trimming the example's text drops its leading space. */
  lemma TrimmedHi()
    ensures TrimSpace(" Hi") == "Hi"
  {
    assert LeadingSpaces(" Hi") == 1;
    assert " Hi"[1..] == "Hi";
    TrimSpaceKeeps("Hi");
  }

  /** Helper for ParseLineExample: the example's bracket part is 123 seconds. */
  lemma BracketedMinutes()
    ensures TimestampSeconds(TrimBracket("[02:03")) == Some(123.0)
  {
    assert TrimBracket("[02:03") == "02:03";
    TimestampMinutes();
  }

  /** The parsed lines, in order, of the lines that parse. */
  function ParseLines(lines: seq<string>): seq<LyricLine>
  {
    Keep(ParseLine, lines)
  }

  /** What `parseLyrics` returns for a transcript. */
  function Transcript(file: string): seq<LyricLine>
  {
    ParseLines(Split(file, '\n'))
  }

  /** The body of the loop of cmd/lyrics.go:110-125 for one line; None where it continues. */
  method ReadLyricLine(line: string) returns (r: Option<LyricLine>)
    ensures r == ParseLine(line)
  {
    if line == "" {
      return None;
    }
    var parts := SplitFirst(line, ']');
    if parts.None? {
      return None;
    }
    var timestampStr := TrimBracket(parts.value.0);
    var lyric := TrimSpace(parts.value.1);
    var timestamp := ParseTimestamp(timestampStr);
    if timestamp.Err? {
      return None;
    }
    return Some(LyricLine(timestamp.value, lyric));
  }

  /**
   * `parseLyrics` (cmd/lyrics.go:106-128): the loop over the transcript's
   * lines. It never reports an error.
   */
  method ParseLyrics(file: string) returns (r: Result<seq<LyricLine>, string>)
    ensures r.Ok? && r.value == Transcript(file)
  {
    var lines := Split(file, '\n');
    var lyrics: seq<LyricLine> := [];
    for i := 0 to |lines|
      invariant lyrics == ParseLines(lines[..i])
    {
      assert lines[..i + 1][..i] == lines[..i];
      var lyric := ReadLyricLine(lines[i]);
      if lyric.Some? {
        lyrics := lyrics + [lyric.value];
      }
    }
    assert lines[..|lines|] == lines;
    return Ok(lyrics);
  }

  /** The lines of a transcript are parsed each on its own. */
  lemma TranscriptAppend(a: string, b: string)
    ensures Transcript(a + "\n" + b) == Transcript(a) + Transcript(b)
  {
    SplitAppend(a, b, '\n');
    KeepAppend(ParseLine, Split(a, '\n'), Split(b, '\n'));
  }

  /** A line that does not parse leaves its neighbours' lines as they were. */
  lemma TranscriptDropsLine(a: string, bad: string, b: string)
    requires '\n' !in bad && ParseLine(bad).None?
    ensures Transcript(a + "\n" + bad + "\n" + b) == Transcript(a) + Transcript(b)
  {
    assert Transcript(bad) == [] by {
      SplitWithout(bad, '\n');
      KeepOne(ParseLine, bad);
    }
    var rest := bad + "\n" + b;
    assert Transcript(a + "\n" + bad + "\n" + b) == Transcript(a) + Transcript(rest) by {
      Regroup(a + "\n", bad, "\n", b);
      TranscriptAppend(a, rest);
    }
    assert Transcript(rest) == Transcript(b) by {
      TranscriptAppend(bad, b);
    }
  }

  /** Empty input parses to no lines (and no error). */
  lemma TranscriptEmpty()
    ensures Transcript("") == []
  {
    assert Split("", '\n') == [""];
    assert [""][..0] == [];
  }

  /**
   * A text the cache file can hold: no newline, which would split the
   * record, and no carriage return at the end, which the line scanner would
   * drop.
   */
  predicate CacheSafe(text: string)
  {
    '\n' !in text && (|text| == 0 || text[|text| - 1] != '\r')
  }

  predicate AllCacheSafe(lines: seq<LyricLine>)
  {
    forall i :: 0 <= i < |lines| ==> CacheSafe(lines[i].text)
  }

  /** The text of a parsed line is trimmed and, from a newline-free line, newline-free. */
  lemma ParsedTextCacheSafe(line: string)
    requires '\n' !in line && ParseLine(line).Some?
    ensures CacheSafe(ParseLine(line).value.text)
    ensures TrimSpace(ParseLine(line).value.text) == ParseLine(line).value.text
  {
    var (head, rest) := SplitFirst(line, ']').value;
    assert line == head + [']'] + rest;
    assert ParseLine(line).value.text == TrimSpace(rest);
    TrimSpaceWithin(rest);
    TrimSpaceIdempotent(rest);
  }

  /** Parsed texts are trimmed and free of newlines, so the cache can hold them. */
  lemma ParsedTextsCacheSafe(lines: seq<string>)
    requires forall i :: 0 <= i < |lines| ==> '\n' !in lines[i]
    ensures AllCacheSafe(ParseLines(lines))
    ensures forall i :: 0 <= i < |ParseLines(lines)| ==> TrimSpace(ParseLines(lines)[i].text) == ParseLines(lines)[i].text
  {
    var p := (l: LyricLine) => CacheSafe(l.text) && TrimSpace(l.text) == l.text;
    forall i | 0 <= i < |lines| && ParseLine(lines[i]).Some?
      ensures p(ParseLine(lines[i]).value)
    {
      ParsedTextCacheSafe(lines[i]);
    }
    KeepAll(ParseLine, lines, p);
  }

  /** Every line of a parsed transcript can go into the cache unchanged. */
  lemma TranscriptCacheSafe(file: string)
    ensures AllCacheSafe(Transcript(file))
  {
    ParsedTextsCacheSafe(Split(file, '\n'));
  }
}
