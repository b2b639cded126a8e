/**
 * The channel record of divibly.c, how one line of a zap/tzap channels.conf
 * file fills it, and the strings built from it: the three tuning options
 * handed to the player and the window title.
 */
module Channels {
  import opened Wrappers
  import opened Decimal
  import opened Scanf

  /** Capacity of the static channel table. */
  const MAX_CHANNELS: int := 255
  /** Every channel is tuned with an 8 MHz bandwidth, whatever the file says. */
  const BANDWIDTH_MHZ: uint32 := 8

  /** struct chan_info; a NULL name is None. */
  datatype ChanInfo = ChanInfo(name: Option<string>, freq: uint32, bandwidth: uint32, pid: uint32)

  /** A slot of the zero-filled static table: NULL name, every number 0. */
  const BLANK: ChanInfo := ChanInfo(None, 0, 0, 0)

  /**
   * The thirteen conversions of the loader's format, one per field of a
   * channels.conf line: a text, a number, eight texts, three numbers. Only
   * the first, the second and the last are assigned.
   */
  const CHANNEL_FORMAT: seq<Conversion> :=
    [NonColons, Unsigned,
     NonColons, NonColons, NonColons, NonColons, NonColons, NonColons, NonColons, NonColons,
     Unsigned, Unsigned, Unsigned]
  const NAME_FIELD: nat := 0
  const FREQ_FIELD: nat := 1
  const PID_FIELD: nat := 12

  /**
   * The record left in a table slot that held prev after the loader scans
   * line into it. sscanf assigns name, frequency and program id only when the
   * conversions up to theirs matched; an unassigned number keeps its old
   * value. The name is different: glibc allocates the %m buffer before
   * matching and, when the conversion fails, frees it and sets the pointer
   * to NULL. The bandwidth is set unconditionally.
   */
  function Store(prev: ChanInfo, line: string): (r: ChanInfo)
    ensures r.bandwidth == BANDWIDTH_MHZ
    ensures r.name == if NonColonRun(line) > 0 then Some(line[..NonColonRun(line)]) else None
  {
    var fs := Run(line, CHANNEL_FORMAT);
    assert |fs| > NAME_FIELD ==> Fits(CHANNEL_FORMAT[NAME_FIELD], fs[NAME_FIELD]);
    assert |fs| > FREQ_FIELD ==> Fits(CHANNEL_FORMAT[FREQ_FIELD], fs[FREQ_FIELD]);
    assert |fs| > PID_FIELD ==> Fits(CHANNEL_FORMAT[PID_FIELD], fs[PID_FIELD]);
    ChanInfo(
      if |fs| > NAME_FIELD then Some(fs[NAME_FIELD].text) else None,
      if |fs| > FREQ_FIELD then fs[FREQ_FIELD].num else prev.freq,
      BANDWIDTH_MHZ,
      if |fs| > PID_FIELD then fs[PID_FIELD].num else prev.pid)
  }

  /**
   * The table after the loader has scanned lines[k] into slot k of prev,
   * for every k below |lines|; sscanf sees each line up to its first NUL.
   */
  function LoadTable(prev: seq<ChanInfo>, lines: seq<string>): (table: seq<ChanInfo>)
    requires |lines| <= |prev|
    ensures |table| == |prev|
  {
    seq(|prev|, k requires 0 <= k < |prev| => if k < |lines| then Store(prev[k], CString(lines[k])) else prev[k])
  }

  /** Loading one more line changes only its slot, which held its old value until then. */
  lemma LoadTableStep(prev: seq<ChanInfo>, lines: seq<string>, i: nat)
    requires i < |lines| && i < |prev|
    ensures LoadTable(prev, lines[..i])[i] == prev[i]
    ensures LoadTable(prev, lines[..i + 1]) == LoadTable(prev, lines[..i])[i := Store(prev[i], CString(lines[i]))]
  {
    var before, after := LoadTable(prev, lines[..i]), LoadTable(prev, lines[..i + 1]);
    forall k | 0 <= k < |prev| ensures after[k] == before[i := Store(prev[i], CString(lines[i]))][k] {
      if k < i {
        assert lines[..i + 1][k] == lines[..i][k];
      }
    }
  }

  /** Every slot the loader fills is tuned at 8 MHz. */
  lemma LoadTableBandwidth(prev: seq<ChanInfo>, lines: seq<string>)
    requires |lines| <= |prev|
    ensures forall k :: 0 <= k < |lines| ==> LoadTable(prev, lines)[k].bandwidth == BANDWIDTH_MHZ
  {
    forall k | 0 <= k < |lines| ensures LoadTable(prev, lines)[k].bandwidth == BANDWIDTH_MHZ {
    }
  }

  /** Fields 1 to 13 of a channels.conf line: name, frequency, eight text fields, two numbers, program id. */
  function ChannelFields(name: string, freq: uint32, skipped: seq<string>, n11: uint32, n12: uint32, pid: uint32)
    : (fs: seq<Field>)
    requires |skipped| == 8
    ensures |fs| == |CHANNEL_FORMAT|
  {
    [Text(name), Num(freq)] + seq(8, i requires 0 <= i < 8 => Text(skipped[i])) + [Num(n11), Num(n12), Num(pid)]
  }

  /** The text fields of a well-formed line are non-empty and hold no ':'. */
  predicate WellFormedTexts(name: string, skipped: seq<string>) {
    name != [] && ColonFree(name) &&
    |skipped| == 8 && forall i :: 0 <= i < 8 ==> skipped[i] != [] && ColonFree(skipped[i])
  }

  /**
   * A well-formed line "name:freq:f3:...:f10:n11:n12:pid", followed by
   * anything that does not start with a digit (such as the newline fgets
   * keeps), stores exactly its name, frequency and program id.
   */
  lemma StoreChannelLine(prev: ChanInfo, name: string, freq: uint32, skipped: seq<string>,
                         n11: uint32, n12: uint32, pid: uint32, tail: string)
    requires WellFormedTexts(name, skipped)
    requires tail == [] || !IsDigit(tail[0])
    ensures Store(prev, Line(ChannelFields(name, freq, skipped, n11, n12, pid)) + tail)
         == ChanInfo(Some(name), freq, BANDWIDTH_MHZ, pid)
  {
    var fs := ChannelFields(name, freq, skipped, n11, n12, pid);
    forall i | 0 <= i < |fs| ensures Fits(CHANNEL_FORMAT[i], fs[i]) {
      if 2 <= i < 10 {
        assert fs[i] == Text(skipped[i - 2]);
      }
    }
    RunLine(fs, CHANNEL_FORMAT, tail);
  }

  /**
   * After a load, the slot of a well-formed line without NUL holds exactly
   * that line's name, frequency and program id, tuned at 8 MHz.
   */
  lemma LoadTableChannelLine(prev: seq<ChanInfo>, lines: seq<string>, k: nat, name: string, freq: uint32,
                             skipped: seq<string>, n11: uint32, n12: uint32, pid: uint32, tail: string)
    requires |lines| <= |prev| && k < |lines|
    requires WellFormedTexts(name, skipped)
    requires tail == [] || !IsDigit(tail[0])
    requires lines[k] == Line(ChannelFields(name, freq, skipped, n11, n12, pid)) + tail && '\0' !in lines[k]
    ensures LoadTable(prev, lines)[k] == ChanInfo(Some(name), freq, BANDWIDTH_MHZ, pid)
  {
    CStringWhole(lines[k]);
    StoreChannelLine(prev[k], name, freq, skipped, n11, n12, pid, tail);
  }

  /**
   * A line with no ':' at all (a blank line, a comment) still takes a table
   * slot: the whole line becomes the name and the numbers stay as they were.
   */
  lemma StoreLineWithoutColon(prev: ChanInfo, line: string)
    requires line != [] && ColonFree(line)
    ensures Store(prev, line) == prev.(name := Some(line), bandwidth := BANDWIDTH_MHZ)
  {
    ColonFreeRun(line, []);
    assert line + [] == line;
  }

  /**
   * A line that is empty or starts with ':' matches nothing: the name
   * becomes NULL and the numbers keep the values the slot held.
   */
  lemma StoreEmptyName(prev: ChanInfo, line: string)
    requires line == [] || line[0] == ':'
    ensures Store(prev, line) == prev.(name := None, bandwidth := BANDWIDTH_MHZ)
  {
    assert Convert(line, NonColons) == None;
  }

  /**
   * A line whose frequency field does not start a number (after the name and
   * its ':') stops the scan there: the name is stored and the frequency and
   * program id keep the values the slot held.
   */
  lemma StoreBadFrequency(prev: ChanInfo, name: string, rest: string)
    requires name != [] && ColonFree(name)
    requires rest == [] || !(IsSpace(rest[0]) || rest[0] == '+' || rest[0] == '-' || IsDigit(rest[0]))
    ensures Store(prev, name + ":" + rest) == ChanInfo(Some(name), prev.freq, BANDWIDTH_MHZ, prev.pid)
  {
    ConvertRender(NonColons, Text(name), ":" + rest);
    assert name + ":" + rest == Render(Text(name)) + (":" + rest);
    RunStep(name + ":" + rest, CHANNEL_FORMAT, Text(name), rest);
    assert SpaceRun(rest) == 0 && DigitRun(rest) == 0;
    assert Convert(rest, Unsigned) == None;
  }

  /** The three tuning options of play_channel and the location they go with. */
  datatype Tuning = Tuning(location: string, frequency: string, bandwidth: string, program: string)

  const DVB_LOCATION: string := "dvb://"
  const FREQUENCY_OPTION: string := ":dvb-frequency="
  const BANDWIDTH_OPTION: string := ":dvb-bandwidth="
  const PROGRAM_OPTION: string := ":program="
  /** Size of each option buffer of play_channel. */
  const OPTION_SIZE: nat := 64
  /** Size of the title buffer of cb_set_title. */
  const TITLE_SIZE: nat := 255

  /** What snprintf leaves in a buffer of the given size: at most size - 1 characters of s. */
  function Snprintf(s: string, size: nat): (r: string)
    requires size > 0
    ensures |r| < size && r <= s
    ensures |s| < size ==> r == s
    ensures |s| >= size ==> r == s[..size - 1]
  {
    if |s| < size then s else s[..size - 1]
  }

  /** The options play_channel hands to the player for channel c; none is ever truncated. */
  function TuneOptions(c: ChanInfo): (t: Tuning)
    ensures t.location == DVB_LOCATION
    ensures t.frequency == FREQUENCY_OPTION + Dec(c.freq)
    ensures t.bandwidth == BANDWIDTH_OPTION + Dec(c.bandwidth)
    ensures t.program == PROGRAM_OPTION + Dec(c.pid)
  {
    DecWidthUint(c.freq);
    DecWidthUint(c.bandwidth);
    DecWidthUint(c.pid);
    Tuning(DVB_LOCATION,
           Snprintf(FREQUENCY_OPTION + Dec(c.freq), OPTION_SIZE),
           Snprintf(BANDWIDTH_OPTION + Dec(c.bandwidth), OPTION_SIZE),
           Snprintf(PROGRAM_OPTION + Dec(c.pid), OPTION_SIZE))
  }

  /** The number an option "<key><digits>" carries, if it has that form. */
  function OptionValue(key: string, option: string): Option<nat> {
    if |key| < |option| && option[..|key|] == key && AllDigits(option[|key|..])
    then Some(DigitsValue(option[|key|..]))
    else None
  }

  /** The player reads back from the options exactly the channel's frequency, bandwidth and program id. */
  lemma TuneOptionsRoundTrip(c: ChanInfo)
    ensures OptionValue(FREQUENCY_OPTION, TuneOptions(c).frequency) == Some(c.freq)
    ensures OptionValue(BANDWIDTH_OPTION, TuneOptions(c).bandwidth) == Some(c.bandwidth)
    ensures OptionValue(PROGRAM_OPTION, TuneOptions(c).program) == Some(c.pid)
  {
    var t := TuneOptions(c);
    assert t.frequency[|FREQUENCY_OPTION|..] == Dec(c.freq);
    assert t.bandwidth[|BANDWIDTH_OPTION|..] == Dec(c.bandwidth);
    assert t.program[|PROGRAM_OPTION|..] == Dec(c.pid);
    DecRoundTrip(c.freq);
    DecRoundTrip(c.bandwidth);
    DecRoundTrip(c.pid);
  }

  /** What glibc's printf writes for a %s argument: the text, or "(null)" for NULL. */
  function NameText(name: Option<string>): string {
    match name
    case None => "(null)"
    case Some(t) => t
  }

  const TITLE_PREFIX: string := "divibly ("
  const TITLE_SUFFIX: string := ")"

  /** The window title cb_set_title sets for a channel name: at most 254 characters. */
  function Title(name: Option<string>): (t: string)
    ensures |t| < TITLE_SIZE
    ensures t <= TITLE_PREFIX + NameText(name) + TITLE_SUFFIX
  {
    Snprintf(TITLE_PREFIX + NameText(name) + TITLE_SUFFIX, TITLE_SIZE)
  }

  /** A name of up to 244 characters appears whole in the title, and can be read back from it. */
  lemma TitleShowsName(name: string)
    requires |name| <= TITLE_SIZE - 1 - |TITLE_PREFIX| - |TITLE_SUFFIX|
    ensures Title(Some(name)) == TITLE_PREFIX + name + TITLE_SUFFIX
    ensures Title(Some(name))[|TITLE_PREFIX|..|Title(Some(name))| - |TITLE_SUFFIX|] == name
  {
  }

  /** A longer name is cut: the title is its first 254 characters. */
  lemma TitleCutsLongName(name: string)
    requires |name| > TITLE_SIZE - 1 - |TITLE_PREFIX| - |TITLE_SUFFIX|
    ensures |Title(Some(name))| == TITLE_SIZE - 1
    ensures Title(Some(name)) == TITLE_PREFIX + name[..TITLE_SIZE - 1 - |TITLE_PREFIX|]
  {
  }
}
