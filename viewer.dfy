/**
 * The global state of divibly.c and the handlers that change it: the channel
 * table and its loader, play_channel, set_spu, cb_input and the title of
 * cb_set_title. Calls into GTK, libvlc and xosd are not modelled; what they
 * would be given (tuning options, subtitle track id, title) is returned.
 */
module Divibly {
  import opened Wrappers
  import opened Channels
  import opened Controls
  import opened Scanf

  /** How get_channel_info ends: it returns, or exits with a failure status once the table is full. */
  datatype LoadOutcome = Loaded | MaxChannelsReached

  /** What a key press hands to the toolkit or the player. */
  datatype Reaction =
    | FullscreenSet(on: bool)
    | Tuned(tuning: Tuning)
    | SubtitleSet(spu: int)
    | QuitRequested
    | Nothing

  function Min(a: int, b: int): int {
    if a < b then a else b
  }

  /** The program's globals: the channel table, its length, the cursor, the fullscreen flag and set_spu's static spu. */
  class Viewer {
    var channels: array<ChanInfo>
    var nrChannels: int
    var chanIdx: int
    var fullscreen: bool
    var spu: int

    /** The table has its fixed capacity, its length stays below it, and every loaded channel is tuned at 8 MHz. */
    ghost predicate Valid()
      reads this, channels
    {
      channels.Length == MAX_CHANNELS &&
      0 <= nrChannels < MAX_CHANNELS &&
      forall k :: 0 <= k < nrChannels ==> channels[k].bandwidth == BANDWIDTH_MHZ
    }

    /** The state at program start: a zero-filled table, cursor 0, fullscreen on, subtitles off. */
    constructor ()
      ensures Valid() && fresh(channels)
      ensures forall k :: 0 <= k < channels.Length ==> channels[k] == BLANK
      ensures nrChannels == 0 && chanIdx == 0 && fullscreen && spu == -1
    {
      channels := new ChanInfo[MAX_CHANNELS](_ => BLANK);
      nrChannels := 0;
      chanIdx := 0;
      fullscreen := true;
      spu := -1;
    }

    /**
     * get_channel_info over the lines fgets reads: line k is scanned into
     * slot k. Storing the 255th line ends the program; otherwise the table
     * length becomes the number of lines.
     */
    method LoadChannels(lines: seq<string>) returns (outcome: LoadOutcome)
      requires Valid()
      modifies this`nrChannels, channels
      ensures Valid()
      ensures outcome == if |lines| < MAX_CHANNELS then Loaded else MaxChannelsReached
      ensures nrChannels == if outcome.Loaded? then |lines| else old(nrChannels)
      ensures channels[..] == LoadTable(old(channels[..]), lines[..Min(|lines|, MAX_CHANNELS)])
    {
      ghost var prev := channels[..];
      var i := 0;
      while i < |lines|
        invariant 0 <= i <= |lines| && i < MAX_CHANNELS
        invariant nrChannels == old(nrChannels)
        invariant channels[..] == LoadTable(prev, lines[..i])
      {
        LoadTableStep(prev, lines, i);
        channels[i] := Store(channels[i], CString(lines[i]));
        i := i + 1;
        if i == MAX_CHANNELS {
          LoadedBandwidth(prev, lines[..i]);
          return MaxChannelsReached;
        }
      }
      assert lines[..i] == lines;
      LoadedBandwidth(prev, lines);
      nrChannels := i;
      return Loaded;
    }

    /** Slots filled by the loader are tuned at 8 MHz. */
    lemma LoadedBandwidth(prev: seq<ChanInfo>, lines: seq<string>)
      requires |lines| <= |prev| && channels[..] == LoadTable(prev, lines)
      ensures forall k :: 0 <= k < |lines| ==> channels[k].bandwidth == BANDWIDTH_MHZ
    {
      LoadTableBandwidth(prev, lines);
      forall k | 0 <= k < |lines| ensures channels[k].bandwidth == BANDWIDTH_MHZ {
        assert channels[k] == channels[..][k];
      }
    }

    /**
     * play_channel: bring the cursor back into the table, then tune to the
     * channel it points at. With an empty table only a negative cursor is
     * refused, because it would read outside the array; a cursor at 0 or
     * above tunes to the zero-filled slot 0.
     */
    method PlayChannel() returns (tuning: Tuning)
      requires Valid() && (nrChannels > 0 || chanIdx >= 0)
      modifies this`chanIdx
      ensures Valid()
      ensures chanIdx == Normalise(old(chanIdx), nrChannels)
      ensures tuning == TuneOptions(channels[chanIdx])
      ensures nrChannels > 0 ==> tuning.bandwidth == BANDWIDTH_OPTION + "8"
    {
      if chanIdx >= nrChannels {
        chanIdx := 0;
      } else if chanIdx < 0 {
        chanIdx := nrChannels - 1;
      }
      tuning := TuneOptions(channels[chanIdx]);
    }

    /**
     * set_spu: turn subtitles off if they are on, otherwise walk the track
     * ids the player reports and take the first one above -1. Returns the id
     * handed to the player.
     */
    method SetSpu(tracks: seq<int>) returns (id: int)
      modifies this`spu
      ensures spu == ToggleSpu(old(spu), tracks) && id == spu
    {
      if spu > -1 {
        spu := -1;
        return spu;
      }
      var i := 0;
      while i < |tracks|
        invariant 0 <= i <= |tracks|
        invariant spu <= -1
        invariant ToggleSpu(old(spu), tracks) == ScanTracks(spu, tracks[i..])
      {
        spu := tracks[i];
        if spu > -1 {
          break;
        }
        i := i + 1;
      }
      id := spu;
    }

    /**
     * cb_input: the reaction to one key press; tracks are the subtitle track
     * ids the player would report at that moment.
     */
    method HandleKey(key: nat, tracks: seq<int>) returns (reaction: Reaction)
      requires Valid()
      requires Dispatch(key, chanIdx).Select? ==> nrChannels > 0 || Dispatch(key, chanIdx).index >= 0
      modifies this`chanIdx, this`fullscreen, this`spu
      ensures Valid()
      ensures fullscreen == if Dispatch(key, old(chanIdx)).ToggleFullscreen? then !old(fullscreen) else old(fullscreen)
      ensures spu == if Dispatch(key, old(chanIdx)).ToggleSubtitles? then ToggleSpu(old(spu), tracks) else old(spu)
      ensures chanIdx == Press(key, old(chanIdx), nrChannels)
      ensures reaction == match Dispatch(key, old(chanIdx))
        case ToggleFullscreen => FullscreenSet(fullscreen)
        case Select(_) => Tuned(TuneOptions(channels[chanIdx]))
        case ToggleSubtitles => SubtitleSet(spu)
        case Quit => QuitRequested
        case Ignore => Nothing
    {
      match Dispatch(key, chanIdx)
      case ToggleFullscreen =>
        fullscreen := !fullscreen;
        reaction := FullscreenSet(fullscreen);
      case Select(i) =>
        chanIdx := i;
        var tuning := PlayChannel();
        reaction := Tuned(tuning);
      case ToggleSubtitles =>
        var id := SetSpu(tracks);
        reaction := SubtitleSet(id);
      case Quit =>
        reaction := QuitRequested;
      case Ignore =>
        reaction := Nothing;
    }

    /** The title cb_set_title gives the window for the current channel. */
    function WindowTitle(): (title: string)
      reads this, channels
      requires 0 <= chanIdx < channels.Length
      ensures |title| < TITLE_SIZE
      ensures title <= TITLE_PREFIX + NameText(channels[chanIdx].name) + TITLE_SUFFIX
    {
      Title(channels[chanIdx].name)
    }
  }
}
