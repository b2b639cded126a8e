# divibly, modelled in Dafny

divibly is a small DVB-T viewer written in C on top of GTK, libvlc and xosd.
This project models the part of `divibly.c` that is the program's own logic
rather than calls into those libraries.

- **Channel table.** `get_channel_info` reads a zap/tzap `channels.conf` file line by line.
  - It scans each line with one `sscanf` format of thirteen colon-separated conversions into a slot of a static 255-entry table: the name, the frequency and the program id.
  - It sets every slot's bandwidth to 8. Storing the 255th line ends the program with a failure status.
- **Cursor.** `cb_input` turns a key into a command. Digit keys set the channel cursor (`'0'` means position 9); Up and Down move it by one.
  - `play_channel` brings the cursor back into the table: past the end goes to 0, below zero to the last channel. It then builds the three tuning options `:dvb-frequency=`, `:dvb-bandwidth=` and `:program=`.
- **Subtitles and fullscreen.** `set_spu` toggles subtitles using a static `spu` and the player's list of track ids. `f`/`F` flips the fullscreen flag, which starts on.
- **Title.** `cb_set_title` sets the window title `divibly (<name>)`, cut to fit a 255-byte buffer.

The modules follow that structure:

| file | module | contents |
|---|---|---|
| `wrappers.dfy` | `Wrappers` | `Option` |
| `decimal.dfy` | `Decimal` | decimal numerals as `%u` writes and reads them; the 32-bit `unsigned int` |
| `scanf.dfy` | `Scanf` | the two `sscanf` conversions the loader uses (`%[^:]` and `%u`) and a scan that stops at the first mismatch |
| `channels.dfy` | `Channels` | `struct chan_info`, the record one line leaves in a slot, the table after a load, the option strings, the title |
| `controls.dfy` | `Controls` | key dispatch, cursor normalisation, the fullscreen flag over a run of keys, the subtitle toggle as functions |
| `viewer.dfy` | `Divibly` | class `Viewer`, which holds the globals. Its methods are the loader loop, `play_channel`, `set_spu` (with its `while` walk over the track list), `cb_input` and the title. |

Points where the model follows the code closely:

- **Partial matches.** `sscanf` stops at the first field that does not match, and the record is still counted.
  - The fields assigned before the mismatch keep their new values. A number that is not assigned keeps what the slot held.
  - A name that does not match is set to NULL. glibc allocates the buffer of a `%m` conversion before matching, and frees it and resets the pointer when the conversion fails.
  - The table starts zero-filled: a NULL name and 0 for every number. A NULL name prints as `(null)` in the title, as glibc's `printf` writes it.
- **NUL bytes.** `sscanf` reads the `fgets` buffer as a C string, so it sees each line only up to its first NUL character; the loader scans that text.
- **`%u`.** It follows glibc's `strtoul` on an LP64 target, then truncates the result to 32 bits.
  - It skips white space and accepts an optional sign.
  - It saturates above `ULONG_MAX`, and a `-` negates modulo 2^64.
- **Empty table.** `play_channel` leaves a cursor of 0 or more at slot 0, which is zero-filled, so the bandwidth option is then `0`. Only a negative cursor is outside what the code can do, because it would read before the array. That single case is the precondition of `PlayChannel` and `HandleKey`.
- **Empty track list.** `set_spu` with no tracks leaves `spu` as it was.

Two further points of the code:

- A cursor past the end is reset to 0, not reduced modulo the table length (`divibly.c:147-148`). `Controls.DigitKeyIsNotModulo` shows a case where the two differ.
- The table is a fixed array of 255 slots, and filling it ends the program (`divibly.c:49`, `divibly.c:129-133`).

## Model

| member | source | states |
|---|---|---|
| Decimal.Dec | divibly.c:152-157 | the `%u` numeral of n is non-empty, all digits, and has no leading zero unless n is 0 |
| Decimal.DecRoundTrip | divibly.c:152-157 | reading back the digits of the numeral gives the number printed |
| Decimal.DecWidth | divibly.c:143-157 | a number below 10^k prints in at most k digits |
| Decimal.DecWidthUint | divibly.c:143-157 | an `unsigned int` prints in at most 10 digits, so no 64-byte option buffer is ever truncated |
| Scanf.NonColonRun | divibly.c:123-124 | `%[^:]` takes the longest colon-free prefix, and stops only at end of input or at a ':' |
| Scanf.DigitRun | divibly.c:123-124 | `%u` takes the longest run of digits, and stops at end of input or at a non-digit |
| Scanf.SpaceRun | divibly.c:123-124 | `%u` skips exactly the leading white space |
| Scanf.StoredUnsigned | divibly.c:123-126 | a small non-negative value is stored as is, one above `ULONG_MAX` as 2^32-1, and -v as 2^32-v |
| Scanf.StoredUnsignedWraps | divibly.c:123-126 | any value up to `ULONG_MAX` is stored as its signed value (negated after a '-') modulo 2^32 |
| Scanf.ScanUnsigned | divibly.c:123-126 | a successful `%u` consumes at least one character |
| Scanf.SpaceRunPrefix | divibly.c:123-126 | `%u` skips exactly a leading run of white space |
| Scanf.ScanUnsignedSkips | divibly.c:123-126 | after white space and an optional sign, `%u` matches when a digit follows, stores the value of the digit run (negated after '-') and leaves what follows the digits |
| Scanf.ScanUnsignedReads | divibly.c:123-126 | white space, an optional sign and a digit run followed by a non-digit scan to the stored value of the digits, leaving the rest |
| Scanf.ScanUnsignedFails | divibly.c:123-126 | with no digit after the white space and the optional sign, `%u` does not match |
| Scanf.CString | divibly.c:122-123 | the text `sscanf` sees is the longest NUL-free prefix of the buffer: it holds no NUL and stops only at the end of the buffer or at a NUL |
| Scanf.CStringWhole | divibly.c:122-123 | a line without NUL is seen whole |
| Scanf.Convert | divibly.c:123-126 | a matched conversion yields a field of its kind (non-empty colon-free text, or a number), and what is left cannot extend it |
| Scanf.Run | divibly.c:123-126 | the scan assigns at most one field per conversion, each of the conversion's kind, in format order |
| Scanf.ConvertRender | divibly.c:123-126 | a conversion reads back exactly the field written for it and leaves the rest of the input |
| Scanf.RunLine | divibly.c:123-126 | a line built by joining fitting fields with ':' scans back to exactly those fields, whatever non-extending text follows |
| Channels.Store | divibly.c:123-127 | the slot's bandwidth becomes 8; its name is the text before the first ':' when that is non-empty, and NULL otherwise |
| Channels.StoreChannelLine | divibly.c:123-127 | a well-formed 13-field line stores name = field 1, freq = field 2, pid = field 13 and bandwidth 8; fields 3 to 12 are skipped |
| Channels.StoreLineWithoutColon | divibly.c:123-127 | a non-empty line with no ':' still fills the slot: the whole line becomes the name and the numbers keep their old values |
| Channels.StoreEmptyName | divibly.c:123-127 | an empty line, or one that starts with ':', sets the name to NULL and leaves frequency and program id as they were |
| Channels.StoreBadFrequency | divibly.c:123-127 | when the second field does not start a number, only the name is assigned and freq and pid keep the slot's old values |
| Channels.LoadTable | divibly.c:122-128 | the table after a load has the same number of slots as before |
| Channels.LoadTableChannelLine | divibly.c:122-128 | after a load, the slot of a well-formed line without NUL holds exactly its name, frequency and program id, with bandwidth 8 |
| Channels.LoadTableStep | divibly.c:122-128 | loading one more line changes only its own slot, which had not been touched before |
| Channels.LoadTableBandwidth | divibly.c:127 | every slot filled by a load has bandwidth 8, whatever its line holds |
| Channels.Snprintf | divibly.c:152-157 | `snprintf` keeps the whole text when it fits, and exactly its first size-1 characters when it does not |
| Channels.TuneOptions | divibly.c:152-159 | the location is `dvb://` and the options are the untruncated `:dvb-frequency=`, `:dvb-bandwidth=` and `:program=` followed by the channel's numbers |
| Channels.TuneOptionsRoundTrip | divibly.c:152-162 | the number each option carries is exactly the channel's frequency, bandwidth and program id |
| Channels.Title | divibly.c:222-225 | the title is shorter than 255 characters and is a prefix of `divibly (<name>)` |
| Channels.TitleShowsName | divibly.c:222-225 | a name of up to 244 characters appears whole in the title and can be read back from it |
| Channels.TitleCutsLongName | divibly.c:222-225 | a longer name is cut so that the title is exactly 254 characters |
| Controls.Dispatch | divibly.c:171-206 | f/F and only they toggle fullscreen, s/S and only they toggle subtitles, q/Q/Escape and only they quit, and digits and arrows and only they select; a digit selects a position from 0 to 9 |
| Controls.DigitKey | divibly.c:182-189 | each position 0 to 9 has a digit key |
| Controls.DigitKeySelects | divibly.c:182-189 | key '1'+j selects position j for j up to 8, and '0' selects 9, wherever the cursor is |
| Controls.DigitKeyInjective | divibly.c:182-189 | different positions have different digit keys |
| Controls.Normalise | divibly.c:147-150 | with channels, the cursor ends inside the table; an in-range cursor is unchanged, one at or past the end becomes 0 and a negative one n-1; the result is negative only for a negative cursor on an empty table |
| Controls.Press | divibly.c:182-197 | a selecting key leaves the cursor inside a non-empty table; any other key leaves it where it was |
| Controls.ArrowsWrap | divibly.c:190-197 | Up on the last channel goes to the first, and Down on the first goes to the last |
| Controls.ArrowsInverse | divibly.c:190-197 | Down undoes Up and Up undoes Down on every channel |
| Controls.DigitKeyPress | divibly.c:182-189 | a digit key selects its position when the table is long enough, and the first channel otherwise |
| Controls.DigitKeyIsNotModulo | divibly.c:147-148 | with 3 channels, the key for position 4 goes to 0, which is not 4 mod 3 |
| Controls.UpTimes | divibly.c:190-193 | pressing Up k times from channel i reaches (i + k) mod n |
| Controls.DownTimes | divibly.c:194-197 | pressing Down k times from channel i reaches (i - k) mod n |
| Controls.FullscreenAfter | divibly.c:172-181 | the flag over a run of keys starts on and stays on when no key is f or F |
| Controls.FullscreenParity | divibly.c:172-181 | starting fullscreen, the window is fullscreen exactly when f/F has been pressed an even number of times |
| Controls.ToggleSpu | divibly.c:73-76 | subtitles that are on are always switched off |
| Controls.ScanTracks | divibly.c:79-85 | the walk over the track ids ends on one of them, or keeps the old value when the list is empty |
| Controls.ScanFindsFirstEnabled | divibly.c:79-85 | the walk over the track list stops at the first id above -1 |
| Controls.ScanAllDisabled | divibly.c:79-85 | with no id above -1, the walk ends on the last id, or keeps the old value when the list is empty |
| Controls.ToggleOnIff | divibly.c:67-89 | starting from off, the toggle turns subtitles on exactly when some track id is above -1 |
| Controls.ToggleTwice | divibly.c:67-89 | when an enabled track exists, two toggles from on come back on at the first enabled track, and two from off come back off |
| Divibly.Viewer.constructor | divibly.c:36-49 | the start state: a zero-filled table of 255 slots, no channels, cursor 0, fullscreen on, subtitles off |
| Divibly.Viewer.LoadChannels | divibly.c:115-138 | slot k holds the scan of line k, for up to 255 lines; fewer than 255 lines end normally and set the channel count to the number of lines; the 255th line ends the program instead; every loaded slot has bandwidth 8 |
| Divibly.Viewer.LoadedBandwidth | divibly.c:127 | the slots a load filled in the table have bandwidth 8 |
| Divibly.Viewer.PlayChannel | divibly.c:140-167 | the cursor becomes its normalised value, the options are those of the channel it then points at, and with channels loaded the bandwidth option is 8 |
| Divibly.Viewer.SetSpu | divibly.c:67-89 | the new spu is the toggle of the old one over the track list, and is the id handed to the player |
| Divibly.Viewer.HandleKey | divibly.c:169-207 | only f/F changes fullscreen and only s/S changes spu; the cursor becomes its value after the key; the reaction is the command's own: fullscreen set, channel tuned, subtitle id, quit or nothing |
| Divibly.Viewer.WindowTitle | divibly.c:219-226 | the title for the current channel is shorter than 255 characters and a prefix of `divibly (<name>)` |

## Left out

- GTK: window creation, the `destroy` and key signals, the fullscreen calls and `gtk_main`. These are calls into the toolkit; only the `fullscreen` flag they shadow is modelled.
- libvlc: media creation, adding the options, play, setting the subtitle track, the X window, deinterlacing and the event attach. These are foreign calls; the location, the option strings and the chosen subtitle id are returned instead.
- xosd and the POSIX timer: the overlay and the signal-driven `kill_osd` and `set_osd_timer`. These are asynchronous and foreign.
- `cb_realize`: it only calls the player and then `play_channel`, which `PlayChannel` covers.
- File I/O: `fopen`, `fgets` and `fclose`. The file is given as its sequence of lines.
  - The unchecked NULL file pointer is not modelled.
  - Lines longer than 4095 bytes, which `fgets` splits into several table entries, are not modelled.
- Divibly.Viewer.LoadChannels: the failure message on standard error and the exit itself are not modelled; the method returns `MaxChannelsReached` at the point where the program exits.
- `main`: the usage check on the argument count, and the order in which it sets things up, are not modelled.
- Memory: `%m` allocation, the names never freed, and the track list never released are not modelled.
- Characters: the model treats characters as the bytes of the file. There is no locale and no multibyte text.
- Scanf.StoredUnsigned: assumes an LP64 target, where `unsigned long` has 64 bits.
- Divibly.Viewer.PlayChannel: does not model a negative cursor on an empty table. The code then reads before the start of the array, which is undefined behaviour, so the precondition excludes it.
- The `gtk_main_quit` of the quit keys is modelled only as the `QuitRequested` reaction.
