/**
 * The keyboard side of divibly.c: which command each key stands for, how the
 * channel cursor is brought back into the table, the fullscreen flag, and
 * the subtitle toggle of set_spu.
 */
module Controls {

  // GDK key values (X keysyms) that cb_input switches on.
  const KEY_0: nat := 0x030
  const KEY_1: nat := 0x031
  const KEY_9: nat := 0x039
  const KEY_F: nat := 0x046
  const KEY_Q: nat := 0x051
  const KEY_S: nat := 0x053
  const KEY_f: nat := 0x066
  const KEY_q: nat := 0x071
  const KEY_s: nat := 0x073
  const KEY_Escape: nat := 0xff1b
  const KEY_Up: nat := 0xff52
  const KEY_Down: nat := 0xff54

  /** What a key press asks for; Select carries the raw cursor value before play_channel normalises it. */
  datatype Command = ToggleFullscreen | Select(index: int) | ToggleSubtitles | Quit | Ignore

  predicate IsDigitKey(key: nat) {
    KEY_0 <= key <= KEY_9
  }

  /** The command cb_input runs for a key pressed while the cursor is at idx. */
  function Dispatch(key: nat, idx: int): (c: Command)
    ensures c.ToggleFullscreen? <==> key == KEY_f || key == KEY_F
    ensures c.ToggleSubtitles? <==> key == KEY_s || key == KEY_S
    ensures c.Quit? <==> key == KEY_q || key == KEY_Q || key == KEY_Escape
    ensures c.Select? <==> IsDigitKey(key) || key == KEY_Up || key == KEY_Down
    ensures IsDigitKey(key) ==> 0 <= c.index <= 9
  {
    if key == KEY_f || key == KEY_F then ToggleFullscreen
    else if key == KEY_0 then Select(9)
    else if KEY_1 <= key <= KEY_9 then Select(key - KEY_1)
    else if key == KEY_Up then Select(idx + 1)
    else if key == KEY_Down then Select(idx - 1)
    else if key == KEY_s || key == KEY_S then ToggleSubtitles
    else if key == KEY_q || key == KEY_Q || key == KEY_Escape then Quit
    else Ignore
  }

  /** The key that selects position j (0 to 9) of the table: '1' to '9', then '0'. */
  function DigitKey(j: nat): (key: nat)
    requires j <= 9
    ensures IsDigitKey(key)
  {
    if j == 9 then KEY_0 else KEY_1 + j
  }

  /** Digit keys and table positions 0 to 9 correspond one to one. */
  lemma DigitKeySelects(j: nat, idx: int)
    requires j <= 9
    ensures Dispatch(DigitKey(j), idx) == Select(j)
  {
  }

  lemma DigitKeyInjective(j: nat, k: nat)
    requires j <= 9 && k <= 9 && DigitKey(j) == DigitKey(k)
    ensures j == k
  {
  }

  /**
   * play_channel's correction of the cursor for a table of n channels: an
   * index past the end goes to the first channel, a negative one to the last.
   * With an empty table a negative index stays negative, so the slot read
   * next lies outside the array.
   */
  function Normalise(i: int, n: nat): (j: int)
    ensures n > 0 ==> 0 <= j < n
    ensures 0 <= i < n ==> j == i
    ensures j >= 0 <==> n > 0 || i >= 0
    ensures i >= n ==> j == 0
    ensures i < 0 ==> j == n - 1
  {
    if i >= n then 0 else if i < 0 then n - 1 else i
  }

  /** The cursor after a key press, in a table of n channels. */
  function Press(key: nat, idx: int, n: nat): (j: int)
    ensures n > 0 && Dispatch(key, idx).Select? ==> 0 <= j < n
    ensures !Dispatch(key, idx).Select? ==> j == idx
  {
    match Dispatch(key, idx)
    case Select(i) => Normalise(i, n)
    case _ => idx
  }

  /** Up on the last channel wraps to the first; Down on the first wraps to the last. */
  lemma ArrowsWrap(n: nat)
    requires n > 0
    ensures Press(KEY_Up, n - 1, n) == 0
    ensures Press(KEY_Down, 0, n) == n - 1
  {
  }

  /** Down undoes Up, and Up undoes Down, on every channel. */
  lemma ArrowsInverse(i: int, n: nat)
    requires 0 <= i < n
    ensures Press(KEY_Down, Press(KEY_Up, i, n), n) == i
    ensures Press(KEY_Up, Press(KEY_Down, i, n), n) == i
  {
  }

  /**
   * A digit key selects its position when the table is long enough, and the
   * first channel otherwise: play_channel resets, it does not reduce modulo n.
   */
  lemma DigitKeyPress(j: nat, idx: int, n: nat)
    requires j <= 9 && n > 0
    ensures Press(DigitKey(j), idx, n) == if j < n then j else 0
  {
  }

  lemma DigitKeyIsNotModulo()
    ensures Press(DigitKey(4), 0, 3) == 0 != 4 % 3
  {
  }

  /** The cursor after pressing key k times from idx. */
  function PressTimes(key: nat, k: nat, idx: int, n: nat): int {
    if k == 0 then idx else Press(key, PressTimes(key, k - 1, idx, n), n)
  }

  /** Pressing Up k times cycles through the table: k steps forward modulo n. */
  lemma {:induction false} UpTimes(k: nat, i: int, n: nat)
    requires 0 <= i < n
    ensures PressTimes(KEY_Up, k, i, n) == (i + k) % n
  {
    if k > 0 {
      UpTimes(k - 1, i, n);
      var p := (i + k - 1) % n;
      assert (i + k) % n == if p == n - 1 then 0 else p + 1 by {
        ModuloStep(i + k - 1, n);
      }
    }
  }

  /** Pressing Down k times cycles backwards: k steps back modulo n. */
  lemma {:induction false} DownTimes(k: nat, i: int, n: nat)
    requires 0 <= i < n
    ensures PressTimes(KEY_Down, k, i, n) == (i - k) % n
  {
    if k > 0 {
      DownTimes(k - 1, i, n);
      var p := (i - k + 1) % n;
      assert (i - k) % n == if p == 0 then n - 1 else p - 1 by {
        ModuloStep(i - k, n);
      }
    }
  }

  /** One step of Euclidean remainder: (m + 1) % n follows m % n round the cycle. */
  lemma ModuloStep(m: int, n: int)
    requires n > 0
    ensures (m + 1) % n == if m % n == n - 1 then 0 else m % n + 1
  {
    var q, r := m / n, m % n;
    if r == n - 1 {
      ModuloUnique(m + 1, n, q + 1, 0);
    } else {
      ModuloUnique(m + 1, n, q, r + 1);
    }
  }

  /** The remainder is the r of any decomposition x == q * n + r with 0 <= r < n. */
  lemma ModuloUnique(x: int, n: int, q: int, r: int)
    requires n > 0 && 0 <= r < n && x == q * n + r
    ensures x % n == r
  {
    var q0, r0 := x / n, x % n;
    assert (q - q0) * n == r0 - r;
    if q != q0 {
      MultipleBound(q - q0, n);
    }
  }

  lemma {:induction false} MultipleBound(a: int, n: int)
    requires n > 0 && a != 0
    ensures a * n >= n || a * n <= -n
    decreases if a > 0 then a else -a
  {
    if a > 1 {
      MultipleBound(a - 1, n);
      assert a * n == (a - 1) * n + n;
    } else if a < -1 {
      MultipleBound(a + 1, n);
      assert a * n == (a + 1) * n - n;
    }
  }

  /** The fullscreen flag after a run of key presses: it starts true and each f or F flips it. */
  function FullscreenAfter(keys: seq<nat>): (on: bool)
    ensures (forall i :: 0 <= i < |keys| ==> keys[i] != KEY_f && keys[i] != KEY_F) ==> on
  {
    if keys == [] then true
    else
      var before := FullscreenAfter(keys[..|keys| - 1]);
      if Dispatch(keys[|keys| - 1], 0).ToggleFullscreen? then !before else before
  }

  /** How many of the keys are f or F. */
  function FullscreenPresses(keys: seq<nat>): nat {
    if keys == [] then 0
    else FullscreenPresses(keys[..|keys| - 1]) + (if keys[|keys| - 1] in {KEY_f, KEY_F} then 1 else 0)
  }

  /** The window is fullscreen exactly when f or F was pressed an even number of times. */
  lemma {:induction false} FullscreenParity(keys: seq<nat>)
    ensures FullscreenAfter(keys) <==> FullscreenPresses(keys) % 2 == 0
  {
    if keys != [] {
      FullscreenParity(keys[..|keys| - 1]);
    }
  }

  /**
   * The loop of set_spu over the subtitle track ids: each id visited is
   * stored, and the walk stops at the first one above -1. With no track the
   * value stays last.
   */
  function ScanTracks(last: int, ids: seq<int>): (r: int)
    ensures ids == [] ==> r == last
    ensures ids != [] ==> r in ids
    decreases |ids|
  {
    if ids == [] then last
    else if ids[0] > -1 then ids[0]
    else ScanTracks(ids[0], ids[1..])
  }

  /** set_spu: switch subtitles off when on, otherwise on to the track the walk finds. */
  function ToggleSpu(spu: int, ids: seq<int>): (r: int)
    ensures spu > -1 ==> r == -1
  {
    if spu > -1 then -1 else ScanTracks(spu, ids)
  }

  /** The walk chooses the first track id above -1. */
  lemma {:induction false} ScanFindsFirstEnabled(last: int, ids: seq<int>, k: nat)
    requires k < |ids| && ids[k] > -1
    requires forall j :: 0 <= j < k ==> ids[j] <= -1
    ensures ScanTracks(last, ids) == ids[k]
    decreases |ids|
  {
    if k > 0 {
      ScanFindsFirstEnabled(ids[0], ids[1..], k - 1);
    }
  }

  /** With no id above -1, the walk ends on the last id, or keeps the old value for an empty list. */
  lemma {:induction false} ScanAllDisabled(last: int, ids: seq<int>)
    requires forall j :: 0 <= j < |ids| ==> ids[j] <= -1
    ensures ScanTracks(last, ids) == if ids == [] then last else ids[|ids| - 1]
    decreases |ids|
  {
    if ids != [] {
      ScanAllDisabled(ids[0], ids[1..]);
    }
  }

  /** Starting from off, the toggle turns subtitles on exactly when some track id is above -1. */
  lemma {:induction false} ToggleOnIff(spu: int, ids: seq<int>)
    requires spu <= -1
    ensures ToggleSpu(spu, ids) > -1 <==> exists k :: 0 <= k < |ids| && ids[k] > -1
    decreases |ids|
  {
    if ids != [] && ids[0] <= -1 {
      ToggleOnIff(ids[0], ids[1..]);
      if exists k :: 0 <= k < |ids| && ids[k] > -1 {
        var k :| 0 <= k < |ids| && ids[k] > -1;
        assert ids[1..][k - 1] > -1;
      }
    }
  }

  /** With an enabled track available, two toggles from on come back on (to the first enabled track), and from off come back off. */
  lemma ToggleTwice(spu: int, ids: seq<int>, k: nat)
    requires k < |ids| && ids[k] > -1
    ensures spu > -1 ==> ToggleSpu(ToggleSpu(spu, ids), ids) == ToggleSpu(-1, ids) > -1
    ensures spu <= -1 ==> ToggleSpu(ToggleSpu(spu, ids), ids) == -1
  {
    ToggleOnIff(-1, ids);
    if spu <= -1 {
      ToggleOnIff(spu, ids);
    }
  }
}
