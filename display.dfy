/**
  The firmware's on/off display model: a Generic OnOff server that blinks
  the 5x5 LED matrix while it is switched on.

  `Process` is the receive loop that waits for a Set or Set Unacknowledged
  (section 3.2.1.2 of the Mesh Model specification) and returns its on/off
  intent; `Run` is the two-level run loop driven by a finite stretch of the
  inbound payloads. The blinker is the class `DisplayOnOff`, whose LED
  matrix is recorded as the sequence of operations applied to it.
 */
module DisplayModel {
  import opened Prelude
  import opened Mesh

  type Payload = Inbound<OnOffMessage>

  /** The on/off intent a payload carries, if any: only the two Set
      messages carry one, and any non-zero value means on. */
  function Intent(p: Payload): (r: Option<bool>)
    ensures r.Some? <==> p.Message? && (p.msg.Set? || p.msg.SetUnacknowledged?)
    ensures r.Some? ==> r.value == (p.msg.setting.onOff != 0)
  {
    match p
    case Message(Set(v)) => Some(v.onOff != 0)
    case Message(SetUnacknowledged(v)) => Some(v.onOff != 0)
    case Message(_) => None
    case Control(_) => None
  }

  /** No payload of `s` carries an intent. */
  predicate NoIntent(s: seq<Payload>) {
    forall i :: 0 <= i < |s| ==> Intent(s[i]).None?
  }

  /** `process`: consume payloads until a Set or Set Unacknowledged arrives
      and return its intent. `used` is how many payloads it consumed; when
      `inbox` runs out first it is still waiting (`intent` is `None`). */
  method Process(inbox: seq<Payload>) returns (used: nat, intent: Option<bool>)
    ensures used <= |inbox|
    ensures intent.Some? ==> 0 < used && Intent(inbox[used - 1]) == intent && NoIntent(inbox[..used - 1])
    ensures intent.None? ==> used == |inbox| && NoIntent(inbox)
  {
    used, intent := 0, None;
    while used < |inbox| && intent.None?
      invariant used <= |inbox|
      invariant intent.None? ==> NoIntent(inbox[..used])
      invariant intent.Some? ==> 0 < used && Intent(inbox[used - 1]) == intent && NoIntent(inbox[..used - 1])
    {
      match inbox[used] {
        case Message(Get) =>
        case Message(Set(v)) =>
          intent := Some(v.onOff != 0);
        case Message(SetUnacknowledged(v)) =>
          intent := Some(v.onOff != 0);
        case Message(Status(_)) =>
        case Control(_) =>
      }
      used := used + 1;
    }
    assert intent.None? ==> inbox[..used] == inbox;
  }

  /** The blinker has no exit, so as a branch of the race it never
      completes. */
  const BLINKER_COMPLETION: Option<()> := None

  /** The next `enable` after the race (enabled) or the plain wait
      (disabled), given whether the blinker completed and the intent
      `process` returned, if it has returned. */
  function NextEnable(enable: bool, blinker: Option<()>, intent: Option<bool>): (r: bool)
    ensures !enable ==> r == intent.GetOr(enable)
    ensures enable && blinker.Some? ==> r == enable
    ensures enable && blinker.None? ==> r == intent.GetOr(enable)
  {
    // The blinker is listed first in the race.
    if enable then
      match Select(blinker, intent)
      case Some(First(_)) => enable
      case Some(Second(e)) => e
      case None => enable
    else
      intent.GetOr(enable)
  }

  /** The intent of the last Set in `s`, or `initial` when there is none. */
  function LastIntent(s: seq<Payload>, initial: bool): bool
    decreases |s|
  {
    if s == [] then initial else Intent(s[|s| - 1]).GetOr(LastIntent(s[..|s| - 1], initial))
  }

  lemma {:induction false} LastIntentNone(s: seq<Payload>, initial: bool)
    requires NoIntent(s)
    ensures LastIntent(s, initial) == initial
  {
    if s != [] {
      assert NoIntent(s[..|s| - 1]);
      LastIntentNone(s[..|s| - 1], initial);
    }
  }

  lemma {:induction false} LastIntentConcat(a: seq<Payload>, b: seq<Payload>, initial: bool)
    ensures LastIntent(a + b, initial) == LastIntent(b, LastIntent(a, initial))
    decreases |b|
  {
    if b != [] {
      assert (a + b)[..|a + b| - 1] == a + b[..|b| - 1];
      LastIntentConcat(a, b[..|b| - 1], initial);
    } else {
      assert a + b == a;
    }
  }

  /** `run`: `enable` starts false and, whatever the order of Sets and
      other payloads, ends as the intent of the last Set consumed (false if
      there was none). Every payload is consumed. */
  method Run(inbox: seq<Payload>) returns (enable: bool)
    ensures enable == LastIntent(inbox, false)
  {
    enable := false;
    var pos := 0;
    while pos < |inbox|
      invariant pos <= |inbox|
      invariant enable == LastIntent(inbox[..pos], false)
      decreases |inbox| - pos
    {
      var rest := inbox[pos..];
      var used, intent := Process(rest);
      var chunk := rest[..used];
      var before := LastIntent(inbox[..pos], false);
      assert inbox[..pos + used] == inbox[..pos] + chunk;
      LastIntentConcat(inbox[..pos], chunk, false);
      if intent.Some? {
        assert chunk[..used - 1] == rest[..used - 1];
        assert chunk == chunk[..used - 1] + [chunk[used - 1]];
        LastIntentConcat(chunk[..used - 1], [chunk[used - 1]], before);
        LastIntentNone(chunk[..used - 1], before);
        assert LastIntent([chunk[used - 1]], before) == Intent(chunk[used - 1]).GetOr(before) by {
          assert [chunk[used - 1]][..0] == [];
        }
      } else {
        assert chunk == rest;
        LastIntentNone(chunk, before);
      }
      enable := NextEnable(enable, BLINKER_COMPLETION, intent);
      pos := pos + used;
    }
    assert inbox[..pos] == inbox;
  }

  // -----------------------------------------------------------------------
  // The blinker

  /** One bitmask octet per row of the 5x5 matrix. */
  type Frame = seq<Byte>

  /** Every LED on. */
  const ALL_ON: Frame := [0x1F, 0x1F, 0x1F, 0x1F, 0x1F]
  const FRAME_MS: nat := 50
  const RAMP_UP_MS: nat := 600
  const RAMP_DOWN_MS: nat := 400
  const PAUSE_MS: nat := 1000

  /** Operations on the LED matrix and the timer. */
  datatype LedOp =
    | MinBrightness
    | Apply(frame: Frame)
    | Brighter
    | Dimmer
    | Show(frame: Frame, ms: nat)
    | Clear
    | Sleep(ms: nat)

  /** The time the operations take: showing a frame and sleeping. */
  function Duration(ops: seq<LedOp>): nat
    decreases |ops|
  {
    if ops == [] then 0
    else
      var last := ops[|ops| - 1];
      Duration(ops[..|ops| - 1]) + (if last.Show? then last.ms else if last.Sleep? then last.ms else 0)
  }

  /** `frames` steps of a brightness ramp, each followed by one frame. */
  function Ramp(step: LedOp, frames: nat): (r: seq<LedOp>)
    ensures |r| == 2 * frames
    ensures forall i :: 0 <= i < |r| ==> r[i] == (if i % 2 == 0 then step else Show(ALL_ON, FRAME_MS))
  {
    if frames == 0 then [] else Ramp(step, frames - 1) + [step, Show(ALL_ON, FRAME_MS)]
  }

  /** Frames a window of `ms` holds when each frame lasts FRAME_MS. */
  function FramesIn(ms: nat): nat {
    (ms + FRAME_MS - 1) / FRAME_MS
  }

  /** One blink cycle. */
  function CycleOps(): seq<LedOp> {
    [MinBrightness, Apply(ALL_ON)] + Ramp(Brighter, FramesIn(RAMP_UP_MS)) + Ramp(Dimmer, FramesIn(RAMP_DOWN_MS)) + [Clear, Sleep(PAUSE_MS)]
  }

  function Repeat(ops: seq<LedOp>, n: nat): seq<LedOp> {
    if n == 0 then [] else Repeat(ops, n - 1) + ops
  }

  lemma {:induction false} DurationConcat(a: seq<LedOp>, b: seq<LedOp>)
    ensures Duration(a + b) == Duration(a) + Duration(b)
    decreases |b|
  {
    if b == [] {
      assert a + b == a;
    } else {
      assert (a + b)[..|a + b| - 1] == a + b[..|b| - 1];
      DurationConcat(a, b[..|b| - 1]);
    }
  }

  /** A ramp of n frames lasts n frame intervals. */
  lemma {:induction false} RampDuration(step: LedOp, n: nat)
    requires step == Brighter || step == Dimmer
    ensures Duration(Ramp(step, n)) == FRAME_MS * n
  {
    if n > 0 {
      RampDuration(step, n - 1);
      DurationConcat(Ramp(step, n - 1), [step, Show(ALL_ON, FRAME_MS)]);
      var pair := [step, Show(ALL_ON, FRAME_MS)];
      assert pair[..1] == [step] && [step][..0] == [];
      assert Duration([step]) == 0;
      assert Duration(pair) == Duration([step]) + FRAME_MS;
    }
  }

  /** A ramp up of 12 frames and a ramp down of 8. */
  lemma FramesPerRamp()
    ensures FramesIn(RAMP_UP_MS) == 12 && FramesIn(RAMP_DOWN_MS) == 8
  {
  }

  /** Each cycle starts at minimum brightness with the all-on frame, ramps
      up for 600 ms and down for 400 ms in 50 ms frames, clears, and pauses
      one second: two seconds in all. */
  lemma CycleShape()
    ensures CycleOps()[0] == MinBrightness && CycleOps()[1] == Apply(ALL_ON)
    ensures var up := FramesIn(RAMP_UP_MS);
      CycleOps()[2..2 + 2 * up] == Ramp(Brighter, up) && Duration(Ramp(Brighter, up)) == RAMP_UP_MS
    ensures var up, down := FramesIn(RAMP_UP_MS), FramesIn(RAMP_DOWN_MS);
      CycleOps()[2 + 2 * up..2 + 2 * up + 2 * down] == Ramp(Dimmer, down) && Duration(Ramp(Dimmer, down)) == RAMP_DOWN_MS
    ensures |CycleOps()| == 44 && CycleOps()[42..] == [Clear, Sleep(PAUSE_MS)]
    ensures Duration(CycleOps()) == RAMP_UP_MS + RAMP_DOWN_MS + PAUSE_MS
  {
    FramesPerRamp();
    var up, down := Ramp(Brighter, FramesIn(RAMP_UP_MS)), Ramp(Dimmer, FramesIn(RAMP_DOWN_MS));
    var head, tail := [MinBrightness, Apply(ALL_ON)], [Clear, Sleep(PAUSE_MS)];
    assert CycleOps() == head + up + down + tail;
    assert |up| == 24 && |down| == 16;
    RampDuration(Brighter, FramesIn(RAMP_UP_MS));
    RampDuration(Dimmer, FramesIn(RAMP_DOWN_MS));
    DurationConcat(head, up);
    DurationConcat(head + up, down);
    DurationConcat(head + up + down, tail);
    assert Duration(head) == 0 by {
      assert head[..1] == [MinBrightness];
      assert [MinBrightness][..0] == [];
    }
    assert Duration(tail) == PAUSE_MS by {
      assert tail[..1] == [Clear];
      assert [Clear][..0] == [];
    }
  }

  class DisplayOnOff {
    /** Everything done to the LED matrix so far, in order. */
    var rendered: seq<LedOp>

    /** `DisplayOnOff::new`: nothing has been shown yet. */
    constructor ()
      ensures rendered == []
    {
      rendered := [];
    }

    /** One ramp: while the clock is before `now + windowMs`, change the
        brightness one step and show the frame for one frame interval. Each
        frame is taken to last exactly FRAME_MS. */
    method RampFor(step: LedOp, now: nat, windowMs: nat) returns (t: nat)
      modifies this
      ensures rendered == old(rendered) + Ramp(step, FramesIn(windowMs))
      ensures t == now + FRAME_MS * FramesIn(windowMs)
    {
      var end := now + windowMs;
      t := now;
      var k := 0;
      while t < end
        invariant t == now + FRAME_MS * k
        invariant k == 0 || FRAME_MS * (k - 1) < windowMs
        invariant rendered == old(rendered) + Ramp(step, k)
        decreases end - t
      {
        rendered := rendered + [step, Show(ALL_ON, FRAME_MS)];
        t := t + FRAME_MS;
        k := k + 1;
      }
      assert k == FramesIn(windowMs);
    }

    /** One pass of the blinker's loop body, starting at time `now`. */
    method BlinkCycle(now: nat) returns (t: nat)
      modifies this
      ensures rendered == old(rendered) + CycleOps()
      ensures t == now + RAMP_UP_MS + RAMP_DOWN_MS + PAUSE_MS
    {
      rendered := rendered + [MinBrightness, Apply(ALL_ON)];
      t := RampFor(Brighter, now, RAMP_UP_MS);
      t := RampFor(Dimmer, t, RAMP_DOWN_MS);
      rendered := rendered + [Clear];
      rendered := rendered + [Sleep(PAUSE_MS)];
      t := t + PAUSE_MS;
    }

    /** The first `cycles` rounds of the blinker's endless loop: the same
        cycle, repeated, and nothing else. */
    method Blinker(now: nat, cycles: nat) returns (t: nat)
      modifies this
      ensures rendered == old(rendered) + Repeat(CycleOps(), cycles)
      ensures t == now + cycles * (RAMP_UP_MS + RAMP_DOWN_MS + PAUSE_MS)
    {
      t := now;
      for i := 0 to cycles
        invariant rendered == old(rendered) + Repeat(CycleOps(), i)
        invariant t == now + i * (RAMP_UP_MS + RAMP_DOWN_MS + PAUSE_MS)
      {
        t := BlinkCycle(t);
      }
    }
  }

  // -----------------------------------------------------------------------
  // Properties

  /** While disabled, a Set or Set Unacknowledged decides the next `enable`
      and anything else leaves it false; while enabled, a finished blinker
      (listed first) leaves `enable` alone and otherwise the message's
      intent replaces it. */
  lemma EnableTransitions(p: Payload)
    ensures NextEnable(false, None, Intent(p)) == (Intent(p).Some? && Intent(p).value)
    ensures forall b :: NextEnable(true, Some(()), b) == true
    ensures NextEnable(true, BLINKER_COMPLETION, Intent(p)) == Intent(p).GetOr(true)
  {
  }
}
