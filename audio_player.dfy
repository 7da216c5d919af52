/**
 * The transport of the audio guide (components/AudioModule.tsx).
 *
 * The component keeps its playback state in refs: the audio context, the
 * decoded buffer, the current source node, the context time at which that node
 * was started and the buffer offset it was started from.  A source node is
 * one-shot: pause is a stop that remembers the position, resume and seek start
 * a fresh node.  Here the context clock is the `now` argument of each
 * operation (after GenerateAll, the time of the context it created, which
 * starts again from 0), every source node ever started is an entry of
 * `sources` (the ref `sourceNodeRef` always names the last one), and each
 * handler sees the committed state of the component.
 *
 * The model follows the code as written.  The onended handler of a node reads
 * the shared refs when it runs, not the session that node belonged to, and it
 * uses the playback rate of the render that created the node; a rate change
 * moves neither the offset nor the start time.  The scenario methods at the end
 * of the module show what follows from that.
 */
module AudioPlayer {
  import opened Wrappers
  import opened Text
  import opened AudioDecode

  /** Slack of the end-of-stream test, in seconds (line 127). */
  const EndSlack: real := 0.2

  /** The playback speeds the player offers (line 325). */
  const Speeds: set<real> := {0.5, 1.0, 1.25, 1.5, 2.0}

  /** The four prebuilt voices (lines 26-31). */
  const Voices: set<string> := {"Kore", "Puck", "Charon", "Zephyr"}

  /**
   * One AudioBufferSourceNode.  `capturedRate` is the playbackRate its onended
   * closure saw when the node was created, `rate` its live playbackRate.value,
   * `live` holds while it produces sound, `ended` once its onended has run.
   */
  datatype Source = Source(capturedRate: real, rate: real, live: bool, ended: bool)

  /** What the two generation requests hand over to decoding. */
  datatype Payload =
    | NoAudio                  // a request failed, or the script or the audio came back empty
    | MalformedBase64          // atob throws
    | Binary(chars: string)    // the binary string atob returns

  /** Where playback stands after running at `rate` from `offset` since `startTime`. */
  function Position(offset: real, startTime: real, now: real, rate: real): real {
    offset + (now - startTime) * rate
  }

  /** Math.max(0, Math.min(duration, x)) (line 164). */
  function Clamp(x: real, duration: real): (r: real)
    requires duration >= 0.0
    ensures 0.0 <= r <= duration
    ensures 0.0 <= x <= duration ==> r == x
    ensures x < 0.0 ==> r == 0.0
    ensures x > duration ==> r == duration
  {
    var m := if duration < x then duration else x;
    if m < 0.0 then 0.0 else m
  }

  /** The test of the onended handler (lines 126-127). */
  predicate EndReached(offset: real, startTime: real, now: real, rate: real, duration: real) {
    Position(offset, startTime, now, rate) >= duration - EndSlack
  }

  /** `sourceNodeRef.current.stop()`: the last node stops producing sound. */
  function StopLast(sources: seq<Source>): (r: seq<Source>)
    ensures |r| == |sources|
  {
    if sources == [] then [] else sources[|sources| - 1 := sources[|sources| - 1].(live := false)]
  }

  /** `sourceNodeRef.current.playbackRate.value = rate` (line 170). */
  function RetuneLast(sources: seq<Source>, rate: real): (r: seq<Source>)
    ensures |r| == |sources|
  {
    if sources == [] then [] else sources[|sources| - 1 := sources[|sources| - 1].(rate := rate)]
  }

  class Player {
    var voice: string
    var isPlaying: bool
    var isGenerated: bool
    var playbackRate: real
    var currentTime: real
    var duration: real
    /** audioCtxRef.current != null */
    var hasContext: bool
    /** audioBufferRef.current */
    var buffer: Option<AudioBuffer>
    /** Every source node started so far; sourceNodeRef.current is the last. */
    var sources: seq<Source>
    /** startTimeRef.current */
    var startTime: real
    /** offsetRef.current */
    var offset: real

    ghost predicate Valid()
      reads this
    {
      && playbackRate > 0.0
      && duration >= 0.0
      && (buffer.Some? ==> hasContext && duration == Duration(buffer.value))
      && (sources != [] ==> buffer.Some?)
      && (forall i :: 0 <= i < |sources| && sources[i].live ==> i == |sources| - 1 && !sources[i].ended)
    }

    /** The indices of the nodes producing sound: never more than one. */
    function LiveSources(): (live: set<int>)
      reads this
      requires Valid()
      ensures forall i :: i in live <==> 0 <= i < |sources| && sources[i].live
      ensures |live| <= 1
    {
      if sources != [] && sources[|sources| - 1].live then {|sources| - 1} else {}
    }

    /** The expression the 100 ms poller stores into currentTime (lines 179-180). */
    function PolledTime(now: real): (t: real)
      reads this
      requires Valid()
      ensures t <= duration
      ensures Position(offset, startTime, now, playbackRate) <= duration ==> t == Position(offset, startTime, now, playbackRate)
      ensures Position(offset, startTime, now, playbackRate) > duration ==> t == duration
    {
      var current := Position(offset, startTime, now, playbackRate);
      if current < duration then current else duration
    }

    constructor ()
      ensures Valid()
      ensures voice == "Kore" && !isPlaying && !isGenerated && playbackRate == 1.0
      ensures currentTime == 0.0 && duration == 0.0
      ensures !hasContext && buffer.None? && sources == [] && startTime == 0.0 && offset == 0.0
    {
      voice := "Kore";
      isPlaying := false;
      isGenerated := false;
      playbackRate := 1.0;
      currentTime := 0.0;
      duration := 0.0;
      hasContext := false;
      buffer := None;
      sources := [];
      startTime := 0.0;
      offset := 0.0;
    }

    /** The state `StartPlayback(o, now)` leaves when a context and a buffer exist. */
    twostate predicate Restarted(o: real, now: real)
      reads this
    {
      && sources == StopLast(old(sources)) + [Source(old(playbackRate), old(playbackRate), true, false)]
      && startTime == now && offset == o && isPlaying
      && playbackRate == old(playbackRate) && duration == old(duration) && buffer == old(buffer)
      && hasContext == old(hasContext) && currentTime == old(currentTime)
      && voice == old(voice) && isGenerated == old(isGenerated)
    }

    /**
     * startPlayback (lines 112-138): without a context or a buffer nothing
     * happens; otherwise the current node is stopped before the new one starts
     * at offset `o`, so at most one node is live afterwards.
     */
    method StartPlayback(o: real, now: real)
      requires Valid()
      modifies this
      ensures Valid()
      ensures !old(hasContext) || old(buffer).None? ==> unchanged(this)
      ensures old(hasContext) && old(buffer).Some? ==> Restarted(o, now)
      ensures old(hasContext) && old(buffer).Some? ==> LiveSources() == {|sources| - 1}
    {
      if !hasContext || buffer.None? {
        return;
      }
      sources := StopLast(sources);
      sources := sources + [Source(playbackRate, playbackRate, true, false)];
      startTime := now;
      offset := o;
      isPlaying := true;
    }

    /**
     * handleGenerateAll from line 83 on: a new context, then decoding; on
     * success the buffer is stored and playback starts from 0, on any failure
     * the user is alerted and neither a buffer is stored nor playback started.
     */
    method GenerateAll(payload: Payload, now: real) returns (alerted: bool)
      requires Valid()
      modifies this
      ensures Valid()
      ensures alerted <==> payload.NoAudio? || payload.MalformedBase64? || |payload.chars| % 2 == 1 || |payload.chars| == 0
      ensures payload.NoAudio? ==> unchanged(this)
      ensures playbackRate == old(playbackRate) && voice == old(voice) && currentTime == old(currentTime)
      ensures alerted && !payload.NoAudio? ==>
        hasContext && buffer == old(buffer) && sources == old(sources) && isPlaying == old(isPlaying)
        && offset == old(offset) && startTime == old(startTime) && duration == old(duration)
        && isGenerated == old(isGenerated)
      ensures !alerted ==>
        && buffer.Some? && buffer.value.channelData == Normalized(PcmSamples(Bytes(payload.chars)))
        && duration == (|payload.chars| / 2) as real / SampleRate as real
        && isGenerated && isPlaying && offset == 0.0 && startTime == now
        && sources == StopLast(old(sources)) + [Source(old(playbackRate), old(playbackRate), true, false)]
    {
      if payload.NoAudio? {
        return true;
      }
      hasContext := true;
      if payload.MalformedBase64? {
        return true;
      }
      var decoded := DecodePcm(payload.chars);
      if decoded.Failure? {
        assert decoded.error == OddByteCount || decoded.error == EmptyBuffer;
        assert decoded == Failure(decoded.error);
        return true;
      }
      buffer := Some(decoded.value);
      duration := Duration(decoded.value);
      isGenerated := true;
      StartPlayback(0.0, now);
      alerted := false;
    }

    /**
     * togglePlay (lines 140-154).  Playing: stop the node, add the time played
     * since the start, at the current rate, to the offset, and mark paused.
     * Paused: start again from exactly the stored offset.
     */
    method TogglePlay(now: real)
      requires Valid()
      modifies this
      ensures Valid()
      ensures old(isPlaying) ==>
        && sources == StopLast(old(sources)) && !isPlaying
        && offset == (if old(hasContext) then Position(old(offset), old(startTime), now, old(playbackRate)) else old(offset))
        && startTime == old(startTime) && playbackRate == old(playbackRate) && duration == old(duration)
        && buffer == old(buffer) && hasContext == old(hasContext) && currentTime == old(currentTime)
        && voice == old(voice) && isGenerated == old(isGenerated)
      ensures old(isPlaying) ==> LiveSources() == {}
      ensures !old(isPlaying) && old(buffer).Some? ==> Restarted(old(offset), now)
      ensures !old(isPlaying) && old(buffer).Some? ==> PolledTime(now) == (if old(offset) <= duration then old(offset) else duration)
      ensures !old(isPlaying) && old(buffer).None? ==> unchanged(this)
    {
      if isPlaying {
        sources := StopLast(sources);
        if hasContext {
          offset := Position(offset, startTime, now, playbackRate);
        }
        isPlaying := false;
      } else {
        if buffer.Some? {
          StartPlayback(offset, now);
        }
      }
    }

    /** The position seek starts from: the running position while playing, the stored offset otherwise. */
    function SeekBase(now: real): real
      reads this
    {
      if isPlaying then Position(offset, startTime, now, playbackRate) else offset
    }

    /**
     * seek (lines 156-166): nothing without a buffer; otherwise restart at the
     * position moved by `delta`, clamped to [0, duration].  Seeking always
     * leaves the player playing, even from pause.
     */
    method Seek(delta: real, now: real)
      requires Valid()
      modifies this
      ensures Valid()
      ensures old(buffer).None? ==> unchanged(this)
      ensures old(buffer).Some? ==> Restarted(Clamp(old(SeekBase(now)) + delta, old(duration)), now)
      ensures old(buffer).Some? ==> 0.0 <= offset <= duration && isPlaying
    {
      if buffer.None? || !hasContext {
        return;
      }
      var currentPos := offset;
      if isPlaying {
        currentPos := currentPos + (now - startTime) * playbackRate;
      }
      var newOffset := Clamp(currentPos + delta, duration);
      StartPlayback(newOffset, now);
    }

    /**
     * A speed button (line 328) and the effect of lines 168-172: the live node, stopped or
     * not, takes the new rate; offset and start time stay as they were.
     */
    method SetRate(rate: real)
      requires Valid()
      requires rate in Speeds
      modifies this
      ensures Valid()
      ensures playbackRate == rate && sources == RetuneLast(old(sources), rate)
      ensures offset == old(offset) && startTime == old(startTime) && isPlaying == old(isPlaying)
      ensures buffer == old(buffer) && hasContext == old(hasContext) && duration == old(duration)
      ensures currentTime == old(currentTime) && voice == old(voice) && isGenerated == old(isGenerated)
    {
      playbackRate := rate;
      sources := RetuneLast(sources, rate);
    }

    /** One tick of the poller (lines 174-185); it only runs while playing. */
    method Poll(now: real)
      requires Valid()
      modifies this`currentTime
      ensures Valid()
      ensures isPlaying && hasContext && buffer.Some? ==> currentTime == PolledTime(now) && currentTime <= duration
      ensures !(isPlaying && hasContext && buffer.Some?) ==> currentTime == old(currentTime)
    {
      if isPlaying && hasContext && buffer.Some? {
        currentTime := PolledTime(now);
      }
    }

    /**
     * The onended handler of node `i` (lines 124-131), run when the node has
     * stopped, whether it played to its end or was stopped.  It reads the
     * shared offset and start time and its own captured rate: playback is
     * marked stopped and rewound to 0 exactly when the position so computed is
     * within EndSlack of the buffer's end, and otherwise nothing changes.
     */
    method OnEnded(i: nat, now: real)
      requires Valid()
      requires i < |sources| && !sources[i].ended
      modifies this
      ensures Valid()
      ensures sources == old(sources)[i := old(sources)[i].(live := false, ended := true)]
      ensures EndReached(old(offset), old(startTime), now, old(sources)[i].capturedRate, old(duration)) ==>
        !isPlaying && offset == 0.0
      ensures !EndReached(old(offset), old(startTime), now, old(sources)[i].capturedRate, old(duration)) ==>
        isPlaying == old(isPlaying) && offset == old(offset)
      ensures startTime == old(startTime) && playbackRate == old(playbackRate) && duration == old(duration)
      ensures buffer == old(buffer) && hasContext == old(hasContext) && currentTime == old(currentTime)
      ensures voice == old(voice) && isGenerated == old(isGenerated)
    {
      var node := sources[i];
      sources := sources[i := node.(live := false, ended := true)];
      // audioCtxRef.current is set whenever a node exists, so the early return of line 125 is not taken.
      var currentPos := offset + (now - startTime) * node.capturedRate;
      if currentPos >= Duration(buffer.value) - EndSlack {
        isPlaying := false;
        offset := 0.0;
      }
    }

    /**
     * A voice button of the player view (line 314): the voice changes and the player view
     * returns to the generate screen, while the current node keeps playing.
     */
    method SelectVoice(v: string)
      requires Valid()
      requires v in Voices
      modifies this`voice, this`isGenerated
      ensures Valid()
      ensures voice == v && !isGenerated
    {
      voice := v;
      isGenerated := false;
    }

    /** The unmount cleanup (lines 34-43): the current node is stopped. */
    method Dispose()
      requires Valid()
      modifies this`sources
      ensures Valid()
      ensures sources == StopLast(old(sources)) && LiveSources() == {}
    {
      sources := StopLast(sources);
    }
  }

  /** formatTime (lines 187-191): minutes, a colon, seconds padded to two digits. */
  function FormatTime(time: real): (s: string)
  {
    var mins := (time / 60.0).Floor;
    var secs := JsRemainder(time, 60.0).Floor;
    IntToString(mins) + ":" + PadStart(IntToString(secs), 2, '0')
  }

  /** JavaScript's `%` on numbers: the remainder of the division truncated toward zero. */
  function JsRemainder(x: real, m: real): real
    requires m > 0.0
  {
    var q := x / m;
    var t := if q >= 0.0 then q.Floor else -((-q).Floor);
    x - m * t as real
  }

  /**
   * Seconds modulo 60 as formatTime computes them take the sign of the time
   * and stay below 60 in magnitude.
   */
  lemma JsRemainderRange(x: real)
    ensures x >= 0.0 ==> 0.0 <= JsRemainder(x, 60.0) < 60.0
    ensures x < 0.0 ==> -60.0 < JsRemainder(x, 60.0) <= 0.0
  {
    var q := x / 60.0;
    var t := if q >= 0.0 then q.Floor else -((-q).Floor);
    assert JsRemainder(x, 60.0) == x - 60.0 * t as real;
    if q >= 0.0 {
      assert t as real <= q < t as real + 1.0;
    } else {
      assert t as real - 1.0 < q <= t as real;
    }
  }

  /** Reads back "m:ss" as a number of seconds. */
  function ParseClock(s: string): Option<int> {
    var fields := Split(s, ':');
    if |fields| == 2 && fields[0] != "" && AllDigits(fields[0]) && |fields[1]| == 2 && AllDigits(fields[1])
    then Some(ParseNat(fields[0]) * 60 + ParseNat(fields[1]))
    else None
  }

  lemma FloorIs(x: real, n: int)
    requires n as real <= x < n as real + 1.0
    ensures x.Floor == n
  {
  }

  lemma FloorFields(time: real)
    requires time >= 0.0
    ensures (time / 60.0).Floor == time.Floor / 60
    ensures JsRemainder(time, 60.0).Floor == time.Floor % 60
  {
    var f := time.Floor;
    var q, r := f / 60, f % 60;
    assert f as real <= time < f as real + 1.0;
    assert f == 60 * q + r && 0 <= r < 60;
    assert f as real == 60.0 * q as real + r as real;
    assert 60.0 * q as real <= time < 60.0 * q as real + 60.0;
    assert q as real <= time / 60.0 < q as real + 1.0;
    FloorIs(time / 60.0, q);
    assert JsRemainder(time, 60.0) == time - 60.0 * q as real;
    FloorIs(time - 60.0 * q as real, r);
  }

  /** The seconds field: a number below 60 padded to two digits, which read back as that number. */
  lemma SecondsField(sec: nat)
    requires sec < 60
    ensures var f := PadStart(NatToString(sec), 2, '0');
      |f| == 2 && AllDigits(f) && ParseNat(f) == sec && ':' !in f
  {
    ParsePadded(sec, 2);
    TwoDigits(sec);
  }

  lemma TwoDigits(n: nat)
    requires n < 100
    ensures |NatToString(n)| <= 2
  {
    if n >= 10 {
      assert |NatToString(n / 10)| == 1;
    }
  }

  /** "m:ss" built from whole minutes and seconds below 60 reads back as m * 60 + ss. */
  lemma ParseClockOf(m: nat, sec: nat)
    requires sec < 60
    ensures ParseClock(NatToString(m) + ":" + PadStart(NatToString(sec), 2, '0')) == Some(m * 60 + sec)
  {
    var mins, secs := NatToString(m), PadStart(NatToString(sec), 2, '0');
    SecondsField(sec);
    ParseNatToString(m);
    assert ':' !in mins;
    SplitJoin([mins, secs], ':');
    assert Join([mins, secs], ':') == mins + ":" + secs;
  }

  /**
   * For a non-negative time the display is "m:ss": whole minutes, a colon and
   * the seconds 0..59 on two digits, and reading it back gives floor(time).
   */
  lemma FormatTimeReadsBack(time: real)
    requires time >= 0.0
    ensures FormatTime(time) == NatToString(time.Floor / 60) + ":" + PadStart(NatToString(time.Floor % 60), 2, '0')
    ensures |PadStart(NatToString(time.Floor % 60), 2, '0')| == 2
    ensures ParseClock(FormatTime(time)) == Some(time.Floor)
  {
    FloorFields(time);
    SecondsField(time.Floor % 60);
    ParseClockOf(time.Floor / 60, time.Floor % 60);
  }

  /** A 10-second buffer: 240 000 samples, i.e. 480 000 bytes. */
  function TenSeconds(): (binary: string)
    ensures |binary| == 480000
  {
    seq(480000, _ => 'a')
  }

  /**
   * Played to the end without interruption, the node's onended stops the
   * player and rewinds it, and the next play starts from 0.
   */
  method EndOfTrackScenario() {
    var p := new Player();
    var alerted := p.GenerateAll(Binary(TenSeconds()), 0.0);
    assert !alerted && p.duration == 10.0 && p.isPlaying;
    p.OnEnded(0, 10.0);
    assert !p.isPlaying && p.offset == 0.0;
    p.TogglePlay(11.0);
    assert p.isPlaying && p.offset == 0.0 && p.startTime == 11.0;
  }

  /**
   * Pausing after 6 of 10 seconds: the stopped node's onended finds the offset
   * already advanced to 6 and adds the same 6 seconds again, 12 >= 9.8, so it
   * rewinds the player; resuming starts over from 0 instead of 6.
   */
  method PauseRewindScenario() {
    var p := new Player();
    var alerted := p.GenerateAll(Binary(TenSeconds()), 0.0);
    p.TogglePlay(6.0);
    assert !p.isPlaying && p.offset == 6.0;
    p.OnEnded(0, 6.0);
    assert p.offset == 0.0;
    p.TogglePlay(7.0);
    assert p.isPlaying && p.offset == 0.0;
  }

  /**
   * Switching to double speed right after the start: the node plays the 10
   * seconds in 5 and ends, but its onended still counts at the rate it
   * captured, 5 < 9.8, so the player stays "playing" with no node live, and
   * the poller shows the full duration.
   */
  method RateChangeScenario() {
    var p := new Player();
    var alerted := p.GenerateAll(Binary(TenSeconds()), 0.0);
    p.SetRate(2.0);
    p.OnEnded(0, 5.0);
    assert p.isPlaying && p.LiveSources() == {};
    p.Poll(5.0);
    assert p.currentTime == 10.0;
  }
}
