/** The native player/recorder (`VoicePlayer` on Android) as the registry
    sees it: an object with an identity, the id and source it was built
    with, a state, and a position. Its own workings (decoding, buffering,
    recording) are not part of this model; what the registry does to a
    player is recorded as a log of calls. */
module VoicePlayer {
  import opened Common

  /** The player states, shared by the native side and the JavaScript side. */
  datatype VoiceState = VoiceNone | VoiceStarting | VoiceRunning | VoicePaused | VoiceStopped

  /** The numeric code each state travels as (`Voice.VOICE_NONE` .. `Voice.VOICE_STOPPED`). */
  function Code(s: VoiceState): nat
  {
    match s
    case VoiceNone => 0
    case VoiceStarting => 1
    case VoiceRunning => 2
    case VoicePaused => 3
    case VoiceStopped => 4
  }

  /** Decodes a numeric state code; only 0..4 name a state. */
  function FromCode(c: int): (r: Option<VoiceState>)
    ensures r.Some? <==> 0 <= c <= 4
    ensures r.Some? ==> Code(r.value) == c
    ensures forall s :: Code(s) == c ==> r == Some(s)
  {
    if c == 0 then Some(VoiceNone)
    else if c == 1 then Some(VoiceStarting)
    else if c == 2 then Some(VoiceRunning)
    else if c == 3 then Some(VoicePaused)
    else if c == 4 then Some(VoiceStopped)
    else None
  }

  /** Object identity of one `new VoicePlayer(...)`. */
  type Ref = nat

  /** One native player object. `state` and `positionMs` are what the
      player reports through `getState()` and `getCurrentPosition()`. */
  datatype Session = Session(ref: Ref, id: string, src: string, state: VoiceState, positionMs: int)

  /** A player as it comes out of its constructor: nothing started yet. */
  function NewSession(ref: Ref, id: string, src: string): Session
  {
    Session(ref, id, src, VoiceNone, 0)
  }

  /** The calls the registry makes on a player, one per `VoicePlayer`
      method it uses: `startRecording(file)`, `stopRecording()`,
      `startPlaying(file)`, `seekToPlaying(ms)`, `pausePlaying()`,
      `stopPlaying()`, `setVolume(v)`, `getState()`, `getCurrentPosition()`,
      `getDuration(file)` and `destroy()`. `Play(None)` is the resume call
      `startPlaying(null)`, which keeps the source set before. */
  datatype Op =
    | Record(file: string)
    | EndRecord
    | Play(source: Option<string>)
    | Seek(millis: int)
    | Pause
    | Stop
    | Volume(level: real)
    | StateQuery
    | PositionQuery
    | DurationQuery(path: string)
    | Destroy

  /** One call `op` made on the player object `target`. */
  datatype Call = Call(target: Ref, op: Op)

  /** The same call made on each of `refs`, in order. */
  function CallsTo(refs: seq<Ref>, op: Op): seq<Call>
  {
    seq(|refs|, i requires 0 <= i < |refs| => Call(refs[i], op))
  }

  /** The objects that received `op` in a call log, in the order of the log. */
  function TargetsOf(calls: seq<Call>, op: Op): (refs: seq<Ref>)
    ensures |refs| <= |calls|
  {
    if calls == [] then []
    else
      (if calls[0].op == op then [calls[0].target] else []) + TargetsOf(calls[1..], op)
  }

  /** An object is among the targets of `op` exactly when the log holds the
      call `op` on it. */
  lemma {:induction false} TargetsOfMembers(calls: seq<Call>, op: Op, r: Ref)
    ensures r in TargetsOf(calls, op) <==> Call(r, op) in calls
    decreases |calls|
  {
    if calls != [] {
      TargetsOfMembers(calls[1..], op, r);
      assert calls == [calls[0]] + calls[1..];
    }
  }

  /** Reading the targets of `op` off two logs run one after the other. */
  lemma {:induction false} TargetsOfAppend(a: seq<Call>, b: seq<Call>, op: Op)
    ensures TargetsOf(a + b, op) == TargetsOf(a, op) + TargetsOf(b, op)
    decreases |a|
  {
    if a == [] {
      assert a + b == b;
    } else {
      assert (a + b)[0] == a[0];
      assert (a + b)[1..] == a[1..] + b;
      TargetsOfAppend(a[1..], b, op);
      var head := if a[0].op == op then [a[0].target] else [];
      calc {
        TargetsOf(a + b, op);
        head + TargetsOf(a[1..] + b, op);
        head + (TargetsOf(a[1..], op) + TargetsOf(b, op));
        (head + TargetsOf(a[1..], op)) + TargetsOf(b, op);
        TargetsOf(a, op) + TargetsOf(b, op);
      }
    }
  }

  /** Sending `op` to each of `refs` and reading the log back gives `refs`. */
  lemma {:induction false} TargetsOfCallsTo(refs: seq<Ref>, op: Op)
    ensures TargetsOf(CallsTo(refs, op), op) == refs
    decreases |refs|
  {
    if refs != [] {
      assert CallsTo(refs, op) == [Call(refs[0], op)] + CallsTo(refs[1..], op);
      TargetsOfAppend([Call(refs[0], op)], CallsTo(refs[1..], op), op);
      TargetsOfCallsTo(refs[1..], op);
    }
  }
}
