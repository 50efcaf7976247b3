/** The Android plugin (`VoiceHandler`): a registry of native players keyed
    by the caller's id, the dispatcher that turns a bridge action into calls
    on those players, the teardown hooks, and the phone-call interruption
    handler.

    Every operation is a pure transition from one `Registry` to a `Step`:
    the next registry, the reply sent back over the bridge, and the calls
    made on player objects, in order. */
module VoiceHandler {
  import opened Common
  import opened VoicePlayer

  /** The plugin's state: `players` maps an id to its player object,
      `pausedForPhone` lists (by reference, possibly no longer registered)
      the players paused when a call came in, and `next` is the identity the
      next `new VoicePlayer(...)` receives. */
  datatype Registry = Registry(players: map<string, Session>, pausedForPhone: seq<Ref>, next: Ref)

  /** The platform services the dispatcher consults and cannot see into.
      - `remap`: `resourceApi.remapUri(Uri.parse(t)).toString()`; `None` when
        it throws `IllegalArgumentException`.
      - `uriPath`: `Uri.parse(u).getPath()`.
      - `parseFloat`: `Float.parseFloat`; `None` when it throws
        `NumberFormatException`.
      - `duration`: what the player's `getDuration(file)` answers. */
  datatype Platform = Platform(
    remap: string -> Option<string>,
    uriPath: string -> string,
    parseFloat: string -> Option<real>,
    duration: (Session, string) -> real)

  /** The positional bridge arguments an action reads: `id` is
      `args.getString(0)`, `text` is `args.getString(1)` and `number` is
      `args.getInt(1)`. Each action reads only the ones it needs. */
  datatype Args = Args(id: string, text: string, number: int)

  /** What goes back over the bridge: `Unhandled` is `execute` returning
      false; `Ack` is the empty OK result; `Number` and `Flag` carry a
      float or boolean result; `Silent` is for the lifecycle hooks, which
      answer nothing. */
  datatype Reply = Unhandled | Ack | Number(value: real) | Flag(found: bool) | Silent

  datatype Step = Step(reg: Registry, reply: Reply, calls: seq<Call>)

  /** Registry invariant: every player is filed under its own id, every
      player object was allocated before `next`, and no object is filed
      under two ids. */
  ghost predicate Wf(reg: Registry)
  {
    && (forall k :: k in reg.players ==> reg.players[k].id == k && reg.players[k].ref < reg.next)
    && (forall i :: 0 <= i < |reg.pausedForPhone| ==> reg.pausedForPhone[i] < reg.next)
    && (forall j, k :: j in reg.players && k in reg.players && j != k ==>
          reg.players[j].ref != reg.players[k].ref)
  }

  /** The plugin's constructor: no players, nothing paused. */
  function Init(): (reg: Registry)
    ensures Wf(reg)
    ensures forall id :: id !in reg.players
    ensures |reg.pausedForPhone| == 0
  {
    Registry(map[], [], 0)
  }

  // ---------------------------------------------------------------------
  // Source paths
  // ---------------------------------------------------------------------

  const FileScheme: string := "file://"

  /** Drops the `file://` scheme from a local reference; anything else is
      passed through unchanged. */
  function StripFileProtocol(uri: string, p: Platform): (path: string)
    ensures !StartsWith(uri, FileScheme) ==> path == uri
    ensures StartsWith(uri, FileScheme) ==> path == p.uriPath(uri)
  {
    if StartsWith(uri, FileScheme) then p.uriPath(uri) else uri
  }

  /** The target reference as the resource API resolves it, falling back to
      the raw string when resolution throws. */
  function ResolveTarget(target: string, p: Platform): (r: string)
    ensures p.remap(target).None? ==> r == target
    ensures p.remap(target).Some? ==> r == p.remap(target).value
    ensures p.remap(target) == Some(target) || p.remap(target).None? ==> r == target
  {
    match p.remap(target)
    case Some(uri) => uri
    case None => target
  }

  // ---------------------------------------------------------------------
  // Shapes of a step
  // ---------------------------------------------------------------------

  /** `reg'` is `reg` with a player for `id` guaranteed: an existing player is
      kept as it is, a missing one is a brand-new object built with `file`,
      and no other entry changes. */
  ghost predicate GetOrCreated(reg: Registry, reg': Registry, id: string, file: string)
  {
    && id in reg'.players
    && reg'.players.Keys == reg.players.Keys + {id}
    && (forall k :: k in reg.players ==> reg'.players[k] == reg.players[k])
    && reg'.pausedForPhone == reg.pausedForPhone
    && (id in reg.players ==> reg'.next == reg.next)
    && (id !in reg.players ==>
          && reg'.players[id].ref == reg.next
          && reg'.players[id].id == id
          && reg'.players[id].src == file
          && reg'.players[id].state == VoiceNone
          && reg'.next == reg.next + 1)
  }

  /** A control command: the registry is left alone, and the only call made
      is `op` on the player filed under `id`, if there is one. */
  ghost predicate ControlStep(reg: Registry, out: Step, id: string, op: Op)
  {
    && out.reg == reg
    && out.reply == Ack
    && (id in reg.players ==> out.calls == [Call(reg.players[id].ref, op)])
    && (id !in reg.players ==> out.calls == [])
  }

  // ---------------------------------------------------------------------
  // One function per handler method
  // ---------------------------------------------------------------------

  /** The player filed under `id`, created with `file` as its source when
      there is none. */
  function GetOrCreate(reg: Registry, id: string, file: string): (r: (Registry, Session))
    ensures GetOrCreated(reg, r.0, id, file)
    ensures r.0.players[id] == r.1
  {
    if id in reg.players then (reg, reg.players[id])
    else
      var s := NewSession(reg.next, id, file);
      (reg.(players := reg.players[id := s], next := reg.next + 1), s)
  }

  /** Starts recording to `file` on the player for `id`, creating it first
      when absent. */
  function StartRecording(reg: Registry, id: string, file: string): (out: Step)
    ensures GetOrCreated(reg, out.reg, id, file)
    ensures out.calls == [Call(out.reg.players[id].ref, Record(file))]
    ensures out.reply == Ack
  {
    var (reg', s) := GetOrCreate(reg, id, file);
    Step(reg', Ack, [Call(s.ref, Record(file))])
  }

  /** Starts or resumes playing `file` on the player for `id`, creating it
      first when absent. */
  function StartPlaying(reg: Registry, id: string, file: string): (out: Step)
    ensures GetOrCreated(reg, out.reg, id, file)
    ensures out.calls == [Call(out.reg.players[id].ref, Play(Some(file)))]
    ensures out.reply == Ack
  {
    var (reg', s) := GetOrCreate(reg, id, file);
    Step(reg', Ack, [Call(s.ref, Play(Some(file)))])
  }

  /** Sends `op` to the player for `id`, or does nothing for an unknown id. */
  function Control(reg: Registry, id: string, op: Op): (out: Step)
    ensures ControlStep(reg, out, id, op)
  {
    if id in reg.players then Step(reg, Ack, [Call(reg.players[id].ref, op)])
    else Step(reg, Ack, [])
  }

  function StopRecording(reg: Registry, id: string): (out: Step)
    ensures ControlStep(reg, out, id, EndRecord)
  {
    Control(reg, id, EndRecord)
  }

  function SeekTo(reg: Registry, id: string, millis: int): (out: Step)
    ensures ControlStep(reg, out, id, Seek(millis))
  {
    Control(reg, id, Seek(millis))
  }

  function PausePlaying(reg: Registry, id: string): (out: Step)
    ensures ControlStep(reg, out, id, Pause)
  {
    Control(reg, id, Pause)
  }

  /** Stops playback; the player stays registered. */
  function StopPlaying(reg: Registry, id: string): (out: Step)
    ensures ControlStep(reg, out, id, Stop)
    ensures id in reg.players ==> id in out.reg.players
  {
    Control(reg, id, Stop)
  }

  /** Sets the volume from the text argument; text that does not parse as a
      float leaves everything as it was. */
  function SetVolume(reg: Registry, id: string, text: string, p: Platform): (out: Step)
    ensures p.parseFloat(text).None? ==> out == Step(reg, Ack, [])
    ensures p.parseFloat(text).Some? ==> ControlStep(reg, out, id, Volume(p.parseFloat(text).value))
  {
    match p.parseFloat(text)
    case None => Step(reg, Ack, [])
    case Some(v) => Control(reg, id, Volume(v))
  }

  /** Playback position in seconds, or the sentinel -1 for an unknown id. */
  function GetCurrentPosition(reg: Registry, id: string): (out: Step)
    ensures out.reg == reg
    ensures out.reply.Number?
    ensures id !in reg.players ==> out.reply.value == -1.0 && out.calls == []
    ensures id in reg.players ==>
              && out.reply.value * 1000.0 == reg.players[id].positionMs as real
              && out.calls == [Call(reg.players[id].ref, PositionQuery)]
  {
    if id in reg.players then
      var s := reg.players[id];
      Step(reg, Number(s.positionMs as real / 1000.0), [Call(s.ref, PositionQuery)])
    else Step(reg, Number(-1.0), [])
  }

  /** Duration of `file` as the player for `id` reports it, creating the
      player first when absent. */
  function GetDuration(reg: Registry, id: string, file: string, p: Platform): (out: Step)
    ensures GetOrCreated(reg, out.reg, id, file)
    ensures out.calls == [Call(out.reg.players[id].ref, DurationQuery(file))]
    ensures out.reply == Number(p.duration(out.reg.players[id], file))
  {
    var (reg', s) := GetOrCreate(reg, id, file);
    Step(reg', Number(p.duration(s, file)), [Call(s.ref, DurationQuery(file))])
  }

  /** Files a brand-new player under `id`, replacing any previous one without
      destroying it. */
  function Create(reg: Registry, id: string, src: string): (out: Step)
    ensures out.reg.players.Keys == reg.players.Keys + {id}
    ensures forall k :: k in reg.players && k != id ==> out.reg.players[k] == reg.players[k]
    ensures out.reg.players[id].ref == reg.next && out.reg.next == reg.next + 1
    ensures out.reg.players[id].src == src && out.reg.players[id].state == VoiceNone
    ensures out.reg.pausedForPhone == reg.pausedForPhone
    ensures out.calls == [] && out.reply == Ack
  {
    Step(reg.(players := reg.players[id := NewSession(reg.next, id, src)], next := reg.next + 1), Ack, [])
  }

  /** Removes and destroys the player for `id`; the flag says whether there
      was one. */
  function Release(reg: Registry, id: string): (out: Step)
    ensures out.reply == Flag(id in reg.players)
    ensures out.reg.players.Keys == reg.players.Keys - {id}
    ensures forall k :: k in out.reg.players ==> out.reg.players[k] == reg.players[k]
    ensures out.reg.pausedForPhone == reg.pausedForPhone && out.reg.next == reg.next
    ensures id !in reg.players ==> out.reg == reg && out.calls == []
    ensures id in reg.players ==> out.calls == [Call(reg.players[id].ref, Destroy)]
  {
    if id !in reg.players then Step(reg, Flag(false), [])
    else
      var s := reg.players[id];
      Step(reg.(players := reg.players - {id}), Flag(true), [Call(s.ref, Destroy)])
  }

  // ---------------------------------------------------------------------
  // The dispatcher
  // ---------------------------------------------------------------------

  /** The action names `execute` recognises. */
  const Actions: set<string> := {
    "startRecording", "stopRecording", "startPlaying", "seekTo", "pausePlaying",
    "stopPlaying", "setVolume", "getCurrentPosition", "getDuration", "create", "release"
  }

  /** `execute(action, args, callbackContext)`: runs one bridge action. */
  function Execute(reg: Registry, action: string, args: Args, p: Platform): (out: Step)
    ensures out.reply.Unhandled? <==> action !in Actions
    ensures action !in Actions ==> out.reg == reg && out.calls == []
  {
    var id := args.id;
    if action == "startRecording" then
      StartRecording(reg, id, StripFileProtocol(ResolveTarget(args.text, p), p))
    else if action == "stopRecording" then StopRecording(reg, id)
    else if action == "startPlaying" then
      StartPlaying(reg, id, StripFileProtocol(ResolveTarget(args.text, p), p))
    else if action == "seekTo" then SeekTo(reg, id, args.number)
    else if action == "pausePlaying" then PausePlaying(reg, id)
    else if action == "stopPlaying" then StopPlaying(reg, id)
    else if action == "setVolume" then SetVolume(reg, id, args.text, p)
    else if action == "getCurrentPosition" then GetCurrentPosition(reg, id)
    else if action == "getDuration" then GetDuration(reg, id, args.text, p)
    else if action == "create" then Create(reg, id, StripFileProtocol(args.text, p))
    else if action == "release" then Release(reg, id)
    else Step(reg, Unhandled, [])
  }

  // ---------------------------------------------------------------------
  // Lifecycle hooks
  // ---------------------------------------------------------------------

  /** Teardown: every registered player is destroyed (in the map's iteration
      order) and the registry is emptied; the paused list is not touched. */
  ghost predicate TornDown(reg: Registry, out: Step)
  {
    && out.reg == reg.(players := map[])
    && out.reply == Silent
    && |out.calls| == |reg.players|
    && (forall k :: k in reg.players ==> Call(reg.players[k].ref, Destroy) in out.calls)
    && (forall c :: c in out.calls ==>
          c.op == Destroy && exists k :: k in reg.players && reg.players[k].ref == c.target)
  }

  /** `onDestroy()`, iterating `players.values()` in `order`. */
  function OnDestroy(reg: Registry, order: seq<string>): (out: Step)
    requires IsListing(order, reg.players.Keys)
    ensures TornDown(reg, out)
  {
    ListingLength(order, reg.players.Keys);
    var calls := seq(|order|, i requires 0 <= i < |order| => Call(reg.players[order[i]].ref, Destroy));
    assert forall k :: k in reg.players ==> Call(reg.players[k].ref, Destroy) in calls by {
      forall k | k in reg.players
        ensures Call(reg.players[k].ref, Destroy) in calls
      {
        assert k in order;
        var i :| 0 <= i < |order| && order[i] == k;
        assert calls[i] == Call(reg.players[k].ref, Destroy);
      }
    }
    Step(reg.(players := map[]), Silent, calls)
  }

  /** `onReset()`: the same teardown as `onDestroy()`. */
  function OnReset(reg: Registry, order: seq<string>): (out: Step)
    requires IsListing(order, reg.players.Keys)
    ensures TornDown(reg, out)
  {
    OnDestroy(reg, order)
  }

  // ---------------------------------------------------------------------
  // Phone-call interruption
  // ---------------------------------------------------------------------

  /** The references of the running players among `order`, in that order. */
  function RunningRefs(players: map<string, Session>, order: seq<string>): (refs: seq<Ref>)
    requires forall k :: k in order ==> k in players
    ensures |refs| <= |order|
    ensures forall r :: r in refs ==>
              exists k :: k in order && players[k].ref == r && players[k].state == VoiceRunning
    ensures forall k :: k in order && players[k].state == VoiceRunning ==> players[k].ref in refs
    decreases |order|
  {
    if order == [] then []
    else
      var s := players[order[0]];
      (if s.state == VoiceRunning then [s.ref] else []) + RunningRefs(players, order[1..])
  }

  /** The references of the players along `order`, in that order. */
  function RefsAlong(players: map<string, Session>, order: seq<string>): (refs: seq<Ref>)
    requires forall k :: k in order ==> k in players
    ensures |refs| == |order|
    decreases |order|
  {
    if order == [] then []
    else [players[order[0]].ref] + RefsAlong(players, order[1..])
  }

  /** The calls one pass of the ringing loop makes along `order`: each
      player visited is asked `getState()`, and a running one then receives
      `pausePlaying()`. */
  function RingCalls(players: map<string, Session>, order: seq<string>): (calls: seq<Call>)
    requires forall k :: k in order ==> k in players
    ensures TargetsOf(calls, Pause) == RunningRefs(players, order)
    ensures forall c :: c in calls ==> c.op == StateQuery || c.op == Pause
    ensures TargetsOf(calls, StateQuery) == RefsAlong(players, order)
    decreases |order|
  {
    if order == [] then []
    else
      var s := players[order[0]];
      var here := [Call(s.ref, StateQuery)] + (if s.state == VoiceRunning then [Call(s.ref, Pause)] else []);
      var rest := RingCalls(players, order[1..]);
      TargetsOfAppend(here, rest, Pause);
      TargetsOfAppend(here, rest, StateQuery);
      assert here[1..] == (if s.state == VoiceRunning then [Call(s.ref, Pause)] else []);
      assert TargetsOf(here, Pause) == (if s.state == VoiceRunning then [s.ref] else []);
      assert TargetsOf(here, StateQuery) == [s.ref];
      here + rest
  }

  /** Ringing or off-hook: every player is asked for its state, in the
      visiting order `order`, and each running one is remembered and paused;
      nothing else is called. */
  function PauseForCall(reg: Registry, order: seq<string>): (out: Step)
    requires IsListing(order, reg.players.Keys)
    ensures out.reg.players == reg.players && out.reg.next == reg.next
    ensures |reg.pausedForPhone| <= |out.reg.pausedForPhone|
    ensures out.reg.pausedForPhone[..|reg.pausedForPhone|] == reg.pausedForPhone
    ensures forall r :: r in out.reg.pausedForPhone[|reg.pausedForPhone|..] <==>
              exists k :: k in reg.players && reg.players[k].ref == r && reg.players[k].state == VoiceRunning
    ensures TargetsOf(out.calls, Pause) == out.reg.pausedForPhone[|reg.pausedForPhone|..]
    ensures forall c :: c in out.calls ==> c.op == StateQuery || c.op == Pause
    ensures TargetsOf(out.calls, StateQuery) == RefsAlong(reg.players, order)
    ensures out.reply == Silent
  {
    var added := RunningRefs(reg.players, order);
    var paused := reg.pausedForPhone + added;
    assert paused[|reg.pausedForPhone|..] == added;
    Step(reg.(pausedForPhone := paused), Silent, RingCalls(reg.players, order))
  }

  /** Idle: every remembered player is resumed with `startPlaying(null)` and
      the list is emptied. */
  function ResumeAfterCall(reg: Registry): (out: Step)
    ensures out.reg.players == reg.players && out.reg.next == reg.next
    ensures out.reg.pausedForPhone == []
    ensures |out.calls| == |reg.pausedForPhone|
    ensures forall i :: 0 <= i < |out.calls| ==> out.calls[i] == Call(reg.pausedForPhone[i], Play(None))
    ensures out.reply == Silent
  {
    Step(reg.(pausedForPhone := []), Silent, CallsTo(reg.pausedForPhone, Play(None)))
  }

  /** `onMessage(id, data)`, with `players.values()` iterated in `order`.
      Only the `telephone` channel with `ringing`, `offhook` or `idle` does
      anything. */
  function OnMessage(reg: Registry, id: string, data: string, order: seq<string>): (out: Step)
    requires IsListing(order, reg.players.Keys)
    ensures out.reg.players == reg.players && out.reg.next == reg.next
    ensures out.reply == Silent
    ensures id != "telephone" || data !in {"ringing", "offhook", "idle"} ==>
              out.reg == reg && out.calls == []
  {
    if id == "telephone" then
      if data == "ringing" || data == "offhook" then PauseForCall(reg, order)
      else if data == "idle" then ResumeAfterCall(reg)
      else Step(reg, Silent, [])
    else Step(reg, Silent, [])
  }

  /** Not an operation of the plugin: the native player reporting a new
      state and position for itself, which is how a player's state changes
      between plugin calls. */
  function Report(reg: Registry, id: string, state: VoiceState, positionMs: int): (reg': Registry)
    ensures reg'.players.Keys == reg.players.Keys
    ensures forall k :: k in reg.players ==> reg'.players[k].ref == reg.players[k].ref
    ensures forall k :: k in reg.players ==> reg'.players[k].id == reg.players[k].id
    ensures id in reg.players ==> reg'.players[id].state == state && reg'.players[id].positionMs == positionMs
    ensures forall k :: k in reg.players && k != id ==> reg'.players[k] == reg.players[k]
    ensures reg'.pausedForPhone == reg.pausedForPhone && reg'.next == reg.next
  {
    if id in reg.players then
      reg.(players := reg.players[id := reg.players[id].(state := state, positionMs := positionMs)])
    else reg
  }
}
