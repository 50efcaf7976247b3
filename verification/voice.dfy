/** The JavaScript side (`www/Voice.js`): the table of live `Voice` objects,
    their constructor, the lookup `Voice.get`, and `Voice.onStatus`, which
    folds status messages from the native side into an object's fields or
    turns them into callbacks.

    Callbacks are modelled by whether the caller supplied them, and calling
    one is an emitted `Effect`; so is a `console.error` line. */
module Voice {
  import opened Common
  import opened VoicePlayer

  // Message types (`Voice.VOICE_STATE` .. `Voice.VOICE_ERROR`).
  const StateMsg: int := 1
  const DurationMsg: int := 2
  const PositionMsg: int := 3
  const PowerMsg: int := 4
  const ErrorMsg: int := 9

  /** `Voice.VOICE_STOPPED`, the state code that completes a voice. */
  const StoppedCode: real := Code(VoiceStopped) as real

  /** A `Voice` object: its id and source, which of the optional callbacks
      were supplied, and the three numeric fields, -1 while unknown. */
  datatype VoiceObject = VoiceObject(
    id: string,
    src: string,
    hasSuccess: bool,
    hasError: bool,
    hasStatus: bool,
    duration: real,
    position: real,
    power: real)

  /** Why `onStatus` wrote to the console. */
  datatype Diagnostic = UnhandledMessage(msgType: int) | UnknownVoice(voiceId: string)

  /** What `onStatus` does besides writing fields. */
  datatype Effect =
    | StatusCallback(code: real)
    | SuccessCallback
    | ErrorCallback(errorCode: real)
    | ConsoleError(reason: Diagnostic)

  /** A bridge call to the native plugin: `exec(..., service, action, [id, src])`. */
  datatype Request = Request(service: string, action: string, id: string, src: string)

  /** The result of `new Voice(...)`: the updated table, the new object and
      the `create` request it sends. */
  datatype Construction = Construction(objects: map<string, VoiceObject>, voice: VoiceObject, request: Request)

  /** The result of `Voice.onStatus(...)`: the updated table and the effects. */
  datatype Update = Update(objects: map<string, VoiceObject>, effects: seq<Effect>)

  /** Every object is filed under its own id. */
  ghost predicate Registered(objects: map<string, VoiceObject>)
  {
    forall k :: k in objects ==> objects[k].id == k
  }

  /** `Voice.get(id)`: the object filed under `id`, or nothing (`undefined`). */
  function Get(objects: map<string, VoiceObject>, id: string): (r: Option<VoiceObject>)
    ensures r.Some? <==> id in objects
    ensures r.Some? ==> r.value == objects[id]
    ensures Registered(objects) && r.Some? ==> r.value.id == id
  {
    if id in objects then Some(objects[id]) else None
  }

  /** `new Voice(src, success, error, status)` with `uuid` the id
      `utils.createUUID()` returned. */
  function New(objects: map<string, VoiceObject>, uuid: string, src: string,
               hasSuccess: bool, hasError: bool, hasStatus: bool): (c: Construction)
    ensures Get(c.objects, uuid) == Some(c.voice)
    ensures c.voice.id == uuid && c.voice.src == src
    ensures c.voice.hasSuccess == hasSuccess && c.voice.hasError == hasError && c.voice.hasStatus == hasStatus
    ensures c.voice.duration == -1.0 && c.voice.position == -1.0 && c.voice.power == -1.0
    ensures forall k :: k != uuid ==> Get(c.objects, k) == Get(objects, k)
    ensures Registered(objects) ==> Registered(c.objects)
    ensures c.request == Request("Voice", "create", uuid, src)
  {
    var v := VoiceObject(uuid, src, hasSuccess, hasError, hasStatus, -1.0, -1.0, -1.0);
    Construction(objects[uuid := v], v, Request("Voice", "create", uuid, src))
  }

  /** At most one of each effect in `effects`, and none of them a console
      line. */
  ghost predicate CallbacksOnce(effects: seq<Effect>)
  {
    forall e :: e in effects ==> !e.ConsoleError? && multiset(effects)[e] == 1
  }

  /** A success callback in `effects` comes after every status callback. */
  ghost predicate StatusBeforeSuccess(effects: seq<Effect>)
  {
    forall i, j ::
      0 <= i < |effects| && 0 <= j < |effects| && effects[i].StatusCallback? && effects[j].SuccessCallback? ==> i < j
  }

  /** The callbacks a `VOICE_STATE` message fires, in order. */
  function StateCallbacks(v: VoiceObject, value: real): (r: seq<Effect>)
    ensures StatusCallback(value) in r <==> v.hasStatus
    ensures SuccessCallback in r <==> value == StoppedCode && v.hasSuccess
    ensures forall e :: e in r ==> e == StatusCallback(value) || e == SuccessCallback
    ensures CallbacksOnce(r)
    ensures StatusBeforeSuccess(r)
  {
    (if v.hasStatus then [StatusCallback(value)] else [])
    + (if value == StoppedCode && v.hasSuccess then [SuccessCallback] else [])
  }

  /** `Voice.onStatus(id, msgType, value)`. */
  function OnStatus(objects: map<string, VoiceObject>, id: string, msgType: int, value: real): (u: Update)
    ensures u.objects.Keys == objects.Keys
    ensures forall k :: k in objects && k != id ==> u.objects[k] == objects[k]
    ensures id !in objects ==> u == Update(objects, [ConsoleError(UnknownVoice(id))])
    ensures id in objects ==>
              && u.objects[id].id == objects[id].id
              && u.objects[id].src == objects[id].src
              && u.objects[id].hasSuccess == objects[id].hasSuccess
              && u.objects[id].hasError == objects[id].hasError
              && u.objects[id].hasStatus == objects[id].hasStatus
    ensures Registered(objects) ==> Registered(u.objects)
    // callbacks: which fire, and only then
    ensures (StatusCallback(value) in u.effects) <==> id in objects && msgType == StateMsg && objects[id].hasStatus
    ensures (SuccessCallback in u.effects) <==>
              id in objects && msgType == StateMsg && value == StoppedCode && objects[id].hasSuccess
    ensures (ErrorCallback(value) in u.effects) <==> id in objects && msgType == ErrorMsg && objects[id].hasError
    ensures forall e :: e in u.effects && (e.StatusCallback? || e.ErrorCallback?) ==> e in [StatusCallback(value), ErrorCallback(value)]
    ensures |u.effects| <= 2
    // a state or error message to a known voice: each callback at most once,
    // nothing logged, and the status callback ahead of the success callback
    ensures id in objects && (msgType == StateMsg || msgType == ErrorMsg) ==> CallbacksOnce(u.effects)
    ensures StatusBeforeSuccess(u.effects)
  {
    if id !in objects then Update(objects, [ConsoleError(UnknownVoice(id))])
    else
      var v := objects[id];
      if msgType == StateMsg then Update(objects, StateCallbacks(v, value))
      else if msgType == DurationMsg then Update(objects[id := v.(duration := value)], [])
      else if msgType == ErrorMsg then Update(objects, if v.hasError then [ErrorCallback(value)] else [])
      else if msgType == PositionMsg then Update(objects[id := v.(position := value)], [])
      else if msgType == PowerMsg then Update(objects[id := v.(power := value)], [])
      else Update(objects, [ConsoleError(UnhandledMessage(msgType))])
  }

  // ---------------------------------------------------------------------
  // Which field a message writes: an independent table
  // ---------------------------------------------------------------------

  datatype Field = Duration | Position | Power

  /** The one field each numeric message type writes; other types write none. */
  function FieldOf(msgType: int): Option<Field>
  {
    if msgType == 2 then Some(Duration)
    else if msgType == 3 then Some(Position)
    else if msgType == 4 then Some(Power)
    else None
  }

  function Read(v: VoiceObject, f: Field): real
  {
    match f
    case Duration => v.duration
    case Position => v.position
    case Power => v.power
  }

  /** `onStatus` writes `value` into exactly the field the table names for its
      message type, on exactly the addressed object; every other field of
      every object keeps its value. */
  lemma OnStatusWritesOnlyItsField(objects: map<string, VoiceObject>, id: string, msgType: int, value: real,
                                   k: string, f: Field)
    requires k in objects
    ensures var u := OnStatus(objects, id, msgType, value);
      Read(u.objects[k], f) == if k == id && FieldOf(msgType) == Some(f) then value else Read(objects[k], f)
  {
  }

  /** Messages that write a field fire no callback and log nothing; messages
      that write no field leave the whole table unchanged. */
  lemma {:induction false} FieldMessagesAreSilent(objects: map<string, VoiceObject>, id: string, msgType: int, value: real)
    ensures var u := OnStatus(objects, id, msgType, value);
      && (id in objects && FieldOf(msgType).Some? ==> u.effects == [])
      && (FieldOf(msgType).None? ==> u.objects == objects)
  {
    var u := OnStatus(objects, id, msgType, value);
    if FieldOf(msgType).None? && id in objects {
      assert msgType != DurationMsg && msgType != PositionMsg && msgType != PowerMsg;
    }
  }

  /** A status message for an unknown id, or of an unknown type, logs exactly
      one console line and does nothing else. */
  lemma UnhandledMessagesOnlyLog(objects: map<string, VoiceObject>, id: string, msgType: int, value: real)
    requires id !in objects || msgType !in {StateMsg, DurationMsg, PositionMsg, PowerMsg, ErrorMsg}
    ensures var u := OnStatus(objects, id, msgType, value);
      && u.objects == objects
      && |u.effects| == 1
      && u.effects[0].ConsoleError?
  {
  }

  /** A state report of "stopped" to a voice that supplied both callbacks
      fires the status callback first and then the success callback. */
  lemma StoppedFiresStatusThenSuccess(objects: map<string, VoiceObject>, id: string)
    requires id in objects && objects[id].hasStatus && objects[id].hasSuccess
    ensures OnStatus(objects, id, StateMsg, StoppedCode).effects == [StatusCallback(StoppedCode), SuccessCallback]
  {
  }

  /** A freshly constructed voice can be looked up and still reads -1 for all
      three fields after any message that writes none of them. */
  lemma {:induction false} NewThenGet(objects: map<string, VoiceObject>, uuid: string, src: string,
                                      hasSuccess: bool, hasError: bool, hasStatus: bool, msgType: int, value: real)
    requires FieldOf(msgType).None?
    ensures var c := New(objects, uuid, src, hasSuccess, hasError, hasStatus);
      var u := OnStatus(c.objects, uuid, msgType, value);
      && Get(u.objects, uuid) == Some(c.voice)
      && c.voice.duration == -1.0 && c.voice.position == -1.0 && c.voice.power == -1.0
  {
    var c := New(objects, uuid, src, hasSuccess, hasError, hasStatus);
    FieldMessagesAreSilent(c.objects, uuid, msgType, value);
  }
}
