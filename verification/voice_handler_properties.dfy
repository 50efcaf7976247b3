/** Properties of the Android registry that relate several operations, or
    state an operation against an independent description of what it should
    do to the registry. */
module VoiceHandlerProperties {
  import opened Common
  import opened VoicePlayer
  import opened VoiceHandler

  /** Actions that file a player under the id when there is none. */
  const CreatingActions: set<string> := {"startRecording", "startPlaying", "getDuration", "create"}

  /** Actions that only ever reach an already registered player. */
  const ControlActions: set<string> := {"stopRecording", "seekTo", "pausePlaying", "stopPlaying", "setVolume"}

  /** The registry's ids after `action` on `id`, as a table: creating
      actions add the id, `release` removes it, everything else keeps the
      id set as it was. */
  function KeysAfter(action: string, id: string, keys: set<string>): set<string>
  {
    if action in CreatingActions then keys + {id}
    else if action == "release" then keys - {id}
    else keys
  }

  // ---------------------------------------------------------------------
  // The dispatcher
  // ---------------------------------------------------------------------

  /** Every action changes the id set exactly as the table says. */
  lemma ExecuteKeys(reg: Registry, action: string, args: Args, p: Platform)
    ensures Execute(reg, action, args, p).reg.players.Keys == KeysAfter(action, args.id, reg.players.Keys)
  {
  }

  /** No action replaces a registered player except `create` on its own id;
      a player that survives the step is the same object in the same state. */
  lemma ExecuteKeepsPlayers(reg: Registry, action: string, args: Args, p: Platform, k: string)
    requires k in reg.players
    requires k in Execute(reg, action, args, p).reg.players
    requires action != "create" || k != args.id
    ensures Execute(reg, action, args, p).reg.players[k] == reg.players[k]
  {
  }

  /** `create` files a fresh object under the id: one no id was bound to
      before, and the player it replaces is not destroyed. */
  lemma CreateReplacesWithoutDestroy(reg: Registry, args: Args, p: Platform)
    requires Wf(reg)
    ensures var out := Execute(reg, "create", args, p);
      && args.id in out.reg.players
      && (forall k :: k in reg.players ==> out.reg.players[args.id].ref != reg.players[k].ref)
      && out.calls == []
  {
  }

  /** On an unknown id a control action changes nothing and calls nothing;
      on a known one it keeps every id, including this one. */
  lemma ControlLeavesRegistry(reg: Registry, action: string, args: Args, p: Platform)
    requires action in ControlActions
    ensures Execute(reg, action, args, p).reg == reg
    ensures args.id !in reg.players ==> Execute(reg, action, args, p).calls == []
  {
  }

  /** The get-or-create actions reuse a registered player: the registry is
      left exactly as it was and the call goes to that player. */
  lemma GetOrCreateReuses(reg: Registry, action: string, args: Args, p: Platform)
    requires action in {"startRecording", "startPlaying", "getDuration"}
    requires args.id in reg.players
    ensures Execute(reg, action, args, p).reg == reg
    ensures forall c :: c in Execute(reg, action, args, p).calls ==> c.target == reg.players[args.id].ref
  {
  }

  /** Every call a bridge action makes goes to the player filed under the
      action's id, before or after the step. */
  lemma ExecuteCallsOnlyThatPlayer(reg: Registry, action: string, args: Args, p: Platform)
    ensures var out := Execute(reg, action, args, p);
      forall c :: c in out.calls ==>
        || (args.id in reg.players && c.target == reg.players[args.id].ref)
        || (args.id in out.reg.players && c.target == out.reg.players[args.id].ref)
  {
  }

  /** `release` and a creating action undo each other on the id set. */
  lemma {:induction false} ReleaseUndoesCreate(reg: Registry, action: string, args: Args, p: Platform)
    requires action in CreatingActions
    requires args.id !in reg.players
    ensures var out := Execute(reg, action, args, p);
      && Execute(out.reg, "release", args, p).reply == Flag(true)
      && Execute(out.reg, "release", args, p).reg.players == reg.players
  {
    var out := Execute(reg, action, args, p);
    var back := Execute(out.reg, "release", args, p);
    assert back.reg.players.Keys == reg.players.Keys;
    assert forall k :: k in reg.players ==> back.reg.players[k] == reg.players[k];
  }

  /** The sentinel -1 is unambiguous while positions are non-negative: it is
      answered exactly when the id is unknown. */
  lemma PositionSentinel(reg: Registry, args: Args, p: Platform)
    requires forall k :: k in reg.players ==> reg.players[k].positionMs >= 0
    ensures var out := Execute(reg, "getCurrentPosition", args, p);
      out.reply == Number(-1.0) <==> args.id !in reg.players
  {
  }

  /** A network reference reaches the player unchanged: as the source a
      `create` builds it with, as the file `getDuration` asks about, and, when
      the resource API leaves it alone or cannot parse it, as the file
      `startPlaying` and `startRecording` pass on (and build a new player
      with). */
  lemma NetworkReferencePassesThrough(reg: Registry, args: Args, p: Platform)
    requires StartsWith(args.text, "http://")
    ensures Execute(reg, "create", args, p).reg.players[args.id].src == args.text
    ensures var out := Execute(reg, "getDuration", args, p);
      out.calls == [Call(out.reg.players[args.id].ref, DurationQuery(args.text))]
    ensures p.remap(args.text) == Some(args.text) || p.remap(args.text).None? ==>
      var out := Execute(reg, "startPlaying", args, p);
      && out.calls == [Call(out.reg.players[args.id].ref, Play(Some(args.text)))]
      && (args.id !in reg.players ==> out.reg.players[args.id].src == args.text)
    ensures p.remap(args.text) == Some(args.text) || p.remap(args.text).None? ==>
      var out := Execute(reg, "startRecording", args, p);
      && out.calls == [Call(out.reg.players[args.id].ref, Record(args.text))]
      && (args.id !in reg.players ==> out.reg.players[args.id].src == args.text)
  {
    assert args.text[..|FileScheme|][0] != FileScheme[0];
  }

  /** A `file://` reference reaches the player as the parser's path for it,
      through `create`, and through `startPlaying` and `startRecording` when
      the resource API leaves it alone or cannot parse it; `getDuration`
      alone passes it on with the scheme still in place. */
  lemma LocalReferenceIsStripped(reg: Registry, args: Args, p: Platform)
    requires StartsWith(args.text, FileScheme)
    ensures Execute(reg, "create", args, p).reg.players[args.id].src == p.uriPath(args.text)
    ensures var out := Execute(reg, "getDuration", args, p);
      out.calls == [Call(out.reg.players[args.id].ref, DurationQuery(args.text))]
    ensures p.remap(args.text) == Some(args.text) || p.remap(args.text).None? ==>
      var out := Execute(reg, "startPlaying", args, p);
      out.calls == [Call(out.reg.players[args.id].ref, Play(Some(p.uriPath(args.text))))]
    ensures p.remap(args.text) == Some(args.text) || p.remap(args.text).None? ==>
      var out := Execute(reg, "startRecording", args, p);
      out.calls == [Call(out.reg.players[args.id].ref, Record(p.uriPath(args.text)))]
  {
  }

  // ---------------------------------------------------------------------
  // The registry invariant
  // ---------------------------------------------------------------------

  /** Every bridge action keeps the registry invariant. */
  lemma {:induction false} ExecutePreservesWf(reg: Registry, action: string, args: Args, p: Platform)
    requires Wf(reg)
    ensures Wf(Execute(reg, action, args, p).reg)
  {
    var out := Execute(reg, action, args, p);
    var id := args.id;
    var file := StripFileProtocol(ResolveTarget(args.text, p), p);
    if action == "startRecording" {
      assert out == StartRecording(reg, id, file);
      GetOrCreatedPreservesWf(reg, out.reg, id, file);
    } else if action == "startPlaying" {
      assert out == StartPlaying(reg, id, file);
      GetOrCreatedPreservesWf(reg, out.reg, id, file);
    } else if action == "getDuration" {
      assert out == GetDuration(reg, id, args.text, p);
      GetOrCreatedPreservesWf(reg, out.reg, id, args.text);
    } else if action == "create" {
      assert out == Create(reg, id, StripFileProtocol(args.text, p));
      assert out.reg.players[id].id == id;
    } else if action == "release" {
      assert out == Release(reg, id);
    } else {
      assert out.reg == reg;
    }
  }

  /** A get-or-create step keeps the invariant: the only possible newcomer
      is a fresh object filed under its own id. */
  lemma GetOrCreatedPreservesWf(reg: Registry, reg': Registry, id: string, file: string)
    requires Wf(reg)
    requires GetOrCreated(reg, reg', id, file)
    ensures Wf(reg')
  {
  }

  /** The phone-call handler keeps the registry invariant. */
  lemma OnMessagePreservesWf(reg: Registry, id: string, data: string, order: seq<string>)
    requires Wf(reg)
    requires IsListing(order, reg.players.Keys)
    ensures Wf(OnMessage(reg, id, data, order).reg)
  {
    if id == "telephone" && (data == "ringing" || data == "offhook") {
      var added := RunningRefs(reg.players, order);
      RememberingKeepsWf(reg, added);
      assert OnMessage(reg, id, data, order).reg == reg.(pausedForPhone := reg.pausedForPhone + added);
    }
  }

  /** Remembering more allocated players keeps the registry invariant. */
  lemma {:induction false} RememberingKeepsWf(reg: Registry, added: seq<Ref>)
    requires Wf(reg)
    requires forall r :: r in added ==> r < reg.next
    ensures Wf(reg.(pausedForPhone := reg.pausedForPhone + added))
  {
    var paused := reg.pausedForPhone + added;
    var n := |reg.pausedForPhone|;
    forall i | 0 <= i < |paused|
      ensures paused[i] < reg.next
    {
      if i >= n {
        assert paused[i] == added[i - n];
        assert added[i - n] in added;
      }
    }
  }

  /** Teardown keeps the registry invariant. */
  lemma OnDestroyPreservesWf(reg: Registry, order: seq<string>)
    requires Wf(reg)
    requires IsListing(order, reg.players.Keys)
    ensures Wf(OnDestroy(reg, order).reg)
  {
  }

  /** A player's own state report keeps the registry invariant. */
  lemma ReportPreservesWf(reg: Registry, id: string, state: VoiceState, positionMs: int)
    requires Wf(reg)
    ensures Wf(Report(reg, id, state, positionMs))
  {
  }

  // ---------------------------------------------------------------------
  // Teardown
  // ---------------------------------------------------------------------

  /** Teardown destroys every registered player exactly once. */
  lemma {:induction false} TeardownDestroysEachOnce(reg: Registry, order: seq<string>)
    requires Wf(reg)
    requires IsListing(order, reg.players.Keys)
    ensures Distinct(OnDestroy(reg, order).calls)
  {
    var calls := OnDestroy(reg, order).calls;
    forall i, j | 0 <= i < j < |calls|
      ensures calls[i] != calls[j]
    {
      assert calls[i].target == reg.players[order[i]].ref;
      assert calls[j].target == reg.players[order[j]].ref;
      assert order[i] != order[j];
    }
  }

  // ---------------------------------------------------------------------
  // Phone-call interruption
  // ---------------------------------------------------------------------

  /** With each object filed once, the running players found along a
      duplicate-free order are all different objects. */
  lemma {:induction false} RunningRefsDistinct(reg: Registry, order: seq<string>)
    requires Wf(reg)
    requires Distinct(order)
    requires forall k :: k in order ==> k in reg.players
    ensures Distinct(RunningRefs(reg.players, order))
    decreases |order|
  {
    if order != [] {
      var rest := order[1..];
      assert Distinct(rest) by {
        forall i, j | 0 <= i < j < |rest|
          ensures rest[i] != rest[j]
        {
          assert order[i + 1] != order[j + 1];
        }
      }
      RunningRefsDistinct(reg, rest);
      var s := reg.players[order[0]];
      if s.state == VoiceRunning {
        var tail := RunningRefs(reg.players, rest);
        assert order[0] !in rest;
        assert s.ref !in tail;
        assert RunningRefs(reg.players, order) == [s.ref] + tail;
      }
    }
  }

  /** A ring or off-hook remembers each running player exactly once. */
  lemma RingRemembersEachRunningOnce(reg: Registry, data: string, order: seq<string>)
    requires Wf(reg)
    requires IsListing(order, reg.players.Keys)
    requires data == "ringing" || data == "offhook"
    ensures var out := OnMessage(reg, "telephone", data, order);
      Distinct(out.reg.pausedForPhone[|reg.pausedForPhone|..])
  {
    RunningRefsDistinct(reg, order);
    var out := OnMessage(reg, "telephone", data, order);
    assert out.reg.pausedForPhone[|reg.pausedForPhone|..] == RunningRefs(reg.players, order);
  }

  /** A call that rings and then ends: every player running when it rang is
      paused and afterwards resumed with `startPlaying(null)`; the paused list
      ends empty; and apart from the `getState()` queries of the ringing
      pass, no call goes to any other player except ones still remembered
      from before. */
  lemma {:induction false} RingThenIdle(reg: Registry, data: string, order: seq<string>)
    requires IsListing(order, reg.players.Keys)
    requires data == "ringing" || data == "offhook"
    ensures var ring := OnMessage(reg, "telephone", data, order);
      var idle := OnMessage(ring.reg, "telephone", "idle", order);
      && idle.reg.pausedForPhone == []
      && idle.reg.players == reg.players
      && (forall k :: k in reg.players && reg.players[k].state == VoiceRunning ==>
            && Call(reg.players[k].ref, Pause) in ring.calls
            && Call(reg.players[k].ref, Play(None)) in idle.calls)
      && (forall c :: c in ring.calls + idle.calls && c.op != StateQuery ==>
            || c.target in reg.pausedForPhone
            || exists k :: k in reg.players && reg.players[k].ref == c.target && reg.players[k].state == VoiceRunning)
  {
    var ring := PauseForCall(reg, order);
    assert ring == OnMessage(reg, "telephone", data, order);
    var idle := ResumeAfterCall(ring.reg);
    assert idle == OnMessage(ring.reg, "telephone", "idle", order);
    forall k | k in reg.players && reg.players[k].state == VoiceRunning
      ensures Call(reg.players[k].ref, Pause) in ring.calls
      ensures Call(reg.players[k].ref, Play(None)) in idle.calls
    {
      RingPausesRunning(reg, order, k);
      IdleResumesRunning(reg, order, k);
    }
    forall c | c in ring.calls + idle.calls && c.op != StateQuery
      ensures || c.target in reg.pausedForPhone
              || exists k :: k in reg.players && reg.players[k].ref == c.target && reg.players[k].state == VoiceRunning
    {
      if c in ring.calls {
        RingPausesOnlyRunning(reg, order, c);
      } else {
        IdleResumesOnlyRemembered(reg, order, c);
      }
    }
  }

  /** The idle that follows a ring resumes every player that was running
      when it rang. */
  lemma IdleResumesRunning(reg: Registry, order: seq<string>, k: string)
    requires IsListing(order, reg.players.Keys)
    requires k in reg.players && reg.players[k].state == VoiceRunning
    ensures Call(reg.players[k].ref, Play(None)) in ResumeAfterCall(PauseForCall(reg, order).reg).calls
  {
    var ring := PauseForCall(reg, order);
    var idle := ResumeAfterCall(ring.reg);
    var n := |reg.pausedForPhone|;
    var added := ring.reg.pausedForPhone[n..];
    var r := reg.players[k].ref;
    RingPausesRunning(reg, order, k);
    var i :| 0 <= i < |added| && added[i] == r;
    assert idle.calls[n + i] == Call(r, Play(None));
  }

  /** The ringing pass pauses and remembers a running player. */
  lemma RingPausesRunning(reg: Registry, order: seq<string>, k: string)
    requires IsListing(order, reg.players.Keys)
    requires k in reg.players && reg.players[k].state == VoiceRunning
    ensures var ring := PauseForCall(reg, order);
      && Call(reg.players[k].ref, Pause) in ring.calls
      && reg.players[k].ref in ring.reg.pausedForPhone[|reg.pausedForPhone|..]
  {
    var ring := PauseForCall(reg, order);
    assert reg.players[k].ref in ring.reg.pausedForPhone[|reg.pausedForPhone|..];
    TargetsOfMembers(ring.calls, Pause, reg.players[k].ref);
  }

  /** The idle that follows a ring resumes only players that were
      remembered before it rang or that were running when it rang. */
  lemma IdleResumesOnlyRemembered(reg: Registry, order: seq<string>, c: Call)
    requires IsListing(order, reg.players.Keys)
    requires c in ResumeAfterCall(PauseForCall(reg, order).reg).calls
    ensures || c.target in reg.pausedForPhone
            || exists k :: k in reg.players && reg.players[k].ref == c.target && reg.players[k].state == VoiceRunning
  {
    var ring := PauseForCall(reg, order);
    var idle := ResumeAfterCall(ring.reg);
    var n := |reg.pausedForPhone|;
    var i :| 0 <= i < |idle.calls| && idle.calls[i] == c;
    assert c.target == ring.reg.pausedForPhone[i];
    if i >= n {
      var tail := ring.reg.pausedForPhone[n..];
      assert c.target == tail[i - n];
      assert tail[i - n] in tail;
    } else {
      assert c.target == reg.pausedForPhone[i];
    }
  }

  /** Every call of the ringing pass other than a state query pauses a
      player that was running. */
  lemma RingPausesOnlyRunning(reg: Registry, order: seq<string>, c: Call)
    requires IsListing(order, reg.players.Keys)
    requires c in PauseForCall(reg, order).calls && c.op != StateQuery
    ensures c.op == Pause
    ensures exists k :: k in reg.players && reg.players[k].ref == c.target && reg.players[k].state == VoiceRunning
  {
    var ring := PauseForCall(reg, order);
    assert c == Call(c.target, Pause);
    TargetsOfMembers(ring.calls, Pause, c.target);
    assert c.target in ring.reg.pausedForPhone[|reg.pausedForPhone|..];
  }

  /** A player that is not running when the phone rings is only asked for
      its state: it is neither paused nor remembered, so the end of the call
      does not resume it. */
  lemma NotRunningIsLeftAlone(reg: Registry, data: string, order: seq<string>, k: string)
    requires Wf(reg)
    requires IsListing(order, reg.players.Keys)
    requires data == "ringing" || data == "offhook"
    requires k in reg.players && reg.players[k].state != VoiceRunning
    requires reg.players[k].ref !in reg.pausedForPhone
    ensures var ring := OnMessage(reg, "telephone", data, order);
      var idle := OnMessage(ring.reg, "telephone", "idle", order);
      && Call(reg.players[k].ref, StateQuery) in ring.calls
      && (forall c :: c in ring.calls + idle.calls && c.target == reg.players[k].ref ==> c.op == StateQuery)
  {
    RingThenIdle(reg, data, order);
    var ring := PauseForCall(reg, order);
    assert ring == OnMessage(reg, "telephone", data, order);
    RefsAlongHas(reg.players, order, k);
    TargetsOfMembers(ring.calls, StateQuery, reg.players[k].ref);
  }

  /** A pass along `order` meets the player of every id on it. */
  lemma {:induction false} RefsAlongHas(players: map<string, Session>, order: seq<string>, k: string)
    requires forall j :: j in order ==> j in players
    requires k in order
    ensures players[k].ref in RefsAlong(players, order)
    decreases |order|
  {
    if order[0] != k {
      assert k in order[1..];
      RefsAlongHas(players, order[1..], k);
    }
  }

  /** One ringing pass over a single player: its state is asked, and it is
      paused only when running. */
  lemma RingOverOne(players: map<string, Session>, k: string)
    requires k in players
    ensures RingCalls(players, [k]) ==
      [Call(players[k].ref, StateQuery)] + (if players[k].state == VoiceRunning then [Call(players[k].ref, Pause)] else [])
    ensures RunningRefs(players, [k]) == if players[k].state == VoiceRunning then [players[k].ref] else []
  {
    assert [k][1..] == [];
  }

  /** As written, `release` does not take a player off the paused list: when
      a remembered player is released during a call, the end of the call
      still sends `startPlaying(null)` to the destroyed object. */
  lemma {:induction false} ReleasedPlayerIsStillResumed(reg: Registry, args: Args, p: Platform, order: seq<string>)
    requires args.id in reg.players
    requires IsListing(order, reg.players.Keys - {args.id})
    requires reg.players[args.id].ref in reg.pausedForPhone
    ensures var rel := Execute(reg, "release", args, p);
      var idle := OnMessage(rel.reg, "telephone", "idle", order);
      && Call(reg.players[args.id].ref, Destroy) in rel.calls
      && Call(reg.players[args.id].ref, Play(None)) in idle.calls
  {
    var r := reg.players[args.id].ref;
    var rel := Execute(reg, "release", args, p);
    var idle := OnMessage(rel.reg, "telephone", "idle", order);
    var i :| 0 <= i < |reg.pausedForPhone| && reg.pausedForPhone[i] == r;
    assert idle.calls[i] == Call(r, Play(None));
  }

  // ---------------------------------------------------------------------
  // End-to-end sequences
  // ---------------------------------------------------------------------

  /** create("x") then a ring: "x" is not playing, so it is only asked for
      its state; it is not paused, not remembered, and the end of the call
      does not resume it. */
  lemma {:induction false} CreatedButNotPlayingIsNotResumed(src: string, p: Platform)
    ensures var created := Execute(Init(), "create", Args("x", src, 0), p);
      var ring := OnMessage(created.reg, "telephone", "ringing", ["x"]);
      var idle := OnMessage(ring.reg, "telephone", "idle", ["x"]);
      && ring.reg.pausedForPhone == []
      && ring.calls == [Call(created.reg.players["x"].ref, StateQuery)]
      && idle.calls == []
  {
    var created := Execute(Init(), "create", Args("x", src, 0), p);
    assert created == Create(Init(), "x", StripFileProtocol(src, p));
    var players := created.reg.players;
    assert players.Keys == {"x"} && players["x"].state == VoiceNone;
    RingOverOne(players, "x");
    var ring := PauseForCall(created.reg, ["x"]);
    assert ring == OnMessage(created.reg, "telephone", "ringing", ["x"]);
    assert ring.reg.pausedForPhone == [] && ring.calls == RingCalls(players, ["x"]);
    assert ResumeAfterCall(ring.reg) == OnMessage(ring.reg, "telephone", "idle", ["x"]);
  }

  /** startPlaying("x"), the player reports that it runs, the phone rings and
      then goes idle: "x" is asked for its state, paused, remembered,
      resumed, and the list ends empty. */
  lemma {:induction false} PlayingPlayerIsPausedAndResumed(target: string, p: Platform)
    ensures var started := Execute(Init(), "startPlaying", Args("x", target, 0), p);
      var r := started.reg.players["x"].ref;
      var running := Report(started.reg, "x", VoiceRunning, 0);
      var ring := OnMessage(running, "telephone", "ringing", ["x"]);
      var idle := OnMessage(ring.reg, "telephone", "idle", ["x"]);
      && ring.reg.pausedForPhone == [r]
      && ring.calls == [Call(r, StateQuery), Call(r, Pause)]
      && idle.calls == [Call(r, Play(None))]
      && idle.reg.pausedForPhone == []
  {
    var started := Execute(Init(), "startPlaying", Args("x", target, 0), p);
    StartedFromNothing(target, p);
    var running := Report(started.reg, "x", VoiceRunning, 0);
    assert running.players.Keys == {"x"} && running.pausedForPhone == [];
    assert running.players["x"].state == VoiceRunning;
    assert running.players["x"].ref == started.reg.players["x"].ref;
    RingThenIdleOverOneRunning(running, "x");
  }

  /** startPlaying on a fresh plugin files exactly one player and remembers
      nothing. */
  lemma StartedFromNothing(target: string, p: Platform)
    ensures var started := Execute(Init(), "startPlaying", Args("x", target, 0), p);
      started.reg.players.Keys == {"x"} && started.reg.pausedForPhone == []
  {
    var started := Execute(Init(), "startPlaying", Args("x", target, 0), p);
    assert started == StartPlaying(Init(), "x", StripFileProtocol(ResolveTarget(target, p), p));
  }

  /** A ring and then idle with a single registered player that runs and
      nothing remembered: it is asked, paused, remembered, then resumed. */
  lemma RingThenIdleOverOneRunning(reg: Registry, k: string)
    requires reg.players.Keys == {k} && reg.players[k].state == VoiceRunning && reg.pausedForPhone == []
    ensures var r := reg.players[k].ref;
      var ring := OnMessage(reg, "telephone", "ringing", [k]);
      var idle := OnMessage(ring.reg, "telephone", "idle", [k]);
      && ring.reg.pausedForPhone == [r]
      && ring.calls == [Call(r, StateQuery), Call(r, Pause)]
      && idle.calls == [Call(r, Play(None))]
      && idle.reg.pausedForPhone == []
  {
    var r := reg.players[k].ref;
    RingOverOne(reg.players, k);
    var ring := PauseForCall(reg, [k]);
    assert ring == OnMessage(reg, "telephone", "ringing", [k]);
    assert ring.reg.pausedForPhone == [r] && ring.calls == RingCalls(reg.players, [k]);
    var idle := ResumeAfterCall(ring.reg);
    assert idle == OnMessage(ring.reg, "telephone", "idle", [k]);
    assert idle.calls == CallsTo([r], Play(None));
  }
}
