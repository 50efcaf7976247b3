/** The two halves together: what the JavaScript constructor sends is what
    the Android dispatcher registers. */
module Bridge {
  import opened Common
  import opened VoicePlayer
  import opened VoiceHandler
  import Voice

  /** The `create` request a new `Voice` sends, run by the Android
      dispatcher, files a fresh native player under the voice's id, with the
      voice's source stripped of its `file://` scheme. */
  lemma NewVoiceCreatesNativePlayer(objects: map<string, Voice.VoiceObject>, uuid: string, src: string,
                                    hasSuccess: bool, hasError: bool, hasStatus: bool,
                                    reg: Registry, p: Platform, number: int)
    requires Wf(reg)
    ensures var c := Voice.New(objects, uuid, src, hasSuccess, hasError, hasStatus);
      var out := Execute(reg, c.request.action, Args(c.request.id, c.request.src, number), p);
      && out.reply == Ack
      && c.voice.id in out.reg.players
      && out.reg.players[c.voice.id].src == StripFileProtocol(c.voice.src, p)
      && out.reg.players[c.voice.id].state == VoiceNone
      && Wf(out.reg)
  {
  }
}
