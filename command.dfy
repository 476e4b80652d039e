/**
 * The `tts <message>` command: check the argument, connect to the device,
 * require a service account, then play the message.
 */
module TtsCommand {
  import opened Wrappers
  import opened Environment
  import opened Synthesis

  datatype Flags = Flags(googleServiceAccount: string, languageCode: string, cache: bool)

  /** The flag defaults: no service account, "en-US", no cache. */
  const DefaultFlags: Flags := Flags("", "en-US", false)

  datatype RunOutcome = BadArguments | CastFailed | MissingServiceAccount | Spoke(outcome: PlayOutcome)

  /** The command as a function of the host state before it; `cast` is castApplication's answer. */
  function RunResult(cfg: Config, st: State, args: seq<string>, flags: Flags, cast: Option<Session>,
                     o: Outcomes): (RunOutcome, State)
  {
    if |args| != 1 || args[0] == "" then (BadArguments, st)
    else
      var connected := State(st.files, st.effects + [CastConnect]);
      if cast.None? then (CastFailed, connected)
      else if flags.googleServiceAccount == "" then (MissingServiceAccount, connected)
      else
        var (out, st') := PlayResult(cfg, connected, cast.value, args[0], flags.cache,
                                     flags.googleServiceAccount, flags.languageCode, o);
        (Spoke(out), st')
  }

  method Run(host: Host, args: seq<string>, flags: Flags, cast: Option<Session>, o: Outcomes)
      returns (outcome: RunOutcome)
    modifies host
    ensures (outcome, host.Snapshot()) == RunResult(host.config, old(host.Snapshot()), args, flags, cast, o)
  {
    if |args| != 1 || args[0] == "" {
      return BadArguments;
    }
    host.Record(CastConnect);
    if cast.None? {
      return CastFailed;
    }
    if flags.googleServiceAccount == "" {
      return MissingServiceAccount;
    }
    var text := args[0];
    var played := Play(host, cast.value, text, flags.cache, flags.googleServiceAccount, flags.languageCode, o);
    return Spoke(played);
  }

  // ----- Properties of the command -----

  /**
   * Anything but exactly one non-empty argument is refused before the device
   * is contacted: nothing changes. One non-empty argument always gets past
   * this check.
   */
  lemma ArgumentsCheckedFirst(cfg: Config, st: State, args: seq<string>, flags: Flags,
                              cast: Option<Session>, o: Outcomes)
    ensures var (out, st') := RunResult(cfg, st, args, flags, cast, o);
            && (out == BadArguments <==> |args| != 1 || args[0] == "")
            && (out == BadArguments ==> st' == st)
            && (out != BadArguments ==> |st'.effects| > |st.effects| && st'.effects[|st.effects|] == CastConnect)
  {
    if |args| == 1 && args[0] != "" && cast.Some? && flags.googleServiceAccount != "" {
      PlayExtendsTrace(cfg, State(st.files, st.effects + [CastConnect]), cast.value, args[0], flags.cache,
                       flags.googleServiceAccount, flags.languageCode, o);
    }
  }

  /**
   * A missing service account aborts the command only after the device
   * connection succeeded; a failed connection stops it first.
   */
  lemma ServiceAccountCheckedAfterConnect(cfg: Config, st: State, message: string, flags: Flags,
                                          cast: Option<Session>, o: Outcomes)
    requires message != "" && flags.googleServiceAccount == ""
    ensures RunResult(cfg, st, [message], flags, cast, o)
         == (if cast.Some? then MissingServiceAccount else CastFailed, State(st.files, st.effects + [CastConnect]))
  {
  }

  /**
   * The default flags carry no service account, so a command run with them
   * connects to the device and then stops for the missing account.
   */
  lemma DefaultFlagsNeedServiceAccount(cfg: Config, st: State, message: string, cast: Option<Session>, o: Outcomes)
    requires message != ""
    ensures DefaultFlags.googleServiceAccount == ""
    ensures RunResult(cfg, st, [message], DefaultFlags, cast, o)
         == (if cast.Some? then MissingServiceAccount else CastFailed, State(st.files, st.effects + [CastConnect]))
  {
    ServiceAccountCheckedAfterConnect(cfg, st, message, DefaultFlags, cast, o);
  }

  /**
   * With the default language and cache flags and a service account given,
   * the provider is asked for "en-US" only, and a message that reached the
   * device leaves the filesystem as it found it (the temp file is removed).
   */
  lemma DefaultFlagsSpeakEnglishUncached(cfg: Config, st: State, message: string, account: string,
                                         session: Session, o: Outcomes)
    requires message != "" && account != ""
    ensures var (out, st') := RunResult(cfg, st, [message], DefaultFlags.(googleServiceAccount := account), Some(session), o);
            && out.Spoke?
            && (forall i :: |st.effects| <= i < |st'.effects| && st'.effects[i].Synthesize? ==>
                 st'.effects[i].languageCode == "en-US" && st'.effects[i].text == message)
            && (ReachedLoad(out.outcome) ==> st'.files == st.files)
  {
    var connected := State(st.files, st.effects + [CastConnect]);
    var (out, st') := RunResult(cfg, st, [message], DefaultFlags.(googleServiceAccount := account), Some(session), o);
    var delta := PlayCalls(cfg, connected, session, message, false, account, "en-US", o);
    forall i | |st.effects| <= i < |st'.effects| && st'.effects[i].Synthesize?
      ensures st'.effects[i].languageCode == "en-US" && st'.effects[i].text == message
    {
      assert i > |st.effects|;
      assert st'.effects[i] == delta[i - |connected.effects|];
    }
    if ReachedLoad(out.outcome) {
      UncachedPlayRestoresFiles(cfg, connected, session, message, account, "en-US", o);
    }
  }
}
