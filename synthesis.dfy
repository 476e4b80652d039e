/**
 * The synthesis-file cache and the playback flow shared by the HTTP `tts`
 * handler and the `tts` command: pick the audio file (`ttsFile`), synthesize
 * into it unless it already holds audio, hand it to the device, and remove it
 * afterwards when caching is off.
 */
module Synthesis {
  import opened Wrappers
  import opened Environment

  /** The MIME type and the three flags every Load call passes. */
  const ContentType: string := "audio/mp3"
  const LoadFlags: seq<bool> := [false, false, false]

  /** `<tmp>/<hex sha1 of text>.mp3`: the cache name depends on the text only. */
  function CachePath(cfg: Config, text: string): (r: string)
    ensures cfg.tmpDir + "/" <= r
    ensures |r| >= 4 && r[|r| - 4..] == ".mp3"
  {
    cfg.tmpDir + "/" + cfg.digest(text) + ".mp3"
  }

  /** Two texts share a cache file exactly when their digests agree; the language plays no part. */
  lemma CachePathNamesDigest(cfg: Config, text1: string, text2: string)
    ensures CachePath(cfg, text1) == CachePath(cfg, text2) <==> cfg.digest(text1) == cfg.digest(text2)
  {
    var p1, p2 := CachePath(cfg, text1), CachePath(cfg, text2);
    if p1 == p2 {
      var k := |cfg.tmpDir| + 1;
      assert p1[k..|p1| - 4] == cfg.digest(text1);
      assert p2[k..|p2| - 4] == cfg.digest(text2);
    }
  }

  /** The name TempFile builds from the pattern "go-chromecast-tts*.mp3" and one random draw. */
  function TempPath(cfg: Config, draw: string): string {
    cfg.tmpDir + "/go-chromecast-tts" + draw + ".mp3"
  }

  function TempCandidates(cfg: Config, draws: seq<string>): (r: seq<string>)
    ensures |r| == |draws|
  {
    seq(|draws|, i requires 0 <= i < |draws| => TempPath(cfg, draws[i]))
  }

  /** What the collaborators answer during one playback. */
  datatype Outcomes = Outcomes(
    tempDraws: seq<string>,           // TempFile's random name suffixes, in the order tried
    synthesis: Option<seq<byte>>,     // tts.Create: the audio, or an error
    write: WriteOutcome,              // File.Write
    closeOk: bool,                    // File.Close
    loadOk: bool)                     // Application.Load

  /**
   * ttsFile: the path of the file it opens (None for an error) and the
   * filesystem afterwards. In cache mode an existing non-empty file is opened
   * as it is, and otherwise the name is created exclusively; without cache a
   * fresh temp file is created.
   */
  function TtsFileResult(cfg: Config, files: Files, text: string, cache: bool, draws: seq<string>): (Option<string>, Files) {
    if cache then
      var name := CachePath(cfg, text);
      if ExistsNonEmpty(files, name) then (Some(name), files)
      else if name in files then (None, files)
      else (Some(name), files[name := File([])])
    else
      var name := FirstFree(files, TempCandidates(cfg, draws));
      if name.Some? then (name, files[name.value := File([])]) else (None, files)
  }

  method TtsFile(host: Host, text: string, cache: bool, draws: seq<string>) returns (path: Option<string>)
    modifies host
    ensures (path, host.files) == TtsFileResult(host.config, old(host.files), text, cache, draws)
    ensures host.effects == old(host.effects)
  {
    if cache {
      var name := CachePath(host.config, text);
      if ExistsNonEmpty(host.files, name) {
        path := Some(name);
      } else {
        var ok := host.CreateExclusive(name);
        path := if ok then Some(name) else None;
      }
    } else {
      path := host.CreateTemp(TempCandidates(host.config, draws));
    }
  }

  /** How a playback ended; only the last two reached the device. */
  datatype PlayOutcome =
    | FileUnavailable
    | CredentialUnreadable
    | SynthesisFailed
    | WriteFailed
    | CloseFailed
    | LoadFailed
    | Loaded

  predicate ReachedLoad(outcome: PlayOutcome) {
    outcome == Loaded || outcome == LoadFailed
  }

  /** The Load call and, without cache, the deferred removal that follows it. */
  function LoadResult(st: State, session: Session, path: string, cache: bool, loadOk: bool): (PlayOutcome, State) {
    var effects := st.effects + [LoadMedia(session, path, ContentType, LoadFlags)];
    var outcome := if loadOk then Loaded else LoadFailed;
    if cache then (outcome, State(st.files, effects))
    else (outcome, State(st.files - {path}, effects + [RemoveFile(path)]))
  }

  /** The whole playback flow as a function of the state before it. */
  function PlayResult(cfg: Config, st: State, session: Session, text: string, cache: bool,
                      credentialPath: string, languageCode: string, o: Outcomes): (PlayOutcome, State)
  {
    var (handle, files) := TtsFileResult(cfg, st.files, text, cache, o.tempDraws);
    if handle.None? then (FileUnavailable, State(files, st.effects))
    else
      var path := handle.value;
      if ExistsNonEmpty(files, path) then LoadResult(State(files, st.effects), session, path, cache, o.loadOk)
      else
        var e1 := st.effects + [ReadCredential(credentialPath)];
        if !(credentialPath in files && files[credentialPath].File?) then (CredentialUnreadable, State(files, e1))
        else
          var e2 := e1 + [Synthesize(text, files[credentialPath].data, languageCode)];
          if o.synthesis.None? then (SynthesisFailed, State(files, e2))
          else
            var audio := o.synthesis.value;
            var e3 := e2 + [WriteFile(path)];
            match o.write
            case WriteError(n) => (WriteFailed, State(files[path := File(audio[..Min(n, |audio|)])], e3))
            case WriteOk =>
              var written := files[path := File(audio)];
              if !o.closeOk then (CloseFailed, State(written, e3))
              else LoadResult(State(written, e3), session, path, cache, o.loadOk)
  }

  /** play (and the same steps in the `tts` command's Run). */
  method Play(host: Host, session: Session, text: string, cache: bool,
              credentialPath: string, languageCode: string, o: Outcomes) returns (outcome: PlayOutcome)
    modifies host
    ensures (outcome, host.Snapshot())
         == PlayResult(host.config, old(host.Snapshot()), session, text, cache, credentialPath, languageCode, o)
  {
    var f := TtsFile(host, text, cache, o.tempDraws);
    if f.None? {
      return FileUnavailable;
    }
    var path := f.value;
    if !ExistsNonEmpty(host.files, path) {
      var credential := host.ReadFile(credentialPath);
      if credential.None? {
        return CredentialUnreadable;
      }
      var audio := host.CallProvider(text, credential.value, languageCode, o.synthesis);
      if audio.None? {
        return SynthesisFailed;
      }
      var written := host.Write(path, audio.value, o.write);
      if !written {
        return WriteFailed;
      }
      if !o.closeOk {
        return CloseFailed;
      }
    }
    var removeAfterLoad := !cache;  // the deferred os.Remove
    var loaded := host.Load(session, path, ContentType, LoadFlags, o.loadOk);
    outcome := if loaded then Loaded else LoadFailed;
    if removeAfterLoad {
      host.Remove(path);
    }
  }

  // ----- Properties of the cache and of the temp-file lifecycle -----

  /**
   * A cache hit: with an existing non-empty file at the digest path, playback
   * reads no credential, calls no provider, writes nothing and loads that
   * file; the language code and the credential path play no part.
   */
  lemma CacheHitSkipsProvider(cfg: Config, st: State, session: Session, text: string,
                              credentialPath: string, languageCode: string, o: Outcomes)
    requires ExistsNonEmpty(st.files, CachePath(cfg, text))
    ensures PlayResult(cfg, st, session, text, true, credentialPath, languageCode, o)
         == (if o.loadOk then Loaded else LoadFailed,
             State(st.files, st.effects + [LoadMedia(session, CachePath(cfg, text), ContentType, LoadFlags)]))
  {
  }

  /**
   * Exclusive create refuses a zero-size leftover (or a directory) at the
   * digest path: playback stops before any collaborator call and changes nothing.
   */
  lemma EmptyLeftoverBlocksCache(cfg: Config, st: State, session: Session, text: string,
                                 credentialPath: string, languageCode: string, o: Outcomes)
    requires CachePath(cfg, text) in st.files && !ExistsNonEmpty(st.files, CachePath(cfg, text))
    ensures PlayResult(cfg, st, session, text, true, credentialPath, languageCode, o) == (FileUnavailable, st)
  {
  }

  /**
   * A cache miss that fails at the credential read or in the provider leaves
   * an empty file at the digest path, so every later cached request for the
   * same text fails before synthesis.
   */
  lemma FailedMissBlocksLaterRequests(cfg: Config, st: State, s1: Session, s2: Session, text: string,
                                      cred1: string, cred2: string, lang1: string, lang2: string,
                                      o1: Outcomes, o2: Outcomes)
    requires CachePath(cfg, text) !in st.files
    requires PlayResult(cfg, st, s1, text, true, cred1, lang1, o1).0 in {CredentialUnreadable, SynthesisFailed}
    ensures var st1 := PlayResult(cfg, st, s1, text, true, cred1, lang1, o1).1;
            st1.files == st.files[CachePath(cfg, text) := File([])]
            && PlayResult(cfg, st1, s2, text, true, cred2, lang2, o2) == (FileUnavailable, st1)
  {
    var st1 := PlayResult(cfg, st, s1, text, true, cred1, lang1, o1).1;
    EmptyLeftoverBlocksCache(cfg, st1, s2, text, cred2, lang2, o2);
  }

  /**
   * After a cached playback that reached the device (with non-empty audio, if
   * it had to synthesize), a
   * second cached request for the same text (any session, credential or
   * language) is a pure cache hit: no provider call, no write, same file.
   */
  lemma SecondRequestHitsCache(cfg: Config, st: State, s1: Session, s2: Session, text: string,
                               cred1: string, cred2: string, lang1: string, lang2: string,
                               o1: Outcomes, o2: Outcomes)
    requires ReachedLoad(PlayResult(cfg, st, s1, text, true, cred1, lang1, o1).0)
    requires o1.synthesis.Some? && !ExistsNonEmpty(st.files, CachePath(cfg, text)) ==> |o1.synthesis.value| > 0
    ensures var st1 := PlayResult(cfg, st, s1, text, true, cred1, lang1, o1).1;
            var (out2, st2) := PlayResult(cfg, st1, s2, text, true, cred2, lang2, o2);
            && ReachedLoad(out2)
            && st2.files == st1.files
            && st2.effects == st1.effects + [LoadMedia(s2, CachePath(cfg, text), ContentType, LoadFlags)]
            && ProviderCalls(st2.effects) == ProviderCalls(st1.effects)
  {
    var st1 := PlayResult(cfg, st, s1, text, true, cred1, lang1, o1).1;
    assert ExistsNonEmpty(st1.files, CachePath(cfg, text));
    CacheHitSkipsProvider(cfg, st1, s2, text, cred2, lang2, o2);
    var load := LoadMedia(s2, CachePath(cfg, text), ContentType, LoadFlags);
    ProviderCallsAppend(st1.effects, [load]);
    assert [load][..0] == [];
  }

  /**
   * As written, a write that fails after some bytes in cache mode leaves a
   * truncated file that the next cached request loads as a hit: that request
   * makes no credential read and no provider call, only the Load.
   */
  lemma PartialWriteServedFromCache(cfg: Config, st: State, s1: Session, s2: Session, text: string,
                                    cred1: string, cred2: string, lang1: string, lang2: string,
                                    o1: Outcomes, o2: Outcomes)
    requires CachePath(cfg, text) !in st.files
    requires o1.synthesis.Some? && o1.write.WriteError? && 0 < o1.write.written < |o1.synthesis.value|
    requires PlayResult(cfg, st, s1, text, true, cred1, lang1, o1).0 == WriteFailed
    ensures var st1 := PlayResult(cfg, st, s1, text, true, cred1, lang1, o1).1;
            && st1.files[CachePath(cfg, text)] == File(o1.synthesis.value[..o1.write.written])
            && PlayResult(cfg, st1, s2, text, true, cred2, lang2, o2)
            == (if o2.loadOk then Loaded else LoadFailed,
                State(st1.files, st1.effects + [LoadMedia(s2, CachePath(cfg, text), ContentType, LoadFlags)]))
  {
    var st1 := PlayResult(cfg, st, s1, text, true, cred1, lang1, o1).1;
    assert ExistsNonEmpty(st1.files, CachePath(cfg, text));
    CacheHitSkipsProvider(cfg, st1, s2, text, cred2, lang2, o2);
  }

  /**
   * Without cache, a playback that reached the device removes its temp file
   * afterwards, whether Load succeeded or not, so the filesystem is exactly
   * as before. The temp file was fresh: it named nothing before.
   */
  lemma UncachedPlayRestoresFiles(cfg: Config, st: State, session: Session, text: string,
                                  credentialPath: string, languageCode: string, o: Outcomes)
    requires ReachedLoad(PlayResult(cfg, st, session, text, false, credentialPath, languageCode, o).0)
    ensures var temp := FirstFree(st.files, TempCandidates(cfg, o.tempDraws));
            && temp.Some? && temp.value !in st.files
            && PlayResult(cfg, st, session, text, false, credentialPath, languageCode, o).1.files == st.files
  {
    var temp := FirstFree(st.files, TempCandidates(cfg, o.tempDraws));
    var files := PlayResult(cfg, st, session, text, false, credentialPath, languageCode, o).1.files;
    assert temp.Some?;
    var audio := o.synthesis.value;
    assert files == st.files[temp.value := File(audio)] - {temp.value};
    assert files == st.files;
  }

  /**
   * As written, the removal is scheduled only once synthesis, write and close
   * succeeded: an uncached playback failing in between leaves its fresh temp
   * file behind.
   */
  lemma UncachedFailureLeavesTempFile(cfg: Config, st: State, session: Session, text: string,
                                      credentialPath: string, languageCode: string, o: Outcomes)
    requires PlayResult(cfg, st, session, text, false, credentialPath, languageCode, o).0
             in {CredentialUnreadable, SynthesisFailed, WriteFailed, CloseFailed}
    ensures var temp := FirstFree(st.files, TempCandidates(cfg, o.tempDraws));
            && temp.Some? && temp.value !in st.files
            && temp.value in PlayResult(cfg, st, session, text, false, credentialPath, languageCode, o).1.files
  {
  }

  /** The trace only grows: playback appends to the effects it was given. */
  lemma PlayExtendsTrace(cfg: Config, st: State, session: Session, text: string, cache: bool,
                         credentialPath: string, languageCode: string, o: Outcomes)
    ensures var st' := PlayResult(cfg, st, session, text, cache, credentialPath, languageCode, o).1;
            |st.effects| <= |st'.effects| && st'.effects[..|st.effects|] == st.effects
  {
  }

  /**
   * The calls one playback adds to the trace, one list per way it can end.
   * Every playback adds exactly one of these.
   */
  lemma PlayCalls(cfg: Config, st: State, session: Session, text: string, cache: bool,
                  credentialPath: string, languageCode: string, o: Outcomes)
      returns (delta: seq<Effect>)
    ensures var (out, st') := PlayResult(cfg, st, session, text, cache, credentialPath, languageCode, o);
            && st'.effects == st.effects + delta
            && (out == FileUnavailable ==> delta == [])
            && (out == CredentialUnreadable ==> delta == [ReadCredential(credentialPath)])
            && (out == SynthesisFailed ==> |delta| == 2 && delta[0].ReadCredential? && delta[1].Synthesize?)
            && (out in {WriteFailed, CloseFailed} ==>
                 |delta| == 3 && delta[0].ReadCredential? && delta[1].Synthesize? && delta[2].WriteFile?)
            && (ReachedLoad(out) ==>
                 var load := LoadMedia(session, TtsFileResult(cfg, st.files, text, cache, o.tempDraws).0.value, ContentType, LoadFlags);
                 var tail := if cache then [load] else [load, RemoveFile(load.path)];
                 || delta == tail
                 || (|delta| == 3 + |tail| && delta[0].ReadCredential? && delta[1].Synthesize? && delta[2].WriteFile?
                     && delta[3..] == tail))
            && (forall i :: 0 <= i < |delta| && delta[i].Synthesize? ==>
                 i == 1 && delta[i].text == text && delta[i].languageCode == languageCode)
            && (ReachedLoad(out) && cache && ExistsNonEmpty(st.files, CachePath(cfg, text)) ==>
                 delta == [LoadMedia(session, CachePath(cfg, text), ContentType, LoadFlags)])
  {
    var (handle, files) := TtsFileResult(cfg, st.files, text, cache, o.tempDraws);
    if handle.None? {
      delta := [];
      assert st.effects + delta == st.effects;
    } else {
      var path := handle.value;
      var load := LoadMedia(session, path, ContentType, LoadFlags);
      var tail := if cache then [load] else [load, RemoveFile(path)];
      if ExistsNonEmpty(files, path) {
        delta := tail;
      } else if !(credentialPath in files && files[credentialPath].File?) {
        delta := [ReadCredential(credentialPath)];
      } else {
        var synthesize := Synthesize(text, files[credentialPath].data, languageCode);
        if o.synthesis.None? {
          delta := [ReadCredential(credentialPath), synthesize];
        } else if o.write.WriteError? || !o.closeOk {
          delta := [ReadCredential(credentialPath), synthesize, WriteFile(path)];
        } else {
          delta := [ReadCredential(credentialPath), synthesize, WriteFile(path)] + tail;
          assert delta[3..] == tail;
        }
      }
    }
  }

  /** A run of calls with at most one Synthesize counts at most one provider call. */
  lemma {:induction false} AtMostOneProviderCall(delta: seq<Effect>)
    requires forall i, j :: 0 <= i < j < |delta| ==> !(delta[i].Synthesize? && delta[j].Synthesize?)
    ensures ProviderCalls(delta) <= 1
  {
    if |delta| > 0 {
      var init := delta[..|delta| - 1];
      if delta[|delta| - 1].Synthesize? {
        NoProviderCalls(init);
      } else {
        AtMostOneProviderCall(init);
      }
    }
  }

  /**
   * Load is called exactly when playback got past synthesis (or skipped it),
   * on the given session and always with "audio/mp3" and three false flags.
   */
  lemma LoadOnlyPastSynthesis(cfg: Config, st: State, session: Session, text: string, cache: bool,
                              credentialPath: string, languageCode: string, o: Outcomes)
    ensures var (out, st') := PlayResult(cfg, st, session, text, cache, credentialPath, languageCode, o);
            && |st.effects| <= |st'.effects|
            && (ReachedLoad(out) <==> exists i :: |st.effects| <= i < |st'.effects| && st'.effects[i].LoadMedia?)
            && (forall i :: |st.effects| <= i < |st'.effects| && st'.effects[i].LoadMedia? ==>
                 && st'.effects[i].session == session
                 && st'.effects[i].contentType == ContentType
                 && st'.effects[i].flags == LoadFlags)
  {
    var (out, st') := PlayResult(cfg, st, session, text, cache, credentialPath, languageCode, o);
    var delta := PlayCalls(cfg, st, session, text, cache, credentialPath, languageCode, o);
    forall i | |st.effects| <= i < |st'.effects|
      ensures st'.effects[i] == delta[i - |st.effects|]
    {
    }
    if ReachedLoad(out) {
      var k := if delta[0].LoadMedia? then 0 else 3;
      assert delta[k].LoadMedia?;
      assert st'.effects[|st.effects| + k].LoadMedia?;
    }
  }

  /** The provider is called at most once per playback, and never on a cache hit. */
  lemma ProviderCalledOnlyOnMiss(cfg: Config, st: State, session: Session, text: string, cache: bool,
                                 credentialPath: string, languageCode: string, o: Outcomes)
    ensures var st' := PlayResult(cfg, st, session, text, cache, credentialPath, languageCode, o).1;
            && ProviderCalls(st'.effects) <= ProviderCalls(st.effects) + 1
            && (cache && ExistsNonEmpty(st.files, CachePath(cfg, text)) ==>
                 ProviderCalls(st'.effects) == ProviderCalls(st.effects))
  {
    var delta := PlayCalls(cfg, st, session, text, cache, credentialPath, languageCode, o);
    ProviderCallsAppend(st.effects, delta);
    AtMostOneProviderCall(delta);
    if cache && ExistsNonEmpty(st.files, CachePath(cfg, text)) {
      NoProviderCalls(delta);
    }
  }

  /**
   * A cached request for a text never synthesized, with a readable
   * credential and a provider, write and close that succeed: one provider
   * call, the audio stored at the digest path, then Load of that path.
   */
  lemma CacheMissSynthesizesOnce(cfg: Config, st: State, session: Session, text: string,
                                 credentialPath: string, languageCode: string, o: Outcomes)
    requires CachePath(cfg, text) !in st.files
    requires credentialPath in st.files && st.files[credentialPath].File?
    requires o.synthesis.Some? && o.write.WriteOk? && o.closeOk
    ensures var path := CachePath(cfg, text);
            var (out, st') := PlayResult(cfg, st, session, text, true, credentialPath, languageCode, o);
            && out == (if o.loadOk then Loaded else LoadFailed)
            && st'.files == st.files[path := File(o.synthesis.value)]
            && st'.effects == st.effects + [ReadCredential(credentialPath),
                                            Synthesize(text, st.files[credentialPath].data, languageCode),
                                            WriteFile(path),
                                            LoadMedia(session, path, ContentType, LoadFlags)]
            && ProviderCalls(st'.effects) == ProviderCalls(st.effects) + 1
  {
    var path := CachePath(cfg, text);
    assert credentialPath != path;
    var delta := [ReadCredential(credentialPath), Synthesize(text, st.files[credentialPath].data, languageCode),
                  WriteFile(path), LoadMedia(session, path, ContentType, LoadFlags)];
    ProviderCallsAppend(st.effects, delta);
    ProviderCallsAppend(delta[..2], delta[2..]);
    assert delta == delta[..2] + delta[2..];
    NoProviderCalls(delta[2..]);
    assert delta[..2][..1] == [delta[0]];
  }
}
