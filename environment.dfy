/**
 * The world around the text-to-speech coordinator: the filesystem, the
 * device sessions it holds, and a trace of the calls it makes into a
 * collaborator (credential read, speech provider, file write and removal,
 * discovery, session start, media load). File opens and closes are not
 * traced: their effect shows in the filesystem and their failures are
 * answers passed in.
 */
module Environment {
  import opened Wrappers

  type byte = b: int | 0 <= b < 256

  /** A directory entry: a regular file with its bytes, or a directory. */
  datatype Entry = File(data: seq<byte>) | Directory

  type Files = map<string, Entry>

  /** What os.Stat reports: nothing for a missing path, else whether it is a directory and its size. */
  datatype FileInfo = FileInfo(isDir: bool, size: nat)

  function Stat(files: Files, name: string): Option<FileInfo> {
    if name !in files then None
    else match files[name]
      case File(data) => Some(FileInfo(false, |data|))
      case Directory => Some(FileInfo(true, 0))
  }

  /** fileExistsAndNonZeroSize. */
  predicate ExistsNonEmpty(files: Files, name: string): (r: bool)
    ensures r ==> name in files && files[name].File? && |files[name].data| > 0
  {
    var info := Stat(files, name);
    info.Some? && !info.value.isDir && info.value.size > 0
  }

  /** False for a missing path and for a directory; for a regular file, true exactly when it holds a byte. */
  lemma ExistsNonEmptyCases(files: Files, name: string)
    ensures name !in files ==> !ExistsNonEmpty(files, name)
    ensures name in files && files[name].Directory? ==> !ExistsNonEmpty(files, name)
    ensures name in files && files[name].File? ==> (ExistsNonEmpty(files, name) <==> |files[name].data| > 0)
  {
  }

  /**
   * An open control channel to one playback device. `serial` tells apart
   * sessions opened at different times.
   */
  datatype Session = Session(serial: nat, addr: string, port: int, debug: bool)

  /** One call into a collaborator, in the order the core makes them. */
  datatype Effect =
    | ReadCredential(path: string)
    | Synthesize(text: string, credential: seq<byte>, languageCode: string)
    | WriteFile(path: string)
    | RemoveFile(path: string)
    | Discover
    | StartSession(addr: string, port: int)
    | CastConnect
    | LoadMedia(session: Session, path: string, contentType: string, flags: seq<bool>)

  /** The number of calls made to the speech-synthesis provider. */
  function ProviderCalls(effects: seq<Effect>): nat {
    if |effects| == 0 then 0
    else ProviderCalls(effects[..|effects| - 1]) + (if effects[|effects| - 1].Synthesize? then 1 else 0)
  }

  lemma {:induction false} ProviderCallsAppend(a: seq<Effect>, b: seq<Effect>)
    ensures ProviderCalls(a + b) == ProviderCalls(a) + ProviderCalls(b)
    decreases |b|
  {
    if |b| == 0 {
      assert a + b == a;
    } else {
      assert (a + b)[..|a + b| - 1] == a + b[..|b| - 1];
      ProviderCallsAppend(a, b[..|b| - 1]);
    }
  }

  /** A trace with no Synthesize entry counts no provider call. */
  lemma {:induction false} NoProviderCalls(effects: seq<Effect>)
    requires forall i :: 0 <= i < |effects| ==> !effects[i].Synthesize?
    ensures ProviderCalls(effects) == 0
  {
    if |effects| > 0 {
      NoProviderCalls(effects[..|effects| - 1]);
    }
  }

  /** The first candidate name that is not taken, if any. */
  function FirstFree(files: Files, candidates: seq<string>): (r: Option<string>)
    ensures r.Some? ==> r.value in candidates && r.value !in files
    ensures r.None? ==> forall i :: 0 <= i < |candidates| ==> candidates[i] in files
  {
    if |candidates| == 0 then None
    else if candidates[0] !in files then Some(candidates[0])
    else FirstFree(files, candidates[1..])
  }

  datatype State = State(files: Files, effects: seq<Effect>)

  /**
   * The process temp directory and the hex SHA-1 digest of a text; the digest
   * is an arbitrary deterministic function here.
   */
  datatype Config = Config(tmpDir: string, digest: string -> string)

  /** What a write did: all bytes written, or an error after some bytes. */
  datatype WriteOutcome = WriteOk | WriteError(written: nat)

  /** The host's filesystem and the trace of collaborator calls. */
  class Host {
    var files: Files
    var effects: seq<Effect>
    const config: Config

    function Snapshot(): State
      reads this
    {
      State(files, effects)
    }

    constructor (config: Config, files: Files)
      ensures this.config == config
      ensures Snapshot() == State(files, [])
    {
      this.config := config;
      this.files := files;
      this.effects := [];
    }

    /** os.OpenFile with O_CREATE|O_EXCL: fails when the name already exists. */
    method CreateExclusive(path: string) returns (ok: bool)
      modifies this
      ensures ok == (path !in old(files))
      ensures files == if ok then old(files)[path := File([])] else old(files)
      ensures effects == old(effects)
    {
      ok := path !in files;
      if ok {
        files := files[path := File([])];
      }
    }

    /**
     * ioutil.TempFile: tries the candidate names in order with exclusive
     * create and keeps the first one that does not exist yet.
     */
    method CreateTemp(candidates: seq<string>) returns (path: Option<string>)
      modifies this
      ensures path == FirstFree(old(files), candidates)
      ensures files == if path.Some? then old(files)[path.value := File([])] else old(files)
      ensures effects == old(effects)
    {
      var i := 0;
      while i < |candidates|
        invariant 0 <= i <= |candidates|
        invariant files == old(files) && effects == old(effects)
        invariant FirstFree(files, candidates) == FirstFree(files, candidates[i..])
      {
        assert candidates[i..][1..] == candidates[i + 1..];
        var ok := CreateExclusive(candidates[i]);
        if ok {
          return Some(candidates[i]);
        }
        i := i + 1;
      }
      return None;
    }

    /** ioutil.ReadFile: the bytes of a regular file; an error for a missing path or a directory. */
    method ReadFile(path: string) returns (data: Option<seq<byte>>)
      modifies this
      ensures data == if path in files && files[path].File? then Some(files[path].data) else None
      ensures files == old(files) && effects == old(effects) + [ReadCredential(path)]
    {
      effects := effects + [ReadCredential(path)];
      if path in files && files[path].File? {
        data := Some(files[path].data);
      } else {
        data := None;
      }
    }

    /** tts.Create: one provider call, whose answer is the given outcome. */
    method CallProvider(text: string, credential: seq<byte>, languageCode: string, answer: Option<seq<byte>>)
      returns (audio: Option<seq<byte>>)
      modifies this
      ensures audio == answer
      ensures files == old(files) && effects == old(effects) + [Synthesize(text, credential, languageCode)]
    {
      effects := effects + [Synthesize(text, credential, languageCode)];
      audio := answer;
    }

    /**
     * File.Write on a freshly created file: the file then holds what was
     * written, all of `data` or, after an error, a prefix of it.
     */
    method Write(path: string, data: seq<byte>, outcome: WriteOutcome) returns (ok: bool)
      modifies this
      ensures ok == outcome.WriteOk?
      ensures files == old(files)[path := File(if ok then data else data[..Min(outcome.written, |data|)])]
      ensures effects == old(effects) + [WriteFile(path)]
    {
      effects := effects + [WriteFile(path)];
      ok := outcome.WriteOk?;
      if ok {
        files := files[path := File(data)];
      } else {
        files := files[path := File(data[..Min(outcome.written, |data|)])];
      }
    }

    /** os.Remove, whose error the core ignores. */
    method Remove(path: string)
      modifies this
      ensures files == old(files) - {path}
      ensures effects == old(effects) + [RemoveFile(path)]
    {
      effects := effects + [RemoveFile(path)];
      files := files - {path};
    }

    /** Application.Load, whose success is the given outcome. */
    method Load(session: Session, path: string, contentType: string, flags: seq<bool>, accepted: bool)
      returns (ok: bool)
      modifies this
      ensures ok == accepted
      ensures files == old(files) && effects == old(effects) + [LoadMedia(session, path, contentType, flags)]
    {
      effects := effects + [LoadMedia(session, path, contentType, flags)];
      ok := accepted;
    }

    /** Records a call that touches no file: a discovery scan, a session start, a device connection. */
    method Record(effect: Effect)
      requires effect.Discover? || effect.StartSession? || effect.CastConnect?
      modifies this
      ensures files == old(files) && effects == old(effects) + [effect]
    {
      effects := effects + [effect];
    }
  }
}
