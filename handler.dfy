/**
 * The HTTP `tts` handler: complete the request from the process defaults,
 * get or open the device session through the registry, then play.
 */
module HttpHandler {
  import opened Wrappers
  import opened Decimal
  import opened Environment
  import opened Discovery
  import opened Requests
  import opened Synthesis

  /** The registry map from device uuid to session, and the serial the next session gets. */
  datatype Registry = Registry(apps: map<string, Session>, nextSerial: nat)

  /** What getOrConnectApp returns, the registry after it and the trace after it. */
  datatype Connection = Connection(app: Option<Session>, registry: Registry, effects: seq<Effect>)

  /**
   * getOrConnectApp: a registered uuid returns its session; otherwise one
   * discovery scan may override the fallback address and port, both must be
   * non-empty and the port decimal, and the session is registered only when
   * it starts.
   */
  function ConnectResult(reg: Registry, effects: seq<Effect>, debug: bool, uuid: string,
                         addr: string, port: string, scan: Scan, startOk: bool): Connection
  {
    if uuid in reg.apps then Connection(Some(reg.apps[uuid]), reg, effects)
    else
      var scanned := effects + [Discover];
      var (deviceAddr, devicePort) := Resolve(scan, uuid, addr, port);
      if deviceAddr == "" || devicePort == "" then Connection(None, reg, scanned)
      else
        var portNumber := Atoi(devicePort);
        if portNumber.None? then Connection(None, reg, scanned)
        else
          var started := scanned + [StartSession(deviceAddr, portNumber.value)];
          if !startOk then Connection(None, reg, started)
          else
            var session := Session(reg.nextSerial, deviceAddr, portNumber.value, debug);
            Connection(Some(session), Registry(reg.apps[uuid := session], reg.nextSerial + 1), started)
  }

  datatype TtsOutcome = Rejected(field: Field) | DeviceNotFound | Played(outcome: PlayOutcome)

  /** The whole `tts` handler as a function of the registry and the host state before it. */
  function TtsResult(settings: Settings, verbose: bool, cfg: Config, reg: Registry, st: State,
                     payload: Payload, scan: Scan, startOk: bool, o: Outcomes): (TtsOutcome, Registry, State)
  {
    match Defaulted(payload, settings)
    case Missing(f) => (Rejected(f), reg, st)
    case Complete(p) =>
      var c := ConnectResult(reg, st.effects, verbose, p.deviceUuid, p.deviceAddr, p.devicePort, scan, startOk);
      if c.app.None? then (DeviceNotFound, c.registry, State(st.files, c.effects))
      else
        var (out, st') := PlayResult(cfg, State(st.files, c.effects), c.app.value, p.text, p.cache,
                                     p.googleServiceAccount, p.languageCode, o);
        (Played(out), c.registry, st')
  }

  class Handler {
    const settings: Settings
    const verbose: bool
    const host: Host
    var apps: map<string, Session>
    var nextSerial: nat

    function Sessions(): Registry
      reads this
    {
      Registry(apps, nextSerial)
    }

    constructor (settings: Settings, verbose: bool, host: Host)
      ensures this.settings == settings && this.verbose == verbose && this.host == host
      ensures Sessions() == Registry(map[], 0)
    {
      this.settings := settings;
      this.verbose := verbose;
      this.host := host;
      this.apps := map[];
      this.nextSerial := 0;
    }

    method GetOrConnectApp(uuid: string, addr: string, port: string, scan: Scan, startOk: bool)
        returns (app: Option<Session>)
      modifies this, host
      ensures Connection(app, Sessions(), host.effects)
           == ConnectResult(old(Sessions()), old(host.effects), verbose, uuid, addr, port, scan, startOk)
      ensures host.files == old(host.files)
    {
      if uuid in apps {
        return Some(apps[uuid]);
      }
      host.Record(Discover);
      var deviceAddr, devicePort := addr, port;
      if scan.Scanned? {
        deviceAddr, devicePort := ScanRecords(scan.records, uuid, addr, port);
      }
      if deviceAddr == "" || devicePort == "" {
        return None;
      }
      var portNumber := Atoi(devicePort);
      if portNumber.None? {
        return None;
      }
      host.Record(StartSession(deviceAddr, portNumber.value));
      if !startOk {
        return None;
      }
      var session := Session(nextSerial, deviceAddr, portNumber.value, verbose);
      apps := apps[uuid := session];
      nextSerial := nextSerial + 1;
      return Some(session);
    }

    method Tts(payload: Payload, scan: Scan, startOk: bool, o: Outcomes) returns (outcome: TtsOutcome)
      modifies this, host
      ensures (outcome, Sessions(), host.Snapshot())
           == TtsResult(settings, verbose, host.config, old(Sessions()), old(host.Snapshot()), payload, scan, startOk, o)
    {
      var r := ApplyDefaults(payload, settings);
      if r.Missing? {
        return Rejected(r.field);
      }
      var p := r.payload;
      var app := GetOrConnectApp(p.deviceUuid, p.deviceAddr, p.devicePort, scan, startOk);
      if app.None? {
        return DeviceNotFound;
      }
      var played := Play(host, app.value, p.text, p.cache, p.googleServiceAccount, p.languageCode, o);
      return Played(played);
    }
  }

  // ----- Properties of the registry and of the handler -----

  /** A registered uuid is a pure lookup: no discovery, no start, nothing changes. */
  lemma RegisteredDeviceIsLookup(reg: Registry, effects: seq<Effect>, debug: bool, uuid: string,
                                 addr: string, port: string, scan: Scan, startOk: bool)
    requires uuid in reg.apps
    ensures ConnectResult(reg, effects, debug, uuid, addr, port, scan, startOk)
         == Connection(Some(reg.apps[uuid]), reg, effects)
  {
  }

  /**
   * The registry changes only on a successful start, and then only at the
   * requested uuid, which maps to the session returned.
   */
  lemma RegistryChangesOnlyOnStart(reg: Registry, effects: seq<Effect>, debug: bool, uuid: string,
                                   addr: string, port: string, scan: Scan, startOk: bool)
    ensures var c := ConnectResult(reg, effects, debug, uuid, addr, port, scan, startOk);
            && (c.app.None? ==> c.registry == reg)
            && (c.app.Some? ==> uuid in c.registry.apps && c.registry.apps == reg.apps[uuid := c.app.value])
            && (c.app.Some? && uuid !in reg.apps ==>
                 startOk && c.effects[|c.effects| - 1] == StartSession(c.app.value.addr, c.app.value.port))
            && (c.app.None? && uuid !in reg.apps ==> |c.effects| > |effects|)
            && (c.app.None? && uuid !in reg.apps && c.effects[|c.effects| - 1].StartSession? ==> !startOk)
  {
  }

  /** After a successful connect, connecting again with the same uuid is a lookup of the same session. */
  lemma SecondConnectIsLookup(reg: Registry, effects: seq<Effect>, debug: bool, uuid: string,
                              addr1: string, port1: string, scan1: Scan, startOk1: bool,
                              addr2: string, port2: string, scan2: Scan, startOk2: bool)
    requires ConnectResult(reg, effects, debug, uuid, addr1, port1, scan1, startOk1).app.Some?
    ensures var c1 := ConnectResult(reg, effects, debug, uuid, addr1, port1, scan1, startOk1);
            ConnectResult(c1.registry, c1.effects, debug, uuid, addr2, port2, scan2, startOk2) == c1
  {
  }

  /**
   * An unregistered uuid that no scanned record matches, with an empty
   * fallback address or port, is not found; the registry is unchanged and
   * the only call made is the scan.
   */
  lemma UnresolvableDeviceNotFound(reg: Registry, effects: seq<Effect>, debug: bool, uuid: string,
                                   addr: string, port: string, scan: Scan, startOk: bool)
    requires uuid !in reg.apps
    requires scan.Scanned? ==> forall i :: 0 <= i < |scan.records| ==> scan.records[i].uuid != uuid
    requires addr == "" || port == ""
    ensures ConnectResult(reg, effects, debug, uuid, addr, port, scan, startOk)
         == Connection(None, reg, effects + [Discover])
  {
    if scan.Scanned? {
      NoMatchKeepsFallback(scan.records, uuid, addr, port);
    }
  }

  /**
   * When discovery leaves the fallback in place (the scan failed or matched
   * no record), a fallback port that is not decimal text is a resolution
   * failure that changes nothing but the trace.
   */
  lemma NonNumericPortNotFound(reg: Registry, effects: seq<Effect>, debug: bool, uuid: string,
                               addr: string, port: string, scan: Scan, startOk: bool)
    requires uuid !in reg.apps && addr != "" && Atoi(port).None?
    requires scan.Scanned? ==> forall i :: 0 <= i < |scan.records| ==> scan.records[i].uuid != uuid
    ensures ConnectResult(reg, effects, debug, uuid, addr, port, scan, startOk)
         == Connection(None, reg, effects + [Discover])
  {
    if scan.Scanned? {
      NoMatchKeepsFallback(scan.records, uuid, addr, port);
    }
  }

  /**
   * The last scanned record matching the uuid decides where the session is
   * started: its address and its port (through the Itoa/Atoi round trip).
   * A successful start registers the new session under the uuid; a failed
   * one leaves the registry as it was.
   */
  lemma DiscoveredDeviceIsStarted(reg: Registry, effects: seq<Effect>, debug: bool, uuid: string,
                                  addr: string, port: string, records: seq<Record>, i: nat, startOk: bool)
    requires uuid !in reg.apps
    requires i < |records| && records[i].uuid == uuid && records[i].addr != ""
    requires forall j :: i < j < |records| ==> records[j].uuid != uuid
    ensures var c := ConnectResult(reg, effects, debug, uuid, addr, port, Scanned(records), startOk);
            && c.effects == effects + [Discover, StartSession(records[i].addr, records[i].port)]
            && c.app == (if startOk then Some(Session(reg.nextSerial, records[i].addr, records[i].port, debug)) else None)
            && (startOk ==> c.registry.apps == reg.apps[uuid := c.app.value])
            && (!startOk ==> c.registry == reg)
  {
    LastMatchWins(records, uuid, addr, port, i);
    AtoiItoa(records[i].port);
    assert effects + [Discover] + [StartSession(records[i].addr, records[i].port)]
        == effects + [Discover, StartSession(records[i].addr, records[i].port)];
  }

  /**
   * A request is rejected exactly when some field has neither a value nor a
   * default; the rejection names the first such field in the check order and
   * happens before any call: registry, files and trace are untouched.
   */
  lemma RejectionHasNoSideEffects(settings: Settings, verbose: bool, cfg: Config, reg: Registry, st: State,
                                  payload: Payload, scan: Scan, startOk: bool, o: Outcomes)
    ensures var (out, reg', st') := TtsResult(settings, verbose, cfg, reg, st, payload, scan, startOk, o);
            && (out.Rejected? <==> exists f :: Pick(payload, settings, f) == "")
            && (out.Rejected? ==>
                 && reg' == reg && st' == st
                 && Given(payload, out.field) == "" && Default(settings, out.field) == ""
                 && forall j :: 0 <= j < IndexOf(FieldOrder, out.field) ==> Pick(payload, settings, FieldOrder[j]) != "")
  {
    DefaultedFillsOrRejects(payload, settings);
  }

  /**
   * First cached request for a text never synthesized, to a device found by
   * discovery: the session is registered, the provider is called once and
   * the audio is stored at the digest path, then loaded.
   */
  lemma FirstRequestSynthesizesAndRegisters(settings: Settings, verbose: bool, cfg: Config, reg: Registry, st: State,
                                            payload: Payload, records: seq<Record>, i: nat, o: Outcomes)
    requires payload.cache
    requires Defaulted(payload, settings).Complete?
    requires var p := Defaulted(payload, settings).payload;
             && p.deviceUuid !in reg.apps
             && i < |records| && records[i].uuid == p.deviceUuid && records[i].addr != ""
             && (forall j :: i < j < |records| ==> records[j].uuid != p.deviceUuid)
             && CachePath(cfg, p.text) !in st.files
             && p.googleServiceAccount in st.files && st.files[p.googleServiceAccount].File?
    requires o.synthesis.Some? && o.write.WriteOk? && o.closeOk
    ensures var p := Defaulted(payload, settings).payload;
            var (out, reg', st') := TtsResult(settings, verbose, cfg, reg, st, payload, Scanned(records), true, o);
            var session := Session(reg.nextSerial, records[i].addr, records[i].port, verbose);
            && out == Played(if o.loadOk then Loaded else LoadFailed)
            && reg'.apps == reg.apps[p.deviceUuid := session]
            && st'.files == st.files[CachePath(cfg, p.text) := File(o.synthesis.value)]
            && ProviderCalls(st'.effects) == ProviderCalls(st.effects) + 1
            && st'.effects[|st'.effects| - 1] == LoadMedia(session, CachePath(cfg, p.text), ContentType, LoadFlags)
  {
    var p := Defaulted(payload, settings).payload;
    DefaultedFillsOrRejects(payload, settings);
    DiscoveredDeviceIsStarted(reg, st.effects, verbose, p.deviceUuid, p.deviceAddr, p.devicePort, records, i, true);
    var pre := [Discover, StartSession(records[i].addr, records[i].port)];
    var c := ConnectResult(reg, st.effects, verbose, p.deviceUuid, p.deviceAddr, p.devicePort, Scanned(records), true);
    CacheMissSynthesizesOnce(cfg, State(st.files, c.effects), c.app.value, p.text, p.googleServiceAccount, p.languageCode, o);
    ProviderCallsAppend(st.effects, pre);
    NoProviderCalls(pre);
  }

  /**
   * Repeating a cached request that reached the device reuses the registered
   * session and the cached file: no discovery, no start, no provider call,
   * one more Load of the same file on the same session.
   */
  lemma RepeatedRequestReusesSessionAndCache(settings: Settings, verbose: bool, cfg: Config, reg: Registry, st: State,
                                             payload: Payload, scan1: Scan, startOk1: bool, o1: Outcomes,
                                             scan2: Scan, startOk2: bool, o2: Outcomes)
    requires payload.cache
    requires var out := TtsResult(settings, verbose, cfg, reg, st, payload, scan1, startOk1, o1).0;
             out.Played? && ReachedLoad(out.outcome)
    requires o1.synthesis.Some? && !ExistsNonEmpty(st.files, CachePath(cfg, Defaulted(payload, settings).payload.text))
             ==> |o1.synthesis.value| > 0
    ensures var (_, reg1, st1) := TtsResult(settings, verbose, cfg, reg, st, payload, scan1, startOk1, o1);
            var (out2, reg2, st2) := TtsResult(settings, verbose, cfg, reg1, st1, payload, scan2, startOk2, o2);
            && out2.Played? && ReachedLoad(out2.outcome)
            && reg2 == reg1 && st2.files == st1.files
            && |st2.effects| == |st1.effects| + 1
            && st2.effects[..|st1.effects|] == st1.effects
            && st2.effects[|st1.effects|].LoadMedia?
            && st2.effects[|st1.effects|].path == CachePath(cfg, Defaulted(payload, settings).payload.text)
            && Defaulted(payload, settings).payload.deviceUuid in reg1.apps
            && st2.effects[|st1.effects|].session == reg1.apps[Defaulted(payload, settings).payload.deviceUuid]
            && ProviderCalls(st2.effects) == ProviderCalls(st1.effects)
  {
    var p := Defaulted(payload, settings).payload;
    var c1 := ConnectResult(reg, st.effects, verbose, p.deviceUuid, p.deviceAddr, p.devicePort, scan1, startOk1);
    var stc := State(st.files, c1.effects);
    var st1 := TtsResult(settings, verbose, cfg, reg, st, payload, scan1, startOk1, o1).2;
    DefaultedFillsOrRejects(payload, settings);
    RegisteredDeviceIsLookup(c1.registry, st1.effects, verbose, p.deviceUuid, p.deviceAddr, p.devicePort, scan2, startOk2);
    SecondRequestHitsCache(cfg, stc, c1.app.value, c1.app.value, p.text, p.googleServiceAccount, p.googleServiceAccount,
                           p.languageCode, p.languageCode, o1, o2);
  }
}
