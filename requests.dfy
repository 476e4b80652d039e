/**
 * The `tts` request payload and its completion from the handler's process
 * defaults: every empty field among the device uuid, address, port, service
 * account and language code is taken from the defaults, and the first field
 * that neither side supplies rejects the request.
 */
module Requests {

  datatype Payload = Payload(
    cache: bool,
    text: string,
    deviceUuid: string,
    deviceAddr: string,
    devicePort: string,
    googleServiceAccount: string,
    languageCode: string)

  /** The handler's process defaults, given on the command line. */
  datatype Settings = Settings(
    deviceUuid: string,
    deviceAddr: string,
    devicePort: string,
    googleServiceAccount: string,
    languageCode: string)

  datatype Field = DeviceUuid | DeviceAddr | DevicePort | GoogleServiceAccount | LanguageCode

  /** The order in which the handler checks the fields. */
  const FieldOrder: seq<Field> := [DeviceUuid, DeviceAddr, DevicePort, GoogleServiceAccount, LanguageCode]

  function Given(p: Payload, f: Field): string {
    match f
    case DeviceUuid => p.deviceUuid
    case DeviceAddr => p.deviceAddr
    case DevicePort => p.devicePort
    case GoogleServiceAccount => p.googleServiceAccount
    case LanguageCode => p.languageCode
  }

  function Default(s: Settings, f: Field): string {
    match f
    case DeviceUuid => s.deviceUuid
    case DeviceAddr => s.deviceAddr
    case DevicePort => s.devicePort
    case GoogleServiceAccount => s.googleServiceAccount
    case LanguageCode => s.languageCode
  }

  function With(p: Payload, f: Field, v: string): (q: Payload)
    ensures Given(q, f) == v
    ensures forall g :: g != f ==> Given(q, g) == Given(p, g)
    ensures q.text == p.text && q.cache == p.cache
  {
    match f
    case DeviceUuid => p.(deviceUuid := v)
    case DeviceAddr => p.(deviceAddr := v)
    case DevicePort => p.(devicePort := v)
    case GoogleServiceAccount => p.(googleServiceAccount := v)
    case LanguageCode => p.(languageCode := v)
  }

  /** The value a field ends up with: the payload's own unless it is empty. */
  function Pick(p: Payload, s: Settings, f: Field): string {
    if Given(p, f) != "" then Given(p, f) else Default(s, f)
  }

  datatype Validated = Complete(payload: Payload) | Missing(field: Field)

  /** Reference definition: fill the fields in the given order, stopping at the first one nobody supplies. */
  function Fill(p: Payload, s: Settings, fields: seq<Field>): Validated
    decreases |fields|
  {
    if |fields| == 0 then Complete(p)
    else if Given(p, fields[0]) != "" then Fill(p, s, fields[1..])
    else if Default(s, fields[0]) != "" then Fill(With(p, fields[0], Default(s, fields[0])), s, fields[1..])
    else Missing(fields[0])
  }

  function Defaulted(p: Payload, s: Settings): Validated {
    Fill(p, s, FieldOrder)
  }

  function IndexOf(fields: seq<Field>, f: Field): (k: nat)
    requires f in fields
    ensures k < |fields| && fields[k] == f
    ensures forall j :: 0 <= j < k ==> fields[j] != f
  {
    if fields[0] == f then 0 else 1 + IndexOf(fields[1..], f)
  }

  /**
   * Filling either completes every listed field (each with the payload's
   * value, or the default when that is empty) and leaves the rest alone, or
   * names the first listed field with neither a value nor a default.
   */
  lemma {:induction false} FillFillsOrNamesFirstMissing(p: Payload, s: Settings, fields: seq<Field>)
    decreases |fields|
    ensures var r := Fill(p, s, fields);
            && (r.Complete? <==> forall j :: 0 <= j < |fields| ==> Pick(p, s, fields[j]) != "")
            && (r.Complete? ==>
                 && r.payload.text == p.text && r.payload.cache == p.cache
                 && (forall f :: f in fields ==> Given(r.payload, f) == Pick(p, s, f))
                 && (forall f :: f !in fields ==> Given(r.payload, f) == Given(p, f)))
            && (r.Missing? ==>
                 && r.field in fields
                 && Given(p, r.field) == "" && Default(s, r.field) == ""
                 && forall j :: 0 <= j < IndexOf(fields, r.field) ==> Pick(p, s, fields[j]) != "")
  {
    if |fields| > 0 {
      var f := fields[0];
      var p' := if Given(p, f) != "" then p else With(p, f, Default(s, f));
      if Pick(p, s, f) != "" {
        FillFillsOrNamesFirstMissing(p', s, fields[1..]);
        assert forall g :: Pick(p', s, g) == Pick(p, s, g);
        assert forall j :: 1 <= j < |fields| ==> fields[j] == fields[1..][j - 1];
      }
    }
  }

  /**
   * The handler's check order: the request is rejected exactly when some
   * field has neither a value nor a default, naming the first in the order
   * uuid, addr, port, account, language; otherwise every field is non-empty
   * and comes from the payload unless that was empty.
   */
  lemma DefaultedFillsOrRejects(p: Payload, s: Settings)
    ensures var r := Defaulted(p, s);
            && (r.Missing? <==> exists f :: Pick(p, s, f) == "")
            && (r.Missing? ==>
                 && Given(p, r.field) == "" && Default(s, r.field) == ""
                 && forall j :: 0 <= j < IndexOf(FieldOrder, r.field) ==> Pick(p, s, FieldOrder[j]) != "")
            && (r.Complete? ==>
                 && r.payload.text == p.text && r.payload.cache == p.cache
                 && forall f :: Given(r.payload, f) == Pick(p, s, f) && Given(r.payload, f) != "")
  {
    FillFillsOrNamesFirstMissing(p, s, FieldOrder);
    forall f ensures f in FieldOrder {
      match f
      case DeviceUuid => assert FieldOrder[0] == f;
      case DeviceAddr => assert FieldOrder[1] == f;
      case DevicePort => assert FieldOrder[2] == f;
      case GoogleServiceAccount => assert FieldOrder[3] == f;
      case LanguageCode => assert FieldOrder[4] == f;
    }
  }

  /** The handler's field-by-field checks, in its own order. */
  method ApplyDefaults(payload: Payload, settings: Settings) returns (r: Validated)
    ensures r == Defaulted(payload, settings)
  {
    var p := payload;
    if p.deviceUuid == "" {
      if settings.deviceUuid == "" {
        return Missing(DeviceUuid);
      }
      p := p.(deviceUuid := settings.deviceUuid);
    }
    assert Defaulted(payload, settings) == Fill(p, settings, FieldOrder[1..]);
    if p.deviceAddr == "" {
      if settings.deviceAddr == "" {
        return Missing(DeviceAddr);
      }
      p := p.(deviceAddr := settings.deviceAddr);
    }
    assert Defaulted(payload, settings) == Fill(p, settings, FieldOrder[2..]);
    if p.devicePort == "" {
      if settings.devicePort == "" {
        return Missing(DevicePort);
      }
      p := p.(devicePort := settings.devicePort);
    }
    assert Defaulted(payload, settings) == Fill(p, settings, FieldOrder[3..]);
    if p.googleServiceAccount == "" {
      if settings.googleServiceAccount == "" {
        return Missing(GoogleServiceAccount);
      }
      p := p.(googleServiceAccount := settings.googleServiceAccount);
    }
    assert Defaulted(payload, settings) == Fill(p, settings, FieldOrder[4..]);
    if p.languageCode == "" {
      if settings.languageCode == "" {
        return Missing(LanguageCode);
      }
      p := p.(languageCode := settings.languageCode);
    }
    assert Defaulted(payload, settings) == Fill(p, settings, FieldOrder[5..]);
    return Complete(p);
  }
}
