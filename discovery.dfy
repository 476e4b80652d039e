/**
 * Resolving a device uuid to an address and port from one discovery scan:
 * every record of the scan whose uuid matches overwrites the caller's
 * address and port, so the last match wins and the fallback survives when
 * nothing matches or the scan could not start.
 */
module Discovery {
  import opened Decimal

  /** One discovered device: its uuid, IPv4 address text and port. */
  datatype Record = Record(uuid: string, addr: string, port: Int64)

  /** The outcome of starting a scan: an error, or the finite stream of records it produced. */
  datatype Scan = ScanFailed | Scanned(records: seq<Record>)

  /** The address and the port text the loop holds after the given records. */
  function Endpoint(records: seq<Record>, uuid: string, addr: string, port: string): (string, string) {
    if |records| == 0 then (addr, port)
    else
      var last := records[|records| - 1];
      if last.uuid == uuid then (last.addr, Itoa(last.port))
      else Endpoint(records[..|records| - 1], uuid, addr, port)
  }

  function Resolve(scan: Scan, uuid: string, addr: string, port: string): (string, string) {
    match scan
    case ScanFailed => (addr, port)
    case Scanned(records) => Endpoint(records, uuid, addr, port)
  }

  /** With no matching record (or no record at all) the caller's address and port are kept. */
  lemma {:induction false} NoMatchKeepsFallback(records: seq<Record>, uuid: string, addr: string, port: string)
    requires forall i :: 0 <= i < |records| ==> records[i].uuid != uuid
    ensures Endpoint(records, uuid, addr, port) == (addr, port)
  {
    if |records| > 0 {
      var init := records[..|records| - 1];
      assert forall i :: 0 <= i < |init| ==> init[i] == records[i];
      NoMatchKeepsFallback(init, uuid, addr, port);
    }
  }

  /** Otherwise the address and the port come from the last matching record. */
  lemma {:induction false} LastMatchWins(records: seq<Record>, uuid: string, addr: string, port: string, i: nat)
    requires i < |records| && records[i].uuid == uuid
    requires forall j :: i < j < |records| ==> records[j].uuid != uuid
    ensures Endpoint(records, uuid, addr, port) == (records[i].addr, Itoa(records[i].port))
  {
    if i < |records| - 1 {
      var init := records[..|records| - 1];
      assert forall j :: 0 <= j < |init| ==> init[j] == records[j];
      LastMatchWins(init, uuid, addr, port, i);
    }
  }

  /** The loop over the scan's records, reassigning the address and the port. */
  method ScanRecords(records: seq<Record>, uuid: string, addr: string, port: string)
      returns (deviceAddr: string, devicePort: string)
    ensures (deviceAddr, devicePort) == Endpoint(records, uuid, addr, port)
  {
    deviceAddr, devicePort := addr, port;
    for i := 0 to |records|
      invariant (deviceAddr, devicePort) == Endpoint(records[..i], uuid, addr, port)
    {
      assert records[..i + 1][..i] == records[..i];
      if records[i].uuid == uuid {
        deviceAddr := records[i].addr;
        devicePort := Itoa(records[i].port);
      }
    }
    assert records[..|records|] == records;
  }
}
