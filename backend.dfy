/** The two commands of the desktop backend: `list_serial_ports`, which reports the
    USB serial ports, and `flash_firmware`, which reads a bundled firmware image,
    checks the requested port and writes the image to the board with bounded
    retries. The libraries they call (serial-port enumeration, resource path
    resolution, file reads, the flashing library) are not modelled: their
    outcomes are the fields of a `Host` value. */
module Backend {
  import opened Numerals

  type byte = b: int | 0 <= b < 0x100
  type u32 = n: int | 0 <= n < 0x1_0000_0000

  datatype Option<+T> = None | Some(value: T)
  datatype Result<+T, +E> = Ok(value: T) | Err(error: E)

  /* ---------------------------------------------------------------- ports */

  datatype UsbPortInfo = UsbPortInfo(vid: nat, pid: nat)

  /** The kinds of port the serial-port library reports. */
  datatype SerialPortType = UsbPort(info: UsbPortInfo) | PciPort | BluetoothPort | Unknown

  datatype SerialPortInfo = SerialPortInfo(portName: string, portType: SerialPortType)

  /** The names of the USB ports among `ports`, in enumeration order. */
  function UsbPortNames(ports: seq<SerialPortInfo>): (names: seq<string>)
    ensures |names| <= |ports|
    ensures forall n :: n in names <==>
      exists i :: 0 <= i < |ports| && ports[i].portType.UsbPort? && ports[i].portName == n
  {
    if ports == [] then []
    else
      var rest := UsbPortNames(ports[1..]);
      assert forall i :: 1 <= i < |ports| ==> ports[i] == ports[1..][i - 1];
      if ports[0].portType.UsbPort? then [ports[0].portName] + rest else rest
  }

  /** `list_serial_ports`: an enumeration error counts as no ports at all. */
  function ListSerialPorts(available: Result<seq<SerialPortInfo>, string>): (names: seq<string>)
    ensures available.Err? ==> names == []
    ensures available.Ok? ==> |names| <= |available.value|
  {
    match available
    case Err(_) => []
    case Ok(ports) => UsbPortNames(ports)
  }

  /** Filtering commutes with concatenation: the names of a longer enumeration
      are those of its first part followed by those of the rest, so the
      enumeration order is kept. */
  lemma {:induction false} UsbPortNamesAppend(a: seq<SerialPortInfo>, b: seq<SerialPortInfo>)
    ensures UsbPortNames(a + b) == UsbPortNames(a) + UsbPortNames(b)
    decreases |a|
  {
    if a != [] {
      assert (a + b)[0] == a[0];
      assert (a + b)[1..] == a[1..] + b;
      UsbPortNamesAppend(a[1..], b);
    } else {
      assert a + b == b;
    }
  }

  /** A single port contributes its name exactly when it is a USB port; with
      UsbPortNamesAppend this determines the filter on every enumeration. */
  lemma UsbPortNamesSingle(p: SerialPortInfo)
    ensures UsbPortNames([p]) == if p.portType.UsbPort? then [p.portName] else []
  {
    assert [p][1..] == [];
  }

  /** An enumeration of USB ports only is reported whole, in the same order. */
  lemma {:induction false} AllUsbPortsListed(ports: seq<SerialPortInfo>)
    requires forall i :: 0 <= i < |ports| ==> ports[i].portType.UsbPort?
    ensures UsbPortNames(ports) == PortNames(ports)
  {
    if ports != [] {
      AllUsbPortsListed(ports[1..]);
      assert PortNames(ports) == [ports[0].portName] + PortNames(ports[1..]);
    }
  }

  /** The names of all ports, USB or not, as the lookup error lists them. */
  function PortNames(ports: seq<SerialPortInfo>): seq<string>
  {
    seq(|ports|, i requires 0 <= i < |ports| => ports[i].portName)
  }

  /** `ports.iter().find(|p| p.port_name == portname)`: the index of the first
      port with that name. */
  function FindPort(ports: seq<SerialPortInfo>, name: string): (found: Option<nat>)
    ensures found.Some? ==> found.value < |ports| && ports[found.value].portName == name
    ensures found.Some? ==> forall j :: 0 <= j < found.value ==> ports[j].portName != name
    ensures found.None? <==> forall j :: 0 <= j < |ports| ==> ports[j].portName != name
  {
    if ports == [] then None
    else if ports[0].portName == name then Some(0)
    else match FindPort(ports[1..], name)
      case None => None
      case Some(i) => Some(i + 1)
  }

  /* --------------------------------------------------------------- errors */

  /** The failures `flash_firmware` reports, one per `Err` it can return. */
  datatype FlashError =
    | ResolveFailed(cause: string)
    | OpenFailed(path: string, cause: string)
    | ReadFailed(path: string, cause: string)
    | EmptyFile(path: string)
    | ListPortsFailed(cause: string)
    | PortNotFound(portname: string, available: seq<string>)
    | NotUsbPort(portname: string)
    | InterfaceFailed(attempt: nat, cause: string)
    | InterfaceExhausted
    | ConnectFailed(cause: string)
    | WriteFailed(image: string, addr: u32, len: nat, cause: string)
    | RetriesExhausted(image: string)

  /** Debug formatting (`{:?}`) of a path or a string: the text in double quotes. */
  function Quoted(s: string): string
  {
    "\"" + s + "\""
  }

  /** Debug formatting of a list of names: `["a", "b"]`. */
  function QuotedList(names: seq<string>): string
  {
    "[" + JoinQuoted(names) + "]"
  }

  function JoinQuoted(names: seq<string>): string
  {
    if names == [] then ""
    else if |names| == 1 then Quoted(names[0])
    else Quoted(names[0]) + ", " + JoinQuoted(names[1..])
  }

  /** The message text the command returns for each failure. */
  function Message(e: FlashError): (m: string)
    ensures |m| > 0
    ensures e.ResolveFailed? || e.OpenFailed? || e.ReadFailed? || e.InterfaceFailed? ||
            e.ConnectFailed? || e.WriteFailed? ==>
              |m| > |e.cause| && m[|m| - |e.cause|..] == e.cause
  {
    match e
    case ResolveFailed(cause) => "Failed to resolve resource path: " + cause
    case OpenFailed(path, cause) => "Failed to open " + Quoted(path) + ": " + cause
    case ReadFailed(path, cause) => "Failed to read " + Quoted(path) + ": " + cause
    case EmptyFile(path) => "File " + Quoted(path) + " is empty"
    case ListPortsFailed(cause) =>
      "Failed to list ports: " + cause + ". Try 'sudo usermod -a -G dialout $USER' and reboot"
    case PortNotFound(portname, available) =>
      "Port " + portname + " not found. Available ports: " + QuotedList(available)
    case NotUsbPort(portname) => "Port " + portname + " is not a USB port"
    case InterfaceFailed(attempt, cause) => "Attempt " + Numeral(attempt, 10) + ": " + cause
    case InterfaceExhausted => "Failed to create interface after 3 attempts"
    case ConnectFailed(cause) => "Failed to connect to device: " + cause
    case WriteFailed(image, addr, len, cause) =>
      image + " flash failed at 0x" + Numeral(addr, 16) + " (" + Numeral(len, 10) + " bytes): " + cause
    case RetriesExhausted(image) => image + " flash failed after 3 retries"
  }

  /** The message of a failed application write names the address as 0x10000. */
  lemma WriteFailedMessage(len: nat, cause: string)
    ensures Message(WriteFailed(ImageName, AppAddress, len, cause))
         == "Application" + " flash failed at 0x" + "10000" + " (" + Numeral(len, 10) + " bytes): " + cause
  {
    assert Numeral(1, 16) == "1";
    assert Numeral(0x10, 16) == Numeral(1, 16) + [DigitChar(0)] == "10";
    assert Numeral(0x100, 16) == Numeral(0x10, 16) + [DigitChar(0)] == "100";
    assert Numeral(0x1000, 16) == Numeral(0x100, 16) + [DigitChar(0)] == "1000";
    assert Numeral(0x10000, 16) == Numeral(0x1000, 16) + [DigitChar(0)] == "10000";
  }

  /* ---------------------------------------------------------- the host */

  /** The outcome of one `read` call that `read_to_end` issues: some bytes (none
      means end of file) or an error. */
  datatype ReadStep = Chunk(bytes: seq<byte>) | ReadError(cause: string)

  /** What the libraries report to `flash_firmware`. The per-attempt outcomes are
      indexed by the attempt's position, counting from 0. */
  datatype Host = Host(
    resolveResource: string -> Result<string, string>, // Tauri resource resolution of a relative path
    open: string -> Result<seq<ReadStep>, string>,      // File::open on a path, then the reads on it
    availablePorts: Result<seq<SerialPortInfo>, string>,// serialport::available_ports()
    newInterface: nat -> Result<(), string>,            // Interface::new on the given attempt
    connect: Result<(), string>,                        // Flasher::connect
    writeBin: nat -> Result<(), string>)                // write_bin_to_flash on the given call

  /* ---------------------------------------------------------- read_bin */

  function Prepend(prefix: seq<byte>, r: Result<seq<byte>, string>): Result<seq<byte>, string>
  {
    match r
    case Ok(rest) => Ok(prefix + rest)
    case Err(e) => Err(e)
  }

  lemma PrependNothing(r: Result<seq<byte>, string>)
    ensures Prepend([], r) == r
  {
    if r.Ok? {
      assert [] + r.value == r.value;
    }
  }

  lemma PrependTwice(a: seq<byte>, b: seq<byte>, r: Result<seq<byte>, string>)
    ensures Prepend(a, Prepend(b, r)) == Prepend(a + b, r)
  {
    if r.Ok? {
      assert a + (b + r.value) == (a + b) + r.value;
    }
  }

  /** `read_to_end`: the bytes up to end of file, or the first read error. */
  function ReadToEnd(steps: seq<ReadStep>): (r: Result<seq<byte>, string>)
    ensures r.Ok? ==> r.value <= Flatten(steps)
    ensures r.Err? ==> ReadError(r.error) in steps
  {
    if steps == [] then Ok([])
    else match steps[0]
      case ReadError(e) => Err(e)
      case Chunk(bytes) => if bytes == [] then Ok([]) else Prepend(bytes, ReadToEnd(steps[1..]))
  }

  /** The first `k` reads all returned data. */
  ghost predicate DataBefore(steps: seq<ReadStep>, k: nat)
  {
    k <= |steps| && forall j :: 0 <= j < k ==> steps[j].Chunk? && steps[j].bytes != []
  }

  /** All bytes the chunks of `steps` hold, in order. */
  function Flatten(steps: seq<ReadStep>): seq<byte>
  {
    if steps == [] then [] else (if steps[0].Chunk? then steps[0].bytes else []) + Flatten(steps[1..])
  }

  /** When the reads deliver data until end of file, `read_to_end` returns all of it. */
  lemma {:induction false} ReadToEndAtEof(steps: seq<ReadStep>, k: nat)
    requires DataBefore(steps, k) && (k == |steps| || steps[k] == Chunk([]))
    ensures ReadToEnd(steps) == Ok(Flatten(steps[..k]))
    decreases k
  {
    if k == 0 {
      assert steps[..0] == [];
    } else {
      assert steps[..k][1..] == steps[1..][..k - 1];
      ReadToEndAtEof(steps[1..], k - 1);
    }
  }

  /** When a read fails before end of file, `read_to_end` fails with its error. */
  lemma {:induction false} ReadToEndAtError(steps: seq<ReadStep>, k: nat)
    requires DataBefore(steps, k) && k < |steps| && steps[k].ReadError?
    ensures ReadToEnd(steps) == Err(steps[k].cause)
    decreases k
  {
    if k > 0 {
      ReadToEndAtError(steps[1..], k - 1);
    }
  }

  /** `read_to_end` fills nothing and succeeds exactly when the first read
      reports end of file (or there is no read at all). */
  lemma ReadToEndEmpty(steps: seq<ReadStep>)
    ensures ReadToEnd(steps) == Ok([]) <==> steps == [] || steps[0] == Chunk([])
  {
  }

  /** The result of `read_bin` on a path, given what opening it reports. */
  function ReadBinResult(opening: Result<seq<ReadStep>, string>, path: string): (r: Result<seq<byte>, FlashError>)
    ensures r.Ok? ==> r.value != []
  {
    match opening
    case Err(e) => Err(OpenFailed(path, e))
    case Ok(steps) =>
      match ReadToEnd(steps)
      case Err(e) => Err(ReadFailed(path, e))
      case Ok(buffer) => if buffer == [] then Err(EmptyFile(path)) else Ok(buffer)
  }

  /** `read_bin`: fills a buffer read by read until end of file. */
  method ReadBin(opening: Result<seq<ReadStep>, string>, path: string) returns (r: Result<seq<byte>, FlashError>)
    ensures r == ReadBinResult(opening, path)
  {
    if opening.Err? {
      return Err(OpenFailed(path, opening.error));
    }
    var steps := opening.value;
    var buffer: seq<byte> := [];
    var i := 0;
    assert steps[i..] == steps;
    PrependNothing(ReadToEnd(steps));
    while i < |steps|
      invariant 0 <= i <= |steps|
      invariant ReadToEnd(steps) == Prepend(buffer, ReadToEnd(steps[i..]))
    {
      match steps[i]
      case ReadError(e) =>
        return Err(ReadFailed(path, e));
      case Chunk(bytes) =>
        if bytes == [] {
          break;
        }
        assert steps[i..][0] == steps[i] && steps[i..][1..] == steps[i + 1..];
        PrependTwice(buffer, bytes, ReadToEnd(steps[i + 1..]));
        buffer := buffer + bytes;
      i := i + 1;
    }
    assert ReadToEnd(steps[i..]) == Ok([]) by {
      assert steps[i..] == [] || steps[i..][0] == Chunk([]);
    }
    assert buffer + [] == buffer;
    if buffer == [] {
      return Err(EmptyFile(path));
    }
    return Ok(buffer);
  }

  /* ----------------------------------------------- interface creation */

  const InterfaceAttempts: nat := 3

  /** Outcome of a bounded retry and the number of calls it made. */
  datatype Tried = Tried(result: Result<(), FlashError>, calls: nat)

  /** `(0..3).find_map(...)` from attempt `i` on: the first attempt that succeeds,
      or the last attempt whatever its outcome; `None` past the last attempt. */
  function FindInterface(attempt: nat -> Result<(), string>, i: nat): (found: Option<Tried>)
    requires i <= InterfaceAttempts
    ensures found.None? <==> i == InterfaceAttempts
    ensures found.Some? ==> i < found.value.calls <= InterfaceAttempts
    ensures found.Some? && found.value.result.Err? ==> found.value.calls == InterfaceAttempts
    decreases InterfaceAttempts - i
  {
    if i == InterfaceAttempts then None
    else
      var result: Result<(), FlashError> :=
        match attempt(i) case Ok(_) => Ok(()) case Err(e) => Err(InterfaceFailed(i + 1, e));
      if result.Ok? || i == InterfaceAttempts - 1 then Some(Tried(result, i + 1))
      else FindInterface(attempt, i + 1)
  }

  /** The interface step, with its `unwrap_or_else` fallback. */
  function CreateInterface(attempt: nat -> Result<(), string>): (t: Tried)
    ensures 1 <= t.calls <= InterfaceAttempts
    ensures t.result.Err? ==> t.calls == InterfaceAttempts && t.result.error.InterfaceFailed?
  {
    match FindInterface(attempt, 0)
    case Some(t) => t
    case None => Tried(Err(InterfaceExhausted), InterfaceAttempts)
  }

  /** From any attempt the search yields a value, so the fallback is never used;
      it stops at the first success, and otherwise reports the last attempt's error. */
  lemma {:induction false} FindInterfaceFrom(attempt: nat -> Result<(), string>, i: nat)
    requires i < InterfaceAttempts
    ensures FindInterface(attempt, i).Some?
    ensures var t := FindInterface(attempt, i).value;
      i < t.calls <= InterfaceAttempts &&
      (forall k :: i <= k < t.calls - 1 ==> attempt(k).Err?) &&
      (t.result.Ok? <==> attempt(t.calls - 1).Ok?) &&
      (t.result.Err? ==> t.calls == InterfaceAttempts &&
                         t.result.error == InterfaceFailed(InterfaceAttempts, attempt(InterfaceAttempts - 1).error))
    decreases InterfaceAttempts - i
  {
    if attempt(i).Err? && i < InterfaceAttempts - 1 {
      FindInterfaceFrom(attempt, i + 1);
    }
  }

  /** Interface creation makes between one and three attempts: it succeeds exactly
      when one of the three would, stopping at the first that does; after three
      failures it reports the third attempt's error. */
  lemma CreateInterfaceAttempts(attempt: nat -> Result<(), string>)
    ensures var t := CreateInterface(attempt);
      1 <= t.calls <= InterfaceAttempts &&
      (t.result.Ok? <==> exists k :: 0 <= k < InterfaceAttempts && attempt(k).Ok?) &&
      (forall k :: 0 <= k < t.calls - 1 ==> attempt(k).Err?) &&
      (t.result.Ok? ==> attempt(t.calls - 1).Ok?) &&
      (t.result.Err? ==> t.calls == InterfaceAttempts &&
                         t.result.error == InterfaceFailed(3, attempt(2).error)) &&
      t.result != Err(InterfaceExhausted)
  {
    FindInterfaceFrom(attempt, 0);
  }

  /* ----------------------------------------------------------- retry_flash */

  const FlashAttempts: nat := 5
  const AppAddress: u32 := 0x10000
  const ImageName := "Application"

  /** A `write_bin_to_flash` call the flasher received. */
  datatype Write = Write(addr: u32, data: seq<byte>)

  /** The connected flasher. `outcome(k)` is what its `k`-th write reports;
      `writes` records the writes it was asked to make. */
  class Flasher {
    const outcome: nat -> Result<(), string>
    var writes: seq<Write>

    constructor (outcome: nat -> Result<(), string>)
      ensures this.outcome == outcome && writes == []
    {
      this.outcome := outcome;
      writes := [];
    }

    method WriteBinToFlash(addr: u32, data: seq<byte>) returns (r: Result<(), string>)
      modifies this
      ensures writes == old(writes) + [Write(addr, data)]
      ensures r == outcome(|old(writes)|)
    {
      r := outcome(|writes|);
      writes := writes + [Write(addr, data)];
    }
  }

  /** `retry_flash` from the write at position `n` on, for a call whose first
      write is at position `first` of the flasher's writes. */
  function Retry(outcome: nat -> Result<(), string>, first: nat, n: nat, addr: u32, len: nat, name: string): (t: Tried)
    requires first <= n < first + FlashAttempts
    ensures n - first < t.calls <= FlashAttempts
    ensures t.result.Ok? ==> outcome(first + t.calls - 1).Ok?
    ensures t.result.Err? ==> t.calls == FlashAttempts && t.result.error.WriteFailed?
    decreases first + FlashAttempts - n
  {
    match outcome(n)
    case Ok(_) => Tried(Ok(()), n - first + 1)
    case Err(e) =>
      if n - first == FlashAttempts - 1 then Tried(Err(WriteFailed(name, addr, len, e)), n - first + 1)
      else Retry(outcome, first, n + 1, addr, len, name)
  }

  lemma {:induction false} RetryFrom(outcome: nat -> Result<(), string>, first: nat, n: nat, addr: u32, len: nat, name: string)
    requires first <= n < first + FlashAttempts
    ensures var t := Retry(outcome, first, n, addr, len, name);
      n - first < t.calls <= FlashAttempts &&
      (forall m :: n <= m < first + t.calls - 1 ==> outcome(m).Err?) &&
      (t.result.Ok? <==> outcome(first + t.calls - 1).Ok?) &&
      (t.result.Err? ==> t.calls == FlashAttempts &&
                         t.result.error == WriteFailed(name, addr, len, outcome(first + FlashAttempts - 1).error))
    decreases first + FlashAttempts - n
  {
    if outcome(n).Err? && n - first < FlashAttempts - 1 {
      RetryFrom(outcome, first, n + 1, addr, len, name);
    }
  }

  /** Writing makes between one and five attempts and succeeds exactly when one
      of the five would, stopping at the first that does; after five failures
      the error names the image, the address, the data length and the fifth
      attempt's error. The message about "3 retries" is never produced. */
  lemma RetryAttempts(outcome: nat -> Result<(), string>, first: nat, addr: u32, len: nat, name: string)
    ensures var t := Retry(outcome, first, first, addr, len, name);
      1 <= t.calls <= FlashAttempts &&
      (t.result.Ok? <==> exists m :: first <= m < first + FlashAttempts && outcome(m).Ok?) &&
      (forall m :: first <= m < first + t.calls - 1 ==> outcome(m).Err?) &&
      (t.result.Ok? ==> outcome(first + t.calls - 1).Ok?) &&
      (t.result.Err? ==> t.calls == FlashAttempts &&
                         t.result.error == WriteFailed(name, addr, len, outcome(first + 4).error)) &&
      t.result != Err(RetriesExhausted(name))
  {
    RetryFrom(outcome, first, first, addr, len, name);
  }

  /** `n` copies of the same write. */
  function Repeat(w: Write, n: nat): seq<Write>
  {
    seq(n, _ => w)
  }

  /** `retry_flash`: writes `data` at `addr` until a write succeeds, at most five times. */
  method RetryFlash(flasher: Flasher, addr: u32, data: seq<byte>, name: string) returns (r: Result<(), FlashError>)
    modifies flasher
    ensures var first := |old(flasher.writes)|;
      var t := Retry(flasher.outcome, first, first, addr, |data|, name);
      r == t.result && flasher.writes == old(flasher.writes) + Repeat(Write(addr, data), t.calls)
  {
    ghost var base := |flasher.writes|;
    for i := 0 to FlashAttempts
      invariant i < FlashAttempts
      invariant flasher.writes == old(flasher.writes) + Repeat(Write(addr, data), i)
      invariant Retry(flasher.outcome, base, base, addr, |data|, name)
             == Retry(flasher.outcome, base, base + i, addr, |data|, name)
    {
      var written := flasher.WriteBinToFlash(addr, data);
      assert Repeat(Write(addr, data), i + 1) == Repeat(Write(addr, data), i) + [Write(addr, data)];
      match written
      case Ok(_) =>
        return Ok(());
      case Err(e) =>
        if i == FlashAttempts - 1 {
          return Err(WriteFailed(name, addr, |data|, e));
        }
    }
    r := Err(RetriesExhausted(name));
  }

  /* -------------------------------------------------------- flash_firmware */

  const SuccessMessage := "\U{2705} Firmware flashed successfully! The device should now reboot."

  /** The bundled resource a firmware file name refers to. */
  function ResourceName(file: string): string
  {
    "files/" + file
  }

  /** The firmware image: resolve the resource, then `read_bin` on it. */
  function Image(host: Host, file: string): (r: Result<seq<byte>, FlashError>)
    ensures r.Ok? ==> r.value != [] && host.resolveResource(ResourceName(file)).Ok?
    ensures r.Ok? ==>
              var path := host.resolveResource(ResourceName(file)).value;
              host.open(path).Ok? && r.value <= Flatten(host.open(path).value)
    ensures r.Err? ==> r.error.ResolveFailed? || r.error.OpenFailed? || r.error.ReadFailed? || r.error.EmptyFile?
  {
    match host.resolveResource(ResourceName(file))
    case Err(e) => Err(ResolveFailed(e))
    case Ok(path) => ReadBinResult(host.open(path), path)
  }

  /** The port lookup and USB check. */
  function TargetPort(available: Result<seq<SerialPortInfo>, string>, portname: string): (r: Result<UsbPortInfo, FlashError>)
    ensures r.Ok? ==> available.Ok? && portname in ListSerialPorts(available)
    ensures r.Ok? ==>
              exists j :: 0 <= j < |available.value| &&
                          available.value[j] == SerialPortInfo(portname, UsbPort(r.value))
    ensures r.Err? ==> r.error.ListPortsFailed? || r.error.PortNotFound? || r.error.NotUsbPort?
  {
    match available
    case Err(e) => Err(ListPortsFailed(e))
    case Ok(ports) =>
      match FindPort(ports, portname)
      case None => Err(PortNotFound(portname, PortNames(ports)))
      case Some(i) =>
        match ports[i].portType
        case UsbPort(info) => Ok(info)
        case _ => Err(NotUsbPort(portname))
  }

  /** What one `flash_firmware` call returns, with the number of interface
      attempts and of flash writes it made. */
  datatype FlashRun = FlashRun(result: Result<string, FlashError>, interfaceCalls: nat, writes: nat)

  function Flash(host: Host, portname: string, file: string): (run: FlashRun)
    ensures run.interfaceCalls <= InterfaceAttempts && run.writes <= FlashAttempts
    ensures run.interfaceCalls > 0 ==> Image(host, file).Ok? && TargetPort(host.availablePorts, portname).Ok?
    ensures run.writes > 0 ==> run.interfaceCalls > 0 && host.connect.Ok?
    ensures run.result.Ok? ==>
              run.result.value == SuccessMessage && run.writes > 0 && host.writeBin(run.writes - 1).Ok?
  {
    match Image(host, file)
    case Err(e) => FlashRun(Err(e), 0, 0)
    case Ok(app) =>
      match TargetPort(host.availablePorts, portname)
      case Err(e) => FlashRun(Err(e), 0, 0)
      case Ok(_) =>
        var iface := CreateInterface(host.newInterface);
        if iface.result.Err? then FlashRun(Err(iface.result.error), iface.calls, 0)
        else if host.connect.Err? then FlashRun(Err(ConnectFailed(host.connect.error)), iface.calls, 0)
        else
          var written := Retry(host.writeBin, 0, 0, AppAddress, |app|, ImageName);
          FlashRun(if written.result.Ok? then Ok(SuccessMessage) else Err(written.result.error),
                   iface.calls, written.calls)
  }

  /** `flash_firmware`: returns what `Flash` says, and the writes it issued are
      all of the image read from the resource, at the application address. */
  method FlashFirmware(host: Host, portname: string, file: string) returns (r: Result<string, FlashError>, writes: seq<Write>)
    ensures r == Flash(host, portname, file).result
    ensures |writes| == Flash(host, portname, file).writes
    ensures forall w <- writes :: w.addr == AppAddress && Image(host, file) == Ok(w.data)
  {
    var resolved := host.resolveResource(ResourceName(file));
    if resolved.Err? {
      return Err(ResolveFailed(resolved.error)), [];
    }
    var path := resolved.value;
    var app := ReadBin(host.open(path), path);
    if app.Err? {
      return Err(app.error), [];
    }
    var target := TargetPort(host.availablePorts, portname);
    if target.Err? {
      return Err(target.error), [];
    }
    var iface := CreateInterface(host.newInterface);
    if iface.result.Err? {
      return Err(iface.result.error), [];
    }
    if host.connect.Err? {
      return Err(ConnectFailed(host.connect.error)), [];
    }
    var flasher := new Flasher(host.writeBin);
    var flashed := RetryFlash(flasher, AppAddress, app.value, ImageName);
    writes := flasher.writes;
    if flashed.Err? {
      return Err(flashed.error), writes;
    }
    return Ok(SuccessMessage), writes;
  }

  /* ------------------------------------------ properties of flash_firmware */

  /** The resource asked for is `files/<file>`; when it cannot be resolved,
      nothing else is tried. */
  lemma ResolveFailureReported(host: Host, portname: string, file: string)
    requires host.resolveResource("files/" + file).Err?
    ensures Flash(host, portname, file)
         == FlashRun(Err(ResolveFailed(host.resolveResource("files/" + file).error)), 0, 0)
  {
  }

  /** A binary that cannot be opened, cannot be read or is empty is rejected
      before the ports are looked at: the result does not depend on the port
      enumeration, and no interface or write is attempted. */
  lemma BadImageShortCircuits(host: Host, portname: string, file: string, ports: Result<seq<SerialPortInfo>, string>)
    requires Image(host, file).Err?
    ensures Flash(host, portname, file) == FlashRun(Err(Image(host, file).error), 0, 0)
    ensures Flash(host.(availablePorts := ports), portname, file) == Flash(host, portname, file)
    ensures Image(host, file).error.ResolveFailed? || Image(host, file).error.OpenFailed? ||
            Image(host, file).error.ReadFailed? || Image(host, file).error.EmptyFile?
  {
  }

  /** The image is rejected as empty, naming `path`, exactly when the resource
      resolves to `path`, the file opens and its first read reports end of file. */
  lemma EmptyImageRejected(host: Host, file: string, path: string)
    ensures Image(host, file) == Err(EmptyFile(path)) <==>
      host.resolveResource(ResourceName(file)) == Ok(path) && host.open(path).Ok? &&
      (host.open(path).value == [] || host.open(path).value[0] == Chunk([]))
  {
    if host.open(path).Ok? {
      ReadToEndEmpty(host.open(path).value);
    }
  }

  /** A port name that matches no enumerated port is reported with the names of
      all enumerated ports, USB or not. */
  lemma UnknownPortReported(host: Host, portname: string, file: string)
    requires Image(host, file).Ok? && host.availablePorts.Ok?
    requires forall j :: 0 <= j < |host.availablePorts.value| ==> host.availablePorts.value[j].portName != portname
    ensures Flash(host, portname, file)
         == FlashRun(Err(PortNotFound(portname, PortNames(host.availablePorts.value))), 0, 0)
  {
  }

  /** The first port carrying the requested name decides: if it is not a USB
      port the request is rejected before any interface is created, even when
      a later port of the same name is a USB port. */
  lemma FirstMatchDecides(host: Host, portname: string, file: string, k: nat)
    requires Image(host, file).Ok? && host.availablePorts.Ok?
    requires k < |host.availablePorts.value| && host.availablePorts.value[k].portName == portname
    requires forall j :: 0 <= j < k ==> host.availablePorts.value[j].portName != portname
    ensures !host.availablePorts.value[k].portType.UsbPort? ==>
              Flash(host, portname, file) == FlashRun(Err(NotUsbPort(portname)), 0, 0)
    ensures host.availablePorts.value[k].portType.UsbPort? ==>
              Flash(host, portname, file).interfaceCalls >= 1
  {
    assert FindPort(host.availablePorts.value, portname) == Some(k);
    CreateInterfaceAttempts(host.newInterface);
  }

  /** The whole command succeeds exactly when every stage does: the image is
      read, the port is an enumerated USB port, one of three interface attempts
      and the connection succeed, and one of five writes succeeds. The number of
      writes is then the position of the first successful one. */
  lemma FlashSucceedsIff(host: Host, portname: string, file: string)
    ensures var run := Flash(host, portname, file);
      run.result.Ok? <==>
        Image(host, file).Ok? && TargetPort(host.availablePorts, portname).Ok? &&
        (exists k :: 0 <= k < InterfaceAttempts && host.newInterface(k).Ok?) &&
        host.connect.Ok? &&
        (exists k :: 0 <= k < FlashAttempts && host.writeBin(k).Ok?)
    ensures var run := Flash(host, portname, file);
      run.result.Ok? ==> run.result.value == SuccessMessage &&
                         1 <= run.writes <= FlashAttempts && host.writeBin(run.writes - 1).Ok? &&
                         forall k :: 0 <= k < run.writes - 1 ==> host.writeBin(k).Err?
    ensures Flash(host, portname, file).interfaceCalls <= InterfaceAttempts
    ensures Flash(host, portname, file).writes <= FlashAttempts
  {
    CreateInterfaceAttempts(host.newInterface);
    if Image(host, file).Ok? {
      RetryAttempts(host.writeBin, 0, AppAddress, |Image(host, file).value|, ImageName);
    }
  }

  /** A successful `list_serial_ports` enumeration that contains the requested
      port as a USB port (and no earlier port of that name) passes the lookup. */
  lemma ListedPortPassesLookup(ports: seq<SerialPortInfo>, portname: string, k: nat)
    requires k < |ports| && ports[k].portName == portname && ports[k].portType.UsbPort?
    requires forall j :: 0 <= j < k ==> ports[j].portName != portname
    ensures portname in ListSerialPorts(Ok(ports))
    ensures TargetPort(Ok(ports), portname) == Ok(ports[k].portType.info)
  {
    assert FindPort(ports, portname) == Some(k);
  }
}
