/** The flashing dialog of the desktop front end: the page's state, the handlers
    that change it, the colour and icon chosen for the flash status, and the
    controls the page disables. The backend commands are reached through
    `invoke`; their results are inputs here (see `Invoke` for the link with the
    backend model). */
module Page {
  import opened Backend

  const NoPortMessage := "Error: Please select a port first."
  const FlashingMessage := "Flashing firmware, please wait..."
  const SuccessStatus := "success"
  const ErrorStatus := "error"

  /** The firmware kinds the page offers, and their bundled images. */
  const BuiltinKinds: seq<string> := ["BLE", "Serial", "WiFi"]
  const BuiltinFiles: seq<string> := ["/NPG-LITE-BLE.ino.bin", "/NPG-LITE.ino.bin", "/NPG-LITE-WiFi.ino.bin"]

  /** The page's state, field by field. */
  datatype View = View(
    ports: seq<string>,
    selectedPort: string,
    output: string,
    firmwareType: string,
    showPopover: bool,
    isFlashing: bool,
    flashStatus: string,
    isRefreshing: bool)

  /** The state when the page is first shown. */
  const Mounted := View([], "", "", "", false, false, "", false)

  /** The arguments of the `flash_firmware` command. */
  datatype FlashCall = FlashCall(portname: string, file: string)

  /* ------------------------------------------------------ pure mappings */

  /** The image sent to the backend for a firmware kind; any other kind sends "". */
  function FirmwareFile(kind: string): (file: string)
    ensures file == "" <==> kind !in BuiltinKinds
    ensures forall k :: 0 <= k < 3 ==> (kind == BuiltinKinds[k] <==> file == BuiltinFiles[k])
  {
    match kind
    case "BLE" => "/NPG-LITE-BLE.ino.bin"
    case "Serial" => "/NPG-LITE.ino.bin"
    case "WiFi" => "/NPG-LITE-WiFi.ino.bin"
    case _ => ""
  }

  /** Each bundled image is asked for with a doubled slash: the page's file
      names start with `/` and the backend prefixes `files/`. */
  lemma BleResourceName()
    ensures ResourceName(FirmwareFile("BLE")) == "files//NPG-LITE-BLE.ino.bin"
  {
  }

  lemma SerialResourceName()
    ensures ResourceName(FirmwareFile("Serial")) == "files//NPG-LITE.ino.bin"
  {
  }

  lemma WifiResourceName()
    ensures ResourceName(FirmwareFile("WiFi")) == "files//NPG-LITE-WiFi.ino.bin"
  {
  }

  /** Different offered kinds send different images. */
  lemma FirmwareFileInjective(a: string, b: string)
    requires a in BuiltinKinds && b in BuiltinKinds && a != b
    ensures FirmwareFile(a) != FirmwareFile(b)
  {
  }

  const SuccessColor := "bg-green-50 border-green-200 text-green-800"
  const ErrorColor := "bg-red-50 border-red-200 text-red-800"
  const NeutralColor := "bg-gray-50 border-gray-200 text-gray-800"

  /** `getStatusColor`: the classes of the output box. */
  function StatusColor(status: string): (color: string)
    ensures color == SuccessColor <==> status == SuccessStatus
    ensures color == ErrorColor <==> status == ErrorStatus
  {
    if status == SuccessStatus then SuccessColor
    else if status == ErrorStatus then ErrorColor
    else NeutralColor
  }

  datatype StatusIcon = CheckCircle | AlertCircle | NoIcon

  /** `getStatusIcon`: the icon beside the output. */
  function IconFor(status: string): (icon: StatusIcon)
    ensures icon == CheckCircle <==> status == SuccessStatus
    ensures icon == AlertCircle <==> status == ErrorStatus
  {
    if status == SuccessStatus then CheckCircle
    else if status == ErrorStatus then AlertCircle
    else NoIcon
  }

  /** Colour and icon split the statuses the same three ways: "success",
      "error", and everything else. */
  lemma StatusPresentation(status: string)
    ensures StatusColor(status) == SuccessColor <==> IconFor(status) == CheckCircle
    ensures IconFor(status) == CheckCircle <==> status == SuccessStatus
    ensures StatusColor(status) == ErrorColor <==> IconFor(status) == AlertCircle
    ensures IconFor(status) == AlertCircle <==> status == ErrorStatus
    ensures StatusColor(status) == NeutralColor <==> IconFor(status) == NoIcon
  {
    assert SuccessColor != ErrorColor && SuccessColor != NeutralColor && ErrorColor != NeutralColor by {
      assert SuccessColor[3] == 'g' && ErrorColor[3] == 'r' && NeutralColor[3] == 'g';
      assert SuccessColor[5] == 'e' && NeutralColor[5] == 'a';
    }
  }

  /** The `disabled` conditions of the dialog's controls. */
  predicate FlashButtonDisabled(v: View) { v.isFlashing || v.selectedPort == "" }
  predicate CancelDisabled(v: View) { v.isFlashing }
  predicate PortSelectDisabled(v: View) { v.isFlashing }
  predicate RefreshButtonDisabled(v: View) { v.isFlashing || v.isRefreshing }

  /* --------------------------------------------------------- transitions */

  /** `refreshPorts`: the spinner flag is set and cleared around a call that is
      not awaited; the list arrives later and replaces the old one wholesale,
      and a rejected call leaves it as it was. */
  function PortsRefreshed(v: View, listed: Result<seq<string>, string>): (w: View)
    ensures !w.isRefreshing
    ensures listed.Ok? ==> w.ports == listed.value
    ensures listed.Err? ==> w.ports == v.ports
    ensures w.(ports := v.ports, isRefreshing := v.isRefreshing) == v
  {
    var w := v.(isRefreshing := true);
    var w := w.(isRefreshing := false);
    match listed
    case Ok(names) => w.(ports := names)
    case Err(_) => w
  }

  /** `handleFirmwareTypeChange`. */
  function FirmwareTypeChanged(v: View, t: string): (w: View)
    ensures w.firmwareType == t
    ensures t != "" ==> w.showPopover && w.flashStatus == "" && w.output == ""
    ensures t == "" ==> w == v.(firmwareType := t)
    ensures w.ports == v.ports && w.selectedPort == v.selectedPort
    ensures w.isFlashing == v.isFlashing && w.isRefreshing == v.isRefreshing
  {
    var w := v.(firmwareType := t);
    if t != "" then w.(showPopover := true, flashStatus := "", output := "") else w
  }

  /** The select's `onChange`. */
  function PortSelected(v: View, port: string): (w: View)
    ensures w.selectedPort == port && w.(selectedPort := v.selectedPort) == v
  {
    v.(selectedPort := port)
  }

  /** The state and the backend call after the synchronous part of `handleFlash`. */
  datatype Started = Started(view: View, call: Option<FlashCall>)

  /** `handleFlash` up to the awaited `invoke`: without a port it reports the
      error and stops; otherwise it marks the flash as running and calls the
      backend with the selected port and the kind's image. */
  function FlashStarted(v: View): (s: Started)
    ensures s.call.Some? <==> v.selectedPort != ""
    ensures v.selectedPort == "" ==> s.view == v.(output := NoPortMessage, flashStatus := ErrorStatus)
    ensures s.call.Some? ==>
      s.call.value == FlashCall(v.selectedPort, FirmwareFile(v.firmwareType)) &&
      s.view == v.(isFlashing := true, output := FlashingMessage, flashStatus := "")
  {
    if v.selectedPort == "" then
      Started(v.(output := NoPortMessage, flashStatus := ErrorStatus), None)
    else
      var file := FirmwareFile(v.firmwareType);
      Started(v.(isFlashing := true, output := FlashingMessage, flashStatus := ""),
              Some(FlashCall(v.selectedPort, file)))
  }

  /** `handleFlash` after the `invoke` settles: the outcome is shown and the
      flash is no longer running, whichever way it went. */
  function FlashSettled(v: View, outcome: Result<string, string>): (w: View)
    ensures !w.isFlashing
    ensures outcome.Ok? ==> w.output == "Success: " + outcome.value && w.flashStatus == SuccessStatus
    ensures outcome.Err? ==> w.output == "Error: " + outcome.error && w.flashStatus == ErrorStatus
    ensures w.(output := v.output, flashStatus := v.flashStatus, isFlashing := v.isFlashing) == v
  {
    var w := match outcome
      case Ok(result) => v.(output := "Success: " + result, flashStatus := SuccessStatus)
      case Err(err) => v.(output := "Error: " + err, flashStatus := ErrorStatus);
    w.(isFlashing := false)
  }

  /** `closePopover`. */
  function PopoverClosed(v: View): (w: View)
    ensures !w.showPopover && w.firmwareType == "" && w.output == "" && w.flashStatus == ""
    ensures w.(showPopover := v.showPopover, firmwareType := v.firmwareType,
               output := v.output, flashStatus := v.flashStatus) == v
  {
    v.(showPopover := false, firmwareType := "", output := "", flashStatus := "")
  }

  /** Closing twice is closing once, and closing keeps the port and the list. */
  lemma ClosePopoverIdempotent(v: View)
    ensures PopoverClosed(PopoverClosed(v)) == PopoverClosed(v)
    ensures PopoverClosed(v).selectedPort == v.selectedPort && PopoverClosed(v).ports == v.ports
  {
  }

  /** `handleFlash` does not look at `isFlashing`: whether it calls the backend,
      and with what, depends on the port and the kind alone. */
  lemma HandlerIgnoresFlashing(v: View, b: bool)
    ensures FlashStarted(v.(isFlashing := b)).call == FlashStarted(v).call
  {
  }

  /* ------------------------------------------------- the page as an object */

  /** The page component: its state fields, changed in place by its handlers. */
  class Home {
    var ports: seq<string>
    var selectedPort: string
    var output: string
    var firmwareType: string
    var showPopover: bool
    var isFlashing: bool
    var flashStatus: string
    var isRefreshing: bool

    function Snapshot(): View
      reads this
    {
      View(ports, selectedPort, output, firmwareType, showPopover, isFlashing, flashStatus, isRefreshing)
    }

    constructor ()
      ensures Snapshot() == Mounted
    {
      ports := [];
      selectedPort := "";
      output := "";
      firmwareType := "";
      showPopover := false;
      isFlashing := false;
      flashStatus := "";
      isRefreshing := false;
    }

    method RefreshPorts(listed: Result<seq<string>, string>)
      modifies this
      ensures Snapshot() == PortsRefreshed(old(Snapshot()), listed)
    {
      isRefreshing := true;
      isRefreshing := false;
      if listed.Ok? {
        ports := listed.value;
      }
    }

    method HandleFirmwareTypeChange(t: string)
      modifies this
      ensures Snapshot() == FirmwareTypeChanged(old(Snapshot()), t)
    {
      firmwareType := t;
      if t != "" {
        showPopover := true;
        flashStatus := "";
        output := "";
      }
    }

    method SelectPort(port: string)
      modifies this
      ensures Snapshot() == PortSelected(old(Snapshot()), port)
    {
      selectedPort := port;
    }

    /** `handleFlash` up to its `await`; returns the backend call it makes. */
    method BeginFlash() returns (call: Option<FlashCall>)
      modifies this
      ensures Started(Snapshot(), call) == FlashStarted(old(Snapshot()))
    {
      if selectedPort == "" {
        output := NoPortMessage;
        flashStatus := ErrorStatus;
        return None;
      }
      var file := FirmwareFile(firmwareType);
      isFlashing := true;
      output := FlashingMessage;
      flashStatus := "";
      call := Some(FlashCall(selectedPort, file));
    }

    /** `handleFlash` from its `await` on, given how the call settled. */
    method SettleFlash(outcome: Result<string, string>)
      modifies this
      ensures Snapshot() == FlashSettled(old(Snapshot()), outcome)
    {
      match outcome {
        case Ok(result) =>
          output := "Success: " + result;
          flashStatus := SuccessStatus;
        case Err(err) =>
          output := "Error: " + err;
          flashStatus := ErrorStatus;
      }
      isFlashing := false;
    }

    /** The whole of `handleFlash` when no other handler runs while it waits. */
    method HandleFlash(outcome: Result<string, string>) returns (call: Option<FlashCall>)
      modifies this
      ensures call == FlashStarted(old(Snapshot())).call
      ensures call.None? ==> Snapshot() == FlashStarted(old(Snapshot())).view
      ensures call.Some? ==> Snapshot() == FlashSettled(FlashStarted(old(Snapshot())).view, outcome)
    {
      call := BeginFlash();
      if call.Some? {
        SettleFlash(outcome);
      }
    }

    method ClosePopover()
      modifies this
      ensures Snapshot() == PopoverClosed(old(Snapshot()))
    {
      showPopover := false;
      firmwareType := "";
      output := "";
      flashStatus := "";
    }
  }

  /* ------------------------------------------- the page and its controls */

  /** The page with the backend call it is waiting on, if any. */
  datatype Ui = Ui(view: View, outstanding: Option<FlashCall>)

  const Start := Ui(Mounted, None)

  /** What can happen to the page: a click or choice on a control, a tick of the
      port poll, or the flash call settling. */
  datatype Event =
    | ClickFirmware(kind: string)
    | ChangePort(port: string)
    | Poll(listed: Result<seq<string>, string>)
    | ClickRefresh(listed: Result<seq<string>, string>)
    | ClickClose
    | ClickCancel
    | ClickFlash
    | FlashReturned(outcome: Result<string, string>)

  /** Whether the page lets the event reach its handler: the dialog's controls
      exist only while it is shown, and the disabled ones ignore clicks. The
      close button in the dialog's header is never disabled. */
  predicate Enabled(u: Ui, e: Event): (enabled: bool)
    ensures enabled && !u.view.showPopover ==> e.ClickFirmware? || e.Poll? || e.FlashReturned?
    ensures enabled && u.view.isFlashing ==>
              e.ClickFirmware? || e.Poll? || e.ClickClose? || e.FlashReturned?
  {
    match e
    case ClickFirmware(kind) => kind in BuiltinKinds
    case ChangePort(port) =>
      u.view.showPopover && !PortSelectDisabled(u.view) && (port == "" || port in u.view.ports)
    case Poll(_) => true
    case ClickRefresh(_) => u.view.showPopover && !RefreshButtonDisabled(u.view)
    case ClickClose => u.view.showPopover
    case ClickCancel => u.view.showPopover && !CancelDisabled(u.view)
    case ClickFlash => u.view.showPopover && !FlashButtonDisabled(u.view)
    case FlashReturned(_) => u.outstanding.Some?
  }

  /** One event; an event the page does not let through changes nothing. */
  function Step(u: Ui, e: Event): (w: Ui)
    ensures !Enabled(u, e) ==> w == u
    ensures w.outstanding != u.outstanding ==> e.ClickFlash? || e.FlashReturned?
    ensures u.outstanding.None? && w.outstanding.Some? ==>
              e.ClickFlash? && w.outstanding.value.portname == u.view.selectedPort != "" &&
              w.view.isFlashing
    ensures u.outstanding.Some? && w.outstanding.None? ==> e.FlashReturned? && !w.view.isFlashing
  {
    if !Enabled(u, e) then u
    else match e
      case ClickFirmware(kind) => u.(view := FirmwareTypeChanged(u.view, kind))
      case ChangePort(port) => u.(view := PortSelected(u.view, port))
      case Poll(listed) => u.(view := PortsRefreshed(u.view, listed))
      case ClickRefresh(listed) => u.(view := PortsRefreshed(u.view, listed))
      case ClickClose => u.(view := PopoverClosed(u.view))
      case ClickCancel => u.(view := PopoverClosed(u.view))
      case ClickFlash =>
        var s := FlashStarted(u.view);
        Ui(s.view, s.call)
      case FlashReturned(outcome) => Ui(FlashSettled(u.view, outcome), None)
  }

  /** A sequence of events, one after the other. Only the Flash click and the
      call settling change which call is outstanding. */
  function Run(u: Ui, events: seq<Event>): (w: Ui)
    ensures (forall k :: 0 <= k < |events| ==> !events[k].ClickFlash? && !events[k].FlashReturned?) ==>
              w.outstanding == u.outstanding
    decreases |events|
  {
    if events == [] then u
    else
      assert forall k :: 0 <= k < |events| - 1 ==> events[1..][k] == events[k + 1];
      Run(Step(u, events[0]), events[1..])
  }

  /** The page's invariant: the running flag is up exactly while a flash call is
      outstanding, that call is for the port still selected and for a bundled
      image, the dialog is only shown for an offered kind, and the refresh
      spinner flag is never left up. */
  ghost predicate Coherent(u: Ui): (ok: bool)
    ensures u == Start ==> ok
    ensures ok && u.outstanding.Some? ==>
              FlashButtonDisabled(u.view) && CancelDisabled(u.view) && PortSelectDisabled(u.view)
  {
    !u.view.isRefreshing &&
    (u.view.isFlashing <==> u.outstanding.Some?) &&
    (u.outstanding.Some? ==>
       u.outstanding.value.portname == u.view.selectedPort != "" &&
       u.outstanding.value.file in BuiltinFiles) &&
    (u.view.showPopover ==> u.view.firmwareType in BuiltinKinds)
  }

  /** Every event keeps the invariant. While a flash is outstanding no second
      call is made and the selected port does not change. */
  lemma StepCoherent(u: Ui, e: Event)
    requires Coherent(u)
    ensures Coherent(Step(u, e))
    ensures u.outstanding.Some? ==> !Enabled(u, ClickFlash)
    ensures u.outstanding.Some? ==>
      (Step(u, e).outstanding == u.outstanding || e.FlashReturned?) &&
      Step(u, e).view.selectedPort == u.view.selectedPort
  {
    if Enabled(u, e) && e.ClickFlash? {
      var k :| 0 <= k < 3 && u.view.firmwareType == BuiltinKinds[k];
      assert FirmwareFile(u.view.firmwareType) == BuiltinFiles[k];
    }
  }

  lemma {:induction false} RunCoherent(u: Ui, events: seq<Event>)
    requires Coherent(u)
    ensures Coherent(Run(u, events))
    decreases |events|
  {
    if events != [] {
      StepCoherent(u, events[0]);
      RunCoherent(Step(u, events[0]), events[1..]);
    }
  }

  /** Single flight, as the page enforces it through its disabled controls:
      after any sequence of events, at most the one outstanding call exists, the
      Flash button is disabled while it is outstanding, and the call is for the
      selected port and one of the three bundled images. */
  lemma SingleFlight(events: seq<Event>)
    ensures var u := Run(Start, events);
      Coherent(u) &&
      (u.outstanding.Some? ==> !Enabled(u, ClickFlash) && u.view.isFlashing) &&
      (u.outstanding.Some? ==> u.outstanding.value.file in BuiltinFiles)
  {
    RunCoherent(Start, events);
    var u := Run(Start, events);
    if u.outstanding.Some? {
      StepCoherent(u, ClickFlash);
    }
  }

  /** The close button in the header stays usable during a flash: it hides the
      dialog and clears the output, but the call stays outstanding and its
      outcome is written to the hidden dialog when it settles. */
  lemma CloseDuringFlash(u: Ui, outcome: Result<string, string>)
    requires Coherent(u) && u.outstanding.Some? && u.view.showPopover
    ensures Enabled(u, ClickClose) && !Enabled(u, ClickCancel)
    ensures var closed := Step(u, ClickClose);
      closed.outstanding == u.outstanding && !closed.view.showPopover &&
      Step(closed, FlashReturned(outcome)).view.output != "" &&
      !Step(closed, FlashReturned(outcome)).view.showPopover
  {
  }

  /* ------------------------------------------------ the backend link */

  /** How the `flash_firmware` command answers a call: its message, or its
      error's message as the rejection. */
  function Invoke(host: Host, call: FlashCall): (r: Result<string, string>)
    ensures r.Ok? <==> Flash(host, call.portname, call.file).result.Ok?
    ensures r.Ok? ==> r.value == SuccessMessage
    ensures r.Err? ==> |r.error| > 0
  {
    match Flash(host, call.portname, call.file).result
    case Ok(message) => Ok(message)
    case Err(e) => Err(Message(e))
  }

  /** End to end: a flash started from the dialog ends showing "success" exactly
      when the backend flashed the kind's image, with the backend's success text
      or its error message, and the running flag down. */
  lemma FlashOutcomeShown(v: View, host: Host)
    requires v.selectedPort != ""
    ensures var s := FlashStarted(v);
      var run := Flash(host, v.selectedPort, FirmwareFile(v.firmwareType));
      var w := FlashSettled(s.view, Invoke(host, s.call.value));
      !w.isFlashing &&
      (w.flashStatus == SuccessStatus <==> run.result.Ok?) &&
      (run.result.Ok? ==> w.output == "Success: " + SuccessMessage) &&
      (run.result.Err? ==> w.output == "Error: " + Message(run.result.error))
  {
    var run := Flash(host, v.selectedPort, FirmwareFile(v.firmwareType));
    if run.result.Ok? {
      FlashSucceedsIff(host, v.selectedPort, FirmwareFile(v.firmwareType));
    }
  }
}
