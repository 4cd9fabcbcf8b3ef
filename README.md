# NPG-Lite flasher: the flash dialog and the backend flash pipeline

This project models the decision logic of the NPG-Lite firmware flasher, a desktop
application that writes one of three bundled firmware images (Bluetooth LE, wired
serial, WiFi) to an NPG-Lite board over a USB serial port.

- `backend.dfy` (module `Backend`) models the two backend commands.
  - `list_serial_ports` keeps the USB ports of the enumeration, in order.
  - `flash_firmware` runs an ordered chain of checks that stops at the first failure:
    - resolve the resource `files/<file>`;
    - read it with `read_bin`, which rejects a file that cannot be opened or read, or is empty;
    - enumerate the ports and find the first one with the requested name;
    - reject a port that is not a USB port.

    It then makes up to three attempts to create the serial interface and connects the flasher.
    Last, `retry_flash` makes up to five attempts to write the image at address `0x10000`.
  - The libraries these commands call are not modelled. Their outcomes are the fields of a `Host` value:
    - resource resolution;
    - opening a file and each read `read_to_end` makes;
    - port enumeration;
    - each `Interface::new` attempt;
    - `Flasher::connect`;
    - each `write_bin_to_flash` call.
  - `read_bin` is a method with a loop that fills a buffer.
  - `retry_flash` is a method with a loop. It works on a `Flasher` object that records the writes it receives.
  - `flash_firmware` is a method proved equal to the function `Flash`. The lemmas are stated about `Flash`.
- `page.dfy` (module `Page`) models the flash dialog of the front end.
  - The class `Home` holds the component's state fields. Each handler is a method that updates them in place.
  - Each handler is proved equal to a pure transition on a `View` value.
  - `handleFlash` has an `await` in the middle, so it is split in two at that point:
    - `BeginFlash` runs up to the backend call;
    - `SettleFlash` runs once the call has settled.
  - The result of `invoke` is an input: `Ok(message)` or `Err(message)`.
  - `Enabled`/`Step`/`Run` model the rendered page. An event reaches its handler only if its control is shown and not disabled.
  - On this model the page's single-flight property is proved for every event sequence.
  - `Invoke` connects the dialog to `Backend.Flash`: the command's message, or its error's message as the rejection.
- `numerals.dfy` (module `Numerals`) renders numbers in decimal and upper-case hexadecimal. The backend's error messages need both.

Facts about the code as written, each stated by the lemma named beside it where there is one:
- `handleFlash` never reads `isFlashing`. Single flight comes only from the disabled Flash button (`HandlerIgnoresFlashing`, `SingleFlight`).
- An unknown firmware kind is not rejected. It is sent to the backend as the empty file name (`FirmwareFile`).
- The backend retries on its own: 3 interface attempts and 5 write attempts (`CreateInterfaceAttempts`, `RetryAttempts`).
- Each bundled image is asked for as `files//NPG-…` with a doubled slash. The page's file names start with `/` and the backend prefixes `files/` (`BleResourceName`, `SerialResourceName`, `WifiResourceName`).
- The header close button stays enabled during a flash (`CloseDuringFlash`). Only Cancel is disabled.
- In the code, `refreshPorts` does not await its call, so `isRefreshing` is set back to false before the list arrives. The model merges the two into one step (see "## Left out").
- The `unwrap_or_else` fallback after the interface attempts can never be reached (`CreateInterfaceAttempts`).
- The "after 3 retries" error after the write loop can never be reached either (`RetryAttempts`, `RetryFlash`).

## Model

| member | source | states |
|---|---|---|
| `Backend.UsbPortNames` | src-tauri/src/main.rs:7-14 | a name is listed iff some enumerated port with that name is a USB port; never more names than ports |
| `Backend.ListSerialPorts` | src-tauri/src/main.rs:6-15 | an enumeration error yields the empty list; otherwise at most one name per port |
| `Backend.UsbPortNamesAppend` | src-tauri/src/main.rs:9-14 | filtering distributes over concatenation, so enumeration order is preserved |
| `Backend.UsbPortNamesSingle` | src-tauri/src/main.rs:10-13 | one port contributes its name exactly when it is a USB port (with the lemma above this fixes the whole filter) |
| `Backend.AllUsbPortsListed` | src-tauri/src/main.rs:6-15 | an enumeration of only USB ports is listed whole, in order |
| `Backend.FindPort` | src-tauri/src/main.rs:44-46 | returns the index of the first port with the requested name, and none iff no port has it |
| `Backend.Message` | src-tauri/src/main.rs:23-98 | every error message is non-empty, and the library's error text ends the message for the resolve, open, read, interface, connect and write failures |
| `Backend.WriteFailedMessage` | src-tauri/src/main.rs:88-91 | a failed application write names address 0x10000 in upper-case hex and the data length in decimal |
| `Numerals.NumeralRoundTrip` | src-tauri/src/main.rs:88-91 | reading back a rendered decimal or hex numeral gives the number |
| `Numerals.NumeralDigits` | src-tauri/src/main.rs:88-91 | every character of a rendered numeral is one of 0-9 or A-F, stands for a digit below the base and is the character written for that digit; no leading zero |
| `Backend.ReadToEnd` | src-tauri/src/main.rs:25 | a successful read returns a prefix of the bytes the reads delivered; a failed one returns the error of one of the reads |
| `Backend.ReadToEndAtEof` | src-tauri/src/main.rs:25-26 | when reads deliver data up to end of file, the buffer holds exactly all of it, in order |
| `Backend.ReadToEndAtError` | src-tauri/src/main.rs:25-26 | a read error before end of file fails the read with that error |
| `Backend.ReadBinResult` | src-tauri/src/main.rs:22-31 | a binary that is returned is never empty |
| `Backend.ReadBin` | src-tauri/src/main.rs:22-31 | the buffer-filling loop returns the open error, the first read error, the "is empty" error or the full contents, as `ReadBinResult` |
| `Backend.ReadToEndEmpty` | src-tauri/src/main.rs:25 | `read_to_end` succeeds with nothing exactly when the first read reports end of file |
| `Backend.EmptyImageRejected` | src-tauri/src/main.rs:27-29 | the image is rejected as empty, naming the path, exactly when the resource resolves to that path, the file opens and its first read reports end of file |
| `Backend.FindInterface` | src-tauri/src/main.rs:58-68 | the search yields nothing only when started past the last attempt; it makes between one and the remaining attempts; an error is only ever the third attempt's |
| `Backend.CreateInterface` | src-tauri/src/main.rs:58-69 | one to three attempts; an error is always an attempt's error after all three, never the fallback text |
| `Backend.FindInterfaceFrom` | src-tauri/src/main.rs:58-68 | from any attempt the search yields a value, stops at the first success, and otherwise ends on the third attempt's error |
| `Backend.CreateInterfaceAttempts` | src-tauri/src/main.rs:58-69 | one to three attempts; succeeds iff one of three would; after three failures reports "Attempt 3" with the third error; the fallback is unreachable |
| `Backend.Retry` | src-tauri/src/main.rs:80-98 | at most five writes in all; success means the last write made succeeded; failure comes only after the fifth write and is a failed-write error |
| `Backend.RetryFrom` | src-tauri/src/main.rs:80-97 | from any iteration the loop stops at the first successful write, or fails on the fifth with that write's error |
| `Backend.RetryAttempts` | src-tauri/src/main.rs:74-99 | one to five writes; succeeds iff one of five would; the error names image, address, length and fifth error; "after 3 retries" is never returned |
| `Backend.RetryFlash` | src-tauri/src/main.rs:74-99 | the loop's result is `Retry`'s, and the flasher received exactly that many writes of the data at the address |
| `Backend.Flasher.WriteBinToFlash` | src-tauri/src/main.rs:81 | each write is recorded and reports the outcome given for its position |
| `Backend.FlashFirmware` | src-tauri/src/main.rs:18-109 | the command returns `Flash`'s result, and every write it issues carries the image read from the resource, at 0x10000 |
| `Backend.Image` | src-tauri/src/main.rs:33-38 | an image that is returned is non-empty and a prefix of the bytes read from the resolved resource; any failure is a resolve, open, read or empty-file error |
| `Backend.TargetPort` | src-tauri/src/main.rs:40-55 | a port that passes is one `list_serial_ports` would show, and it is an enumerated USB port with that name; any failure is a listing, not-found or not-USB error |
| `Backend.Flash` | src-tauri/src/main.rs:33-105 | at most 3 interface attempts and 5 writes; interface attempts only after the image and port checks pass; writes only after a connection; success is the fixed message after a successful last write |
| `Backend.ResolveFailureReported` | src-tauri/src/main.rs:33-36 | the resource asked for is `files/<file>`; if it cannot be resolved that error is returned and nothing else is tried |
| `Backend.BadImageShortCircuits` | src-tauri/src/main.rs:38-42 | a missing, unreadable or empty binary is reported before ports are enumerated: the result does not depend on the enumeration and no interface or write is attempted |
| `Backend.UnknownPortReported` | src-tauri/src/main.rs:44-50 | an unmatched port name is reported with the names of all enumerated ports, USB or not |
| `Backend.FirstMatchDecides` | src-tauri/src/main.rs:44-55 | the first port with the name decides; if it is not USB the request is rejected before any interface attempt |
| `Backend.ListedPortPassesLookup` | src-tauri/src/main.rs:6-55 | a port the listing shows (first of its name) passes the lookup and USB check |
| `Backend.FlashSucceedsIff` | src-tauri/src/main.rs:33-105 | the command succeeds iff every stage does, with the fixed success message; the number of writes is the position of the first successful one; at most 3 interface attempts and 5 writes |
| `Page.FirmwareFile` | src/app/page.tsx:55-66 | BLE, Serial and WiFi map one-to-one to their bundled images; any other kind gives "" |
| `Page.FirmwareFileInjective` | src/app/page.tsx:55-66 | the three kinds send three different images |
| `Page.StatusPresentation` | src/app/page.tsx:108-118 | colour and icon split the status three ways, "success", "error" and the rest, and agree with each other |
| `Page.StatusColor` | src/app/page.tsx:108-112 | the green classes exactly for "success", the red ones exactly for "error" |
| `Page.IconFor` | src/app/page.tsx:114-118 | the check icon exactly for "success", the alert icon exactly for "error", none otherwise |
| `Page.BleResourceName` | src/app/page.tsx:57-58 | the BLE image is asked for as `files//NPG-LITE-BLE.ino.bin`, with a doubled slash |
| `Page.SerialResourceName` | src/app/page.tsx:60-61 | the Serial image is asked for as `files//NPG-LITE.ino.bin`, with a doubled slash |
| `Page.WifiResourceName` | src/app/page.tsx:63-64 | the WiFi image is asked for as `files//NPG-LITE-WiFi.ino.bin`, with a doubled slash |
| `Page.PortsRefreshed` | src/app/page.tsx:28-37 | the list is replaced wholesale by the backend result, kept on a rejection; the spinner flag ends down; nothing else changes |
| `Page.FirmwareTypeChanged` | src/app/page.tsx:39-46 | the kind is always set; a non-empty kind also opens the dialog and clears status and output; otherwise nothing else changes |
| `Page.PortSelected` | src/app/page.tsx:177 | only the selected port changes |
| `Page.FlashStarted` | src/app/page.tsx:48-76 | a call is made iff a port is selected; without one the error text and status are set and nothing else changes; with one the page shows the waiting text, clears the status, sets the running flag and calls with the port and the kind's image |
| `Page.FlashSettled` | src/app/page.tsx:72-85 | success shows "Success: " and the result with status success; failure shows "Error: " and the error with status error; the running flag is down either way; nothing else changes |
| `Page.PopoverClosed` | src/app/page.tsx:88-93 | the dialog is hidden and kind, output and status cleared; nothing else changes |
| `Page.ClosePopoverIdempotent` | src/app/page.tsx:88-93 | closing twice equals closing once; port and list are kept |
| `Page.HandlerIgnoresFlashing` | src/app/page.tsx:48-76 | whether and how the handler calls the backend does not depend on the running flag |
| `Page.Home.constructor` | src/app/page.tsx:7-14 | the initial state: no ports, nothing selected, empty texts, dialog hidden, nothing running |
| `Page.Home.RefreshPorts` | src/app/page.tsx:28-37 | the fields become `PortsRefreshed` of the old ones |
| `Page.Home.HandleFirmwareTypeChange` | src/app/page.tsx:39-46 | the fields become `FirmwareTypeChanged` of the old ones |
| `Page.Home.SelectPort` | src/app/page.tsx:177 | the fields become `PortSelected` of the old ones |
| `Page.Home.BeginFlash` | src/app/page.tsx:48-76 | the fields and the call made are `FlashStarted` of the old fields |
| `Page.Home.SettleFlash` | src/app/page.tsx:77-85 | the fields become `FlashSettled` of the old ones and the outcome |
| `Page.Home.HandleFlash` | src/app/page.tsx:48-86 | run without interleaving, the handler is `FlashStarted` followed, when a call was made, by `FlashSettled` |
| `Page.Home.ClosePopover` | src/app/page.tsx:88-93 | the fields become `PopoverClosed` of the old ones |
| `Page.Enabled` | src/app/page.tsx:162-215 | with the dialog hidden only a firmware card, the poll and the settling call get through; while flashing only those and the header close button do |
| `Page.Step` | src/app/page.tsx:162-215 | an event that does not get through changes nothing; only the Flash click starts a call, for the selected port, with the running flag up; only the call settling ends it, with the flag down |
| `Page.Run` | src/app/page.tsx:162-215 | a sequence of events with no Flash click and no settling call leaves the outstanding call as it was |
| `Page.Coherent` | src/app/page.tsx:7-14 | the invariant holds on the initial page, and while a call is outstanding it keeps Flash, Cancel and the port select disabled |
| `Page.StepCoherent` | src/app/page.tsx:162-215 | every event keeps the invariant; while a flash is outstanding the Flash button is disabled, no second call is made and the selected port does not change |
| `Page.RunCoherent` | src/app/page.tsx:162-215 | the invariant holds after any sequence of events |
| `Page.SingleFlight` | src/app/page.tsx:180-215 | from the initial page, at most one flash call is outstanding; the Flash button stays disabled while it is; the call is for the selected port and a bundled image |
| `Page.CloseDuringFlash` | src/app/page.tsx:162-167 | the header close button works during a flash and hides the dialog; the call stays outstanding and its outcome lands in the hidden dialog |
| `Page.Invoke` | src/app/page.tsx:72-82 | the command resolves exactly when `flash_firmware` succeeds, always with the success text; a rejection always carries a non-empty message |
| `Page.FlashOutcomeShown` | src/app/page.tsx:68-85 | end to end, the dialog shows "success" iff the backend flashed the image, with the backend's success text or its error message, and the running flag down |

## Left out

- The 3-second polling timer and its clean-up (src/app/page.tsx:17-26) are left out: timing and component lifecycle are not modelled. A poll is an event (`Poll`) that can happen at any time.
- `refreshPorts` and its list arriving are modelled as one step. The model does not capture handlers that run between the un-awaited call and its `then`.
- The library internals are not modelled: serial-port enumeration, Tauri resource resolution, file I/O, `Interface::new`, `Flasher::connect` and `write_bin_to_flash`. Their outcomes are inputs in `Host`.
- Retrying of interrupted reads inside `read_to_end` is not modelled. A `ReadError` step is an error that `read_to_end` reports.
- The `sleep` pauses, `spawn_blocking` and the thread-join error (src-tauri/src/main.rs:19, 65, 94, 103, 107-108) are left out as timing and concurrency concerns.
- The `println!` and `console.error` logging is left out.
- JSX rendering, icons, class strings other than the status colours, and layout are left out.
- Firmware cards are treated as clickable at all times. The overlay that covers them while the dialog is open is CSS. The single-flight result holds even with this extra freedom.
- `Backend.Message`: debug formatting of paths and names adds the quotes but does not model Rust's escape sequences inside them.
- `Backend.UsbPortInfo` keeps only vendor and product ids. The serial number, manufacturer and product strings are not used by the decisions modelled here.
- `Backend.Flasher.WriteBinToFlash` records the address and the data, not the progress callback (passed as `None`).
- `next.config.ts` is static build configuration with no behaviour, so it is not modelled.
