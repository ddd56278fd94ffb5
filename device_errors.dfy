/**
 * `handle_deviceerror` (UNFLoader/helper.cpp): every error code the device
 * layer reports is turned into one of three outcomes. `Terminate` stands for
 * a call to `terminate`, which never returns; `Report` is a log line after
 * which control goes back to the caller; `Ignore` produces no output.
 */
module DeviceErrors {
  import ConfigCodec
  import opened Numerals

  /** The device layer's codes: the cases of the switch, OK, NOTCART, and any other value. */
  datatype DeviceError =
    | Ok
    | NotCart
    | UsbBusy
    | NoDevices
    | CartFindFail
    | CantOpen
    | ResetFail
    | ResetPortFail
    | TimeoutSetFail
    | PurgeFail
    | ReadFail
    | WriteFail
    | WriteZero
    | CloseFail
    | BitmodeFailReset
    | BitmodeFailSyncFifo
    | SetDtrFail
    | ClearDtrFail
    | TxReplyMismatch
    | ReadCompSigFail
    | NoCompSig
    | ReadPackSizeFail
    | BadPackSize
    | MallocFail
    | UploadCancelled
    | Timeout
    | D64Cic8303Usb
    | D64BadCmp
    | D64CantDebug
    | D64BadDma
    | Sc64CtrlResetFail
    | Sc64CtrlReleaseFail
    | Sc64FirmwareCheckFail
    | Sc64FirmwareUnknown
    | Other(code: int)

  /** The build the message text depends on (`#ifndef LINUX`). */
  datatype Platform = Windows | Linux

  /** `log_colored` appends a line; `log_replace` overwrites the current one. */
  datatype Sink = Append | ReplaceLine

  /** The semantic colours the switch uses (`CRDEF_ERROR`, `CRDEF_PROGRAM`). */
  datatype Channel = ErrorChannel | ProgramChannel

  datatype Handling =
    | Terminate(reason: string)
    | Report(sink: Sink, channel: Channel, line: string)
    | Ignore

  /** FTDI D2XX bit-mode constants. */
  const FtBitmodeReset := 0x00
  const FtBitmodeSyncFifo := 0x40

  // The reasons handed to `terminate`, one per case of the switch.
  const UsbBusyReason: string := "USB Device not ready."
  const NoDevicesReason: string := "No FTDI USB devices found."
  const NoCartWindowsReason: string := "No flashcart detected"
  const NoCartLinuxReason: string := "No flashcart detected. Are you running sudo?"
  const WrongCartReason: string := "Requested flashcart not detected."
  const CantOpenReason: string := "Could not open USB device."
  const ResetFailReason: string := "Unable to reset USB device."
  const ResetPortFailReason: string := "Unable to reset USB port."
  const TimeoutSetFailReason: string := "Unable to set flashcart timeouts."
  const PurgeFailReason: string := "Unable to purge USB contents."
  const ReadFailReason: string := "Unable to read from flashcart."
  const WriteFailReason: string := "Unable to write to flashcart."
  const WriteZeroReason: string := "Zero bytes were written to flashcart."
  const CloseFailReason: string := "Unable to close flashcart."
  const BitmodeResetReason: string := "Unable to set bitmode " + IntToDecimal(FtBitmodeReset) + "."
  const BitmodeSyncFifoReason: string := "Unable to set bitmode " + IntToDecimal(FtBitmodeSyncFifo) + "."
  const SetDtrFailReason: string := "Unable to set DTR line."
  const ClearDtrFailReason: string := "Unable to clear DTR line."
  const TxReplyMismatchReason: string := "Actual bytes written amount is different than desired."
  const ReadCompSigFailReason: string := "Unable to read completion signal."
  const NoCompSigReason: string := "Did not receive completion signal."
  const ReadPackSizeFailReason: string := "Unable to read packet size."
  const BadPackSizeReason: string := "Wrong read packet size."
  const MallocFailReason: string := "Malloc failure."
  const TimeoutReason: string := "Flashcart timed out."
  const D64Cic8303UsbReason: string := "The 8303 CIC is not supported through USB."
  const D64BadCmpReason: string := "Received bad CMP signal."
  const D64CantDebugReason: string := "Please upgrade to firmware 2.05 or higher to access USB debugging."
  const D64BadDmaReason: string := "Unexpected DMA header."
  const Sc64CtrlResetFailReason: string := "Couldn't perform SC64 controller reset."
  const Sc64CtrlReleaseFailReason: string := "Couldn't release SC64 controller reset."
  const Sc64FirmwareCheckFailReason: string := "Couldn't get SC64 firmware version."
  const Sc64FirmwareUnknownReason: string := "Unknown SC64 firmware version."

  // The text around the code of an unlisted error.
  const UnhandledPrefix: string := "Unhandled device error '"
  const UnhandledSuffix: string := "'.\n"

  /** The codes that the switch hands to `terminate`. */
  predicate IsFatal(err: DeviceError) {
    !(err == Ok || err == NotCart || err == UploadCancelled || err.Other?)
  }

  /**
   * The switch. `cart` is what `device_getcart()` returns at the time of
   * the call; only `CartFindFail` looks at it and at the platform.
   */
  function HandleDeviceError(err: DeviceError, cart: ConfigCodec.CartType, platform: Platform): (h: Handling)
    ensures h.Ignore? <==> err == Ok || err == NotCart
    ensures h.Report? <==> err == UploadCancelled || err.Other?
    ensures h.Terminate? <==> IsFatal(err)
    ensures err.Other? ==> h == Report(Append, ErrorChannel, UnhandledLine(err.code))
  {
    match err
    case UploadCancelled => Report(ReplaceLine, ProgramChannel, "Upload cancelled by the user.\n")
    case Other(code) => Report(Append, ErrorChannel, UnhandledLine(code))
    case Ok => Ignore
    case NotCart => Ignore
    case CartFindFail => Terminate(CartFindFailReason(cart, platform))
    case _ => Terminate(FatalReason(err))
  }

  /** `CARTFINDFAIL`: no cart found at all (with a hint on Linux), or not the one requested. */
  function CartFindFailReason(cart: ConfigCodec.CartType, platform: Platform): (r: string)
    ensures |r| > 0
  {
    if cart == ConfigCodec.CartNone then
      if platform == Windows then NoCartWindowsReason else NoCartLinuxReason
    else WrongCartReason
  }

  /** The fixed reason every other fatal case passes to `terminate`. */
  function FatalReason(err: DeviceError): (r: string)
    requires IsFatal(err) && err != CartFindFail
    ensures |r| > 0
  {
    match err
    case UsbBusy => UsbBusyReason
    case NoDevices => NoDevicesReason
    case CantOpen => CantOpenReason
    case ResetFail => ResetFailReason
    case ResetPortFail => ResetPortFailReason
    case TimeoutSetFail => TimeoutSetFailReason
    case PurgeFail => PurgeFailReason
    case ReadFail => ReadFailReason
    case WriteFail => WriteFailReason
    case WriteZero => WriteZeroReason
    case CloseFail => CloseFailReason
    case BitmodeFailReset => BitmodeResetReason
    case BitmodeFailSyncFifo => BitmodeSyncFifoReason
    case SetDtrFail => SetDtrFailReason
    case ClearDtrFail => ClearDtrFailReason
    case TxReplyMismatch => TxReplyMismatchReason
    case ReadCompSigFail => ReadCompSigFailReason
    case NoCompSig => NoCompSigReason
    case ReadPackSizeFail => ReadPackSizeFailReason
    case BadPackSize => BadPackSizeReason
    case MallocFail => MallocFailReason
    case Timeout => TimeoutReason
    case D64Cic8303Usb => D64Cic8303UsbReason
    case D64BadCmp => D64BadCmpReason
    case D64CantDebug => D64CantDebugReason
    case D64BadDma => D64BadDmaReason
    case Sc64CtrlResetFail => Sc64CtrlResetFailReason
    case Sc64CtrlReleaseFail => Sc64CtrlReleaseFailReason
    case Sc64FirmwareCheckFail => Sc64FirmwareCheckFailReason
    case Sc64FirmwareUnknown => Sc64FirmwareUnknownReason
  }

  /** Every fatal outcome gives `terminate` a non-empty reason. */
  lemma FatalReasonNonEmpty(err: DeviceError, cart: ConfigCodec.CartType, platform: Platform)
    ensures HandleDeviceError(err, cart, platform).Terminate? ==> |HandleDeviceError(err, cart, platform).reason| > 0
  {
  }

  /** A cancelled upload is reported on the program channel, replacing the current line. */
  lemma UploadCancelledReports(cart: ConfigCodec.CartType, platform: Platform)
    ensures HandleDeviceError(UploadCancelled, cart, platform)
         == Report(ReplaceLine, ProgramChannel, "Upload cancelled by the user.\n")
  {
  }

  /** `terminate` at the `MALLOCFAIL` case never returns, so the `return` after it is dead. */
  lemma MallocFailIsFatal(cart: ConfigCodec.CartType, platform: Platform)
    ensures HandleDeviceError(MallocFail, cart, platform) == Terminate("Malloc failure.")
  {
  }

  /** The three `CARTFINDFAIL` messages: no cart at all (per platform), or not the requested one. */
  lemma CartFindFailReasons(cart: ConfigCodec.CartType, platform: Platform)
    ensures cart == ConfigCodec.CartNone && platform == Windows ==>
      HandleDeviceError(CartFindFail, cart, platform) == Terminate("No flashcart detected")
    ensures cart == ConfigCodec.CartNone && platform == Linux ==>
      HandleDeviceError(CartFindFail, cart, platform) == Terminate("No flashcart detected. Are you running sudo?")
    ensures cart != ConfigCodec.CartNone ==>
      HandleDeviceError(CartFindFail, cart, platform) == Terminate("Requested flashcart not detected.")
  {
  }

  /** The two bit-mode failures print the FTDI mode value in decimal. */
  lemma BitmodeResetMessage(cart: ConfigCodec.CartType, platform: Platform)
    ensures HandleDeviceError(BitmodeFailReset, cart, platform) == Terminate("Unable to set bitmode 0.")
  {
    assert IntToDecimal(FtBitmodeReset) == [DigitChar(0)] == "0";
  }

  lemma BitmodeSyncFifoMessage(cart: ConfigCodec.CartType, platform: Platform)
    ensures HandleDeviceError(BitmodeFailSyncFifo, cart, platform) == Terminate("Unable to set bitmode 64.")
  {
    assert NatToDecimal(6) == [DigitChar(6)] == "6";
    assert IntToDecimal(FtBitmodeSyncFifo) == NatToDecimal(6) + [DigitChar(4)] == "64";
  }

  /** Apart from `CartFindFail`, the outcome depends on the code alone. */
  lemma ContextMattersOnlyForCartFindFail(err: DeviceError, c1: ConfigCodec.CartType, c2: ConfigCodec.CartType, p1: Platform, p2: Platform)
    requires err != CartFindFail
    ensures HandleDeviceError(err, c1, p1) == HandleDeviceError(err, c2, p2)
  {
  }

  /**
   * The line logged for a code the switch does not list: a fixed prefix,
   * the `%d` text of the code (shortest form, no leading zeros), and a fixed
   * suffix, so the code can be read back from it.
   */
  function UnhandledLine(code: int): (line: string)
    ensures |line| >= 28
    ensures line[..24] == "Unhandled device error '"
    ensures line[|line| - 3..] == "'.\n"
    ensures code >= 0 ==> AllDigits(line[24..|line| - 3]) && DecimalValue(line[24..|line| - 3]) == code
    ensures code < 0 ==> line[24] == '-' && AllDigits(line[25..|line| - 3]) && DecimalValue(line[25..|line| - 3]) == -code
    ensures code >= 0 && |line| > 28 ==> line[24] != '0'
    ensures code < 0 ==> |line| >= 29 && line[25] != '0'
  {
    var pre, d, post := UnhandledPrefix, IntToDecimal(code), UnhandledSuffix;
    var line := pre + d + post;
    assert line[..24] == pre;
    assert line[24..|line| - 3] == d;
    assert line[25..|line| - 3] == d[1..];
    assert line[|line| - 3..] == post;
    line
  }
}
