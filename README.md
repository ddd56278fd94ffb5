# UNFLoader configuration and diagnostics helpers, in Dafny

This project models the helper layer of the UNFLoader flashcart command-line
tool (`UNFLoader/helper.cpp`). That layer has four pieces:

- **Enum codecs.** These turn the user's flashcart model, CIC variant and
  save type into enumeration values, and back into names. A parser accepts a
  one-digit shorthand first, then an exact, case-sensitive canonical name.
  Any other input calls `terminate`. Module `ConfigCodec`.
- **`gen_filename`.** This builds `[outdir]name-YYMMDDhhmmssCC.ext`. The
  counter `CC` tells apart names made in the same second. It is kept in two
  static variables, which become the fields of the class
  `ArtifactNamer.FilenameGenerator`.
- **`handle_deviceerror`.** This maps every device error code to one of three
  outcomes: termination with a reason, a logged line after which the caller
  continues, or silence. Module `DeviceErrors`.
- **The cell layout of `progressbar_draw`.** Two loops share one counter to
  draw filled cells, then empty cells, over a 16-cell bar. Module
  `ProgressBar`.

`terminate` never returns. The model does not run it. It records the call as
a value instead: `Parsed.Fatal(reason)` for the parsers, and
`Handling.Terminate(reason)` for the dispatcher. Here `reason` is the text
that `vsprintf` builds from the format and its arguments. Module `Numerals`
models the `%d` and `%02d` conversions. Each conversion comes with a decoding
that reads the digits back.

Some values come from outside the modelled code. They are parameters:

- the `localtime` reading, as a `LocalTime` in calendar terms (`year` is
  `tm_year + 1900`, `month` is `tm_mon + 1`);
- `debug_getbinaryout()`, as an `Option<string>`;
- whether the allocations succeed, as `allocOk`;
- `device_getcart()`, as a `CartType`;
- the `#ifndef LINUX` build, as a `Platform`;
- the already-truncated `blocks_done` of the progress bar.

A Dafny `string` stands for the characters of a C string before its
terminator.

The enumeration headers are not part of this model. The ordinals come from
the arithmetic in `helper.cpp`:

- `CART_NONE` is 0, and the four carts are 1 to 4.
- `CIC_6101` to `CIC_5101` are 0 to 7.
- `SAVE_NONE` is 0, and the six save types are 1 to 6.

The FTDI header is not part of this model either. The two bit-mode constants
have the FTDI D2XX values: `FT_BITMODE_RESET` is 0x00 and
`FT_BITMODE_SYNC_FIFO` is 0x40.

Some consequences of the code that are easy to miss:

- **`DEVICEERR_MALLOCFAIL` is fatal.** `terminate` (UNFLoader/helper.cpp:457)
  never returns, so the `return;` at :458 is dead. Only
  `DEVICEERR_UPLOADCANCELLED` logs and returns (`MallocFailIsFatal`).
- **The counter can start at 1.** `lasttime` starts at 0, so a first call
  made at 00:00:00 counts as "same second" and gets counter 1
  (`SameSecondCaptures`).
- **The prefix depends on NULL, not on emptiness.** The code checks only
  that `debug_getbinaryout()` is not NULL; an empty prefix gives the same
  name as no prefix.
- **Names repeat after 100 captures in one second.** The counter is printed
  modulo 100. So names made in the same second are distinct only while the
  counters differ modulo 100 (`NamesDiffer`).

`DeviceError.Other(code)` stands only for values outside the named cases of
the switch: it is the `default:` branch (UNFLoader/helper.cpp:489), never the
integer value of a listed code such as `DEVICEERR_OK`.

## Model

| member | source | states |
|---|---|---|
| ConfigCodec.Find | UNFLoader/helper.cpp:171-173 | the search yields the first index whose name equals the input, and none exactly when the input is not in the table |
| ConfigCodec.ParseOrdinal | UNFLoader/helper.cpp:164-177 | the shared parser shape: a shorthand digit gives its own value; otherwise a table name gives its index plus the offset; it is fatal exactly when neither applies, with the message "Unknown <kind> '<input>'" |
| ConfigCodec.NameParses | UNFLoader/helper.cpp:170-173 | for a table with distinct names, none one character long, the name at index i parses to ordinal i + offset |
| ConfigCodec.ShorthandAgrees | UNFLoader/helper.cpp:166-173 | the digit d parses to ordinal d, the same result as parsing the canonical name at index d - lo |
| ConfigCodec.CartCodecWellFormed | UNFLoader/helper.cpp:27-28 | the flashcart table is in lockstep with the enum: digit range 1..4 matches the four names, which are distinct and not single characters |
| ConfigCodec.CartStrToType | UNFLoader/helper.cpp:164-178 | never yields CART_NONE; fatal exactly when the input is neither a digit '1'..'4' nor a table name; the fatal reason is "Unknown flashcart type '<input>'" |
| ConfigCodec.CartTypeToStr | UNFLoader/helper.cpp:191-194 | for a non-NONE cart, the result is one of the table's names |
| ConfigCodec.CartNameRoundTrip | UNFLoader/helper.cpp:164-194 | every canonical flashcart name parses, and formatting the result gives the name back |
| ConfigCodec.CartTypeRoundTrip | UNFLoader/helper.cpp:164-194 | every non-NONE flashcart type, formatted and parsed again, is itself |
| ConfigCodec.CartShorthand | UNFLoader/helper.cpp:166-173 | digit d in '1'..'4' gives the cart of ordinal d, the same as parsing the name at index d-1 |
| ConfigCodec.CartRejectsDigits | UNFLoader/helper.cpp:166-177 | the inputs "0", "5", "" and "12" are fatal |
| ConfigCodec.CartRejectsWrongCase | UNFLoader/helper.cpp:170-177 | names are matched case-sensitively: "sc64" is fatal |
| ConfigCodec.CicCodecWellFormed | UNFLoader/helper.cpp:29-30 | the CIC table is in lockstep with the enum: digit range 0..7 matches the eight names, which are distinct and not single characters |
| ConfigCodec.CicStrToType | UNFLoader/helper.cpp:206-222 | fatal exactly when the input is neither a digit '0'..'7' nor a table name; the fatal reason is "Unknown CIC '<input>'" |
| ConfigCodec.CicTypeToStr | UNFLoader/helper.cpp:235-238 | the result is one of the CIC table's names |
| ConfigCodec.CicNameRoundTrip | UNFLoader/helper.cpp:206-238 | every canonical CIC name parses, and formatting the result gives the name back |
| ConfigCodec.CicTypeRoundTrip | UNFLoader/helper.cpp:206-238 | every CIC variant, formatted and parsed again, is itself |
| ConfigCodec.CicShorthand | UNFLoader/helper.cpp:208-217 | digit d in '0'..'7' gives the CIC of ordinal d, the same as parsing the name at index d |
| ConfigCodec.CicRejectsDigits | UNFLoader/helper.cpp:208-221 | the inputs "8", "" and "61" are fatal |
| ConfigCodec.CicRejectsWrongCase | UNFLoader/helper.cpp:212-221 | names are matched case-sensitively: "x103" is fatal |
| ConfigCodec.SaveCodecWellFormed | UNFLoader/helper.cpp:31-32 | the save table is in lockstep with the enum: digit range 1..6 matches the six names, which are distinct and not single characters |
| ConfigCodec.SaveStrToType | UNFLoader/helper.cpp:250-264 | never yields SAVE_NONE; fatal exactly when the input is neither a digit '1'..'6' nor a table name; the fatal reason is "Unknown save type '<input>'" |
| ConfigCodec.SaveTypeToStr | UNFLoader/helper.cpp:277-280 | for a non-NONE save type, the result is one of the table's names |
| ConfigCodec.SaveNameRoundTrip | UNFLoader/helper.cpp:250-280 | every canonical save-type name parses, and formatting the result gives the name back |
| ConfigCodec.SaveTypeRoundTrip | UNFLoader/helper.cpp:250-280 | every non-NONE save type, formatted and parsed again, is itself |
| ConfigCodec.SaveShorthand | UNFLoader/helper.cpp:252-259 | digit d in '1'..'6' gives the save type of ordinal d, the same as parsing the name at index d-1 |
| ConfigCodec.SaveRejectsDigits | UNFLoader/helper.cpp:252-263 | the inputs "0", "7", "" and "12" are fatal |
| ConfigCodec.SaveRejectsWrongCase | UNFLoader/helper.cpp:256-263 | names are matched case-sensitively: "sram 256kbit" is fatal |
| Numerals.IntToDecimal | UNFLoader/helper.cpp:491 | `%d` gives the shortest decimal text: digits, with a leading '-' for negative values and no leading zero, that decode back to the value |
| Numerals.NatToDecimal | UNFLoader/helper.cpp:430 | `%d` of a non-negative value is a non-empty digit string with no leading zero |
| Numerals.NatToDecimalValue | UNFLoader/helper.cpp:430 | the decimal form of a natural number decodes back to the number |
| Numerals.TwoDigits | UNFLoader/helper.cpp:349-350 | `%02d` of a value below 100 is exactly two digits that decode back to the value |
| ArtifactNamer.SecondOfDay | UNFLoader/helper.cpp:334 | the second of the day lies between 0 and 86400 |
| ArtifactNamer.DateDigits | UNFLoader/helper.cpp:349-350 | the first six `%02d` conversions give exactly twelve characters |
| ArtifactNamer.Stamp | UNFLoader/helper.cpp:349-350 | the whole seven-field `%02d` text is exactly fourteen characters (its digits are fixed by `StampFields`) |
| ArtifactNamer.StampFields | UNFLoader/helper.cpp:349-350 | the disambiguator is 14 digits whose pairs decode to year mod 100, month, day, hour, minute, second and counter mod 100 |
| ArtifactNamer.ArtifactName | UNFLoader/helper.cpp:353-366 | the name is as long as the prefix, the file name, the 16 characters of '-', stamp and '.', and the extension together |
| ArtifactNamer.ArtifactNameLayout | UNFLoader/helper.cpp:353-366 | a name splits back into the verbatim prefix (if any), the file name, '-', the 14-digit stamp, '.' and the extension |
| ArtifactNamer.NameSplitsAtCounter | UNFLoader/helper.cpp:349-365 | a name is a head that does not depend on the counter (prefix, file name, '-', twelve date digits), then the counter mod 100 as two digits, then '.' and the extension |
| ArtifactNamer.NamesDiffer | UNFLoader/helper.cpp:336-350 | at the same time, counters that differ mod 100 give different names |
| ArtifactNamer.NamesDifferOnlyInCounter | UNFLoader/helper.cpp:349-366 | at the same time, two names agree everywhere except the two counter digits, which hold each counter mod 100 |
| ArtifactNamer.ConsecutiveNamesDiffer | UNFLoader/helper.cpp:349-366 | at the same time, the names for counters c and c + 1 (c below 99) agree everywhere except the counter digits, which decode to c and c + 1 |
| ArtifactNamer.FilenameGenerator.constructor | UNFLoader/helper.cpp:323-324 | increment and lasttime both start at 0 |
| ArtifactNamer.FilenameGenerator.GenFilename | UNFLoader/helper.cpp:321-369 | lasttime becomes the current second of the day; increment resets to 0 when that second differs from the old lasttime, and otherwise goes up by exactly 1; the result is the name built from the updated counter, or none when allocation fails |
| ArtifactNamer.SameSecondCaptures | UNFLoader/helper.cpp:323-350 | two calls in one second on a fresh generator give the names for counters c and c + 1, where c is 0, or 1 at 00:00:00; the two names differ only in the counter digits |
| ArtifactNamer.NewSecondEndsIn00 | UNFLoader/helper.cpp:337-350 | a reset counter shows as "00" in the name |
| DeviceErrors.HandleDeviceError | UNFLoader/helper.cpp:380-493 | the outcome is silent exactly for OK and NOTCART; it is a logged return exactly for UPLOADCANCELLED and unlisted codes; every other code is fatal; an unlisted code is appended on the error channel as `UnhandledLine(code)` |
| DeviceErrors.CartFindFailReason | UNFLoader/helper.cpp:390-401 | the reason for CARTFINDFAIL is never empty (its three texts are fixed by `CartFindFailReasons`) |
| DeviceErrors.FatalReason | UNFLoader/helper.cpp:384-488 | each of the 30 other fatal codes has a fixed, non-empty reason |
| DeviceErrors.FatalReasonNonEmpty | UNFLoader/helper.cpp:382-488 | every fatal outcome carries a non-empty reason |
| DeviceErrors.UploadCancelledReports | UNFLoader/helper.cpp:459-461 | a cancelled upload replaces the current line with "Upload cancelled by the user." on the program channel and returns |
| DeviceErrors.MallocFailIsFatal | UNFLoader/helper.cpp:456-458 | MALLOCFAIL terminates with "Malloc failure." |
| DeviceErrors.CartFindFailReasons | UNFLoader/helper.cpp:390-401 | CARTFINDFAIL's reason depends on whether the cart is NONE and on the platform: "No flashcart detected" on Windows, "No flashcart detected. Are you running sudo?" on Linux, and "Requested flashcart not detected." when a cart was requested |
| DeviceErrors.BitmodeResetMessage | UNFLoader/helper.cpp:429-431 | BITMODEFAIL_RESET terminates with "Unable to set bitmode 0.", the decimal value of FT_BITMODE_RESET |
| DeviceErrors.BitmodeSyncFifoMessage | UNFLoader/helper.cpp:432-434 | BITMODEFAIL_SYNCFIFO terminates with "Unable to set bitmode 64.", the decimal value of FT_BITMODE_SYNC_FIFO |
| DeviceErrors.ContextMattersOnlyForCartFindFail | UNFLoader/helper.cpp:382-493 | for every code except CARTFINDFAIL, the outcome does not depend on the cart or the platform |
| DeviceErrors.UnhandledLine | UNFLoader/helper.cpp:489-492 | the line is "Unhandled device error '", the shortest `%d` text of the code (no leading zero, '-' when negative), then "'." and a newline, so the code can be read back from it |
| ProgressBar.DrawCells | UNFLoader/helper.cpp:103-125 | cell k is filled exactly when k < blocks_done, and there are max(16, blocks_done) cells; so 0..16 gives blocks_done filled then 16 - blocks_done empty, more than 16 gives only filled cells, and a negative value gives 16 empty cells |

## Left out

- `terminate` (UNFLoader/helper.cpp:42-90) is modelled only by its effect, the `Fatal` or `Terminate` value. The model leaves out its log output, closing the debug file and the device, the keypress wait (termios, `system("pause")`, curses) and `exit(-1)`. It also leaves out the 255-byte buffer that `vsprintf` formats the reason into, so a long input is not bounded.
- `time_miliseconds` (UNFLoader/helper.cpp:141-152) is left out. It is a platform clock, and on Windows it returns only the millisecond field.
- `file_lastmodtime` (UNFLoader/helper.cpp:294-308) is left out. It is a filesystem query with a floating-point scale.
- `progressbar_draw` is modelled only for its cell layout. The model leaves out the floating-point truncation `(int)(percent*16)`, the `"%.02f%%"` percentage text, the glyph bytes and the log calls (UNFLoader/helper.cpp:104-128).
- The parsers take a Dafny `string`, which may contain '\0'. A C string ends at its first NUL, so C reads "1\0" as "1" where the model makes it fatal; the parser contracts are meant only for strings without NUL.
- Logging is modelled only by what would be logged. The `log_colored` and `log_replace` calls become records of sink, channel and text; no output happens.
- `CIC_NONE` is not a variant of `CicType`. Its ordinal is not visible in helper.cpp. No modelled operation produces it or accepts it.
- ArtifactNamer.FilenameGenerator.GenFilename: the three NULL returns from `malloc` and `calloc` are merged into one `allocOk` flag. The leak of `extraname` on those paths is not modelled.
- ArtifactNamer.FilenameGenerator.GenFilename: `increment` is an unbounded `nat`. The model does not capture overflow of the C `int`, which would need more than 2^31 calls in one second.
- The clock reading must lie in the ranges `localtime` produces (`LocalTime.Valid`), including a year of 0 or later.
