/** Types shared by the whole model: Rust's integer widths, an opaque float,
    the outcome of a fallible call (including a panic), and the few foreign
    functions (float parsing, UTF-8 decoding, XML deserialisation, URL
    encoding) that the client calls but does not define. */
module Common {

  datatype Option<+T> = None | Some(value: T)

  /** `u16` (an `InputNumber`, a port) and `u64` (a payload length). */
  type u16 = x: int | 0 <= x <= 0xFFFF
  type u64 = x: int | 0 <= x <= 0xFFFF_FFFF_FFFF_FFFF
  newtype byte = x: int | 0 <= x < 256

  type InputNumber = u16

  function Min(a: nat, b: nat): nat { if a <= b then a else b }

  /** An `f32` / `f64` value, kept opaque: only its bit pattern is visible.
      The all-zero pattern is `0.0`. */
  datatype F32 = F32(bits: bv32)
  datatype F64 = F64(bits: bv64)

  const ZeroF32: F32 := F32(0)

  /** `std::io::ErrorKind`, as far as the client distinguishes it. */
  datatype IoErrorKind =
    | TimedOut
    | WouldBlock
    | ConnectionAborted
    | ConnectionReset
    | UnexpectedEof
    | InvalidData
    | OtherIo

  /** The errors the client returns (each an `anyhow::Error`). */
  datatype Error =
    | Io(kind: IoErrorKind)           // an `std::io::Error` propagated with `?`
    | Aborted                         // `anyhow!(ErrorKind::ConnectionAborted)`: a message, not an io::Error
    | NoMatchingCommand
    | FailedToReadXml
    | EmptyValueArray
    | NotEnoughValues(shape: Shape)
    | UnknownVariant(shape: Shape)
    | UnknownActivator
    | HttpStatus(code: nat)
    | RequestFailed
    | ChannelClosed                   // `send` on a channel whose receiver is gone
    | InvalidUtf8                     // `String::from_utf8` on bytes that are not UTF-8
    | InvalidXml                      // the XML deserialiser refuses the document

  /** The four argument shapes of an activator keyword. */
  datatype Shape = InputBoolShape | InputFloatShape | SingleFloatShape | SingleBoolShape

  /** Where a Rust panic happens. */
  datatype PanicSite =
    | IndexOutOfBounds(index: nat)    // `value[i]` past the end of a slice
    | UnwrapNone                      // `Option::unwrap` on `None`
    | UnwrapErr                       // `Result::unwrap` on `Err`
    | AddOverflow                     // `u16 += 1` past 65535 (debug build)

  /** The outcome of a Rust call returning `Result<T, anyhow::Error>`;
      `Panic` is a call that aborts the thread instead of returning. */
  datatype Outcome<+T> = Ok(value: T) | Err(error: Error) | Panic(site: PanicSite)

  /** The part of the `Vmix` state document (models.rs) that the client
      reads: the active and preview input numbers and each input's number,
      all as the text the document holds. */
  datatype InputEntry = InputEntry(number: string)
  datatype VmixState = VmixState(active: string, preview: string, inputs: seq<InputEntry>)

  /** Library functions the client calls but does not define. */
  datatype Foreign = Foreign(
    parseF32: string -> Option<F32>,           // str::parse::<f32>
    parseF64: string -> Option<F64>,           // str::parse::<f64>
    utf8: seq<byte> -> Option<string>,         // UTF-8 decoding in read_to_string
    parseXml: string -> Option<VmixState>)     // serde_xml_rs::from_str::<Vmix>
}
