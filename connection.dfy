/** The connection object of src/vmix.rs, `VmixApi`, as a sequential state
    machine. Its reader and writer threads share two flags, `shutdown` and
    `error`; each thread's loop checks them at the head of every iteration
    and then takes one decision on one event (a decoded response or a read
    error; a command to write, a receive timeout or a closed channel).
    Each decision is a pure step function, each loop a method that applies
    it to a sequence of events, and teardown (`Drop`) sets `shutdown`,
    takes the stored socket exactly once and takes both join handles.

    Threads and channels themselves are not modelled: a loop's events are
    given as a sequence, and the channel to the writer is the sequence of
    commands sent. */
module Connection {
  import opened Common
  import opened RustText
  import Commands
  import Activators

  // ---------------------------------------------------------------------
  // Flags and the outcome of one iteration
  // ---------------------------------------------------------------------

  /** The values of the two `Arc<AtomicBool>` flags. */
  datatype Flags = Flags(shutdown: bool, error: bool)

  predicate Raised(flags: Flags) {
    flags.shutdown || flags.error
  }

  datatype Next = Continue | Stop

  /** One iteration's decision: the new flags, whether the loop goes on,
      and what the iteration passed on (a delivered response, a written
      command). */
  datatype Step<T> = Step(flags: Flags, next: Next, output: Option<T>)

  function OptionSeq<T>(o: Option<T>): seq<T> {
    if o.Some? then [o.value] else []
  }

  /** How a loop ended: the final flags, how many events it consumed, what
      it passed on, and whether it stopped (rather than running out of
      events while still willing to go on). */
  datatype LoopEnd<T> = LoopEnd(flags: Flags, consumed: nat, output: seq<T>, stopped: bool)

  // ---------------------------------------------------------------------
  // The reader loop (src/vmix.rs:95-137)
  // ---------------------------------------------------------------------

  /** Why decoding a response failed: an `std::io::Error` of some kind (the
      `downcast_ref` succeeds), or an error of any other type, such as a
      refused keyword, the "Failed to read XML" message, or the end-of-stream
      message built from a bare `ErrorKind`. */
  datatype ReadFailure = IoFailure(kind: IoErrorKind) | NotIo

  /** One attempt to decode a response from the socket: a response, and
      whether the consumer still holds the receiving end; a failure; or a
      panic inside the decoder, which unwinds the reader thread. */
  datatype ReadEvent<T> = Received(command: T, consumerAlive: bool) | Failed(failure: ReadFailure) | Panicked

  /** The reader as written, and with the two corrections of this model:
      a `WouldBlock` read timeout goes on like `TimedOut`, and the end of
      the stream is reported as the I/O error `ConnectionAborted`. */
  datatype ReadRule = AsWritten | Corrected

  /** The I/O error kinds the reader takes for a read timeout. A socket
      read that runs into its read timeout fails with `TimedOut` on some
      platforms and with `WouldBlock` on others (Unix). */
  predicate IsReadTimeout(rule: ReadRule, kind: IoErrorKind) {
    kind == TimedOut || (rule == Corrected && kind == WouldBlock)
  }

  /** The event the reader sees for one outcome of `Command::try_from`. */
  function ReadEventOf<T>(rule: ReadRule, r: Outcome<T>, consumerAlive: bool): (e: ReadEvent<T>)
    ensures r.Ok? <==> e.Received?
    ensures r.Ok? ==> e == Received(r.value, consumerAlive)
    ensures r.Panic? <==> e.Panicked?
    ensures r.Err? && r.error.Io? ==> e == Failed(IoFailure(r.error.kind))
    ensures r == Err(Aborted) ==>
              e == Failed(if rule == Corrected then IoFailure(ConnectionAborted) else NotIo)
    ensures r.Err? && !r.error.Io? && r.error != Aborted ==> e == Failed(NotIo)
  {
    match r
    case Ok(command) => Received(command, consumerAlive)
    case Panic(_) => Panicked
    case Err(Io(kind)) => Failed(IoFailure(kind))
    case Err(Aborted) => Failed(if rule == Corrected then IoFailure(ConnectionAborted) else NotIo)
    case Err(_) => Failed(NotIo)
  }

  /** The reader's decision for one event. A response is forwarded, and
      the loop ends only if nobody receives it; a timeout or a non-I/O
      error goes on; any other I/O error sets `error` and ends the loop; a
      panic ends the loop and leaves the flags alone. */
  function ReaderStep<T>(rule: ReadRule, flags: Flags, event: ReadEvent<T>): (s: Step<T>)
    ensures s.flags == if IsFatalRead(rule, event) then flags.(error := true) else flags
    ensures s.output.Some? <==> event.Received? && event.consumerAlive
    ensures s.output.Some? ==> s.output.value == event.command
    ensures s.next == Stop <==> StopsReader(rule, event)
  {
    match event
    case Received(command, consumerAlive) =>
      if consumerAlive then Step(flags, Continue, Some(command)) else Step(flags, Stop, None)
    case Failed(IoFailure(kind)) =>
      if IsReadTimeout(rule, kind) then Step(flags, Continue, None)
      else Step(flags.(error := true), Stop, None)
    case Failed(NotIo) => Step(flags, Continue, None)
    case Panicked => Step(flags, Stop, None)
  }

  /** The events that set the error flag: I/O errors other than a timeout. */
  predicate IsFatalRead<T>(rule: ReadRule, event: ReadEvent<T>) {
    event.Failed? && event.failure.IoFailure? && !IsReadTimeout(rule, event.failure.kind)
  }

  /** The events that end the reader loop. */
  predicate StopsReader<T>(rule: ReadRule, event: ReadEvent<T>) {
    IsFatalRead(rule, event) || (event.Received? && !event.consumerAlive) || event.Panicked?
  }

  /** What one event hands to the consumer. */
  function Delivered<T>(event: ReadEvent<T>): seq<T> {
    if event.Received? && event.consumerAlive then [event.command] else []
  }

  /** The responses handed to the consumer, in arrival order. */
  function Forwarded<T>(events: seq<ReadEvent<T>>): seq<T> {
    if |events| == 0 then [] else Delivered(events[0]) + Forwarded(events[1..])
  }

  lemma ForwardedUnfold<T>(events: seq<ReadEvent<T>>, i: nat, c: nat)
    requires i < c <= |events|
    ensures Forwarded(events[i..c]) == Delivered(events[i]) + Forwarded(events[i + 1..c])
  {
    assert events[i..c][1..] == events[i + 1..c];
  }

  /** How a reader run from event `i` on, with the responses `delivered`
      so far, may end in `o`. It consumes events `i` to `o.consumed` and
      hands on exactly their responses, in order. A raised flag ends it
      at once. Otherwise it stops only on an event that stops the reader,
      and that event is the last one consumed; a fatal read raises
      `error`, nothing else does, and nothing clears a flag. A run that
      does not stop has consumed every event, none of which stops it, and
      leaves the flags as they were. */
  ghost predicate ReaderEnds<T>(rule: ReadRule, flags: Flags, events: seq<ReadEvent<T>>, i: nat, delivered: seq<T>, o: LoopEnd<T>) {
    i <= o.consumed <= |events| &&
    (Raised(flags) ==> o == LoopEnd(flags, i, delivered, true)) &&
    o.flags.shutdown == flags.shutdown && (flags.error ==> o.flags.error) &&
    o.output == delivered + Forwarded(events[i..o.consumed]) &&
    (o.flags.error && !flags.error ==> o.stopped && o.consumed > i && IsFatalRead(rule, events[o.consumed - 1])) &&
    (o.stopped && !Raised(flags) ==>
       o.consumed > i && StopsReader(rule, events[o.consumed - 1]) &&
       (IsFatalRead(rule, events[o.consumed - 1]) ==> o.flags.error)) &&
    (forall j :: i <= j < o.consumed - (if o.stopped then 1 else 0) ==> !StopsReader(rule, events[j])) &&
    (!o.stopped ==> o.consumed == |events| && o.flags == flags)
  }

  /** The reader loop from event `i` on, with the responses delivered so
      far: the flags are checked first, then one event is decided. */
  function ReaderRun<T>(rule: ReadRule, flags: Flags, events: seq<ReadEvent<T>>, i: nat, delivered: seq<T>): (o: LoopEnd<T>)
    requires i <= |events|
    ensures ReaderEnds(rule, flags, events, i, delivered, o)
    decreases |events| - i
  {
    if Raised(flags) then LoopEnd(flags, i, delivered, true)
    else if i == |events| then LoopEnd(flags, i, delivered, false)
    else
      var s := ReaderStep(rule, flags, events[i]);
      var d := delivered + OptionSeq(s.output);
      if s.next == Stop then
        ReaderEndsAtStop(rule, flags, events, i, delivered);
        LoopEnd(s.flags, i + 1, d, true)
      else
        var o := ReaderRun(rule, flags, events, i + 1, d);
        ReaderEndsAfterStep(rule, flags, events, i, delivered, o);
        o
  }

  /** An event that stops the reader ends the run right after it. */
  lemma ReaderEndsAtStop<T>(rule: ReadRule, flags: Flags, events: seq<ReadEvent<T>>, i: nat, delivered: seq<T>)
    requires i < |events| && !Raised(flags)
    requires ReaderStep(rule, flags, events[i]).next == Stop
    ensures var s := ReaderStep(rule, flags, events[i]);
            ReaderEnds(rule, flags, events, i, delivered, LoopEnd(s.flags, i + 1, delivered + OptionSeq(s.output), true))
  {
    var s := ReaderStep(rule, flags, events[i]);
    assert OptionSeq(s.output) == Delivered(events[i]);
    assert events[i..i + 1] == [events[i]];
  }

  /** An event that does not stop the reader leaves the flags alone, so
      how the run goes on from the next event is how it goes on from this
      one. */
  lemma ReaderEndsAfterStep<T>(rule: ReadRule, flags: Flags, events: seq<ReadEvent<T>>, i: nat, delivered: seq<T>, o: LoopEnd<T>)
    requires i < |events| && !Raised(flags)
    requires ReaderStep(rule, flags, events[i]).next == Continue
    requires ReaderEnds(rule, flags, events, i + 1, delivered + OptionSeq(ReaderStep(rule, flags, events[i]).output), o)
    ensures ReaderEnds(rule, flags, events, i, delivered, o)
  {
    var s := ReaderStep(rule, flags, events[i]);
    assert OptionSeq(s.output) == Delivered(events[i]);
    assert s.flags == flags && !StopsReader(rule, events[i]);
    ForwardedUnfold(events, i, o.consumed);
  }

  // ---------------------------------------------------------------------
  // The writer loop (src/vmix.rs:149-190)
  // ---------------------------------------------------------------------

  /** The commands of the vMix TCP protocol that the client sends; their
      encoding into bytes is not part of this model. */
  datatype SendCommand = QUIT | XML | TALLY | FUNCTION(functionName: string, value: Option<string>)

  /** One `recv_timeout` on the writer's channel: a command, with whether
      writing and flushing it succeed; a timeout; or a closed channel. */
  datatype WriteEvent = Got(command: SendCommand, writeOk: bool, flushOk: bool) | RecvTimeout | Disconnected

  /** The writer's decision for one event. `QUIT` is written and always
      ends the loop, raising `error` only if the write failed; any other
      command is written and flushed, and a failure of either raises
      `error` and ends the loop. A timeout goes on; a closed channel ends
      the loop and leaves the flags alone. */
  function WriterStep(flags: Flags, event: WriteEvent): (s: Step<SendCommand>)
    ensures s.flags == if IsFatalWrite(event) then flags.(error := true) else flags
    ensures s.output.Some? <==> event.Got?
    ensures s.output.Some? ==> s.output.value == event.command
    ensures s.next == Stop <==> StopsWriter(event)
  {
    match event
    case Got(command, writeOk, flushOk) =>
      if command.QUIT? then
        Step(if writeOk then flags else flags.(error := true), Stop, Some(command))
      else if !writeOk then Step(flags.(error := true), Stop, Some(command))
      else if !flushOk then Step(flags.(error := true), Stop, Some(command))
      else Step(flags, Continue, Some(command))
    case RecvTimeout => Step(flags, Continue, None)
    case Disconnected => Step(flags, Stop, None)
  }

  /** The events that set the error flag: a failed write, or a failed
      flush of a command other than `QUIT` (which is not flushed). */
  predicate IsFatalWrite(event: WriteEvent) {
    event.Got? && (!event.writeOk || (!event.command.QUIT? && !event.flushOk))
  }

  /** The events that end the writer loop. */
  predicate StopsWriter(event: WriteEvent) {
    event.Disconnected? || (event.Got? && (event.command.QUIT? || IsFatalWrite(event)))
  }

  /** What one event writes to the socket. */
  function WrittenBy(event: WriteEvent): seq<SendCommand> {
    if event.Got? then [event.command] else []
  }

  /** The commands written to the socket, in the order received. */
  function Written(events: seq<WriteEvent>): seq<SendCommand> {
    if |events| == 0 then [] else WrittenBy(events[0]) + Written(events[1..])
  }

  lemma WrittenUnfold(events: seq<WriteEvent>, i: nat, c: nat)
    requires i < c <= |events|
    ensures Written(events[i..c]) == WrittenBy(events[i]) + Written(events[i + 1..c])
  {
    assert events[i..c][1..] == events[i + 1..c];
  }

  /** How a writer run from event `i` on, with the commands `written` so
      far, may end in `o`, as `ReaderEnds` for the reader: the commands
      received are written in order; a raised flag ends the run at once;
      otherwise it stops only on an event that stops the writer, which is
      the last one consumed; a failed write raises `error`, and nothing
      else does; a run that does not stop has consumed every event and
      leaves the flags as they were. */
  ghost predicate WriterEnds(flags: Flags, events: seq<WriteEvent>, i: nat, written: seq<SendCommand>, o: LoopEnd<SendCommand>) {
    i <= o.consumed <= |events| &&
    (Raised(flags) ==> o == LoopEnd(flags, i, written, true)) &&
    o.flags.shutdown == flags.shutdown && (flags.error ==> o.flags.error) &&
    o.output == written + Written(events[i..o.consumed]) &&
    (o.flags.error && !flags.error ==> o.stopped && o.consumed > i && IsFatalWrite(events[o.consumed - 1])) &&
    (o.stopped && !Raised(flags) ==>
       o.consumed > i && StopsWriter(events[o.consumed - 1]) &&
       (IsFatalWrite(events[o.consumed - 1]) ==> o.flags.error)) &&
    (forall j :: i <= j < o.consumed - (if o.stopped then 1 else 0) ==> !StopsWriter(events[j])) &&
    (!o.stopped ==> o.consumed == |events| && o.flags == flags)
  }

  /** The writer loop from event `i` on: as the reader's, the flags are
      checked before each receive. */
  function WriterRun(flags: Flags, events: seq<WriteEvent>, i: nat, written: seq<SendCommand>): (o: LoopEnd<SendCommand>)
    requires i <= |events|
    ensures WriterEnds(flags, events, i, written, o)
    decreases |events| - i
  {
    if Raised(flags) then LoopEnd(flags, i, written, true)
    else if i == |events| then LoopEnd(flags, i, written, false)
    else
      var s := WriterStep(flags, events[i]);
      var w := written + OptionSeq(s.output);
      if s.next == Stop then
        WriterEndsAtStop(flags, events, i, written);
        LoopEnd(s.flags, i + 1, w, true)
      else
        var o := WriterRun(flags, events, i + 1, w);
        WriterEndsAfterStep(flags, events, i, written, o);
        o
  }

  lemma WriterEndsAtStop(flags: Flags, events: seq<WriteEvent>, i: nat, written: seq<SendCommand>)
    requires i < |events| && !Raised(flags)
    requires WriterStep(flags, events[i]).next == Stop
    ensures var s := WriterStep(flags, events[i]);
            WriterEnds(flags, events, i, written, LoopEnd(s.flags, i + 1, written + OptionSeq(s.output), true))
  {
    var s := WriterStep(flags, events[i]);
    assert OptionSeq(s.output) == WrittenBy(events[i]);
    assert events[i..i + 1] == [events[i]];
  }

  lemma WriterEndsAfterStep(flags: Flags, events: seq<WriteEvent>, i: nat, written: seq<SendCommand>, o: LoopEnd<SendCommand>)
    requires i < |events| && !Raised(flags)
    requires WriterStep(flags, events[i]).next == Continue
    requires WriterEnds(flags, events, i + 1, written + OptionSeq(WriterStep(flags, events[i]).output), o)
    ensures WriterEnds(flags, events, i, written, o)
  {
    var s := WriterStep(flags, events[i]);
    assert OptionSeq(s.output) == WrittenBy(events[i]);
    assert s.flags == flags && !StopsWriter(events[i]);
    WrittenUnfold(events, i, o.consumed);
  }

  /** A fatal read as the first event, such as a connection reset, raises
      `error` and ends the reader at once, whatever would follow. */
  lemma FatalReadStopsReader<T>(rule: ReadRule, flags: Flags, event: ReadEvent<T>, rest: seq<ReadEvent<T>>)
    requires !Raised(flags) && IsFatalRead(rule, event)
    ensures ReaderRun(rule, flags, [event] + rest, 0, []) == LoopEnd(flags.(error := true), 1, [], true)
  {
    var events := [event] + rest;
    assert events[0] == event;
    ReaderEndsAtStop(rule, flags, events, 0, []);
  }

  /** A failed write as the first event raises `error` and ends the
      writer at once; so does `QUIT`, which leaves the flags alone when
      its write succeeds. */
  lemma FatalWriteStopsWriter(flags: Flags, event: WriteEvent, rest: seq<WriteEvent>)
    requires !Raised(flags) && (IsFatalWrite(event) || (event.Got? && event.command.QUIT?))
    ensures WriterRun(flags, [event] + rest, 0, []) ==
            LoopEnd(if IsFatalWrite(event) then flags.(error := true) else flags, 1, [event.command], true)
  {
    var events := [event] + rest;
    assert events[0] == event;
    WriterEndsAtStop(flags, events, 0, []);
  }

  /** Nothing is written after `QUIT`: it can only be the last command the
      writer writes. */
  lemma {:induction false} QuitIsLastWritten(flags: Flags, events: seq<WriteEvent>)
    ensures var o := WriterRun(flags, events, 0, []);
            forall j :: 0 <= j < |o.output| - 1 ==> !o.output[j].QUIT?
  {
    var o := WriterRun(flags, events, 0, []);
    var es := events[..o.consumed];
    assert o.output == Written(es);
    forall j | 0 <= j < |es| - 1
      ensures !StopsWriter(es[j])
    {
      assert es[j] == events[j];
    }
    WrittenBeforeStop(es);
  }

  /** Commands written by events that all went on are never `QUIT`. */
  lemma {:induction false} WrittenBeforeStop(es: seq<WriteEvent>)
    requires forall j :: 0 <= j < |es| - 1 ==> !StopsWriter(es[j])
    ensures forall j :: 0 <= j < |Written(es)| - 1 ==> !Written(es)[j].QUIT?
  {
    if |es| > 1 {
      WrittenBeforeStop(es[1..]);
      assert Written(es) == WrittenBy(es[0]) + Written(es[1..]);
      assert !StopsWriter(es[0]);
    }
  }

  // ---------------------------------------------------------------------
  // The shared flags and the two loops as methods
  // ---------------------------------------------------------------------

  /** One iteration of the reader run with no flag raised and an event
      left: decide the event, then stop or go on with the new flags. */
  lemma ReaderRunStep<T>(rule: ReadRule, flags: Flags, events: seq<ReadEvent<T>>, i: nat, delivered: seq<T>)
    requires i < |events| && !Raised(flags)
    ensures var s := ReaderStep(rule, flags, events[i]);
            var d := delivered + OptionSeq(s.output);
            ReaderRun(rule, flags, events, i, delivered) ==
            if s.next == Stop then LoopEnd(s.flags, i + 1, d, true) else ReaderRun(rule, s.flags, events, i + 1, d)
  {
  }

  /** The same for the writer run. */
  lemma WriterRunStep(flags: Flags, events: seq<WriteEvent>, i: nat, written: seq<SendCommand>)
    requires i < |events| && !Raised(flags)
    ensures var s := WriterStep(flags, events[i]);
            var w := written + OptionSeq(s.output);
            WriterRun(flags, events, i, written) ==
            if s.next == Stop then LoopEnd(s.flags, i + 1, w, true) else WriterRun(s.flags, events, i + 1, w)
  {
  }

  /** The two shared `Arc<AtomicBool>` flags. Both start false. */
  class Signals {
    var shutdown: bool
    var error: bool

    constructor()
      ensures !shutdown && !error
    {
      shutdown := false;
      error := false;
    }

    function Value(): Flags
      reads this
    {
      Flags(shutdown, error)
    }
  }

  /** The reader thread's loop over a sequence of decode attempts. It ends
      as `ReaderRun` says; in particular `shutdown` is untouched, `error`
      is only ever raised, and responses reach the consumer in arrival
      order. */
  method ReaderLoop<T>(rule: ReadRule, signals: Signals, events: seq<ReadEvent<T>>) returns (delivered: seq<T>, consumed: nat, stopped: bool)
    modifies signals
    ensures LoopEnd(signals.Value(), consumed, delivered, stopped) == ReaderRun(rule, old(signals.Value()), events, 0, [])
  {
    var i := 0;
    delivered := [];
    while true
      invariant 0 <= i <= |events|
      invariant ReaderRun(rule, old(signals.Value()), events, 0, []) == ReaderRun(rule, signals.Value(), events, i, delivered)
      decreases |events| - i
    {
      if signals.shutdown || signals.error {
        stopped := true;
        break;
      }
      if i == |events| {
        stopped := false;
        break;
      }
      var step := ReaderStep(rule, signals.Value(), events[i]);
      ghost var rest := ReaderRun(rule, signals.Value(), events, i, delivered);
      ReaderRunStep(rule, signals.Value(), events, i, delivered);
      if step.flags.error {
        signals.error := true;
      }
      assert signals.Value() == step.flags;
      delivered := delivered + OptionSeq(step.output);
      i := i + 1;
      if step.next == Stop {
        assert rest == LoopEnd(signals.Value(), i, delivered, true);
        stopped := true;
        break;
      }
      assert rest == ReaderRun(rule, signals.Value(), events, i, delivered);
    }
    consumed := i;
  }

  /** The writer thread's loop over a sequence of channel receives. */
  method WriterLoop(signals: Signals, events: seq<WriteEvent>) returns (written: seq<SendCommand>, consumed: nat, stopped: bool)
    modifies signals
    ensures LoopEnd(signals.Value(), consumed, written, stopped) == WriterRun(old(signals.Value()), events, 0, [])
  {
    var i := 0;
    written := [];
    while true
      invariant 0 <= i <= |events|
      invariant WriterRun(old(signals.Value()), events, 0, []) == WriterRun(signals.Value(), events, i, written)
      decreases |events| - i
    {
      if signals.shutdown || signals.error {
        stopped := true;
        break;
      }
      if i == |events| {
        stopped := false;
        break;
      }
      var step := WriterStep(signals.Value(), events[i]);
      ghost var rest := WriterRun(signals.Value(), events, i, written);
      WriterRunStep(signals.Value(), events, i, written);
      if step.flags.error {
        signals.error := true;
      }
      assert signals.Value() == step.flags;
      written := written + OptionSeq(step.output);
      i := i + 1;
      if step.next == Stop {
        assert rest == LoopEnd(signals.Value(), i, written, true);
        stopped := true;
        break;
      }
      assert rest == WriterRun(signals.Value(), events, i, written);
    }
    consumed := i;
  }

  // ---------------------------------------------------------------------
  // `execute_function`'s command text (src/vmix.rs:237-246)
  // ---------------------------------------------------------------------

  /** `k=encode(v)`: the key is not encoded. */
  function Pair(kv: (string, string), encode: string -> string): string {
    kv.0 + "=" + encode(kv.1)
  }

  function Pairs(params: seq<(string, string)>, encode: string -> string): (ps: seq<string>)
    ensures |ps| == |params|
    ensures forall i :: 0 <= i < |params| ==> ps[i] == Pair(params[i], encode)
  {
    if |params| == 0 then [] else [Pair(params[0], encode)] + Pairs(params[1..], encode)
  }

  /** The function string: the bare name without parameters, otherwise the
      name, "?", and the `k=encode(v)` pairs joined by "&". The map's
      iteration order is given as the order of `params`. */
  function FunctionString(functionName: string, params: seq<(string, string)>, encode: string -> string): (s: string)
    ensures |params| == 0 ==> s == functionName
    ensures |params| > 0 ==> |s| > |functionName| && s[..|functionName|] == functionName && s[|functionName|] == '?'
    ensures '?' !in functionName ==> ('?' in s <==> |params| > 0)
  {
    if |params| == 0 then functionName
    else functionName + "?" + Join(Pairs(params, encode), '&')
  }

  /** The function string can be taken apart again: cutting at the first
      "?" gives back the name, splitting the rest at "&" gives one piece
      per parameter, and splitting a piece at "=" gives back the key and
      the encoded value, provided the name has no "?", keys have no "&" or
      "=", and the encoder never produces "&" or "=". */
  lemma FunctionStringParses(functionName: string, params: seq<(string, string)>, encode: string -> string)
    requires |params| > 0
    requires '?' !in functionName
    requires forall i :: 0 <= i < |params| ==> '&' !in params[i].0 && '=' !in params[i].0
    requires forall v :: '&' !in encode(v) && '=' !in encode(v)
    ensures var s := FunctionString(functionName, params, encode);
            var q := IndexOf(s, '?');
            s[..q] == functionName &&
            var parts := Split(s[q + 1..], '&');
            |parts| == |params| &&
            forall i :: 0 <= i < |params| ==> Split(parts[i], '=') == [params[i].0, encode(params[i].1)]
  {
    var ps := Pairs(params, encode);
    var s := FunctionString(functionName, params, encode);
    var rest := "?" + Join(ps, '&');
    assert s == functionName + rest;
    IndexOfPrefix(functionName, rest, '?');
    var q := IndexOf(s, '?');
    assert s[..q] == functionName;
    assert s[q + 1..] == Join(ps, '&');
    forall i | 0 <= i < |ps|
      ensures '&' !in ps[i]
      ensures Split(ps[i], '=') == [params[i].0, encode(params[i].1)]
    {
      var k := params[i].0;
      var e := encode(params[i].1);
      assert ps[i] == k + "=" + e;
      SplitJoin([k, e], '=');
    }
    SplitJoin(ps, '&');
  }

  // ---------------------------------------------------------------------
  // The connection object
  // ---------------------------------------------------------------------

  /** A connected socket, and a spawned thread's join handle. */
  datatype TcpStream = TcpStream(id: nat)
  datatype JoinHandle = JoinHandle(id: nat)

  class VmixApi {
    const signals: Signals
    /** The commands sent into the writer's channel, in order. */
    var sent: seq<SendCommand>
    /** Whether the writer thread still holds the channel's receiving end. */
    var writerListening: bool
    var originalStream: Option<TcpStream>
    var readerHandle: Option<JoinHandle>
    var writerHandle: Option<JoinHandle>
    /** How many times the socket has been shut down. */
    ghost var shutdowns: nat

    /** The socket is shut down at most once, and only after it has been
        taken out of `originalStream`. */
    ghost predicate Valid()
      reads this
    {
      shutdowns <= 1 && (originalStream.Some? ==> shutdowns == 0)
    }

    /** The end of `VmixApi::new`: the socket is connected, both threads
        are running, and both flags are false. */
    constructor(stream: TcpStream, reader: JoinHandle, writer: JoinHandle)
      ensures Valid() && IsConnected()
      ensures fresh(signals) && !signals.shutdown && !signals.error
      ensures originalStream == Some(stream)
      ensures readerHandle == Some(reader) && writerHandle == Some(writer)
      ensures sent == [] && writerListening && shutdowns == 0
    {
      signals := new Signals();
      sent := [];
      writerListening := true;
      originalStream := Some(stream);
      readerHandle := Some(reader);
      writerHandle := Some(writer);
      shutdowns := 0;
    }

    /** `is_connected`: neither flag is raised, so neither loop has been
        told to stop (see `ReaderRun` and `WriterRun`). */
    predicate IsConnected(): (connected: bool)
      reads this, signals
      ensures connected <==> !Raised(signals.Value())
    {
      !signals.shutdown && !signals.error
    }

    /** `send_command`: the command enters the channel, unless the writer
        thread has gone and dropped the receiving end. */
    method SendCommand(command: SendCommand) returns (r: Outcome<()>)
      modifies this
      ensures writerListening == old(writerListening)
      ensures old(writerListening) ==> r == Ok(()) && sent == old(sent) + [command]
      ensures !old(writerListening) ==> r == Err(ChannelClosed) && sent == old(sent)
      ensures originalStream == old(originalStream) && shutdowns == old(shutdowns)
      ensures readerHandle == old(readerHandle) && writerHandle == old(writerHandle)
    {
      if writerListening {
        sent := sent + [command];
        r := Ok(());
      } else {
        r := Err(ChannelClosed);
      }
    }

    /** `disconnect`: exactly `send_command(QUIT)`. */
    method Disconnect() returns (r: Outcome<()>)
      modifies this
      ensures writerListening == old(writerListening)
      ensures old(writerListening) ==> r == Ok(()) && sent == old(sent) + [QUIT]
      ensures !old(writerListening) ==> r == Err(ChannelClosed) && sent == old(sent)
      ensures originalStream == old(originalStream) && shutdowns == old(shutdowns)
      ensures readerHandle == old(readerHandle) && writerHandle == old(writerHandle)
    {
      r := SendCommand(QUIT);
    }

    /** `execute_function`: sends `FUNCTION` with the function string and
        no value. */
    method ExecuteFunction(functionName: string, params: seq<(string, string)>, encode: string -> string) returns (r: Outcome<()>)
      modifies this
      ensures writerListening == old(writerListening)
      ensures old(writerListening) ==>
                r == Ok(()) && sent == old(sent) + [FUNCTION(FunctionString(functionName, params, encode), None)]
      ensures !old(writerListening) ==> r == Err(ChannelClosed) && sent == old(sent)
      ensures originalStream == old(originalStream) && shutdowns == old(shutdowns)
      ensures readerHandle == old(readerHandle) && writerHandle == old(writerHandle)
    {
      var functionString := FunctionString(functionName, params, encode);
      r := SendCommand(FUNCTION(functionString, None));
    }

    /** `Drop`: raise `shutdown`, take the socket and shut it down (so a
        second teardown finds nothing to shut down), offer `QUIT` to the
        writer without blocking (`roomInChannel` says whether `try_send`
        finds space), and take both join handles. Afterwards the object
        reports itself disconnected. */
    method Drop(roomInChannel: bool)
      requires Valid()
      modifies this, signals
      ensures Valid() && !IsConnected()
      ensures signals.shutdown && signals.error == old(signals.error)
      ensures originalStream == None
      ensures shutdowns == old(shutdowns) + (if old(originalStream).Some? then 1 else 0)
      ensures sent == old(sent) + (if writerListening && roomInChannel then [QUIT] else [])
      ensures writerListening == old(writerListening)
      ensures readerHandle == None && writerHandle == None
    {
      signals.shutdown := true;
      var stream := originalStream;
      originalStream := None;
      if stream.Some? {
        shutdowns := shutdowns + 1;
      }
      if writerListening && roomInChannel {
        sent := sent + [QUIT];
      }
      readerHandle := None;
      writerHandle := None;
    }
  }

  // ---------------------------------------------------------------------
  // The read-timeout finding
  // ---------------------------------------------------------------------

  /** As written, a read that hits the socket's read timeout on a platform
      that reports it as `WouldBlock` raises `error` and ends the reader,
      so an idle but healthy connection reports itself disconnected. */
  lemma WouldBlockEndsReaderAsWritten<T>(rest: seq<ReadEvent<T>>)
    ensures ReaderRun(AsWritten, Flags(false, false), [Failed(IoFailure(WouldBlock))] + rest, 0, []) ==
            LoopEnd(Flags(false, true), 1, [], true)
  {
  }

  /** Events that neither stop the reader nor deliver anything leave the
      flags as they were and are all consumed. */
  lemma {:induction false} QuietEventsKeepReaderRunning<T>(rule: ReadRule, flags: Flags, events: seq<ReadEvent<T>>, i: nat)
    requires i <= |events|
    requires !Raised(flags)
    requires forall j :: i <= j < |events| ==> events[j].Failed? && !StopsReader(rule, events[j])
    ensures ReaderRun(rule, flags, events, i, []) == LoopEnd(flags, |events|, [], false)
    decreases |events| - i
  {
    if i < |events| {
      QuietEventsKeepReaderRunning(rule, flags, events, i + 1);
    }
  }

  /** With both timeout kinds treated alike, a quiet connection stays up:
      any number of timeouts leaves the flags as they were, ends nothing
      and delivers nothing. */
  lemma TimeoutsKeepReaderRunning<T>(flags: Flags, events: seq<ReadEvent<T>>)
    requires !Raised(flags)
    requires forall j :: 0 <= j < |events| ==> events[j].Failed? && events[j].failure.IoFailure? && IsReadTimeout(Corrected, events[j].failure.kind)
    ensures ReaderRun(Corrected, flags, events, 0, []) == LoopEnd(flags, |events|, [], false)
  {
    QuietEventsKeepReaderRunning(Corrected, flags, events, 0);
  }

  /** The event of a read at the end of the stream. As written, the empty
      read becomes `anyhow!(ErrorKind::ConnectionAborted)`, whose
      `downcast_ref::<io::Error>()` fails, so the reader takes it for a
      parse failure and goes on; reported as the I/O error, it is fatal. */
  lemma EndOfStreamEvent(rule: ReadRule, payload: Commands.Payload, f: Foreign, consumerAlive: bool)
    ensures var e := ReadEventOf(rule, Commands.Decode(Commands.LineText(""), payload, f), consumerAlive);
            (rule == AsWritten ==> e == Failed(NotIo) && !StopsReader(rule, e)) &&
            (rule == Corrected ==> IsFatalRead(rule, e))
  {
  }

  /** As written, once the peer has closed the connection every read
      returns at once with the end-of-stream error, and the reader loops
      over it forever: it never stops and never raises `error`, so the
      client keeps reporting itself connected. */
  lemma EndOfStreamKeepsReaderRunning(payload: Commands.Payload, f: Foreign, consumerAlive: bool, n: nat)
    ensures var e := ReadEventOf(AsWritten, Commands.Decode(Commands.LineText(""), payload, f), consumerAlive);
            ReaderRun(AsWritten, Flags(false, false), seq(n, _ => e), 0, []) == LoopEnd(Flags(false, false), n, [], false)
  {
    var e := ReadEventOf(AsWritten, Commands.Decode(Commands.LineText(""), payload, f), consumerAlive);
    EndOfStreamEvent(AsWritten, payload, f, consumerAlive);
    QuietEventsKeepReaderRunning(AsWritten, Flags(false, false), seq(n, _ => e), 0);
  }

  /** Corrected, the end of the stream raises `error` and ends the reader
      at the first read, whatever would follow. */
  lemma EndOfStreamStopsReader(payload: Commands.Payload, f: Foreign, consumerAlive: bool, rest: seq<ReadEvent<Commands.Command<Activators.ActivatorsData>>>)
    ensures var e := ReadEventOf(Corrected, Commands.Decode(Commands.LineText(""), payload, f), consumerAlive);
            ReaderRun(Corrected, Flags(false, false), [e] + rest, 0, []) == LoopEnd(Flags(false, true), 1, [], true)
  {
    EndOfStreamEvent(Corrected, payload, f, consumerAlive);
  }

  /** A panic in the decoder (an `unwrap` in `Command::try_from`) ends the
      reader without touching the flags, under either rule: the client
      still reports itself connected. */
  lemma PanicEndsReaderQuietly<T>(rule: ReadRule, flags: Flags, rest: seq<ReadEvent<T>>)
    requires !Raised(flags)
    ensures ReaderRun(rule, flags, [Panicked] + rest, 0, []) == LoopEnd(flags, 1, [], true)
  {
  }
}
