/** The forwarding loop of touchmux.c `main` (lines 225-236), run over an
    abstract stream of read outcomes: every whole record is transformed and
    written in order, empty and partial reads are retried, and any other
    read error ends the process. */
module Forwarding {
  import opened InputAbi
  import opened Transform

  /** What one `read(src, &ev, sizeof(ev))` returns. */
  datatype ReadOutcome =
    | WouldBlock        // -1 with errno EAGAIN: sleep and retry
    | Short             // a byte count other than sizeof(ev): discard and retry
    | Full(ev: InputEvent)
    | Failed            // -1 with any other errno: die("read(src)")

  /** The records written to the sink, and whether the loop died. */
  datatype LoopResult = LoopResult(emitted: seq<InputEvent>, fatal: bool)

  /** What the loop does with a stream of read outcomes: it dies exactly
      when some read fails (other than would-block), and writes at most one
      record per read. */
  function Relay(stream: seq<ReadOutcome>, cfg: Config): (r: LoopResult)
    ensures r.fatal <==> exists i :: 0 <= i < |stream| && stream[i].Failed?
    ensures |r.emitted| <= |stream|
  {
    if stream == [] then LoopResult([], false)
    else
      match stream[0]
      case Failed => LoopResult([], true)
      case WouldBlock => Relay(stream[1..], cfg)
      case Short => Relay(stream[1..], cfg)
      case Full(ev) =>
        var rest := Relay(stream[1..], cfg);
        assert forall i :: 0 < i < |stream| ==> stream[i] == stream[1..][i - 1];
        LoopResult([Forward(ev, cfg)] + rest.emitted, rest.fatal)
  }

  /** The records of the whole reads, in stream order. */
  function FullRecords(stream: seq<ReadOutcome>): seq<InputEvent>
  {
    if stream == [] then []
    else (if stream[0].Full? then [stream[0].ev] else []) + FullRecords(stream[1..])
  }

  /** `forward_event` applied to each record, in order. */
  function ForwardAll(evs: seq<InputEvent>, cfg: Config): seq<InputEvent>
  {
    seq(|evs|, k requires 0 <= k < |evs| => Forward(evs[k], cfg))
  }

  /** Over a stream with no failing read, the loop writes exactly the
      transforms of the whole records, in the order they were read. */
  lemma {:induction false} RelayForwardsFullRecords(stream: seq<ReadOutcome>, cfg: Config)
    requires forall i :: 0 <= i < |stream| ==> !stream[i].Failed?
    ensures Relay(stream, cfg) == LoopResult(ForwardAll(FullRecords(stream), cfg), false)
  {
    if stream != [] {
      RelayForwardsFullRecords(stream[1..], cfg);
      var head := if stream[0].Full? then [stream[0].ev] else [];
      assert ForwardAll(head + FullRecords(stream[1..]), cfg)
          == ForwardAll(head, cfg) + ForwardAll(FullRecords(stream[1..]), cfg);
    }
  }

  /** Relaying a stream piece by piece is relaying it whole: the output of
      a failure-free prefix comes first, then that of the rest, with no
      record reordered or merged. */
  lemma {:induction false} RelayConcat(a: seq<ReadOutcome>, b: seq<ReadOutcome>, cfg: Config)
    requires forall i :: 0 <= i < |a| ==> !a[i].Failed?
    ensures Relay(a + b, cfg) == LoopResult(Relay(a, cfg).emitted + Relay(b, cfg).emitted, Relay(b, cfg).fatal)
  {
    if a == [] {
      assert a + b == b;
    } else {
      RelayConcat(a[1..], b, cfg);
      assert (a + b)[1..] == a[1..] + b;
    }
  }

  /** A would-block or short read anywhere in the stream writes nothing and
      changes nothing that follows. */
  lemma {:induction false} RelaySkipsIdleReads(a: seq<ReadOutcome>, x: ReadOutcome, b: seq<ReadOutcome>, cfg: Config)
    requires x == WouldBlock || x == Short
    ensures Relay(a + [x] + b, cfg) == Relay(a + b, cfg)
  {
    if a == [] {
      assert a + [x] + b == [x] + b && ([x] + b)[1..] == b && a + b == b;
    } else {
      RelaySkipsIdleReads(a[1..], x, b, cfg);
      assert (a + [x] + b)[1..] == a[1..] + [x] + b;
      assert (a + b)[1..] == a[1..] + b;
    }
  }

  /** The first failing read ends the loop: nothing read after it is
      written. */
  lemma RelayStopsAtFailure(a: seq<ReadOutcome>, b: seq<ReadOutcome>, cfg: Config)
    requires forall i :: 0 <= i < |a| ==> !a[i].Failed?
    ensures Relay(a + [Failed] + b, cfg) == LoopResult(Relay(a, cfg).emitted, true)
  {
    RelayConcat(a, [Failed] + b, cfg);
    assert a + [Failed] + b == a + ([Failed] + b);
  }

  /** The `for (;;)` loop itself, over a finite stream of read outcomes. */
  method ForwardLoop(stream: seq<ReadOutcome>, cfg: Config) returns (out: seq<InputEvent>, fatal: bool)
    ensures LoopResult(out, fatal) == Relay(stream, cfg)
  {
    out := [];
    var i := 0;
    while i < |stream|
      invariant 0 <= i <= |stream|
      invariant Relay(stream, cfg) == LoopResult(out + Relay(stream[i..], cfg).emitted, Relay(stream[i..], cfg).fatal)
    {
      assert stream[i..][1..] == stream[i + 1..];
      match stream[i] {
        case WouldBlock =>
        case Short =>
        case Failed =>
          return out, true;
        case Full(ev) =>
          out := out + [Forward(ev, cfg)];
      }
      i := i + 1;
    }
    fatal := false;
  }
}
