/** The deferred read pump as a function: what one run of the read tasklet
    delivers to the line discipline and takes from the channel. */
module ReadPump {
  import opened SmdConfig

  /** An item pushed into the tty flip buffer: a data byte, or the BREAK
      marker that tells readers the remote side went down. */
  datatype FlipItem = Byte(b: byte) | Break

  /** What the line discipline answers in one iteration: whether it has
      throttled the tty, and how many bytes of staging buffer it can grant. */
  datatype LdiscStep = LdiscStep(throttled: bool, grant: nat)

  /** Why the pump stopped. */
  datatype PumpExit =
    | BreakSent   // the channel is in reset: one BREAK pushed
    | Throttled   // the line discipline asked us to stop
    | Drained     // no byte left to read; the read wake lock is released
    | NoBuffer    // no staging buffer: the 30 ms retry timer is armed

  /** One run: the items delivered, the size of each chunk moved, the number
      of channel bytes consumed and the reason for stopping. */
  datatype PumpRun = PumpRun(delivered: seq<FlipItem>, chunks: seq<nat>, consumed: nat, exit: PumpExit)

  /** The bytes as flip-buffer items, in order. */
  function AsItems(s: seq<byte>): (r: seq<FlipItem>)
    ensures |r| == |s| && forall k :: 0 <= k < |s| ==> r[k] == Byte(s[k])
  {
    seq(|s|, k requires 0 <= k < |s| => Byte(s[k]))
  }

  function Min(a: nat, b: nat): nat
  {
    if a <= b then a else b
  }

  /** The line discipline's answer in the iteration at hand; once the given
      answers run out, it grants nothing. */
  function Head(ldisc: seq<LdiscStep>): LdiscStep
  {
    if ldisc == [] then LdiscStep(false, 0) else ldisc[0]
  }

  function Tail(ldisc: seq<LdiscStep>): seq<LdiscStep>
  {
    if ldisc == [] then [] else ldisc[1..]
  }

  /** A chunk of `bytes` moved before a run `rest`. */
  function Prepend(bytes: seq<byte>, rest: PumpRun): PumpRun
  {
    PumpRun(AsItems(bytes) + rest.delivered, [|bytes|] + rest.chunks, |bytes| + rest.consumed, rest.exit)
  }

  /** One run of the read tasklet over the bytes `rx` the channel has
      available, with the reset flag as it stands and the line discipline's
      answers: each iteration asks for at most MaxTtyBufSize bytes, gets at
      most what is granted, and moves that many bytes in order. */
  function Pump(inReset: bool, rx: seq<byte>, ldisc: seq<LdiscStep>): (r: PumpRun)
    ensures r.consumed <= |rx|
    decreases |rx|
  {
    if inReset then PumpRun([Break], [], 0, BreakSent)
    else if Head(ldisc).throttled then PumpRun([], [], 0, Throttled)
    else if |rx| == 0 then PumpRun([], [], 0, Drained)
    else
      var got := Min(Head(ldisc).grant, Min(|rx|, MaxTtyBufSize));
      if got == 0 then PumpRun([], [], 0, NoBuffer)
      else Prepend(rx[..got], Pump(inReset, rx[got..], Tail(ldisc)))
  }

  /** One step of Pump, for callers that follow it iteration by iteration. */
  lemma PumpUnfold(inReset: bool, rx: seq<byte>, ldisc: seq<LdiscStep>)
    ensures inReset ==> Pump(inReset, rx, ldisc) == PumpRun([Break], [], 0, BreakSent)
    ensures !inReset && Head(ldisc).throttled ==> Pump(inReset, rx, ldisc) == PumpRun([], [], 0, Throttled)
    ensures !inReset && !Head(ldisc).throttled && |rx| == 0 ==> Pump(inReset, rx, ldisc) == PumpRun([], [], 0, Drained)
    ensures !inReset && !Head(ldisc).throttled && |rx| != 0 ==>
              var got := Min(Head(ldisc).grant, Min(|rx|, MaxTtyBufSize));
              Pump(inReset, rx, ldisc) ==
                if got == 0 then PumpRun([], [], 0, NoBuffer)
                else Prepend(rx[..got], Pump(inReset, rx[got..], Tail(ldisc)))
  {
  }

  /** No loss, no duplication, no reordering: a run delivers exactly the
      first `consumed` bytes of the channel, in order, and leaves the rest in
      the channel; in reset it delivers one BREAK and nothing else. */
  lemma {:induction false} PumpDeliversPrefix(inReset: bool, rx: seq<byte>, ldisc: seq<LdiscStep>)
    ensures Pump(inReset, rx, ldisc).consumed <= |rx|
    ensures inReset ==> Pump(inReset, rx, ldisc).delivered == [Break] && Pump(inReset, rx, ldisc).consumed == 0
    ensures !inReset ==> Pump(inReset, rx, ldisc).delivered == AsItems(rx[..Pump(inReset, rx, ldisc).consumed])
    decreases |rx|
  {
    var p := Pump(inReset, rx, ldisc);
    if !inReset && !Head(ldisc).throttled && |rx| != 0 {
      var got := Min(Head(ldisc).grant, Min(|rx|, MaxTtyBufSize));
      if got != 0 {
        var q := Pump(inReset, rx[got..], Tail(ldisc));
        PumpDeliversPrefix(inReset, rx[got..], Tail(ldisc));
        PrefixSplits(rx, got, q.consumed);
        AsItemsAppend(rx[..got], rx[got..][..q.consumed]);
      }
    }
  }

  lemma PrefixSplits(s: seq<byte>, a: nat, b: nat)
    requires a + b <= |s|
    ensures s[..a + b] == s[..a] + s[a..][..b]
  {
    assert forall k :: 0 <= k < a + b ==> s[..a + b][k] == (s[..a] + s[a..][..b])[k];
  }

  lemma AsItemsAppend(a: seq<byte>, b: seq<byte>)
    ensures AsItems(a + b) == AsItems(a) + AsItems(b)
  {
    assert forall k :: 0 <= k < |a + b| ==> AsItems(a + b)[k] == (AsItems(a) + AsItems(b))[k];
  }

  /** Sum of the chunk sizes. */
  function Total(chunks: seq<nat>): nat
  {
    if chunks == [] then 0 else chunks[0] + Total(chunks[1..])
  }

  /** Every chunk a run moves holds between 1 and MaxTtyBufSize bytes, and the
      chunks add up to what the run consumed. */
  lemma {:induction false} PumpChunksBounded(inReset: bool, rx: seq<byte>, ldisc: seq<LdiscStep>)
    ensures forall k :: 0 <= k < |Pump(inReset, rx, ldisc).chunks| ==> 0 < Pump(inReset, rx, ldisc).chunks[k] <= MaxTtyBufSize
    ensures Total(Pump(inReset, rx, ldisc).chunks) == Pump(inReset, rx, ldisc).consumed
    decreases |rx|
  {
    if !inReset && !Head(ldisc).throttled && |rx| != 0 {
      var got := Min(Head(ldisc).grant, Min(|rx|, MaxTtyBufSize));
      if got != 0 {
        var q := Pump(inReset, rx[got..], Tail(ldisc));
        PumpChunksBounded(inReset, rx[got..], Tail(ldisc));
        assert Pump(inReset, rx, ldisc).chunks == [got] + q.chunks;
        assert ([got] + q.chunks)[1..] == q.chunks;
      }
    }
  }

  /** How a run ends: it drains the channel only when every byte was moved,
      a refused staging buffer leaves bytes in the channel for the retry, a
      BREAK is sent exactly when in reset, and a run that neither hit reset
      nor throttling ends drained or waiting for a buffer. */
  lemma {:induction false} PumpExitReasons(inReset: bool, rx: seq<byte>, ldisc: seq<LdiscStep>)
    ensures Pump(inReset, rx, ldisc).exit == Drained ==> Pump(inReset, rx, ldisc).consumed == |rx|
    ensures Pump(inReset, rx, ldisc).exit == NoBuffer ==> Pump(inReset, rx, ldisc).consumed < |rx|
    ensures Pump(inReset, rx, ldisc).exit == BreakSent <==> inReset
    ensures !inReset && (forall k :: 0 <= k < |ldisc| ==> !ldisc[k].throttled) ==>
              Pump(inReset, rx, ldisc).exit in {Drained, NoBuffer}
    decreases |rx|
  {
    if !inReset && !Head(ldisc).throttled && |rx| != 0 {
      var got := Min(Head(ldisc).grant, Min(|rx|, MaxTtyBufSize));
      if got != 0 {
        PumpExitReasons(inReset, rx[got..], Tail(ldisc));
        assert forall k :: 0 <= k < |Tail(ldisc)| ==> Tail(ldisc)[k] == ldisc[k + 1];
      }
    }
  }

  /** `n` answers that each grant `g` bytes without throttling. */
  function Grants(n: nat, g: nat): (r: seq<LdiscStep>)
    ensures |r| == n && forall k :: 0 <= k < n ==> r[k] == LdiscStep(false, g)
  {
    seq(n, k => LdiscStep(false, g))
  }

  /** `n` chunks of `g` bytes. */
  function Repeat(n: nat, g: nat): (r: seq<nat>)
    ensures |r| == n && forall k :: 0 <= k < n ==> r[k] == g
  {
    seq(n, k => g)
  }

  /** Chunks of `g` bytes covering `len` bytes: full chunks, the last one
      shorter when `g` does not divide `len`. */
  function ChunkList(len: nat, g: nat): seq<nat>
    requires g > 0
    decreases len
  {
    if len == 0 then []
    else if len <= g then [len]
    else [g] + ChunkList(len - g, g)
  }

  /** ChunkList covers exactly `len` bytes, in chunks of at most `g` bytes
      of which all but the last are full. */
  lemma {:induction false} ChunkListCovers(len: nat, g: nat)
    requires g > 0
    ensures Total(ChunkList(len, g)) == len
    ensures forall k :: 0 <= k < |ChunkList(len, g)| ==> 0 < ChunkList(len, g)[k] <= g
    ensures forall k :: 0 <= k < |ChunkList(len, g)| - 1 ==> ChunkList(len, g)[k] == g
    decreases len
  {
    if len > g {
      var rest := ChunkList(len - g, g);
      ChunkListCovers(len - g, g);
      assert ([g] + rest)[1..] == rest;
    }
  }

  /** A length that is a multiple of `g` splits into full chunks only. */
  lemma {:induction false} ChunkListOfMultiple(k: nat, g: nat)
    requires g > 0
    ensures ChunkList(k * g, g) == Repeat(k, g)
  {
    if k > 1 {
      assert k * g - g == (k - 1) * g;
      ChunkListOfMultiple(k - 1, g);
      assert ChunkList(k * g, g) == [g] + Repeat(k - 1, g);
    }
  }

  /** With a line discipline that grants `g` bytes (at most MaxTtyBufSize)
      per buffer request and at least as many requests as there are chunks,
      a run drains the channel in the chunks of ChunkList. */
  lemma {:induction false} PumpUniformGrants(rx: seq<byte>, g: nat, n: nat)
    requires 0 < g <= MaxTtyBufSize
    requires |ChunkList(|rx|, g)| <= n
    ensures Pump(false, rx, Grants(n, g)).exit == Drained
    ensures Pump(false, rx, Grants(n, g)).consumed == |rx|
    ensures Pump(false, rx, Grants(n, g)).chunks == ChunkList(|rx|, g)
    decreases |rx|
  {
    PumpUnfold(false, rx, Grants(n, g));
    if |rx| == 0 {
      if n > 0 {
        TailGrants(n, g);
      }
    } else {
      var got := Min(g, Min(|rx|, MaxTtyBufSize));
      assert ChunkList(|rx|, g) == [got] + ChunkList(|rx| - got, g);
      TailGrants(n, g);
      PumpUniformGrants(rx[got..], g, n - 1);
      var q := Pump(false, rx[got..], Grants(n - 1, g));
      assert Pump(false, rx, Grants(n, g)) == Prepend(rx[..got], q);
      assert |rx[..got]| == got && q.consumed == |rx| - got;
    }
  }

  lemma TailGrants(n: nat, g: nat)
    requires n > 0
    ensures Head(Grants(n, g)) == LdiscStep(false, g)
    ensures Tail(Grants(n, g)) == Grants(n - 1, g)
  {
    assert forall k :: 0 <= k < n - 1 ==> Tail(Grants(n, g))[k] == Grants(n - 1, g)[k];
  }

  /** When the length is a multiple of the grant, every chunk is a full
      grant, and all bytes arrive in order and without loss. */
  lemma UniformGrantsOfMultiple(rx: seq<byte>, k: nat, g: nat)
    requires 0 < g <= MaxTtyBufSize && |rx| == k * g
    ensures Pump(false, rx, Grants(k, g)).chunks == Repeat(k, g)
    ensures Pump(false, rx, Grants(k, g)).delivered == AsItems(rx)
  {
    ChunkListOfMultiple(k, g);
    PumpUniformGrants(rx, g, k);
    PumpDeliversPrefix(false, rx, Grants(k, g));
    assert rx[..|rx|] == rx;
  }

  /** 5000 bytes with a line discipline granting 500 bytes per request are
      moved in ten chunks of 500 bytes, in order and without loss. */
  lemma FiveThousandInChunksOfFiveHundred(rx: seq<byte>)
    requires |rx| == 5000
    ensures Pump(false, rx, Grants(10, 500)).chunks == Repeat(10, 500)
    ensures Pump(false, rx, Grants(10, 500)).delivered == AsItems(rx)
  {
    UniformGrantsOfMultiple(rx, 10, 500);
  }
}
