/**
 * From captured samples to the frames offered to voice detection and encoding (the capture
 * loop of lib.rs and the block accumulation of dsp.rs). The denoiser itself is any map on
 * 480-sample blocks that carries a state and reports a voice probability.
 */
module Capture {
  import opened Words

  const FRAME_SAMPLES: nat := 120
  const BLOCK: nat := 480

  datatype Denoiser<!D, !S, !P> = Denoiser(init: D, quiet: P, step: (D, seq<S>) -> (D, seq<S>, P))

  /** A denoiser gives back as many samples as it takes. */
  ghost predicate BlockMap<D(!new), S(!new), P(!new)>(m: Denoiser<D, S, P>) {
    forall d, b | |b| == 480 :: |m.step(d, b).1| == 480
  }

  datatype Suppressor<D, S, P> =
    Suppressor(state: D, accum: seq<S>, outputBuf: seq<S>, lastProb: P, enabled: bool)

  /** One frame offered to the voice detector and, past the gate, to the encoder. */
  datatype Offer<S, P> = Offer(chunk: seq<S>, prob: Option<P>)

  datatype Capture<D, S, P> = Capture(accum: seq<S>, ns: Suppressor<D, S, P>)

  function Fresh<D, S, P>(m: Denoiser<D, S, P>, enabled: bool): Capture<D, S, P> {
    Capture([], Suppressor(m.init, [], [], m.quiet, enabled))
  }

  /** `NoiseSuppressor::process`: at most one block per call. */
  function Process<D, S, P>(m: Denoiser<D, S, P>, ns: Suppressor<D, S, P>, frame: seq<S>)
    : (Suppressor<D, S, P>, Option<seq<S>>)
  {
    if !ns.enabled then (ns, Some(frame))
    else
      var all := ns.accum + frame;
      var ns1 :=
        if |all| >= BLOCK then
          var (d, out, prob) := m.step(ns.state, all[..BLOCK]);
          Suppressor(d, all[BLOCK..], ns.outputBuf + out, prob, true)
        else ns.(accum := all);
      if ns1.outputBuf != [] then (ns1.(outputBuf := []), Some(ns1.outputBuf)) else (ns1, None)
  }

  /** Whole frames of a denoised run of samples; a short rest would be dropped. */
  function Offers<S, P>(samples: seq<S>, prob: Option<P>): seq<Offer<S, P>> {
    if |samples| < FRAME_SAMPLES then []
    else [Offer(samples[..FRAME_SAMPLES], prob)] + Offers(samples[FRAME_SAMPLES..], prob)
  }

  /** One frame through the suppressor. */
  function Step<D, S, P>(m: Denoiser<D, S, P>, c: Capture<D, S, P>): (Capture<D, S, P>, seq<Offer<S, P>>)
    requires |c.accum| >= 120
  {
    var (ns, out) := Process(m, c.ns, c.accum[..FRAME_SAMPLES]);
    (Capture(c.accum[FRAME_SAMPLES..], ns),
     if out.Some? then Offers(out.value, if ns.enabled then Some(ns.lastProb) else None) else [])
  }

  function Drain<D, S, P>(m: Denoiser<D, S, P>, c: Capture<D, S, P>): (Capture<D, S, P>, seq<Offer<S, P>>)
    decreases |c.accum|
  {
    if |c.accum| < FRAME_SAMPLES then (c, [])
    else
      var (c1, first) := Step(m, c);
      var (c2, rest) := Drain(m, c1);
      (c2, first + rest)
  }

  function Feed<D, S, P>(m: Denoiser<D, S, P>, c: Capture<D, S, P>, chunk: seq<S>)
    : (Capture<D, S, P>, seq<Offer<S, P>>)
  {
    Drain(m, c.(accum := c.accum + chunk))
  }

  // ---------------------------------------------------------------------
  // Between reads, nothing but short residues.
  // ---------------------------------------------------------------------

  ghost predicate Tidy<D, S, P>(ns: Suppressor<D, S, P>) {
    ns.outputBuf == [] && |ns.accum| <= 360 && |ns.accum| % 120 == 0
  }

  /** Consecutive slices of 120 samples in their order, all with the given probability. */
  ghost predicate Slices<S, P>(offers: seq<Offer<S, P>>, samples: seq<S>, prob: Option<P>) {
    && 120 * |offers| <= |samples| < 120 * (|offers| + 1)
    && forall k | 0 <= k < |offers| ::
         offers[k].prob == prob && offers[k].chunk == samples[120 * k..120 * k + 120]
  }

  lemma {:induction false} OffersAreSlices<S, P>(samples: seq<S>, prob: Option<P>)
    ensures Slices(Offers(samples, prob), samples, prob)
    decreases |samples|
  {
    if |samples| >= FRAME_SAMPLES {
      var rest := samples[120..];
      OffersAreSlices(rest, prob);
      assert forall k: nat | 120 * k + 120 <= |rest| :: rest[120 * k..120 * k + 120] == samples[120 * (k + 1)..120 * (k + 1) + 120];
    }
  }

  lemma OffersCount<S, P>(samples: seq<S>, prob: Option<P>)
    requires |samples| % 120 == 0
    ensures 120 * |Offers(samples, prob)| == |samples|
    ensures forall k | 0 <= k < |Offers(samples, prob)| :: |Offers(samples, prob)[k].chunk| == 120
  {
    OffersAreSlices(samples, prob);
    hide Offers;
  }

  /** The short-chunk break is never taken: what the suppressor returns is whole frames. */
  lemma ProcessWholeFrames<D(!new), S(!new), P(!new)>(m: Denoiser<D, S, P>, ns: Suppressor<D, S, P>, frame: seq<S>)
    requires BlockMap(m) && Tidy(ns) && |frame| == 120
    ensures var (ns', out) := Process(m, ns, frame);
            && Tidy(ns') && ns'.enabled == ns.enabled
            && (out.Some? ==> |out.value| % 120 == 0)
            && |ns.accum| + 120 == |ns'.accum| + if out.Some? then |out.value| else 0
  {
  }

  lemma StepConserves<D(!new), S(!new), P(!new)>(m: Denoiser<D, S, P>, c: Capture<D, S, P>)
    requires BlockMap(m) && Tidy(c.ns) && |c.accum| >= 120
    ensures var (c', offers) := Step(m, c);
            && Tidy(c'.ns) && c'.ns.enabled == c.ns.enabled
            && |c.accum| + |c.ns.accum| == 120 * |offers| + |c'.accum| + |c'.ns.accum|
            && (forall k | 0 <= k < |offers| :: |offers[k].chunk| == 120)
  {
    var (ns, out) := Process(m, c.ns, c.accum[..FRAME_SAMPLES]);
    ProcessWholeFrames(m, c.ns, c.accum[..FRAME_SAMPLES]);
    if out.Some? { OffersCount(out.value, if ns.enabled then Some(ns.lastProb) else None); }
    hide Process, Offers;
  }

  lemma {:induction false} DrainConserves<D(!new), S(!new), P(!new)>(m: Denoiser<D, S, P>, c: Capture<D, S, P>)
    requires BlockMap(m) && Tidy(c.ns)
    ensures var (c', offers) := Drain(m, c);
            && Tidy(c'.ns) && c'.ns.enabled == c.ns.enabled && |c'.accum| < 120
            && |c.accum| + |c.ns.accum| == 120 * |offers| + |c'.accum| + |c'.ns.accum|
            && (forall k | 0 <= k < |offers| :: |offers[k].chunk| == 120)
    decreases |c.accum|
  {
    if |c.accum| >= FRAME_SAMPLES {
      StepConserves(m, c);
      DrainConserves(m, Step(m, c).0);
      hide Step;
    }
  }

  datatype CaptureEvent<S> = Read(chunk: seq<S>) | SetEnabled(on: bool)

  function Happen<D, S, P>(m: Denoiser<D, S, P>, c: Capture<D, S, P>, e: CaptureEvent<S>)
    : (Capture<D, S, P>, seq<Offer<S, P>>)
  {
    match e
    case Read(chunk) => Feed(m, c, chunk)
    case SetEnabled(on) => (c.(ns := c.ns.(enabled := on)), [])
  }

  function History<D, S, P>(m: Denoiser<D, S, P>, on: bool, es: seq<CaptureEvent<S>>)
    : (Capture<D, S, P>, seq<Offer<S, P>>)
  {
    if es == [] then (Fresh(m, on), [])
    else
      var (c, offers) := History(m, on, es[..|es| - 1]);
      var (c', more) := Happen(m, c, es[|es| - 1]);
      (c', offers + more)
  }

  function SamplesRead<S>(es: seq<CaptureEvent<S>>): seq<S> {
    if es == [] then []
    else SamplesRead(es[..|es| - 1]) + if es[|es| - 1].Read? then es[|es| - 1].chunk else []
  }

  /**
   * Conservation under any toggling: samples in are samples offered plus the residues,
   * fewer than 120 in the accumulator and at most 360 in the suppressor.
   */
  lemma {:induction false} SamplesConserved<D(!new), S(!new), P(!new)>(m: Denoiser<D, S, P>, on: bool, es: seq<CaptureEvent<S>>)
    requires BlockMap(m)
    ensures var (c, offers) := History(m, on, es);
            && Tidy(c.ns) && |c.accum| < 120
            && |SamplesRead(es)| == 120 * |offers| + |c.accum| + |c.ns.accum|
            && (forall k | 0 <= k < |offers| :: |offers[k].chunk| == 120)
  {
    if es != [] {
      var init, last := es[..|es| - 1], es[|es| - 1];
      SamplesConserved(m, on, init);
      var c := History(m, on, init).0;
      if last.Read? { DrainConserves(m, c.(accum := c.accum + last.chunk)); }
      hide Drain;
    }
  }

  // ---------------------------------------------------------------------
  // With the setting fixed, slicing does not matter.
  // ---------------------------------------------------------------------

  /** Reference, suppression on: denoise 480-sample blocks in order, offer each as frames. */
  function BlocksOf<D, S, P>(m: Denoiser<D, S, P>, d: D, samples: seq<S>): seq<Offer<S, P>>
    decreases |samples|
  {
    if |samples| < BLOCK then []
    else
      var (d', out, prob) := m.step(d, samples[..BLOCK]);
      Offers(out, Some(prob)) + BlocksOf(m, d', samples[BLOCK..])
  }

  /** Reference for either setting, from the samples alone. */
  function FramesOf<D, S, P>(m: Denoiser<D, S, P>, on: bool, d: D, samples: seq<S>): seq<Offer<S, P>> {
    if on then BlocksOf(m, d, samples) else Offers(samples, None)
  }

  /** Samples taken in but not yet offered, oldest first (a disabled suppressor holds none). */
  function Pending<D, S, P>(c: Capture<D, S, P>): seq<S> { c.ns.accum + c.accum }

  ghost predicate Settled<D, S, P>(c: Capture<D, S, P>, on: bool) {
    Tidy(c.ns) && c.ns.enabled == on && (!on ==> c.ns.accum == [])
  }

  lemma StepOn<D(!new), S(!new), P(!new)>(m: Denoiser<D, S, P>, c: Capture<D, S, P>, future: seq<S>)
    requires BlockMap(m) && Settled(c, true) && |c.accum| >= 120
    ensures var (c', offers) := Step(m, c);
            && Settled(c', true)
            && BlocksOf(m, c.ns.state, Pending(c) + future)
               == offers + BlocksOf(m, c'.ns.state, Pending(c') + future)
  {
    var (c', offers) := Step(m, c);
    var all, coming := c.ns.accum + c.accum[..FRAME_SAMPLES], Pending(c) + future;
    assert c.accum == c.accum[..FRAME_SAMPLES] + c.accum[FRAME_SAMPLES..];
    ProcessWholeFrames(m, c.ns, c.accum[..FRAME_SAMPLES]);
    if |all| < BLOCK {
      assert Pending(c') + future == coming;
    } else {
      assert coming[..BLOCK] == all[..BLOCK] == all;
      assert coming[BLOCK..] == Pending(c') + future;
      assert c.ns.outputBuf + m.step(c.ns.state, all).1 == m.step(c.ns.state, all).1;
    }
  }

  lemma StepOff<D, S, P>(m: Denoiser<D, S, P>, c: Capture<D, S, P>, future: seq<S>)
    requires Settled(c, false) && |c.accum| >= 120
    ensures var (c', offers) := Step(m, c);
            && Settled(c', false)
            && Offers<S, P>(Pending(c) + future, None) == offers + Offers(Pending(c') + future, None)
  {
    var coming, frame := Pending(c) + future, c.accum[..FRAME_SAMPLES];
    var c' := Step(m, c).0;
    assert coming[..FRAME_SAMPLES] == frame && coming[FRAME_SAMPLES..] == Pending(c') + future;
    assert frame[..FRAME_SAMPLES] == frame && frame[FRAME_SAMPLES..] == [];
    assert Offers<S, P>(frame, None) == [Offer(frame, None)];
  }

  lemma {:induction false} DrainFollows<D(!new), S(!new), P(!new)>(m: Denoiser<D, S, P>, on: bool, c: Capture<D, S, P>, future: seq<S>)
    requires BlockMap(m) && Settled(c, on)
    ensures var (c', offers) := Drain(m, c);
            && Settled(c', on) && |c'.accum| < 120
            && FramesOf(m, on, c.ns.state, Pending(c) + future)
               == offers + FramesOf(m, on, c'.ns.state, Pending(c') + future)
    decreases |c.accum|
  {
    if |c.accum| >= FRAME_SAMPLES {
      var (c1, first) := Step(m, c);
      if on { StepOn(m, c, future); } else { StepOff(m, c, future); }
      DrainFollows(m, on, c1, future);
      var (c2, rest) := Drain(m, c1);
      hide Step, FramesOf, Pending, Settled, BlockMap;
      Concat3(first, rest, FramesOf(m, on, c2.ns.state, Pending(c2) + future));
    }
  }

  lemma FeedFollows<D(!new), S(!new), P(!new)>(m: Denoiser<D, S, P>, on: bool, c: Capture<D, S, P>, chunk: seq<S>, future: seq<S>)
    requires BlockMap(m) && Settled(c, on)
    ensures var (c', offers) := Feed(m, c, chunk);
            && Settled(c', on) && |c'.accum| < 120
            && FramesOf(m, on, c.ns.state, Pending(c) + (chunk + future))
               == offers + FramesOf(m, on, c'.ns.state, Pending(c') + future)
  {
    var fed := c.(accum := c.accum + chunk);
    assert Feed(m, c, chunk) == Drain(m, fed);
    assert Settled(fed, on);
    hide *;
    DrainFollows(m, on, fed, future);
    PendingFed(c, chunk, future);
  }

  lemma PendingFed<D, S, P>(c: Capture<D, S, P>, chunk: seq<S>, future: seq<S>)
    ensures Pending(c) + (chunk + future) == Pending(c.(accum := c.accum + chunk)) + future
  {
  }

  /** Feed the chunks of a fixed setting one after the other. */
  function FeedAll<D, S, P>(m: Denoiser<D, S, P>, on: bool, chunks: seq<seq<S>>): (Capture<D, S, P>, seq<Offer<S, P>>) {
    if chunks == [] then (Fresh(m, on), [])
    else
      var (c, offers) := FeedAll(m, on, chunks[..|chunks| - 1]);
      var (c', more) := Feed(m, c, chunks[|chunks| - 1]);
      (c', offers + more)
  }

  function Joined<S>(chunks: seq<seq<S>>): seq<S> {
    if chunks == [] then [] else Joined(chunks[..|chunks| - 1]) + chunks[|chunks| - 1]
  }

  lemma {:induction false} FeedAllFollows<D(!new), S(!new), P(!new)>(m: Denoiser<D, S, P>, on: bool, chunks: seq<seq<S>>, future: seq<S>)
    requires BlockMap(m)
    ensures var (c, offers) := FeedAll(m, on, chunks);
            && Settled(c, on) && |c.accum| < 120
            && FramesOf(m, on, m.init, Joined(chunks) + future)
               == offers + FramesOf(m, on, c.ns.state, Pending(c) + future)
    decreases |chunks|
  {
    if chunks == [] {
      assert Joined(chunks) + future == Pending(Fresh(m, on)) + future;
      assert FramesOf(m, on, m.init, future) == [] + FramesOf(m, on, m.init, future);
    } else {
      var init, last := chunks[..|chunks| - 1], chunks[|chunks| - 1];
      FeedAllUnfolds(m, on, chunks, future);
      hide *;
      FeedAllFollows(m, on, init, last + future);
      var (c, offers) := FeedAll(m, on, init);
      FeedFollows(m, on, c, last, future);
      var (c', more) := Feed(m, c, last);
      Concat3(offers, more, FramesOf(m, on, c'.ns.state, Pending(c') + future));
    }
  }

  lemma Concat3<X>(a: seq<X>, b: seq<X>, c: seq<X>)
    ensures a + (b + c) == (a + b) + c
  {
  }

  lemma FeedAllUnfolds<D, S, P>(m: Denoiser<D, S, P>, on: bool, chunks: seq<seq<S>>, future: seq<S>)
    requires chunks != []
    ensures var init, last := chunks[..|chunks| - 1], chunks[|chunks| - 1];
            var (c, offers) := FeedAll(m, on, init);
            var (c', more) := Feed(m, c, last);
            && FeedAll(m, on, chunks) == (c', offers + more)
            && Joined(init) + (last + future) == Joined(chunks) + future
  {
    hide Feed;
  }

  /**
   * Chunking independence: with a fixed setting the frames offered are a function of the
   * captured samples, however the ring buffer sliced them.
   */
  lemma SlicingDoesNotMatter<D(!new), S(!new), P(!new)>(m: Denoiser<D, S, P>, on: bool, chunks: seq<seq<S>>)
    requires BlockMap(m)
    ensures FeedAll(m, on, chunks).1 == FramesOf(m, on, m.init, Joined(chunks))
  {
    FeedAllFollows(m, on, chunks, []);
    var (c, offers) := FeedAll(m, on, chunks);
    assert Joined(chunks) + [] == Joined(chunks) && Pending(c) + [] == Pending(c);
    assert |Pending(c)| < if on then BLOCK else FRAME_SAMPLES;
    assert FramesOf(m, on, c.ns.state, Pending(c)) == [];
    assert offers + [] == offers;
    hide FeedAll, Pending, Joined, BlockMap;
  }

  // ---------------------------------------------------------------------
  // Frame by frame.
  // ---------------------------------------------------------------------

  /** The denoiser's state after the first n blocks of the samples. */
  function StateAfter<D, S, P>(m: Denoiser<D, S, P>, d: D, samples: seq<S>, n: nat): D
    requires 480 * n <= |samples|
  {
    if n == 0 then d else m.step(StateAfter(m, d, samples, n - 1), samples[480 * (n - 1)..480 * n]).0
  }

  /** What the denoiser makes of block n. */
  function Denoised<D, S, P>(m: Denoiser<D, S, P>, d: D, samples: seq<S>, n: nat): (D, seq<S>, P)
    requires 480 * n + 480 <= |samples|
  {
    m.step(StateAfter(m, d, samples, n), samples[480 * n..480 * n + 480])
  }

  lemma {:induction false} StateAfterFirst<D, S, P>(m: Denoiser<D, S, P>, d: D, samples: seq<S>, n: nat)
    requires 480 * n + 480 <= |samples|
    ensures StateAfter(m, d, samples, n + 1) == StateAfter(m, m.step(d, samples[..480]).0, samples[480..], n)
  {
    if n > 0 {
      StateAfterFirst(m, d, samples, n - 1);
      assert samples[480..][480 * (n - 1)..480 * n] == samples[480 * n..480 * (n + 1)];
    } else {
      assert StateAfter(m, d, samples, 0) == d;
    }
  }

  /** The frame is the k-th slice of 120 of the denoised blocks, with its block's probability. */
  ghost predicate BlockSlice<D, S, P>(m: Denoiser<D, S, P>, d: D, samples: seq<S>, offer: Offer<S, P>, k: nat) {
    && 480 * (k / 4) + 480 <= |samples|
    && var ((_, out, prob), i) := (Denoised(m, d, samples, k / 4), k % 4);
       |out| == 480 && offer.prob == Some(prob) && offer.chunk == out[120 * i..120 * i + 120]
  }

  ghost predicate BlockSlices<D, S, P>(m: Denoiser<D, S, P>, d: D, samples: seq<S>, offers: seq<Offer<S, P>>) {
    && |offers| == 4 * (|samples| / 480)
    && forall k | 0 <= k < |offers| :: BlockSlice(m, d, samples, offers[k], k)
  }

  lemma {:induction false} BlocksAreSlices<D(!new), S(!new), P(!new)>(m: Denoiser<D, S, P>, d: D, samples: seq<S>)
    requires BlockMap(m)
    ensures BlockSlices(m, d, samples, BlocksOf(m, d, samples))
    decreases |samples|
  {
    if |samples| >= BLOCK {
      var (d', out, prob) := m.step(d, samples[..480]);
      var rest := samples[480..];
      BlocksAreSlices(m, d', rest);
      OffersAreSlices(out, Some(prob));
      BlockJoins(m, d, samples, Offers(out, Some(prob)), BlocksOf(m, d', rest));
    }
  }

  lemma SliceOfRest<S>(samples: seq<S>, from: nat, at: nat, size: nat)
    requires from + at + size <= |samples|
    ensures samples[from..][at..at + size] == samples[from + at..from + at + size]
  {
  }

  lemma DenoisedLater<D, S, P>(m: Denoiser<D, S, P>, d: D, samples: seq<S>, n: nat)
    requires 480 * n + 960 <= |samples|
    ensures Denoised(m, d, samples, n + 1) == Denoised(m, m.step(d, samples[..480]).0, samples[480..], n)
  {
    StateAfterFirst(m, d, samples, n);
    SliceOfRest(samples, 480, 480 * n, 480);
  }

  lemma FirstBlock<D, S, P>(m: Denoiser<D, S, P>, d: D, samples: seq<S>, first: seq<Offer<S, P>>, k: nat)
    requires |samples| >= 480 && k < 4
    requires var (d', out, prob) := m.step(d, samples[..480]); |out| == 480 && Slices(first, out, Some(prob))
    ensures |first| == 4 && BlockSlice(m, d, samples, first[k], k)
  {
    assert k / 4 == 0 && k % 4 == k && Denoised(m, d, samples, 0) == m.step(d, samples[..480]);
  }

  lemma LaterBlock<D, S, P>(m: Denoiser<D, S, P>, d: D, samples: seq<S>, offer: Offer<S, P>, k: nat)
    requires |samples| >= 480 && BlockSlice(m, m.step(d, samples[..480]).0, samples[480..], offer, k)
    ensures BlockSlice(m, d, samples, offer, k + 4)
  {
    assert (k + 4) / 4 == k / 4 + 1 && (k + 4) % 4 == k % 4;
    DenoisedLater(m, d, samples, k / 4);
    hide Denoised;
  }

  lemma BlockJoins<D, S, P>(m: Denoiser<D, S, P>, d: D, samples: seq<S>, first: seq<Offer<S, P>>, more: seq<Offer<S, P>>)
    requires |samples| >= 480
    requires var (d', out, prob) := m.step(d, samples[..480]);
             |out| == 480 && Slices(first, out, Some(prob)) && BlockSlices(m, d', samples[480..], more)
    ensures BlockSlices(m, d, samples, first + more)
  {
    var offers := first + more;
    FirstBlock(m, d, samples, first, 0);
    assert |samples[480..]| / 480 == |samples| / 480 - 1;
    hide BlockSlice, Slices;
    forall k | 0 <= k < |offers| ensures BlockSlice(m, d, samples, offers[k], k) {
      if k < 4 { FirstBlock(m, d, samples, first, k); } else { LaterBlock(m, d, samples, more[k - 4], k - 4); }
    }
  }

  /**
   * However the captured samples were sliced: with suppression off the frames offered are the
   * samples' consecutive slices of 120, without a probability. With it on, frame k is slice
   * k mod 4 of what the denoiser makes of block k div 4 of 480 samples, the blocks taken in
   * order, with the probability reported for that block. Nothing is offered but whole slices.
   */
  lemma OfferedExactly<D(!new), S(!new), P(!new)>(m: Denoiser<D, S, P>, on: bool, chunks: seq<seq<S>>)
    requires BlockMap(m)
    ensures var (offers, samples) := (FeedAll(m, on, chunks).1, Joined(chunks));
            if on then BlockSlices(m, m.init, samples, offers) else Slices(offers, samples, None)
  {
    SlicingDoesNotMatter(m, on, chunks);
    if on { BlocksAreSlices(m, m.init, Joined(chunks)); } else { OffersAreSlices<S, P>(Joined(chunks), None); }
    hide BlocksOf, Offers, FeedAll, Joined, BlockSlices, Slices;
  }
}

/** The suppressor object of dsp.rs and the capture loop of lib.rs around it. */
module CaptureLoops {
  import opened Words
  import C = Capture

  class NoiseSuppressor<D, S, P> {
    const denoiser: C.Denoiser<D, S, P>
    var state: D
    var accum: seq<S>
    var outputBuf: seq<S>
    var lastVadProb: P
    var enabled: bool

    ghost function View(): C.Suppressor<D, S, P>
      reads this
    {
      C.Suppressor(state, accum, outputBuf, lastVadProb, enabled)
    }

    constructor (denoiser: C.Denoiser<D, S, P>, enabled: bool)
      ensures this.denoiser == denoiser && View() == C.Fresh(denoiser, enabled).ns
    {
      this.denoiser, state, accum := denoiser, denoiser.init, [];
      outputBuf, lastVadProb, this.enabled := [], denoiser.quiet, enabled;
    }

    method Process(frame: seq<S>) returns (out: Option<seq<S>>)
      modifies this
      ensures (View(), out) == C.Process(denoiser, old(View()), frame)
    {
      if !enabled {
        return Some(frame);
      }
      accum := accum + frame;
      if |accum| >= C.BLOCK {
        var block := accum[..C.BLOCK];
        accum := accum[C.BLOCK..];
        var (d, denoised, prob) := denoiser.step(state, block);
        state, lastVadProb := d, prob;
        outputBuf := outputBuf + denoised;
      }
      if outputBuf != [] {
        out := Some(outputBuf);
        outputBuf := [];
      } else {
        out := None;
      }
    }
  }

  /** Split denoised samples into frames, stopping at a short rest. */
  method OfferChunks<S, P>(samples: seq<S>, prob: Option<P>) returns (offers: seq<C.Offer<S, P>>)
    ensures offers == C.Offers(samples, prob) && C.Slices(offers, samples, prob)
  {
    hide C.Slices;
    offers := [];
    var at := 0;
    while at + C.FRAME_SAMPLES <= |samples|
      invariant at <= |samples|
      invariant offers + C.Offers(samples[at..], prob) == C.Offers(samples, prob)
    {
      var rest := samples[at..];
      var chunk := rest[..C.FRAME_SAMPLES];
      assert rest[C.FRAME_SAMPLES..] == samples[at + C.FRAME_SAMPLES..];
      offers := offers + [C.Offer(chunk, prob)];
      at := at + C.FRAME_SAMPLES;
    }
    C.OffersAreSlices(samples, prob);
  }

  class CaptureLoop<D, S, P> {
    var accum: seq<S>
    const ns: NoiseSuppressor<D, S, P>

    ghost function View(): C.Capture<D, S, P>
      reads this, ns
    {
      C.Capture(accum, ns.View())
    }

    constructor (denoiser: C.Denoiser<D, S, P>, enabled: bool)
      ensures fresh(ns) && ns.denoiser == denoiser && View() == C.Fresh(denoiser, enabled)
    {
      accum := [];
      ns := new NoiseSuppressor(denoiser, enabled);
    }

    /** One pass of the loop: take what was read, offer every frame that is ready. */
    method Feed(read: seq<S>) returns (offers: seq<C.Offer<S, P>>)
      modifies this, ns
      ensures (View(), offers) == C.Feed(ns.denoiser, old(View()), read)
    {
      accum := accum + read;
      offers := [];
      ghost var whole := C.Drain(ns.denoiser, View());
      assert [] + whole.1 == whole.1;
      while |accum| >= C.FRAME_SAMPLES
        invariant var (c, rest) := C.Drain(ns.denoiser, View()); whole == (c, offers + rest)
        decreases |accum|
      {
        ghost var (c1, first) := C.Step(ns.denoiser, View());
        ghost var (c2, rest) := C.Drain(ns.denoiser, c1);
        assert whole == (c2, offers + (first + rest));
        C.Concat3(offers, first, rest);
        ghost var before := offers;
        var frame := accum[..C.FRAME_SAMPLES];
        accum := accum[C.FRAME_SAMPLES..];
        var processed := ns.Process(frame);
        if processed.Some? {
          var prob := if ns.enabled then Some(ns.lastVadProb) else None;
          var more := OfferChunks(processed.value, prob);
          offers := offers + more;
        }
        assert View() == c1 && offers == before + first;
      }
      assert offers + [] == offers;
    }
  }
}
