/**
 * What a sender has put on the air, told from the events of the run alone: which frames, under
 * which key, with which number and counter.
 */
module AudioReference {
  import opened Words
  import opened Wire
  import opened Crypto
  import opened AudioPath

  /** The frames spoken, in order. */
  function Frames(es: seq<AudioEvent>): seq<Opus> {
    if es == [] then []
    else
      var init, last := Frames(es[..|es| - 1]), es[|es| - 1];
      if last.Speak? then init + [last.opus] else init
  }

  /** Offers have gone both ways. */
  predicate Crossed(es: seq<AudioEvent>) { SenderOffers in es && SenderGetsKey in es }

  /** The event starts the counters of the context over. */
  predicate Restarts(e: AudioEvent, pair: bool) { e == if pair then SenderGetsKey else RenewShared }

  /** After these events, the next takes a counter of the context. */
  predicate Takes(es: seq<AudioEvent>, e: AudioEvent, pair: bool) {
    || (e.Speak? && Crossed(es) == pair)
    || (e.UseSharedCounter? && !pair)
  }

  /** How often a counter of the context was asked for since it last started over. */
  function Asked(es: seq<AudioEvent>, pair: bool): nat {
    if es == [] then 0
    else
      var init, last := es[..|es| - 1], es[|es| - 1];
      if Restarts(last, pair) then 0 else Asked(init, pair) + if Takes(init, last, pair) then 1 else 0
  }

  /** The packet in which a frame spoken after these events goes out, if any counter is left. */
  ghost predicate GoesOut(l: Link, es: seq<AudioEvent>, opus: Opus, f: Flight) {
    var pair := Crossed(es);
    var (n, counter) := (|Frames(es)|, Asked(es, pair));
    && counter < 0xFFFF_FFFF
    && f.position == n
    && f.packet.header == Header(0x01, l.sender, n % 0x1_0000, counter)
    && f.packet.body == Encrypt(if pair then l.pair else l.shared, f.packet.header, opus)
  }

  /** Event k spoke the frame that the packet carries. */
  ghost predicate SentAt(l: Link, es: seq<AudioEvent>, k: nat, f: Flight) {
    k < |es| && es[k].Speak? && GoesOut(l, es[..k], es[k].opus, f)
  }

  ghost predicate WasSent(l: Link, es: seq<AudioEvent>, f: Flight) { exists k :: SentAt(l, es, k, f) }

  /** Counters stop at 2^32 - 1. */
  function Capped(n: nat): u32 { if n < 0xFFFF_FFFF then n else 0xFFFF_FFFF }

  /** The sender's state is what the events say. */
  ghost predicate Told(es: seq<AudioEvent>, s: Sender) {
    && s.log == Frames(es) && s.sendSeq == |s.log| % 0x1_0000
    && (s.kxSent <==> SenderOffers in es)
    && (s.kxReceived <==> SenderGetsKey in es) && (s.pairCounter.Some? <==> SenderGetsKey in es)
    && s.sharedCounter == Capped(Asked(es, false))
    && (s.pairCounter.Some? ==> s.pairCounter.value == Capped(Asked(es, true)))
  }

  lemma InLonger(es: seq<AudioEvent>, e: AudioEvent)
    requires es != []
    ensures e in es <==> e in es[..|es| - 1] || e == es[|es| - 1]
  {
    assert es == es[..|es| - 1] + [es[|es| - 1]];
  }

  lemma SpeakTold(l: Link, es: seq<AudioEvent>, s: Sender, opus: Opus)
    requires es != [] && es[|es| - 1] == Speak(opus) && Told(es[..|es| - 1], s)
    ensures Told(es, SendAudio(l, s, opus).0)
  {
    InLonger(es, SenderOffers);
    InLonger(es, SenderGetsKey);
    hide Encrypt;
  }

  lemma SpeakGoesOut(l: Link, es: seq<AudioEvent>, s: Sender, opus: Opus, f: Flight)
    requires Told(es, s)
    ensures var p := SendAudio(l, s, opus).1;
            GoesOut(l, es, opus, f) <==> p.Some? && f == Flight(|s.log|, p.value)
  {
    hide Encrypt;
  }

  lemma OtherTold(l: Link, x: Path, es: seq<AudioEvent>)
    requires es != [] && !es[|es| - 1].Speak? && Told(es[..|es| - 1], x.sender)
    ensures var x' := Advance(l, x, es[|es| - 1]); Told(es, x'.sender) && x'.air == x.air
  {
    InLonger(es, SenderOffers);
    InLonger(es, SenderGetsKey);
    hide Incoming, Lands, OpenAudio;
  }

  lemma {:induction false} SenderIsTold(l: Link, es: seq<AudioEvent>)
    ensures Told(es, PathAfter(l, es).sender)
  {
    if es != [] {
      var init, last := es[..|es| - 1], es[|es| - 1];
      var x := PathAfter(l, init);
      SenderIsTold(l, init);
      if last.Speak? { SpeakTold(l, es, x.sender, last.opus); } else { OtherTold(l, x, es); }
      hide Told, SendAudio, Incoming, Lands;
    }
  }

  lemma SentSnoc(l: Link, es: seq<AudioEvent>, f: Flight)
    requires es != []
    ensures var (init, last) := (es[..|es| - 1], es[|es| - 1]);
            WasSent(l, es, f) <==> WasSent(l, init, f) || (last.Speak? && GoesOut(l, init, last.opus, f))
  {
    hide GoesOut;
    var n := |es| - 1;
    var init := es[..n];
    assert forall k: nat | k < n :: init[..k] == es[..k] && init[k] == es[k];
    assert forall k: nat | k < n :: SentAt(l, init, k, f) <==> SentAt(l, es, k, f);
    assert SentAt(l, es, n, f) <==> es[n].Speak? && GoesOut(l, init, es[n].opus, f);
  }

  /**
   * Over every run, a packet is on the air if and only if some event spoke it. The frame spoken
   * after n others has number n mod 2^16; it is sealed for the peer exactly if offers have gone
   * both ways; it carries as counter how often its context has been used since it was set up,
   * and goes out exactly if that is below 2^32 - 1. Its type is that of audio.
   */
  lemma {:induction false} AirIsReference(l: Link, es: seq<AudioEvent>, f: Flight)
    ensures f in PathAfter(l, es).air <==> WasSent(l, es, f)
    ensures PathAfter(l, es).sender.log == Frames(es)
  {
    SenderIsTold(l, es);
    if es != [] {
      var init, last := es[..|es| - 1], es[|es| - 1];
      var x := PathAfter(l, init);
      AirIsReference(l, init, f);
      SenderIsTold(l, init);
      SentSnoc(l, es, f);
      if last.Speak? { SpeakGoesOut(l, init, x.sender, last.opus, f); } else { OtherTold(l, x, es); }
      hide Told, SendAudio, GoesOut, Incoming, Lands, WasSent;
    }
  }
}
