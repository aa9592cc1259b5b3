// From the transmit FIFO of one streamer to the receive buffer of the other: the frame printed by
// TxStreamer, carried over a link with arbitrary gaps, is read back by RxStreamer.
module FrameRoundTrip {
  import opened EscapeCode
  import FrameEnding
  import Tx = TxStreamer
  import Fabric = FabricFrames
  import Rx = RxStreamer
  import Buffer = DroppingBuffer

  // ----- the parser fed with symbols -----

  /** The open sub-frame ends in the check word of everything before it. */
  predicate Good(p: Rx.Parser, crc: seq<Chunk> -> Chunk) {
    var body := Tx.Flat(p.words) + p.rest;
    body != [] && body[|body| - 1] == crc([p.header] + body[..|body| - 1])
  }

  predicate Listening(p: Rx.Parser) {
    p.ctl.mode == Rx.SUBFRAME_HEADER || p.ctl.mode == Rx.PAYLOAD
  }

  /** The control part of one symbol inside a frame, without gaps. */
  function FeedMode(mode: Rx.Mode, x: Symbol): Rx.Mode {
    if !x.escape then mode
    else if mode == Rx.SUBFRAME_HEADER || x.data >= 0x8000 then Rx.PAYLOAD else Rx.FRAME_END
  }

  function Feed(p: Rx.Parser, x: Symbol, crc: seq<Chunk> -> Chunk, c: nat): Rx.Parser {
    if !Listening(p) then p
    else
      var t :=
        if p.ctl.mode == Rx.SUBFRAME_HEADER then (if x.escape then p.(header := x.data) else p)
        else if x.escape then Rx.Close(p, x.data, Good(p, crc), c)
        else Rx.ParseChunk(p, x.data, c);
      t.(ctl := p.ctl.(mode := FeedMode(p.ctl.mode, x)))
  }

  function FeedAll(p: Rx.Parser, xs: seq<Symbol>, crc: seq<Chunk> -> Chunk, c: nat): Rx.Parser {
    if xs == [] then p else Feed(FeedAll(p, xs[..|xs| - 1], crc, c), xs[|xs| - 1], crc, c)
  }

  lemma {:induction false} FeedAppend(p: Rx.Parser, xs: seq<Symbol>, x: Symbol, crc: seq<Chunk> -> Chunk, c: nat)
    ensures FeedAll(p, xs + [x], crc, c) == Feed(FeedAll(p, xs, crc, c), x, crc, c)
  {
    assert (xs + [x])[..|xs|] == xs;
  }

  lemma {:induction false} FeedConcat(p: Rx.Parser, xs: seq<Symbol>, ys: seq<Symbol>, crc: seq<Chunk> -> Chunk, c: nat)
    ensures FeedAll(p, xs + ys, crc, c) == FeedAll(FeedAll(p, xs, crc, c), ys, crc, c)
  {
    hide Feed;
    if ys == [] {
      assert xs + ys == xs;
    } else {
      var n := |ys| - 1;
      FeedConcat(p, xs, ys[..n], crc, c);
      FeedAppend(p, xs + ys[..n], ys[n], crc, c);
      assert xs + ys == xs + ys[..n] + [ys[n]];
    }
  }

  // ----- feeding sub-frames -----

  /** A sub-frame as the user sees it. */
  function Flagged(ws: seq<Word>, c: nat): seq<Rx.Entry> {
    Rx.Flagged(ws, [0], c)
  }

  function Delivered(bs: seq<Tx.Block>, c: nat): seq<Rx.Entry> {
    if bs == [] then [] else Delivered(bs[..|bs| - 1], c) + Flagged(bs[|bs| - 1].words, c)
  }

  predicate Typed(b: Tx.Block, c: nat) {
    b.header >= 0x8000 && forall w | w in b.words :: |w| == c
  }

  lemma FeedChunk(p: Rx.Parser, w: Word, n: nat, crc: seq<Chunk> -> Chunk, c: nat)
    requires p.ctl.mode == Rx.PAYLOAD && |w| == c >= 3 && 0 < n <= c && p.rest == w[..n - 1]
    ensures Feed(p, Symbol(false, w[n - 1]), crc, c)
      == if n < c then p.(rest := w[..n]) else p.(words := p.words + [w], rest := [])
  {
    hide Good, Rx.Close;
    assert w[..n - 1] + [w[n - 1]] == w[..n];
    assert n == c ==> w[..n] == w;
  }

  lemma {:induction false} FeedPartOfWord(p: Rx.Parser, w: Word, n: nat, crc: seq<Chunk> -> Chunk, c: nat)
    requires p.ctl.mode == Rx.PAYLOAD && p.rest == [] && |w| == c >= 3 && n <= c
    ensures FeedAll(p, Tx.Plain(w[..n]), crc, c)
      == if n < c then p.(rest := w[..n]) else p.(words := p.words + [w])
  {
    if n == 0 {
      hide Feed;
      assert Tx.Plain(w[..0]) == [];
    } else {
      assert Tx.Plain(w[..n]) == Tx.Plain(w[..n - 1]) + [Symbol(false, w[n - 1])];
      hide *;
      FeedPartOfWord(p, w, n - 1, crc, c);
      FeedChunk(p.(rest := w[..n - 1]), w, n, crc, c);
      FeedAppend(p, Tx.Plain(w[..n - 1]), Symbol(false, w[n - 1]), crc, c);
    }
  }

  lemma PlainConcat(xs: seq<Chunk>, ys: seq<Chunk>)
    ensures Tx.Plain(xs + ys) == Tx.Plain(xs) + Tx.Plain(ys)
  {}

  lemma {:induction false} FlatStep(ws: seq<Word>)
    requires ws != []
    ensures Tx.Plain(Tx.Flat(ws)) == Tx.Plain(Tx.Flat(ws[..|ws| - 1])) + Tx.Plain(ws[|ws| - 1])
  {
    PlainConcat(Tx.Flat(ws[..|ws| - 1]), ws[|ws| - 1]);
  }

  lemma {:induction false} FeedWords(p: Rx.Parser, ws: seq<Word>, crc: seq<Chunk> -> Chunk, c: nat)
    requires p.ctl.mode == Rx.PAYLOAD && p.words == [] && p.rest == [] && c >= 3
    requires forall w | w in ws :: |w| == c
    ensures FeedAll(p, Tx.Plain(Tx.Flat(ws)), crc, c) == p.(words := ws)
  {
    if ws != [] {
      var n := |ws| - 1;
      assert ws[n] in ws && ws[n][..c] == ws[n] && ws[..n] + [ws[n]] == ws;
      FeedWords(p, ws[..n], crc, c);
      FeedPartOfWord(p.(words := ws[..n]), ws[n], c, crc, c);
      FlatStep(ws);
      hide FeedAll, Tx.Plain, Tx.Flat;
      FeedConcat(p, Tx.Plain(Tx.Flat(ws[..n])), Tx.Plain(ws[n]), crc, c);
    } else {
      assert Tx.Plain(Tx.Flat(ws)) == [];
    }
  }

  /** The parser inside a block, up to and including its check word. */
  ghost predicate Holds(p: Rx.Parser, b: Tx.Block, crc: seq<Chunk> -> Chunk) {
    p.ctl.mode == Rx.PAYLOAD && p.header == b.header && p.words == b.words
    && p.rest == [crc([b.header] + Tx.Flat(b.words))]
  }

  lemma HeldBlockIsGood(p: Rx.Parser, b: Tx.Block, crc: seq<Chunk> -> Chunk)
    requires Holds(p, b, crc)
    ensures Good(p, crc)
  {
    var body := Tx.Flat(p.words) + p.rest;
    assert body[..|body| - 1] == Tx.Flat(b.words);
  }

  lemma FeedHeader(p: Rx.Parser, held: Tx.Block, header: Chunk, crc: seq<Chunk> -> Chunk, c: nat)
    requires header >= 0x8000 && c >= 3
    requires p.ctl.mode == Rx.PAYLOAD ==> Holds(p, held, crc)
    requires Listening(p) && (p.ctl.mode == Rx.SUBFRAME_HEADER ==> p.words == [] && p.rest == [])
    ensures var q := Feed(p, Symbol(true, header), crc, c);
      && q.ctl == p.ctl.(mode := Rx.PAYLOAD) && q.header == header && q.words == [] && q.rest == []
      && q.delivered == if p.ctl.mode == Rx.PAYLOAD then p.delivered + Flagged(held.words, c) else p.delivered
  {
    if p.ctl.mode == Rx.PAYLOAD { HeldBlockIsGood(p, held, crc); }
  }

  lemma {:induction false} FeedSubFrame(p: Rx.Parser, held: Tx.Block, b: Tx.Block, crc: seq<Chunk> -> Chunk, c: nat)
    requires Typed(b, c) && c >= 3
    requires p.ctl.mode == Rx.PAYLOAD ==> Holds(p, held, crc)
    requires Listening(p) && (p.ctl.mode == Rx.SUBFRAME_HEADER ==> p.words == [] && p.rest == [])
    ensures var q := FeedAll(p, Tx.SubFrame(b, crc), crc, c);
      && Holds(q, b, crc)
      && q.delivered == if p.ctl.mode == Rx.PAYLOAD then p.delivered + Flagged(held.words, c) else p.delivered
  {
    var head, payload := Symbol(true, b.header), Tx.Plain(Tx.Flat(b.words));
    var check := Symbol(false, crc([b.header] + Tx.Flat(b.words)));
    FeedHeader(p, held, b.header, crc, c);
    var q := Feed(p, head, crc, c);
    FeedWords(q, b.words, crc, c);
    hide Feed, Good, Flagged;
    FeedConcat(p, [head], payload, crc, c);
    FeedOne(p, head, crc, c);
    FeedAppend(p, [head] + payload, check, crc, c);
    FeedCheck(q.(words := b.words), check.data, crc, c);
  }

  lemma {:induction false} FeedOne(p: Rx.Parser, x: Symbol, crc: seq<Chunk> -> Chunk, c: nat)
    ensures FeedAll(p, [x], crc, c) == Feed(p, x, crc, c)
  {
    FeedAppend(p, [], x, crc, c);
    assert [] + [x] == [x];
  }

  lemma FeedCheck(p: Rx.Parser, x: Chunk, crc: seq<Chunk> -> Chunk, c: nat)
    requires p.ctl.mode == Rx.PAYLOAD && p.rest == [] && c >= 3
    ensures Feed(p, Symbol(false, x), crc, c) == p.(rest := [x])
  {}

  /** The parser after the sub-frames bs: all but the last one have been delivered. */
  ghost predicate Read(p: Rx.Parser, q: Rx.Parser, bs: seq<Tx.Block>, crc: seq<Chunk> -> Chunk, c: nat) {
    if bs == [] then q == p
    else Holds(q, bs[|bs| - 1], crc) && q.delivered == p.delivered + Delivered(bs[..|bs| - 1], c)
  }

  lemma {:induction false} ReadStep(p: Rx.Parser, q: Rx.Parser, bs: seq<Tx.Block>, b: Tx.Block,
      crc: seq<Chunk> -> Chunk, c: nat)
    requires p.ctl.mode == Rx.SUBFRAME_HEADER && p.words == [] && p.rest == [] && c >= 3
    requires Read(p, q, bs, crc, c) && Typed(b, c)
    ensures Read(p, FeedAll(q, Tx.SubFrame(b, crc), crc, c), bs + [b], crc, c)
  {
    var held := if bs == [] then b else bs[|bs| - 1];
    ReadSoFar(p, q, bs, held, crc, c);
    hide *;
    FeedSubFrame(q, held, b, crc, c);
    ReadOneMore(p, FeedAll(q, Tx.SubFrame(b, crc), crc, c), bs, b, crc, c);
  }

  lemma {:induction false} ReadSoFar(p: Rx.Parser, q: Rx.Parser, bs: seq<Tx.Block>, held: Tx.Block,
      crc: seq<Chunk> -> Chunk, c: nat)
    requires p.ctl.mode == Rx.SUBFRAME_HEADER && p.words == [] && p.rest == [] && Read(p, q, bs, crc, c)
    requires bs != [] ==> held == bs[|bs| - 1]
    ensures Listening(q) && (q.ctl.mode == Rx.PAYLOAD ==> Holds(q, held, crc))
    ensures q.ctl.mode == Rx.SUBFRAME_HEADER ==> q.words == [] && q.rest == []
    ensures p.delivered + Delivered(bs, c)
      == if q.ctl.mode == Rx.PAYLOAD then q.delivered + Flagged(held.words, c) else q.delivered
  {
    ListeningAfter(p, bs, q, crc);
    if bs != [] { ReadAll(p, q, bs, crc, c); }
    hide Flagged, Holds, Listening;
    assert p.delivered + [] == p.delivered;
  }

  lemma {:induction false} ReadOneMore(p: Rx.Parser, q: Rx.Parser, bs: seq<Tx.Block>, b: Tx.Block,
      crc: seq<Chunk> -> Chunk, c: nat)
    requires Holds(q, b, crc) && q.delivered == p.delivered + Delivered(bs, c)
    ensures Read(p, q, bs + [b], crc, c)
  {
    hide Holds, Delivered;
    assert (bs + [b])[..|bs|] == bs;
  }

  lemma {:induction false} FeedSubFrames(p: Rx.Parser, bs: seq<Tx.Block>, crc: seq<Chunk> -> Chunk, c: nat)
    requires p.ctl.mode == Rx.SUBFRAME_HEADER && p.words == [] && p.rest == [] && c >= 3
    requires forall b | b in bs :: Typed(b, c)
    ensures Read(p, FeedAll(p, Tx.SubFrames(bs, crc), crc, c), bs, crc, c)
  {
    hide Typed, Tx.SubFrame, Read;
    if bs != [] {
      var n := |bs| - 1;
      var q := FeedAll(p, Tx.SubFrames(bs[..n], crc), crc, c);
      FeedSubFrames(p, bs[..n], crc, c);
      FeedConcat(p, Tx.SubFrames(bs[..n], crc), Tx.SubFrame(bs[n], crc), crc, c);
      assert bs[n] in bs;
      ReadStep(p, q, bs[..n], bs[n], crc, c);
      assert bs[..n] + [bs[n]] == bs;
    } else {
      NothingRead(p, bs, crc, c);
    }
  }

  lemma {:induction false} NothingRead(p: Rx.Parser, bs: seq<Tx.Block>, crc: seq<Chunk> -> Chunk, c: nat)
    requires bs == []
    ensures Read(p, p, bs, crc, c) && Tx.SubFrames(bs, crc) == []
  {}

  lemma ListeningAfter(p: Rx.Parser, bs: seq<Tx.Block>, q: Rx.Parser, crc: seq<Chunk> -> Chunk)
    requires p.ctl.mode == Rx.SUBFRAME_HEADER
    requires if bs == [] then q == p else Holds(q, bs[|bs| - 1], crc)
    ensures Listening(q) && (bs == [] <==> q.ctl.mode != Rx.PAYLOAD)
  {}

  lemma {:induction false} FeedPads(p: Rx.Parser, held: Tx.Block, n: nat, crc: seq<Chunk> -> Chunk, c: nat)
    requires Holds(p, held, crc) && c >= 3 && n >= 1
    ensures var q := FeedAll(p, Tx.Pads(n), crc, c);
      && q.ctl.mode == Rx.FRAME_END && q.words == [] && q.rest == []
      && q.delivered == p.delivered + Flagged(held.words, c)
  {
    var pad := Symbol(true, END_OF_FRAME);
    HeldBlockIsGood(p, held, crc);
    if n == 1 {
      assert Tx.Pads(1) == [pad];
      FeedOne(p, pad, crc, c);
    } else {
      assert Tx.Pads(n) == Tx.Pads(n - 1) + [pad];
      FeedPads(p, held, n - 1, crc, c);
      FeedAppend(p, Tx.Pads(n - 1), pad, crc, c);
    }
  }

  /** A whole frame of sub-frames, read symbol by symbol. */
  lemma {:induction false} FeedFrame(p: Rx.Parser, bs: seq<Tx.Block>, n: nat, crc: seq<Chunk> -> Chunk, c: nat)
    requires p.ctl.mode == Rx.SUBFRAME_HEADER && p.words == [] && p.rest == [] && c >= 3
    requires bs != [] && n >= 1 && forall b | b in bs :: Typed(b, c)
    ensures var q := FeedAll(p, Tx.SubFrames(bs, crc) + Tx.Pads(n), crc, c);
      !Listening(q) && q.words == [] && q.rest == [] && q.delivered == p.delivered + Delivered(bs, c)
  {
    hide *;
    var q, last := FeedAll(p, Tx.SubFrames(bs, crc), crc, c), bs[|bs| - 1];
    FeedSubFrames(p, bs, crc, c);
    ReadAll(p, q, bs, crc, c);
    FeedConcat(p, Tx.SubFrames(bs, crc), Tx.Pads(n), crc, c);
    FeedPads(q, last, n, crc, c);
    NotListening(FeedAll(q, Tx.Pads(n), crc, c));
  }

  lemma {:induction false} ReadAll(p: Rx.Parser, q: Rx.Parser, bs: seq<Tx.Block>, crc: seq<Chunk> -> Chunk, c: nat)
    requires Read(p, q, bs, crc, c) && bs != []
    ensures Holds(q, bs[|bs| - 1], crc)
      && q.delivered + Flagged(bs[|bs| - 1].words, c) == p.delivered + Delivered(bs, c)
  {
    hide Holds, Flagged;
    assert p.delivered + (Delivered(bs[..|bs| - 1], c) + Flagged(bs[|bs| - 1].words, c))
      == p.delivered + Delivered(bs[..|bs| - 1], c) + Flagged(bs[|bs| - 1].words, c);
  }

  lemma NotListening(q: Rx.Parser)
    requires q.ctl.mode == Rx.FRAME_END
    ensures !Listening(q)
  {}

  // ----- the parser, cycle by cycle -----

  function WordsOf(ins: seq<Rx.Input>): seq<Chunk> {
    if ins == [] then [] else Append(WordsOf(ins[..|ins| - 1]), ins[|ins| - 1].word)
  }

  /** Cycles in the middle of a frame. */
  ghost predicate MidFrame(ins: seq<Rx.Input>) {
    forall k | 0 <= k < |ins| :: !ins[k].sof && !ins[k].eof
  }

  /** The CRC checker, when a control word closes a sub-frame, tells whether its check word is right. */
  ghost predicate HonestAt(p: Rx.Parser, i: Rx.Input, crc: seq<Chunk> -> Chunk) {
    var sym := DetectorOut(p.check, i.word, p.ctl.detect);
    p.ctl.mode == Rx.PAYLOAD && sym.Some? && sym.value.escape ==> (i.crcMatch <==> Good(p, crc))
  }

  ghost predicate Honest(p: Rx.Parser, ins: seq<Rx.Input>, cfg: Rx.Config, crc: seq<Chunk> -> Chunk, c: nat) {
    ins == [] || (
      var before := ins[..|ins| - 1];
      Honest(p, before, cfg, crc, c) && HonestAt(Rx.ParseAll(p, before, cfg, c), ins[|ins| - 1], crc))
  }

  lemma StepFeeds(p: Rx.Parser, i: Rx.Input, cfg: Rx.Config, crc: seq<Chunk> -> Chunk, c: nat)
    requires Listening(p) && p.ctl.detect && !i.eof && HonestAt(p, i, crc)
    ensures var sym, check := DetectorOut(p.check, i.word, true), DetectorNext(p.check, i.word, true);
      Rx.Parse(p, i, cfg, c) == (if sym.Some? then Feed(p, sym.value, crc, c) else p).(check := check)
  {
    hide Good, Rx.Flagged, DetectorOut, DetectorNext;
  }

  /** What the clocked parser has in common with the one fed symbol by symbol; after the frame has been
      closed, only what was delivered. */
  ghost predicate Agrees(p: Rx.Parser, q: Rx.Parser, check: bool) {
    if Listening(q) then p == q.(check := check) && q.ctl.detect
    else
      && !Listening(p) && p.ctl.mode != Rx.HEADER && p.delivered == q.delivered
      && p.words == q.words && p.rest == q.rest && (p.ctl.detect ==> p.check == check)
  }

  lemma StepAfterFrame(p: Rx.Parser, q: Rx.Parser, check: bool, i: Rx.Input, cfg: Rx.Config, c: nat)
    requires Agrees(p, q, check) && !Listening(q) && !i.sof
    ensures Agrees(Rx.Parse(p, i, cfg, c), q, DetectorNext(check, i.word, true))
  {
    hide DetectorOut, DetectorNext;
  }

  lemma StepInFrame(p: Rx.Parser, q: Rx.Parser, check: bool, i: Rx.Input, cfg: Rx.Config, crc: seq<Chunk> -> Chunk,
      c: nat)
    requires Agrees(p, q, check) && Listening(q) && !i.sof && !i.eof && HonestAt(p, i, crc)
    ensures var sym := DetectorOut(check, i.word, true);
      Agrees(Rx.Parse(p, i, cfg, c), if sym.Some? then Feed(q, sym.value, crc, c) else q,
        DetectorNext(check, i.word, true))
  {
    StepFeeds(p, i, cfg, crc, c);
    var sym := DetectorOut(check, i.word, true);
    assert p == q.(check := check);
    assert Good(p, crc) == Good(q, crc);
    hide Good, Rx.Flagged, DetectorOut, DetectorNext, Rx.Parse;
  }

  /** Gaps and the detector's state apart, the parser is fed the symbols the words stand for. */
  lemma {:induction false} ParseFeeds(p: Rx.Parser, q: Rx.Parser, ins: seq<Rx.Input>, cfg: Rx.Config,
      crc: seq<Chunk> -> Chunk, c: nat)
    requires Agrees(p, q, false) && Listening(q) && MidFrame(ins) && Honest(p, ins, cfg, crc, c)
    ensures var d := Decode(WordsOf(ins));
      Agrees(Rx.ParseAll(p, ins, cfg, c), FeedAll(q, d.1, crc, c), d.0)
  {
    hide Agrees, Feed, HonestAt, DetectorOut, DetectorNext, Rx.Parse;
    if ins != [] {
      var before, i := ins[..|ins| - 1], ins[|ins| - 1];
      ParseFeeds(p, q, before, cfg, crc, c);
      var d := Decode(WordsOf(before));
      var p', q' := Rx.ParseAll(p, before, cfg, c), FeedAll(q, d.1, crc, c);
      DecodeStep(WordsOf(before), i.word);
      var sym := DetectorOut(d.0, i.word, true);
      if sym.Some? { FeedAppend(q, d.1, sym.value, crc, c); }
      if Listening(q') {
        StepInFrame(p', q', d.0, i, cfg, crc, c);
      } else {
        StepAfterFrame(p', q', d.0, i, cfg, c);
        if sym.Some? { FeedClosed(q', sym.value, crc, c); }
      }
    } else {
      DecodeNothing(WordsOf(ins));
    }
  }

  lemma FeedClosed(q: Rx.Parser, x: Symbol, crc: seq<Chunk> -> Chunk, c: nat)
    requires !Listening(q)
    ensures Feed(q, x, crc, c) == q
  {}

  lemma {:induction false} DecodeStep(ws: seq<Chunk>, word: Option<Chunk>)
    ensures var d := Decode(ws);
      Decode(Append(ws, word)) == (DetectorNext(d.0, word, true), Append(d.1, DetectorOut(d.0, word, true)))
  {
    if word.Some? {
      DecodeAppend(ws, word.value);
      DetectorIsDecoder(Decode(ws).0, word.value);
    }
  }

  // ----- the frame header -----

  /** The nine header words are not rejected by the receiver. */
  ghost predicate HeaderAccepted(cfg: Rx.Config, head: seq<Chunk>) {
    |head| == 9 && forall k: nat | k < 8 :: Rx.HeaderMode(cfg, k, head[k]) == Rx.HEADER
  }

  /** The receiver is set up for frames with these addresses and this type. */
  predicate Accepts(cfg: Rx.Config, title: seq<Chunk>) {
    |title| == 7 && forall k: nat | k < 7 :: Rx.ComparisonHolds(cfg, k, title[k])
  }

  /** This is what the comparisons in the header come to. */
  lemma NothingRejected(cfg: Rx.Config, title: seq<Chunk>)
    requires |title| == 7
    ensures Accepts(cfg, title) <==> forall k: nat | k < 7 :: !Rx.HeaderRejects(cfg, k, title[k])
  {
    hide Rx.ComparisonHolds, Rx.HeaderRejects;
    forall k: nat | k < 7 ensures Rx.ComparisonHolds(cfg, k, title[k]) <==> !Rx.HeaderRejects(cfg, k, title[k]) {
      Rx.ComparesHeader(cfg, k, title[k]);
    }
  }

  lemma HeaderIsAccepted(cfg: Rx.Config, head: seq<Chunk>, title: seq<Chunk>)
    requires |head| == 9 && head[..7] == title && Accepts(cfg, title)
    ensures HeaderAccepted(cfg, head)
  {
    NothingRejected(cfg, title);
    hide Rx.HeaderRejects, Accepts;
    forall k: nat | k < 8 ensures Rx.HeaderMode(cfg, k, head[k]) == Rx.HEADER {
      if k < 7 { assert head[k] == title[k]; } else { SeventhPasses(cfg, head[k]); }
    }
  }

  lemma SeventhPasses(cfg: Rx.Config, w: Chunk)
    ensures Rx.HeaderMode(cfg, 7, w) == Rx.HEADER
  {}

  /** The parser after n header words. */
  ghost predicate InHeader(p: Rx.Parser, q: Rx.Parser, n: nat) {
    && !q.check && q.words == p.words && q.rest == p.rest && q.delivered == p.delivered
    && q.ctl == if n < 9 then Rx.Control(Rx.HEADER, n, false) else Rx.Control(Rx.SUBFRAME_HEADER, 9, true)
  }

  lemma HeaderStep(p: Rx.Parser, q: Rx.Parser, n: nat, i: Rx.Input, cfg: Rx.Config, head: seq<Chunk>, c: nat)
    requires InHeader(p, q, n) && !i.sof && !i.eof && HeaderAccepted(cfg, head) && n <= 9
    requires i.word.Some? ==> n < 9 && i.word.value == head[n]
    ensures InHeader(p, Rx.Parse(q, i, cfg, c), if i.word.Some? then n + 1 else n)
  {
    hide Rx.HeaderRejects;
    if n < 8 { assert Rx.HeaderMode(cfg, n, head[n]) == Rx.HEADER; }
  }

  lemma {:induction false} ParseHeader(p: Rx.Parser, ins: seq<Rx.Input>, cfg: Rx.Config, head: seq<Chunk>, c: nat)
    requires InHeader(p, p, 0) && MidFrame(ins) && HeaderAccepted(cfg, head) && WordsOf(ins) <= head
    ensures InHeader(p, Rx.ParseAll(p, ins, cfg, c), |WordsOf(ins)|)
  {
    hide InHeader, HeaderAccepted, Rx.Parse;
    assert |head| == 9 by { HeaderLength(cfg, head); }
    if ins != [] {
      var m := |ins| - 1;
      assert WordsOf(ins[..m]) <= WordsOf(ins);
      ParseHeader(p, ins[..m], cfg, head, c);
      HeaderStep(p, Rx.ParseAll(p, ins[..m], cfg, c), |WordsOf(ins[..m])|, ins[m], cfg, head, c);
    }
  }

  lemma HeaderLength(cfg: Rx.Config, head: seq<Chunk>)
    requires HeaderAccepted(cfg, head)
    ensures |head| == 9
  {}

  // ----- cutting histories -----

  lemma {:induction false} SplitWords(ins: seq<Rx.Input>, a: seq<Chunk>, b: seq<Chunk>) returns (n: nat)
    requires WordsOf(ins) == a + b
    ensures n <= |ins| && WordsOf(ins[..n]) == a && WordsOf(ins[n..]) == b
  {
    if b == [] {
      n := |ins|;
      assert ins[..n] == ins && a + b == a;
    } else {
      var m, i := |ins| - 1, ins[|ins| - 1];
      var b' := if i.word.Some? then b[..|b| - 1] else b;
      hide WordsOf;
      assert ins == ins[..m] + [i];
      WordsAppend(ins[..m], i);
      if i.word.Some? { LastOfTwo(WordsOf(ins[..m]), i.word.value, a, b); }
      n := SplitWords(ins[..m], a, b');
      assert ins[..m][..n] == ins[..n] && ins[n..] == ins[..m][n..] + [i];
      WordsAppend(ins[..m][n..], i);
    }
  }

  lemma {:induction false} WordsAppend(ins: seq<Rx.Input>, i: Rx.Input)
    ensures WordsOf(ins + [i]) == Append(WordsOf(ins), i.word)
  {
    assert (ins + [i])[..|ins|] == ins;
  }

  lemma LastOfTwo<T>(s: seq<T>, x: T, a: seq<T>, b: seq<T>)
    requires s + [x] == a + b && b != []
    ensures s == a + b[..|b| - 1] && b == b[..|b| - 1] + [x]
  {
    assert (s + [x])[|s|] == (a + b)[|s|] == b[|b| - 1];
    assert s == (s + [x])[..|s|] == (a + b)[..|s|];
  }

  lemma {:induction false} ParseConcat(p: Rx.Parser, a: seq<Rx.Input>, b: seq<Rx.Input>, cfg: Rx.Config, c: nat)
    ensures Rx.ParseAll(p, a + b, cfg, c) == Rx.ParseAll(Rx.ParseAll(p, a, cfg, c), b, cfg, c)
  {
    hide Rx.Parse;
    if b == [] {
      assert a + b == a;
    } else {
      var n := |b| - 1;
      ParseConcat(p, a, b[..n], cfg, c);
      assert (a + b)[..|a| + n] == a + b[..n];
    }
  }

  lemma {:induction false} HonestConcat(p: Rx.Parser, a: seq<Rx.Input>, b: seq<Rx.Input>, cfg: Rx.Config,
      crc: seq<Chunk> -> Chunk, c: nat)
    requires Honest(p, a + b, cfg, crc, c)
    ensures Honest(Rx.ParseAll(p, a, cfg, c), b, cfg, crc, c)
  {
    hide Rx.Parse, HonestAt;
    if b != [] {
      var n := |b| - 1;
      assert (a + b)[..|a| + n] == a + b[..n];
      HonestConcat(p, a, b[..n], cfg, crc, c);
      ParseConcat(p, a, b[..n], cfg, c);
    }
  }

  // ----- the round trip -----

  /** A receiver between two frames. */
  ghost predicate Idle(p: Rx.Parser) {
    p.ctl.mode == Rx.IDLE && (p.ctl.detect ==> !p.check) && p.words == [] && p.rest == []
  }

  /** The start of a frame.  In the cycle behind the last frame it brings no word. */
  predicate Begins(p: Rx.Parser, sof: Rx.Input) {
    sof.sof && (p.ctl.detect ==> sof.word.None?)
  }

  // ----- frames on the link -----

  /** What one cycle brings. */
  function Brings(i: Rx.Input): seq<Fabric.Signal> {
    (if i.sof then [Fabric.Start] else []) + Fabric.WordSignal(i.word) + (if i.eof then [Fabric.End] else [])
  }

  function SignalsOf(ins: seq<Rx.Input>): seq<Fabric.Signal> {
    if ins == [] then [] else SignalsOf(ins[..|ins| - 1]) + Brings(ins[|ins| - 1])
  }

  /** The link brings these signals, from a start of frame to an end of frame, one at a time and with any gaps. */
  ghost predicate Carries(frame: seq<Rx.Input>, signals: seq<Fabric.Signal>) {
    && |frame| >= 2 && frame[0].sof && frame[|frame| - 1].eof && SignalsOf(frame) == signals
    && forall k | 0 <= k < |frame| :: |Brings(frame[k])| <= 1
  }

  /** The inputs between the first and the last. */
  function Middle(frame: seq<Rx.Input>): seq<Rx.Input>
    requires |frame| >= 2
  {
    frame[1..|frame| - 1]
  }

  lemma {:induction false} SignalsConcat(a: seq<Rx.Input>, b: seq<Rx.Input>)
    ensures SignalsOf(a + b) == SignalsOf(a) + SignalsOf(b)
  {
    hide Brings;
    if b == [] {
      assert a + b == a;
    } else {
      hide SignalsOf;
      var n := |b| - 1;
      assert a + b == a + b[..n] + [b[n]] && b == b[..n] + [b[n]];
      SignalsConcat(a, b[..n]);
      SignalsGrow(a + b[..n], b[n]);
      SignalsGrow(b[..n], b[n]);
    }
  }

  lemma SignalsOfOne(i: Rx.Input)
    ensures SignalsOf([i]) == Brings(i)
  {
    assert [i][..0] == [];
  }

  /** Where the signals are words only, there are words only. */
  lemma {:induction false} WordsOnly(ins: seq<Rx.Input>, ws: seq<Chunk>)
    requires SignalsOf(ins) == Fabric.Datas(ws) && forall k | 0 <= k < |ins| :: |Brings(ins[k])| <= 1
    ensures MidFrame(ins) && WordsOf(ins) == ws
  {
    if ins == [] {
      assert |Fabric.Datas(ws)| == |ws|;
    } else {
      hide *;
      var n, i := |ins| - 1, ins[|ins| - 1];
      assert ins[..n] + [i] == ins;
      SignalsGrow(ins[..n], i);
      LastSignal(SignalsOf(ins[..n]), i, ws);
      WordsOnly(ins[..n], ws[..|SignalsOf(ins[..n])|]);
      WordsAppend(ins[..n], i);
      MidGrows(ins[..n], i);
    }
  }

  lemma {:induction false} SignalsGrow(ins: seq<Rx.Input>, i: Rx.Input)
    ensures SignalsOf(ins + [i]) == SignalsOf(ins) + Brings(i)
  {
    assert (ins + [i])[..|ins|] == ins;
  }

  lemma MidGrows(ins: seq<Rx.Input>, i: Rx.Input)
    requires MidFrame(ins) && !i.sof && !i.eof
    ensures MidFrame(ins + [i])
  {}

  lemma LastSignal(x: seq<Fabric.Signal>, i: Rx.Input, ws: seq<Chunk>)
    requires x + Brings(i) == Fabric.Datas(ws) && |Brings(i)| <= 1
    ensures |x| <= |ws| && x == Fabric.Datas(ws[..|x|]) && !i.sof && !i.eof && ws == Append(ws[..|x|], i.word)
  {
    assert |ws| == |x| + |Brings(i)|;
    assert forall k | 0 <= k < |x| :: Fabric.Datas(ws)[k] == x[k];
    if |Brings(i)| == 1 { assert Brings(i)[0] == Fabric.Datas(ws)[|x|] == Fabric.Data(ws[|x|]); }
    assert ws == ws[..|x|] + ws[|x|..];
  }

  /** A start of frame without a word, and an end of frame without one. */
  ghost predicate Bounded(sof: Rx.Input, eof: Rx.Input) {
    sof.sof && sof.word.None? && !sof.eof && eof.eof && eof.word.None? && !eof.sof
  }

  lemma CarriedFrame(frame: seq<Rx.Input>, ws: seq<Chunk>)
    requires Carries(frame, [Fabric.Start] + Fabric.Datas(ws) + [Fabric.End])
    ensures frame == [frame[0]] + Middle(frame) + [frame[|frame| - 1]] && Bounded(frame[0], frame[|frame| - 1])
    ensures MidFrame(Middle(frame)) && WordsOf(Middle(frame)) == ws
  {
    assert |frame| >= 2;
    hide *;
    CarriedEnds(frame, [Fabric.Start] + Fabric.Datas(ws) + [Fabric.End]);
    var mid, last := Middle(frame), frame[|frame| - 1];
    SignalsConcat([frame[0]] + mid, [last]);
    SignalsConcat([frame[0]], mid);
    SignalsOfOne(frame[0]);
    SignalsOfOne(last);
    BetweenEnds(Fabric.Start, SignalsOf(mid), Fabric.Datas(ws), Fabric.End);
    WordsOnly(mid, ws);
  }

  lemma {:induction false} CarriedEnds(frame: seq<Rx.Input>, signals: seq<Fabric.Signal>)
    requires Carries(frame, signals)
    ensures |frame| >= 2 && SignalsOf(frame) == signals
    ensures frame == [frame[0]] + Middle(frame) + [frame[|frame| - 1]] && Bounded(frame[0], frame[|frame| - 1])
    ensures Brings(frame[0]) == [Fabric.Start] && Brings(frame[|frame| - 1]) == [Fabric.End]
    ensures forall k | 0 <= k < |Middle(frame)| :: |Brings(Middle(frame)[k])| <= 1
  {
    hide SignalsOf;
    assert |Brings(frame[0])| <= 1 && |Brings(frame[|frame| - 1])| <= 1;
  }

  lemma BetweenEnds<T>(a: T, x: seq<T>, y: seq<T>, b: T)
    requires [a] + x + [b] == [a] + y + [b]
    ensures x == y
  {
    assert |x| == |y|;
    assert ([a] + x + [b])[1..|x| + 1] == x && ([a] + y + [b])[1..|y| + 1] == y;
  }

  lemma {:induction false} NoEscapedZeroInFrame(bs: seq<Tx.Block>, n: nat, crc: seq<Chunk> -> Chunk, c: nat)
    requires forall b | b in bs :: Typed(b, c)
    ensures NoEscapedZero(Tx.SubFrames(bs, crc) + Tx.Pads(n))
  {
    if bs != [] {
      var b := bs[|bs| - 1];
      assert b in bs;
      NoEscapedZeroInFrame(bs[..|bs| - 1], 0, crc, c);
      assert NoEscapedZero(Tx.SubFrame(b, crc)) by { assert Typed(b, c); }
      hide Tx.SubFrame;
      assert Tx.SubFrames(bs[..|bs| - 1], crc) + Tx.Pads(0) == Tx.SubFrames(bs[..|bs| - 1], crc);
    }
  }

  lemma {:induction false} SofStarts(p: Rx.Parser, sof: Rx.Input, cfg: Rx.Config, c: nat)
    requires Idle(p) && Begins(p, sof)
    ensures var q := Rx.ParseAll(p, [sof], cfg, c);
      InHeader(q, q, 0) && q.words == [] && q.rest == [] && q.delivered == p.delivered
  {
    assert [sof][..0] == [];
  }

  lemma {:induction false} HeaderIsParsed(p: Rx.Parser, ins: seq<Rx.Input>, cfg: Rx.Config, head: seq<Chunk>, c: nat)
    requires InHeader(p, p, 0) && MidFrame(ins) && HeaderAccepted(cfg, head) && WordsOf(ins) == head
    requires p.words == [] && p.rest == []
    ensures var q := Rx.ParseAll(p, ins, cfg, c);
      && Agrees(q, q, false) && Listening(q) && q.ctl.mode == Rx.SUBFRAME_HEADER
      && q.words == [] && q.rest == [] && q.delivered == p.delivered
  {
    HeaderLength(cfg, head);
    ParseHeader(p, ins, cfg, head, c);
  }

  lemma {:induction false} PayloadIsParsed(g: Tx.Log, crc: seq<Chunk> -> Chunk, p: Rx.Parser, ins: seq<Rx.Input>,
      cfg: Rx.Config, c: nat)
    requires g.pads >= 1 && g.done != [] && c >= 3 && forall b | b in g.done :: Typed(b, c)
    requires g.code == Tx.SubFrames(g.done, crc) + Tx.Pads(g.pads) && WordsOf(ins) == Encode(g.code)
    requires Agrees(p, p, false) && Listening(p) && p.ctl.mode == Rx.SUBFRAME_HEADER && p.words == [] && p.rest == []
    requires MidFrame(ins) && Honest(p, ins, cfg, crc, c)
    ensures Over(Rx.ParseAll(p, ins, cfg, c), p.delivered + Delivered(g.done, c))
  {
    ParseFeeds(p, p, ins, cfg, crc, c);
    NoEscapedZeroInFrame(g.done, g.pads, crc, c);
    RoundTrip(g.code);
    FeedFrame(p, g.done, g.pads, crc, c);
    hide Honest, Encode, Decode, FeedAll, Tx.SubFrames, Delivered, Typed, Rx.ParseAll;
  }

  /** The frame has been closed, but not yet ended. */
  ghost predicate Over(p: Rx.Parser, delivered: seq<Rx.Entry>) {
    && !Listening(p) && p.ctl.mode != Rx.HEADER && p.delivered == delivered
    && p.words == [] && p.rest == [] && (p.ctl.detect ==> !p.check)
  }

  lemma {:induction false} OverEnds(p: Rx.Parser, eof: Rx.Input, delivered: seq<Rx.Entry>, cfg: Rx.Config, c: nat)
    requires Over(p, delivered) && eof.eof && eof.word.None? && !eof.sof
    ensures var q := Rx.ParseAll(p, [eof], cfg, c); Idle(q) && q.delivered == delivered
  {
    assert [eof][..0] == [];
    assert Rx.ParseAll(p, [eof], cfg, c) == Rx.Parse(p, eof, cfg, c);
  }

  lemma SplitFrame(ins: seq<Rx.Input>, n: nat)
    requires MidFrame(ins) && n <= |ins|
    ensures MidFrame(ins[..n]) && MidFrame(ins[n..]) && ins == ins[..n] + ins[n..]
  {}

  lemma {:induction false} BodyIsParsed(g: Tx.Log, crc: seq<Chunk> -> Chunk, p: Rx.Parser, sof: Rx.Input,
      ins: seq<Rx.Input>, cfg: Rx.Config, c: nat)
    requires g.wire == g.head + Encode(g.code) && g.pads >= 1 && g.done != [] && c >= 3
    requires g.code == Tx.SubFrames(g.done, crc) + Tx.Pads(g.pads)
    requires forall b | b in g.done :: Typed(b, c)
    requires Idle(p) && Begins(p, sof) && MidFrame(ins) && WordsOf(ins) == g.wire && HeaderAccepted(cfg, g.head)
    requires Honest(p, [sof] + ins, cfg, crc, c)
    ensures Over(Rx.ParseAll(p, [sof] + ins, cfg, c), p.delivered + Delivered(g.done, c))
  {
    hide *;
    var n := SplitWords(ins, g.head, Encode(g.code));
    var a, b := ins[..n], ins[n..];
    SplitFrame(ins, n);
    SofStarts(p, sof, cfg, c);
    ParseConcat(p, [sof], ins, cfg, c);
    HonestConcat(p, [sof], ins, cfg, crc, c);
    var p1 := Rx.ParseAll(p, [sof], cfg, c);
    ParseConcat(p1, a, b, cfg, c);
    HonestConcat(p1, a, b, cfg, crc, c);
    HeaderIsParsed(p1, a, cfg, g.head, c);
    PayloadIsParsed(g, crc, Rx.ParseAll(p1, a, cfg, c), b, cfg, c);
  }

  lemma {:induction false} HonestFront(p: Rx.Parser, a: seq<Rx.Input>, i: Rx.Input, cfg: Rx.Config,
      crc: seq<Chunk> -> Chunk, c: nat)
    requires Honest(p, a + [i], cfg, crc, c)
    ensures Honest(p, a, cfg, crc, c)
  {
    assert (a + [i])[..|a|] == a;
    hide HonestAt, Rx.ParseAll;
  }

  lemma BoundedBegins(p: Rx.Parser, sof: Rx.Input, eof: Rx.Input)
    requires Bounded(sof, eof)
    ensures Begins(p, sof) && eof.eof && eof.word.None? && !eof.sof
  {}

  /** A frame is parsed, from its start to its end: its words are delivered and the receiver is idle again. */
  lemma {:induction false} FrameIsParsed(g: Tx.Log, crc: seq<Chunk> -> Chunk, p: Rx.Parser, frame: seq<Rx.Input>,
      cfg: Rx.Config, c: nat)
    requires g.wire == g.head + Encode(g.code) && g.pads >= 1 && g.done != [] && c >= 3
    requires g.code == Tx.SubFrames(g.done, crc) + Tx.Pads(g.pads)
    requires forall b | b in g.done :: Typed(b, c)
    requires Idle(p) && HeaderAccepted(cfg, g.head)
    requires Carries(frame, [Fabric.Start] + Fabric.Datas(g.wire) + [Fabric.End])
    requires Honest(p, frame, cfg, crc, c)
    ensures var q := Rx.ParseAll(p, frame, cfg, c); Idle(q) && q.delivered == p.delivered + Delivered(g.done, c)
  {
    hide *;
    CarriedFrame(frame, g.wire);
    var sof, mid, eof := frame[0], Middle(frame), frame[|frame| - 1];
    BoundedBegins(p, sof, eof);
    HonestFront(p, [sof] + mid, eof, cfg, crc, c);
    BodyIsParsed(g, crc, p, sof, mid, cfg, c);
    ParseConcat(p, [sof] + mid, [eof], cfg, c);
    OverEnds(Rx.ParseAll(p, [sof] + mid, cfg, c), eof, p.delivered + Delivered(g.done, c), cfg, c);
  }

  /** End to end.  The transmitter sends a frame, from leaving IDLE to coming back, with a fabric that
      never stalls and a FIFO that never runs dry inside a block.  The link carries the signals of the
      fabric, from the start to the end of the frame, with any gaps; the receiver has any history of
      frames, good, bad or cut, behind it.  Then the user has received, or is about to receive, exactly
      the words of the frame's blocks after all earlier ones, with the first-flag on the first and the
      last-flag on the last word of each block; these blocks, followed by what is left in the transmit
      FIFO, are exactly what was put in; and the receiver is idle again, so that the next frame can come. */
  lemma {:induction false} FrameRoundTrip(
      tx: Tx.State, txIns: seq<Tx.Input>, txCfg: Tx.Config,
      rx: Rx.State, earlier: seq<Rx.Input>, frame: seq<Rx.Input>, cfg: Rx.Config)
    requires Tx.Starts(tx, txCfg) && Tx.InputsOk(txIns, txCfg.c) && Tx.RunsFrame(tx, txIns, txCfg) && txCfg.c >= 3
    requires Rx.Initial(rx, txCfg.c) && Rx.Trusted(rx, earlier + frame, cfg, txCfg.c)
    requires Idle(Rx.ParseAll(Rx.START, earlier, cfg, txCfg.c))
    requires Carries(frame, Fabric.Fabric(tx, txIns, |txIns|, txCfg)) && Accepts(cfg, Tx.Title(txCfg))
    requires Honest(Rx.ParseAll(Rx.START, earlier, cfg, txCfg.c), frame, cfg, txCfg.crc, txCfg.c)
    ensures var g, t := Tx.RunLog(tx, txIns, |txIns|, txCfg), Rx.Run(rx, earlier + frame, cfg, txCfg.c);
      && Buffer.Valid(t.ring)
      && Rx.Outputs(rx, earlier + frame, cfg, txCfg.c)
        + Rx.Committed(t.port, t.asm.fifoData, Buffer.Contents(t.ring))
        == Rx.ParseAll(Rx.START, earlier, cfg, txCfg.c).delivered + Delivered(g.done, txCfg.c)
      && g.supplied == Tx.BlockEntries(g.done) + Tx.Run(tx, txIns, |txIns|, txCfg).fifo
    ensures Idle(Rx.ParseAll(Rx.START, earlier + frame, cfg, txCfg.c))
  {
    var c, all := txCfg.c, earlier + frame;
    var g := Tx.RunLog(tx, txIns, |txIns|, txCfg);
    Tx.FrameIsWellFormed(tx, txIns, txCfg);
    hide Rx.Run, Rx.Outputs, Rx.ParseAll, Rx.Trusted, Tx.Run, Tx.RunLog, Tx.RunsFrame, Honest, Carries, Delivered,
      Tx.BlockEntries, Accepts, HeaderAccepted, Idle, Fabric.Fabric, Rx.Committed, Buffer.Contents, Tx.SubFrames,
        Encode;
    Tx.FrameIsAddressed(tx, txIns, txCfg);
    Fabric.FrameOnFabric(tx, txIns, txCfg);
    HeaderIsAccepted(cfg, g.head, Tx.Title(txCfg));
    Rx.AllOrNothing(rx, all, cfg, c);
    ParseConcat(Rx.START, earlier, frame, cfg, c);
    FrameIsParsed(g, txCfg.crc, Rx.ParseAll(Rx.START, earlier, cfg, c), frame, cfg, c);
    assert Tx.Entries(g.open, false) == [];
    assert Tx.BlockEntries(g.done) + [] == Tx.BlockEntries(g.done);
  }

  /** The same from conditions on the start alone.  A frame begins with whole blocks in the FIFO, it is left
      alone, and none of the blocks it takes ends in the escape code: then it is sent, and what the user
      receives are exactly these blocks, which are as many as fit one frame. */
  lemma {:induction false} CleanFrameArrives(
      tx: Tx.State, txIns: seq<Tx.Input>, txCfg: Tx.Config,
      rx: Rx.State, earlier: seq<Rx.Input>, frame: seq<Rx.Input>, cfg: Rx.Config)
    requires Tx.Sane(tx, txCfg.c) && Tx.InputsOk(txIns, txCfg.c) && txCfg.c >= 3
    requires FrameEnding.Undisturbed(tx, txIns, txCfg) && |txIns| > FrameEnding.Measure(tx, txCfg.c)
    requires FrameEnding.Clean(tx.fifo[..FrameEnding.Span(tx.fifo, 0, txCfg.maxWords)], txCfg.c)
    requires Rx.Initial(rx, txCfg.c) && Rx.Trusted(rx, earlier + frame, cfg, txCfg.c)
    requires Idle(Rx.ParseAll(Rx.START, earlier, cfg, txCfg.c))
    requires Carries(frame, SentSignals(tx, txIns, txCfg)) && Accepts(cfg, Tx.Title(txCfg))
    requires Honest(Rx.ParseAll(Rx.START, earlier, cfg, txCfg.c), frame, cfg, txCfg.crc, txCfg.c)
    ensures var g, t := SentFrame(tx, txIns, txCfg), Rx.Run(rx, earlier + frame, cfg, txCfg.c);
      && Buffer.Valid(t.ring)
      && Rx.Outputs(rx, earlier + frame, cfg, txCfg.c)
        + Rx.Committed(t.port, t.asm.fifoData, Buffer.Contents(t.ring))
        == Rx.ParseAll(Rx.START, earlier, cfg, txCfg.c).delivered + Delivered(g.done, txCfg.c)
      && Tx.BlockEntries(g.done) == tx.fifo[..FrameEnding.Span(tx.fifo, 0, txCfg.maxWords)]
    ensures |tx.fifo| <= txCfg.maxWords < 256 ==> Tx.BlockEntries(SentFrame(tx, txIns, txCfg).done) == tx.fifo
    ensures Idle(Rx.ParseAll(Rx.START, earlier + frame, cfg, txCfg.c))
  {
    hide *;
    UndisturbedIsComplete(tx, txIns, txCfg);
    var e := FrameEnding.CleanFrameRuns(tx, txIns, txCfg);
    SentFrameIs(tx, txIns, txCfg);
    FabricOfPrefix(tx, txIns, e, e, txCfg);
    FrameRoundTrip(tx, txIns[..e], txCfg, rx, earlier, frame, cfg);
    if |tx.fifo| <= txCfg.maxWords < 256 {
      FrameEnding.SpanOfOneFrame(tx.fifo, 0, txCfg.maxWords);
      assert tx.fifo[..|tx.fifo|] == tx.fifo;
    }
  }

  lemma UndisturbedIsComplete(tx: Tx.State, txIns: seq<Tx.Input>, txCfg: Tx.Config)
    requires FrameEnding.Undisturbed(tx, txIns, txCfg)
    ensures FrameEnding.Complete(tx.fifo)
  {}

  lemma {:induction false} FabricOfPrefix(tx: Tx.State, txIns: seq<Tx.Input>, e: nat, n: nat, txCfg: Tx.Config)
    requires Tx.Sane(tx, txCfg.c) && Tx.InputsOk(txIns, txCfg.c) && n <= e <= |txIns|
    ensures Tx.InputsOk(txIns[..e], txCfg.c)
    ensures Fabric.Fabric(tx, txIns[..e], n, txCfg) == Fabric.Fabric(tx, txIns, n, txCfg)
  {
    hide Tx.Run, Tx.Emitted, Fabric.Marks;
    FrameEnding.RunOfPrefix(tx, txIns, e, n, txCfg);
    if n > 0 {
      FrameEnding.RunOfPrefix(tx, txIns, e, n - 1, txCfg);
      FabricOfPrefix(tx, txIns, e, n - 1, txCfg);
    }
  }

  /** What has been sent when the frame is over. */
  ghost function SentFrame(tx: Tx.State, txIns: seq<Tx.Input>, txCfg: Tx.Config): Tx.Log
    requires Tx.Sane(tx, txCfg.c) && Tx.InputsOk(txIns, txCfg.c)
  {
    Tx.RunLog(tx, txIns, FrameEnding.End(tx, txIns, txCfg), txCfg)
  }

  /** What the fabric has seen then. */
  ghost function SentSignals(tx: Tx.State, txIns: seq<Tx.Input>, txCfg: Tx.Config): seq<Fabric.Signal>
    requires Tx.Sane(tx, txCfg.c) && Tx.InputsOk(txIns, txCfg.c)
  {
    Fabric.Fabric(tx, txIns, FrameEnding.End(tx, txIns, txCfg), txCfg)
  }

  lemma {:induction false} SentFrameIs(tx: Tx.State, txIns: seq<Tx.Input>, txCfg: Tx.Config)
    requires Tx.Sane(tx, txCfg.c) && Tx.InputsOk(txIns, txCfg.c)
    ensures var e := FrameEnding.End(tx, txIns, txCfg);
      && SentFrame(tx, txIns, txCfg) == Tx.RunLog(tx, txIns, e, txCfg)
      && SentSignals(tx, txIns, txCfg) == Fabric.Fabric(tx, txIns, e, txCfg)
  {}

  // ----- a link -----

  /** The start of a frame and its words, one in every cycle, and a CRC checker that is right. */
  function Link(ws: seq<Chunk>, cfg: Rx.Config, crc: seq<Chunk> -> Chunk, c: nat): (ins: seq<Rx.Input>)
    ensures |ins| == |ws| + 1
  {
    if ws == [] then [Rx.START_OF_FRAME]
    else
      var n := |ws| - 1;
      var before := Link(ws[..n], cfg, crc, c);
      before + [Rx.Input.Input(Some(ws[n]), false, false, Good(Rx.ParseAll(Rx.START, before, cfg, c), crc), false)]
  }

  /** What the link has brought so far. */
  ghost predicate Linked(ins: seq<Rx.Input>, ws: seq<Chunk>, cfg: Rx.Config, crc: seq<Chunk> -> Chunk, c: nat) {
    && ins != [] && ins[0].sof && SignalsOf(ins) == [Fabric.Start] + Fabric.Datas(ws)
    && (forall k | 0 <= k < |ins| :: |Brings(ins[k])| <= 1 && !ins[k].eof) && Honest(Rx.START, ins, cfg, crc, c)
  }

  lemma {:induction false} LinkCarries(ws: seq<Chunk>, cfg: Rx.Config, crc: seq<Chunk> -> Chunk, c: nat)
    ensures Linked(Link(ws, cfg, crc, c), ws, cfg, crc, c)
  {
    if ws == [] {
      NothingLinked(cfg, crc, c);
    } else {
      var n := |ws| - 1;
      var before := Link(ws[..n], cfg, crc, c);
      var i := Rx.Input.Input(Some(ws[n]), false, false, Good(Rx.ParseAll(Rx.START, before, cfg, c), crc), false);
      LinkCarries(ws[..n], cfg, crc, c);
      assert Link(ws, cfg, crc, c) == before + [i] && ws[..n] + [ws[n]] == ws;
      hide *;
      LinkStep(before, i, ws[..n], cfg, crc, c);
    }
  }

  lemma {:induction false} LinkStep(before: seq<Rx.Input>, i: Rx.Input, ws: seq<Chunk>, cfg: Rx.Config,
      crc: seq<Chunk> -> Chunk, c: nat)
    requires Linked(before, ws, cfg, crc, c) && !i.sof && !i.eof && i.word.Some?
    requires i.crcMatch == Good(Rx.ParseAll(Rx.START, before, cfg, c), crc)
    ensures Linked(before + [i], ws + [i.word.value], cfg, crc, c)
  {
    hide Good, Rx.ParseAll, Fabric.Datas, SignalsOf, Honest;
    Fabric.DatasGrow(ws, i.word);
    SignalsGrow(before, i);
    HonestGrows(Rx.START, before, i, cfg, crc, c);
  }

  lemma {:induction false} HonestGrows(p: Rx.Parser, ins: seq<Rx.Input>, i: Rx.Input, cfg: Rx.Config,
      crc: seq<Chunk> -> Chunk, c: nat)
    requires Honest(p, ins, cfg, crc, c) && i.crcMatch == Good(Rx.ParseAll(p, ins, cfg, c), crc)
    ensures Honest(p, ins + [i], cfg, crc, c)
  {
    hide Good, Rx.ParseAll, DetectorOut;
    assert (ins + [i])[..|ins|] == ins;
  }

  lemma NothingLinked(cfg: Rx.Config, crc: seq<Chunk> -> Chunk, c: nat)
    ensures Linked([Rx.START_OF_FRAME], [], cfg, crc, c)
  {
    var all := [Rx.START_OF_FRAME];
    assert all[..|all| - 1] == [];
    assert Honest(Rx.START, [], cfg, crc, c);
    assert Honest(Rx.START, all, cfg, crc, c);
  }

  /** With the end of the frame. */
  function LinkFrame(ws: seq<Chunk>, cfg: Rx.Config, crc: seq<Chunk> -> Chunk, c: nat): (ins: seq<Rx.Input>)
    ensures |ins| == |ws| + 2
  {
    Link(ws, cfg, crc, c) + [Rx.FRAME_ENDS]
  }

  lemma {:induction false} LinkCarriesFrame(ws: seq<Chunk>, cfg: Rx.Config, crc: seq<Chunk> -> Chunk, c: nat)
    ensures var frame := LinkFrame(ws, cfg, crc, c);
      && Carries(frame, [Fabric.Start] + Fabric.Datas(ws) + [Fabric.End]) && Honest(Rx.START, frame, cfg, crc, c)
      && frame[..|ws| + 1] == Link(ws, cfg, crc, c) && frame[|ws| + 1] == Rx.FRAME_ENDS
    ensures forall k | 0 <= k < |ws| + 1 :: !Link(ws, cfg, crc, c)[k].eof
  {
    hide Good, Rx.ParseAll, Fabric.Datas, Link;
    LinkCarries(ws, cfg, crc, c);
    var ins, frame := Link(ws, cfg, crc, c), LinkFrame(ws, cfg, crc, c);
    assert frame[..|ins|] == ins;
  }

  lemma IdleAtPowerUp()
    ensures Idle(Rx.START)
  {}

  /** When the words of a completed frame have come over such a link, the receiver is not inside a sub-frame. */
  lemma {:induction false} LinkIsOver(tx: Tx.State, txIns: seq<Tx.Input>, txCfg: Tx.Config, cfg: Rx.Config)
    requires Tx.Starts(tx, txCfg) && Tx.InputsOk(txIns, txCfg.c) && Tx.RunsFrame(tx, txIns, txCfg) && txCfg.c >= 3
    requires Accepts(cfg, Tx.Title(txCfg))
    ensures var wire := Tx.RunLog(tx, txIns, |txIns|, txCfg).wire;
      Rx.ParseAll(Rx.START, Link(wire, cfg, txCfg.crc, txCfg.c), cfg, txCfg.c).ctl.mode != Rx.PAYLOAD
  {
    var g, c := Tx.RunLog(tx, txIns, |txIns|, txCfg), txCfg.c;
    Tx.FrameIsWellFormed(tx, txIns, txCfg);
    hide Tx.Run, Tx.RunLog, Tx.RunsFrame, Rx.ParseAll, Link, LinkFrame, Accepts, Encode, Tx.SubFrames, Delivered,
      Honest, Carries, HeaderAccepted, Idle, Tx.BlockEntries, Tx.Entries;
    Tx.FrameIsAddressed(tx, txIns, txCfg);
    HeaderIsAccepted(cfg, g.head, Tx.Title(txCfg));
    LinkCarriesFrame(g.wire, cfg, txCfg.crc, c);
    var ins, frame := Link(g.wire, cfg, txCfg.crc, c), LinkFrame(g.wire, cfg, txCfg.crc, c);
    CarriedFrame(frame, g.wire);
    assert ins == [frame[0]] + Middle(frame);
    LinkCarries(g.wire, cfg, txCfg.crc, c);
    IdleAtPowerUp();
    BodyIsParsed(g, txCfg.crc, Rx.START, frame[0], Middle(frame), cfg, c);
  }

  lemma {:induction false} SentOnLink(tx: Tx.State, txIns: seq<Tx.Input>, txCfg: Tx.Config, cfg: Rx.Config)
    requires Tx.Sane(tx, txCfg.c) && Tx.InputsOk(txIns, txCfg.c) && txCfg.c >= 3
    requires FrameEnding.Undisturbed(tx, txIns, txCfg) && |txIns| > FrameEnding.Measure(tx, txCfg.c)
    requires FrameEnding.Clean(tx.fifo[..FrameEnding.Span(tx.fifo, 0, txCfg.maxWords)], txCfg.c)
    requires Accepts(cfg, Tx.Title(txCfg))
    ensures var wire := SentFrame(tx, txIns, txCfg).wire;
      && SentSignals(tx, txIns, txCfg) == [Fabric.Start] + Fabric.Datas(wire) + [Fabric.End]
      && Rx.ParseAll(Rx.START, Link(wire, cfg, txCfg.crc, txCfg.c), cfg, txCfg.c).ctl.mode != Rx.PAYLOAD
  {
    hide *;
    var e := FrameEnding.CleanFrameRuns(tx, txIns, txCfg);
    SentFrameIs(tx, txIns, txCfg);
    FabricOfPrefix(tx, txIns, e, e, txCfg);
    Fabric.FrameOnFabric(tx, txIns[..e], txCfg);
    LinkIsOver(tx, txIns[..e], txCfg, cfg);
  }
}
