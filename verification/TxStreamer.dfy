// The transmitting streamer (xtx_streamer) together with its escape inserter.  `c` is the number of
// 16-bit chunks in a data word, `crc` the generator of check words.
module TxStreamer {
  import opened EscapeCode

  const MIN_PACKET_SIZE: nat := 30

  /** A word in the transmit FIFO, with its last-flag. */
  datatype Entry = Entry(last: bool, data: Word)

  datatype Mode = IDLE | SOF | ETH_HEADER | SUBFRAME_HEADER | PAYLOAD | CRC_WORD | PADDING | EOF

  datatype Control = Control(mode: Mode, count: nat, serCount: nat, seqNo: nat)

  /** fsm_out, fsm_escape and fsm_escape_enable. */
  datatype Port = Port(dvalid: bool, data: Chunk, escape: bool, enable: bool, sof: bool, eof: bool)

  /** The CRC generator, by the chunks it has seen since its reset. */
  datatype Crc = Crc(en: bool, reset: bool, seen: seq<Chunk>)

  datatype State = State(
    ctl: Control, port: Port, crc: Crc, totalWords: nat, fifo: seq<Entry>, frames: nat, ins: Inserter)

  /** One cycle: a word accepted into the FIFO, the request to start a frame, the fabric's readiness
      and the two header words that carry the time tag. */
  datatype Input = Input(push: Option<Entry>, go: bool, ready: bool, tagHigh: Chunk, tagLow: Chunk)

  datatype Config = Config(
    target: (Chunk, Chunk, Chunk), local: (Chunk, Chunk, Chunk), ethertype: Chunk, maxWords: nat, c: nat,
    crc: seq<Chunk> -> Chunk)

  function HeaderWord(cfg: Config, count: nat, i: Input): Chunk {
    match count
    case 0 => cfg.target.0
    case 1 => cfg.target.1
    case 2 => cfg.target.2
    case 3 => cfg.local.0
    case 4 => cfg.local.1
    case 5 => cfg.local.2
    case 6 => cfg.ethertype
    case 7 => i.tagHigh
    case _ => i.tagLow
  }

  // ----- the registers, clocked -----

  function InserterInput(s: State, i: Input): InserterIn {
    InserterIn(s.port.data, s.port.escape, s.port.dvalid, s.port.enable, i.ready)
  }

  /** fsm_out.dreq */
  function Req(s: State, i: Input): bool {
    InserterReqOut(InserterInput(s, i))
  }

  function Emitted(s: State, i: Input): Option<Chunk> {
    InserterOut(s.ins, InserterInput(s, i))
  }

  predicate Sane(s: State, c: nat) {
    && 1 <= c && s.ctl.serCount < c && s.ctl.seqNo < 0x8000
    && (forall k | 0 <= k < |s.fifo| :: |s.fifo[k].data| == c)
  }

  predicate EndsBlock(s: State, c: nat) {
    s.fifo == [] || (s.ctl.serCount + 1 == c && s.fifo[0].last)
  }

  function ControlNext(s: State, i: Input, cfg: Config): Control {
    var t, req := s.ctl, Req(s, i);
    match t.mode
    case IDLE => if req && i.go then t.(mode := SOF) else t
    case SOF => Control(ETH_HEADER, 0, 0, t.seqNo)
    case ETH_HEADER =>
      if !req then t else if t.count == 8 then t.(mode := SUBFRAME_HEADER, count := 0) else t.(count := t.count + 1)
    case SUBFRAME_HEADER =>
      if req then t.(mode := PAYLOAD, seqNo := (t.seqNo + 1) % 0x8000) else t
    case PAYLOAD =>
      if !req then t
      else
        Control(if EndsBlock(s, cfg.c) then CRC_WORD else PAYLOAD,
          if t.serCount + 1 == cfg.c then (t.count + 1) % 256 else t.count,
          if t.serCount + 1 == cfg.c then 0 else t.serCount + 1, t.seqNo)
    case CRC_WORD =>
      Control(if !req then CRC_WORD else if s.fifo == [] || t.count >= cfg.maxWords then PADDING else SUBFRAME_HEADER,
        t.count, 0, t.seqNo)
    case PADDING => if req && s.totalWords >= MIN_PACKET_SIZE then t.(mode := EOF) else t
    case EOF => if req then t.(mode := IDLE) else t
  }

  /** crc_value, which covers the chunk that is being presented. */
  function Checked(s: State): seq<Chunk> {
    if s.crc.en && s.port.dvalid then s.crc.seen + [s.port.data] else s.crc.seen
  }

  function PortNext(s: State, i: Input, cfg: Config): Port
    requires Sane(s, cfg.c)
  {
    var p, req := s.port, Req(s, i);
    match s.ctl.mode
    case IDLE => p.(escape := false, enable := false, sof := req && i.go, eof := false)
    case SOF => p.(sof := false)
    case ETH_HEADER => p.(dvalid := req, data := if req then HeaderWord(cfg, s.ctl.count, i) else p.data)
    case SUBFRAME_HEADER =>
      if req then p.(dvalid := true, data := 0x8000 + s.ctl.seqNo, escape := true, enable := true)
      else p.(dvalid := false)
    case PAYLOAD =>
      if req && s.fifo != [] then p.(dvalid := true, data := s.fifo[0].data[s.ctl.serCount], escape := false)
      else p.(dvalid := false, escape := false)
    case CRC_WORD => if req then p.(dvalid := true, data := cfg.crc(Checked(s))) else p
    case PADDING =>
      if req then p.(dvalid := true, data := END_OF_FRAME, escape := true) else p.(dvalid := false)
    case EOF => p.(dvalid := false, eof := p.eof || req)
  }

  function CrcNext(s: State, i: Input): Crc {
    var seen := if s.crc.reset then [] else Checked(s);
    match s.ctl.mode
    case IDLE => Crc(false, false, seen)
    case SUBFRAME_HEADER => Crc(true, false, seen)
    case CRC_WORD => Crc(false, s.crc.reset || Req(s, i), seen)
    case _ => Crc(s.crc.en, s.crc.reset, seen)
  }

  /** tx_fifo_rd */
  predicate Reads(s: State, i: Input, c: nat) {
    s.ctl.mode == PAYLOAD && s.ctl.serCount + 1 == c && Req(s, i) && s.fifo != []
  }

  function FifoNext(s: State, i: Input, c: nat): seq<Entry> {
    Append(if Reads(s, i, c) then s.fifo[1..] else s.fifo, i.push)
  }

  /** A block enters and a block leaves the FIFO. */
  predicate Up(i: Input) {
    i.push.Some? && i.push.value.last
  }

  predicate Down(s: State, i: Input, c: nat) {
    Reads(s, i, c) && s.fifo[0].last
  }

  /** p_frame_counter, a 6-bit counter. */
  function Counter(n: nat, up: bool, down: bool): nat {
    if up && !down then (n + 1) % 64 else if !up && down then (n + 63) % 64 else n
  }

  function Next(s: State, i: Input, cfg: Config): State
    requires Sane(s, cfg.c)
  {
    State(
      ControlNext(s, i, cfg), PortNext(s, i, cfg), CrcNext(s, i),
      if s.port.sof then 0 else if s.port.dvalid then (s.totalWords + 1) % 2048 else s.totalWords,
      FifoNext(s, i, cfg.c), Counter(s.frames, Up(i), Down(s, i, cfg.c)), InserterNext(s.ins, InserterInput(s, i)))
  }

  // ----- the frame format -----

  datatype Block = Block(header: Chunk, words: seq<Word>)

  function Flat(ws: seq<Word>): seq<Chunk> {
    if ws == [] then [] else Flat(ws[..|ws| - 1]) + ws[|ws| - 1]
  }

  function Plain(xs: seq<Chunk>): (s: seq<Symbol>)
    ensures |s| == |xs|
  {
    seq(|xs|, k requires 0 <= k < |xs| => Symbol(false, xs[k]))
  }

  /** The symbols of a sub-frame that has not been closed yet. */
  function OpenFrame(header: Chunk, payload: seq<Chunk>): seq<Symbol> {
    [Symbol(true, header)] + Plain(payload)
  }

  function SubFrame(b: Block, crc: seq<Chunk> -> Chunk): seq<Symbol> {
    OpenFrame(b.header, Flat(b.words)) + [Symbol(false, crc([b.header] + Flat(b.words)))]
  }

  function SubFrames(bs: seq<Block>, crc: seq<Chunk> -> Chunk): seq<Symbol> {
    if bs == [] then [] else SubFrames(bs[..|bs| - 1], crc) + SubFrame(bs[|bs| - 1], crc)
  }

  function Pads(n: nat): seq<Symbol> {
    seq(n, _ => Symbol(true, END_OF_FRAME))
  }

  /** The words of a block as they went through the FIFO. */
  function Entries(ws: seq<Word>, closed: bool): (s: seq<Entry>)
    ensures |s| == |ws|
  {
    seq(|ws|, k requires 0 <= k < |ws| => Entry(closed && k == |ws| - 1, ws[k]))
  }

  function BlockEntries(bs: seq<Block>): seq<Entry> {
    if bs == [] then [] else BlockEntries(bs[..|bs| - 1]) + Entries(bs[|bs| - 1].words, true)
  }

  // ----- what has been sent in the current frame -----

  /** `head` and `code` are the words and symbols handed to the inserter, `wire` what came out of it;
      `done` and `open` are the blocks and the words of the open block taken from the FIFO, `taken` all
      that has ever been in the FIFO since the frame began. */
  datatype Log = Log(
    head: seq<Chunk>, code: seq<Symbol>, wire: seq<Chunk>, done: seq<Block>, header: Chunk, open: seq<Word>,
    supplied: seq<Entry>, pads: nat)

  function LogNext(g: Log, s: State, i: Input, cfg: Config): Log
    requires Sane(s, cfg.c)
  {
    var req, p := Req(s, i), PortNext(s, i, cfg);
    var t := g.(wire := Append(g.wire, Emitted(s, i)), supplied := Append(g.supplied, i.push));
    if !req then t
    else
      match s.ctl.mode
      case ETH_HEADER => t.(head := g.head + [p.data])
      case SUBFRAME_HEADER => t.(code := g.code + [Symbol(true, p.data)], header := p.data)
      case PAYLOAD =>
        if s.fifo == [] then t
        else t.(code := g.code + [Symbol(false, p.data)],
                open := if s.ctl.serCount + 1 == cfg.c then g.open + [s.fifo[0].data] else g.open)
      case CRC_WORD =>
        t.(code := g.code + [Symbol(false, p.data)], done := g.done + [Block(g.header, g.open)], open := [])
      case PADDING => t.(code := g.code + [Symbol(true, p.data)], pads := g.pads + 1)
      case _ => t
  }

  /** The words on their way through the inserter. */
  function Pending(s: State): seq<Chunk> {
    if s.ins.inserting then [s.ins.prev]
    else if !s.port.dvalid then []
    else if s.port.enable then EncodeOne(Symbol(s.port.escape, s.port.data))
    else [s.port.data]
  }

  // ----- invariants of a frame -----

  /** What is on the wire and in the inserter is the header and the code of the symbols so far. */
  ghost predicate WireHolds(s: State, g: Log) {
    && g.wire + Pending(s) == g.head + Encode(g.code)
    && (s.ins.inserting ==> !s.port.dvalid && s.ins.reqPrev)
    && (!s.port.enable ==> !s.port.escape && !s.ins.inserting)
    && (s.ctl.mode == ETH_HEADER ==> !s.port.enable && g.code == [])
    && (s.ctl.mode == PAYLOAD || s.ctl.mode == CRC_WORD || s.ctl.mode == PADDING ==> s.port.enable)
  }

  /** The chunks of the word at the head of the FIFO that have been sent already. */
  function Partial(s: State): seq<Chunk> {
    if s.fifo != [] && s.ctl.serCount <= |s.fifo[0].data| then s.fifo[0].data[..s.ctl.serCount] else []
  }

  /** The symbols so far are whole sub-frames, an open one, or padding. */
  ghost predicate ShapeHolds(s: State, g: Log, cfg: Config) {
    var whole := SubFrames(g.done, cfg.crc);
    match s.ctl.mode
    case IDLE => true
    case SOF => g.code == [] && g.done == [] && g.open == [] && g.head == [] && g.pads == 0
    case ETH_HEADER => g.code == whole == [] && g.open == [] && |g.head| == s.ctl.count <= 8 && g.pads == 0
      && s.ctl.serCount == 0
    case SUBFRAME_HEADER => g.code == whole && g.open == [] && |g.head| == 9 && g.pads == 0 && s.ctl.serCount == 0
    case PAYLOAD => g.code == whole + OpenFrame(g.header, Flat(g.open) + Partial(s)) && |g.head| == 9 && g.pads == 0
    case CRC_WORD =>
      g.code == whole + OpenFrame(g.header, Flat(g.open)) && |g.head| == 9 && g.pads == 0 && s.ctl.serCount == 0
    case PADDING => g.code == whole + Pads(g.pads) && g.done != [] && g.open == [] && |g.head| == 9
    case EOF => g.code == whole + Pads(g.pads) && g.done != [] && g.open == [] && |g.head| == 9 && g.pads >= 1
  }

  ghost predicate CrcHolds(s: State, g: Log) {
    match s.ctl.mode
    case PAYLOAD => s.crc.en && !s.crc.reset && Checked(s) == [g.header] + (Flat(g.open) + Partial(s))
    case CRC_WORD => s.crc.en && !s.crc.reset && Checked(s) == [g.header] + Flat(g.open)
    case _ => (s.crc.reset || s.crc.seen == []) && (s.crc.en ==> s.ctl.mode == SUBFRAME_HEADER && !s.port.dvalid)
  }

  /** Nothing is lost, doubled or reordered between the FIFO and the blocks. */
  ghost predicate FifoHolds(s: State, g: Log) {
    g.supplied == BlockEntries(g.done) + Entries(g.open, s.ctl.mode == CRC_WORD) + s.fifo
  }

  /** Sub-frame headers have bit 15 set, and every word its full length. */
  ghost predicate TypesHold(s: State, g: Log, c: nat) {
    && (s.ctl.mode == PAYLOAD || s.ctl.mode == CRC_WORD ==> g.header >= 0x8000)
    && (forall w | w in g.open :: |w| == c)
    && (forall b | b in g.done :: b.header >= 0x8000 && forall w | w in b.words :: |w| == c)
  }

  /** In CRC_WORD the last chunk of the block is being presented. */
  ghost predicate LastChunkOut(s: State) {
    s.ctl.mode == CRC_WORD ==> s.port.dvalid && !s.port.escape && s.port.data != ESC
  }

  /** While it is inside a block, the machine always finds the next word in the FIFO. */
  predicate NeverDry(s: State) {
    s.ctl.mode == PAYLOAD ==> s.fifo != []
  }

  predicate InputOk(i: Input, c: nat) {
    i.push.Some? ==> |i.push.value.data| == c
  }

  ghost predicate InFrame(s: State, g: Log, cfg: Config) {
    && Sane(s, cfg.c) && s.ctl.mode != IDLE
    && WireHolds(s, g) && ShapeHolds(s, g, cfg) && CrcHolds(s, g) && FifoHolds(s, g) && LastChunkOut(s)
    && TypesHold(s, g, cfg.c)
    && (s.ctl.mode == SOF ==> !s.port.dvalid && !s.port.enable)
  }

  lemma InserterDrains(s: State, g: Log, i: Input)
    requires i.ready && WireHolds(s, g)
    ensures Append(g.wire, Emitted(s, i)) + Owed(InserterNext(s.ins, InserterInput(s, i))) == g.wire + Pending(s)
    ensures Req(s, i) ==> !InserterNext(s.ins, InserterInput(s, i)).inserting
    ensures InserterNext(s.ins, InserterInput(s, i)).inserting ==>
      InserterNext(s.ins, InserterInput(s, i)).reqPrev && s.port.enable
  {}

  lemma WireIssued(s: State, g: Log, s': State, g': Log, sym: Symbol)
    requires WireHolds(s, g) && g'.wire + Owed(s'.ins) == g.wire + Pending(s) && !s'.ins.inserting
    requires s'.port.dvalid && s'.port.enable && sym == Symbol(s'.port.escape, s'.port.data)
    requires g'.code == g.code + [sym] && g'.head == g.head
    ensures g'.wire + Pending(s') == g'.head + Encode(g'.code)
  {
    EncodeAppend(g.code, sym);
    assert g.head + (Encode(g.code) + EncodeOne(sym)) == g.head + Encode(g.code) + EncodeOne(sym);
    hide EncodeOne, Encode;
    assert g'.wire + Owed(s'.ins) == g'.wire;
  }

  lemma WireQuiet(s: State, g: Log, s': State, g': Log)
    requires WireHolds(s, g) && g'.wire + Owed(s'.ins) == g.wire + Pending(s) && !s'.port.dvalid
    requires g'.code == g.code && g'.head == g.head
    ensures g'.wire + Pending(s') == g'.head + Encode(g'.code)
  {}

  lemma WireHeader(s: State, g: Log, s': State, g': Log)
    requires WireHolds(s, g) && g'.wire + Owed(s'.ins) == g.wire + Pending(s) && !s'.ins.inserting
    requires s'.port.dvalid && !s'.port.enable && g.code == [] == g'.code && g'.head == g.head + [s'.port.data]
    ensures g'.wire + Pending(s') == g'.head + Encode(g'.code)
  {
    assert g.head + Encode(g.code) == g.head && g'.head + Encode(g'.code) == g'.head;
    assert g'.wire + Owed(s'.ins) == g'.wire;
  }

  lemma WireStep(s: State, g: Log, i: Input, cfg: Config)
    requires Sane(s, cfg.c) && i.ready && WireHolds(s, g) && s.ctl.mode != IDLE && NeverDry(s)
    requires LastChunkOut(s)
    requires s.ctl.mode == SOF ==> !s.port.dvalid && !s.port.enable && g.code == []
    ensures WireHolds(Next(s, i, cfg), LogNext(g, s, i, cfg))
  {
    var s', g' := Next(s, i, cfg), LogNext(g, s, i, cfg);
    InserterDrains(s, g, i);
    var m := s.ctl.mode;
    if Req(s, i) && (m == SUBFRAME_HEADER || m == PAYLOAD || m == CRC_WORD || m == PADDING) {
      hide Encode, EncodeOne, InserterOut, InserterNext, EndsBlock, HeaderWord, CrcNext, FifoNext, Counter, Up, Down,
        Checked, Pending, Owed;
      WireIssued(s, g, s', g', Symbol(s'.port.escape, s'.port.data));
    } else if Req(s, i) && m == ETH_HEADER {
      hide Encode, EncodeOne, InserterOut, InserterNext, EndsBlock, HeaderWord, CrcNext, FifoNext, Counter, Up, Down,
        Checked, Pending, Owed;
      WireHeader(s, g, s', g');
    } else {
      hide Encode, EncodeOne, InserterOut, InserterNext, EndsBlock, HeaderWord, CrcNext, FifoNext, Counter, Up, Down,
        Checked, Pending, Owed;
      WireQuiet(s, g, s', g');
    }
  }

  lemma {:induction false} FlatAppend(ws: seq<Word>, w: Word)
    ensures Flat(ws + [w]) == Flat(ws) + w
  {
    assert (ws + [w])[..|ws|] == ws;
  }

  /** The payload grows by one chunk, whether or not the chunk completes a word. */
  lemma PayloadGrows(s: State, i: Input, open: seq<Word>, cfg: Config)
    requires Sane(s, cfg.c) && s.ctl.mode == PAYLOAD && s.fifo != [] && Req(s, i)
    ensures var t := Next(s, i, cfg);
      var open' := if s.ctl.serCount + 1 == cfg.c then open + [s.fifo[0].data] else open;
      && t.port.data == s.fifo[0].data[s.ctl.serCount] && t.port.dvalid && !t.port.escape
      && (t.ctl.mode == PAYLOAD ==> Flat(open') + Partial(t) == Flat(open) + Partial(s) + [t.port.data])
      && (t.ctl.mode == CRC_WORD ==> Flat(open') == Flat(open) + Partial(s) + [t.port.data] && t.ctl.serCount == 0)
  {
    var w, k := s.fifo[0].data, s.ctl.serCount;
    assert |w| == cfg.c && k < cfg.c;
    PayloadMoves(s, i, cfg);
    FlatAppend(open, w);
    hide *;
    assert w[..k + 1] == w[..k] + [w[k]];
    assert w[..cfg.c] == w;
    assert Flat(open) + (w[..k] + [w[k]]) == Flat(open) + w[..k] + [w[k]];
    assert Flat(open + [w]) + [] == Flat(open + [w]);
  }

  /** A chunk of the word at the head of the FIFO goes out. */
  lemma PayloadMoves(s: State, i: Input, cfg: Config)
    requires Sane(s, cfg.c) && s.ctl.mode == PAYLOAD && s.fifo != [] && Req(s, i)
    ensures var t, w, k := Next(s, i, cfg), s.fifo[0].data, s.ctl.serCount;
      && t.port.data == w[k] && t.port.dvalid && !t.port.escape
      && (t.ctl.mode == CRC_WORD ==> k + 1 == cfg.c && t.ctl.serCount == 0)
      && Partial(s) == w[..k] && Partial(t) == if k + 1 == cfg.c then [] else w[..k + 1]
  {
    hide Req, CrcNext, Counter, Up, Down, InserterNext;
  }

  lemma OpenFrameGrows(header: Chunk, xs: seq<Chunk>, x: Chunk)
    ensures OpenFrame(header, xs + [x]) == OpenFrame(header, xs) + [Symbol(false, x)]
  {}

  lemma {:induction false} SubFramesAppend(bs: seq<Block>, b: Block, crc: seq<Chunk> -> Chunk)
    ensures SubFrames(bs + [b], crc) == SubFrames(bs, crc) + SubFrame(b, crc)
  {
    assert (bs + [b])[..|bs|] == bs;
  }

  lemma Assoc<T>(a: seq<T>, b: seq<T>, x: seq<T>)
    ensures a + (b + x) == a + b + x
  {}

  lemma PayloadShape(s: State, g: Log, i: Input, cfg: Config)
    requires Sane(s, cfg.c) && s.ctl.mode == PAYLOAD && NeverDry(s) && Req(s, i) && ShapeHolds(s, g, cfg)
    ensures ShapeHolds(Next(s, i, cfg), LogNext(g, s, i, cfg), cfg)
  {
    var t, g' := Next(s, i, cfg), LogNext(g, s, i, cfg);
    var whole, xs := SubFrames(g.done, cfg.crc), Flat(g.open) + Partial(s);
    PayloadGrows(s, i, g.open, cfg);
    OpenFrameGrows(g.header, xs, t.port.data);
    Assoc(whole, OpenFrame(g.header, xs), [Symbol(false, t.port.data)]);
    hide Req, CrcNext, Counter, Up, Down, InserterNext, FifoNext, EndsBlock, OpenFrame, SubFrames, Flat, Partial,
      Emitted;
  }

  lemma ClosingShape(s: State, g: Log, i: Input, cfg: Config)
    requires Sane(s, cfg.c) && s.ctl.mode == CRC_WORD && Req(s, i) && ShapeHolds(s, g, cfg) && CrcHolds(s, g)
    ensures ShapeHolds(Next(s, i, cfg), LogNext(g, s, i, cfg), cfg)
  {
    var b := Block(g.header, g.open);
    SubFramesAppend(g.done, b, cfg.crc);
    Assoc(SubFrames(g.done, cfg.crc), OpenFrame(g.header, Flat(g.open)),
      [Symbol(false, cfg.crc([g.header] + Flat(g.open)))]);
    var whole := SubFrames(g.done + [b], cfg.crc);
    hide Req, CrcNext, Counter, Up, Down, InserterNext, FifoNext, OpenFrame, SubFrames, Flat, Partial, Emitted, Checked;
    assert whole + Pads(0) == whole;
  }

  lemma OtherShape(s: State, g: Log, i: Input, cfg: Config)
    requires Sane(s, cfg.c) && s.ctl.mode != IDLE && s.ctl.mode != CRC_WORD && ShapeHolds(s, g, cfg)
    requires s.ctl.mode == PAYLOAD ==> !Req(s, i) && NeverDry(s)
    ensures ShapeHolds(Next(s, i, cfg), LogNext(g, s, i, cfg), cfg)
  {
    var h, t, whole := g.header, Next(s, i, cfg), SubFrames(g.done, cfg.crc);
    hide Req, CrcNext, Counter, Up, Down, InserterNext, EndsBlock, SubFrames, Emitted, HeaderWord;
    if s.ctl.mode == ETH_HEADER { assert SubFrames(g.done, cfg.crc) == []; }
    if s.ctl.mode == PADDING {
      assert Pads(g.pads + 1) == Pads(g.pads) + [Symbol(true, END_OF_FRAME)];
      Assoc(whole, Pads(g.pads), [Symbol(true, END_OF_FRAME)]);
    }
    if s.ctl.mode == SUBFRAME_HEADER {
      assert Flat(g.open) + Partial(t) == [];
      assert OpenFrame(t.port.data, []) == [Symbol(true, t.port.data)];
    }
  }

  lemma ShapeStep(s: State, g: Log, i: Input, cfg: Config)
    requires Sane(s, cfg.c) && s.ctl.mode != IDLE && NeverDry(s) && ShapeHolds(s, g, cfg) && CrcHolds(s, g)
    requires s.ctl.mode == CRC_WORD ==> Req(s, i)
    ensures ShapeHolds(Next(s, i, cfg), LogNext(g, s, i, cfg), cfg)
  {
    hide ShapeHolds, CrcHolds, Next, LogNext;
    if s.ctl.mode == CRC_WORD { ClosingShape(s, g, i, cfg); }
    else if s.ctl.mode == PAYLOAD && Req(s, i) { PayloadShape(s, g, i, cfg); }
    else { OtherShape(s, g, i, cfg); }
  }

  lemma PayloadCrc(s: State, g: Log, i: Input, cfg: Config)
    requires Sane(s, cfg.c) && s.ctl.mode == PAYLOAD && Req(s, i) && NeverDry(s) && CrcHolds(s, g)
    ensures CrcHolds(Next(s, i, cfg), LogNext(g, s, i, cfg))
  {
    var xs, x := Flat(g.open) + Partial(s), Next(s, i, cfg).port.data;
    PayloadGrows(s, i, g.open, cfg);
    Assoc([g.header], xs, [x]);
    hide Req, Counter, Up, Down, InserterNext, FifoNext, EndsBlock, Flat, Partial, Emitted;
  }

  lemma HeaderCrc(s: State, g: Log, i: Input, cfg: Config)
    requires Sane(s, cfg.c) && s.ctl.mode == SUBFRAME_HEADER && CrcHolds(s, g) && g.open == [] && s.ctl.serCount == 0
    ensures CrcHolds(Next(s, i, cfg), LogNext(g, s, i, cfg))
  {
    hide Req, Counter, Up, Down, InserterNext, FifoNext, EndsBlock, Emitted, HeaderWord;
    var t := Next(s, i, cfg);
    assert Flat(g.open) + Partial(t) == [];
    assert t.crc.seen == [] && Checked(t) == if Req(s, i) then [t.port.data] else [];
  }

  lemma OtherCrc(s: State, g: Log, i: Input, cfg: Config)
    requires Sane(s, cfg.c) && s.ctl.mode != IDLE && s.ctl.mode != SUBFRAME_HEADER && CrcHolds(s, g)
    requires s.ctl.mode == PAYLOAD ==> !Req(s, i) && NeverDry(s)
    requires s.ctl.mode == CRC_WORD ==> Req(s, i)
    ensures CrcHolds(Next(s, i, cfg), LogNext(g, s, i, cfg))
  {
    hide Req, Counter, Up, Down, InserterNext, EndsBlock, Emitted, HeaderWord, Flat;
  }

  lemma CrcStep(s: State, g: Log, i: Input, cfg: Config)
    requires Sane(s, cfg.c) && s.ctl.mode != IDLE && NeverDry(s) && CrcHolds(s, g) && ShapeHolds(s, g, cfg)
    requires s.ctl.mode == CRC_WORD ==> Req(s, i)
    ensures CrcHolds(Next(s, i, cfg), LogNext(g, s, i, cfg))
  {
    assert s.ctl.mode == SUBFRAME_HEADER ==> g.open == [] && s.ctl.serCount == 0;
    hide ShapeHolds, CrcHolds, Next, LogNext, Req;
    if s.ctl.mode == PAYLOAD && Req(s, i) { PayloadCrc(s, g, i, cfg); }
    else if s.ctl.mode == SUBFRAME_HEADER { HeaderCrc(s, g, i, cfg); }
    else { OtherCrc(s, g, i, cfg); }
  }

  lemma EntriesAppend(ws: seq<Word>, w: Word, closed: bool)
    ensures Entries(ws + [w], closed) == Entries(ws, false) + [Entry(closed, w)]
  {}

  lemma {:induction false} BlockEntriesAppend(bs: seq<Block>, b: Block)
    ensures BlockEntries(bs + [b]) == BlockEntries(bs) + Entries(b.words, true)
  {
    assert (bs + [b])[..|bs|] == bs;
  }

  lemma FifoRead(s: State, g: Log, i: Input, cfg: Config)
    requires Sane(s, cfg.c) && FifoHolds(s, g) && Reads(s, i, cfg.c)
    ensures FifoHolds(Next(s, i, cfg), LogNext(g, s, i, cfg))
  {
    var t, e, done, open := Next(s, i, cfg), s.fifo[0], BlockEntries(g.done), Entries(g.open, false);
    EntriesAppend(g.open, e.data, e.last);
    hide Req, Counter, Up, Down, InserterNext, Emitted, HeaderWord, Checked, CrcNext, PortNext, Entries, BlockEntries,
      InserterInput;
    assert s.fifo == [e] + s.fifo[1..];
    Assoc(done + open, [e], s.fifo[1..]);
    Assoc(done, open, [e]);
    assert t.ctl.mode == CRC_WORD <==> e.last || s.fifo == [];
  }

  lemma FifoStep(s: State, g: Log, i: Input, cfg: Config)
    requires Sane(s, cfg.c) && s.ctl.mode != IDLE && NeverDry(s) && FifoHolds(s, g) && ShapeHolds(s, g, cfg)
    requires s.ctl.mode == CRC_WORD ==> Req(s, i)
    ensures FifoHolds(Next(s, i, cfg), LogNext(g, s, i, cfg))
  {
    hide *;
    if Reads(s, i, cfg.c) {
      FifoRead(s, g, i, cfg);
    } else if s.ctl.mode == CRC_WORD {
      FifoClose(s, g, i, cfg);
    } else {
      FifoQuiet(s, g, i, cfg);
    }
  }

  lemma FifoQuiet(s: State, g: Log, i: Input, cfg: Config)
    requires Sane(s, cfg.c) && s.ctl.mode != IDLE && s.ctl.mode != CRC_WORD && !Reads(s, i, cfg.c) && NeverDry(s)
    requires FifoHolds(s, g) && ShapeHolds(s, g, cfg)
    ensures FifoHolds(Next(s, i, cfg), LogNext(g, s, i, cfg))
  {
    NoEntries(true);
    NoEntries(false);
    hide SubFrames, OpenFrame, Flat, Emitted, HeaderWord, Checked, PortNext, CrcNext, Partial, Req, Counter, Up, Down,
      InserterNext, Entries, BlockEntries;
  }

  lemma NoEntries(closed: bool)
    ensures Entries([], closed) == []
  {}

  lemma FifoClose(s: State, g: Log, i: Input, cfg: Config)
    requires Sane(s, cfg.c) && FifoHolds(s, g) && s.ctl.mode == CRC_WORD && Req(s, i)
    ensures FifoHolds(Next(s, i, cfg), LogNext(g, s, i, cfg))
  {
    BlockEntriesAppend(g.done, Block(g.header, g.open));
    NoEntries(false);
    hide Emitted, HeaderWord, Checked, PortNext, Req, BlockEntries, Entries, CrcNext, Counter, Up, Down, InserterNext,
      InserterInput;
    var closed := BlockEntries(g.done) + Entries(g.open, true);
    assert closed + [] == closed;
  }

  /** The source keeps presenting the escape code, the inserter keeps asking it to wait. */
  predicate Stuck(s: State) {
    s.ctl.mode == CRC_WORD && s.port.dvalid && !s.port.escape && s.port.data == ESC
  }

  lemma LastChunkStep(s: State, i: Input, cfg: Config)
    requires Sane(s, cfg.c) && NeverDry(s) && InputOk(i, cfg.c)
    requires s.ctl.mode == CRC_WORD ==> Req(s, i)
    ensures Sane(Next(s, i, cfg), cfg.c) && (LastChunkOut(Next(s, i, cfg)) || Stuck(Next(s, i, cfg)))
  {
    hide Req, Counter, Up, Down, InserterNext, HeaderWord, Checked, CrcNext;
  }

  /** The frame that has been sent, once the machine is back in IDLE. */
  ghost predicate Sent(s: State, g: Log, cfg: Config) {
    && g.wire == g.head + Encode(g.code) && |g.head| == 9
    && g.code == SubFrames(g.done, cfg.crc) + Pads(g.pads) && g.pads >= 1 && g.done != []
    && g.open == [] && FifoHolds(s, g) && TypesHold(s, g, cfg.c)
  }

  lemma TypesStep(s: State, g: Log, i: Input, cfg: Config)
    requires Sane(s, cfg.c) && TypesHold(s, g, cfg.c) && NeverDry(s) && s.ctl.mode != IDLE
    ensures TypesHold(Next(s, i, cfg), LogNext(g, s, i, cfg), cfg.c)
  {
    hide Req, Counter, Up, Down, InserterNext, HeaderWord, Checked, CrcNext, Emitted, FifoNext;
  }

  lemma ModeStep(s: State, g: Log, i: Input, cfg: Config)
    requires InFrame(s, g, cfg)
    ensures var t := Next(s, i, cfg);
      && t.ctl.mode != SOF
      && (t.ctl.mode == IDLE ==> s.ctl.mode == EOF && Req(s, i) && !t.port.dvalid)
  {
    hide WireHolds, ShapeHolds, CrcHolds, FifoHolds, TypesHold, Req, EndsBlock, HeaderWord, Checked;
  }

  lemma LastStep(s: State, g: Log, i: Input, cfg: Config)
    requires InFrame(s, g, cfg) && i.ready && s.ctl.mode == EOF && Req(s, i)
    requires WireHolds(Next(s, i, cfg), LogNext(g, s, i, cfg)) && FifoHolds(Next(s, i, cfg), LogNext(g, s, i, cfg))
    requires TypesHold(Next(s, i, cfg), LogNext(g, s, i, cfg), cfg.c)
    ensures Sent(Next(s, i, cfg), LogNext(g, s, i, cfg), cfg)
  {
    var t, g' := Next(s, i, cfg), LogNext(g, s, i, cfg);
    InserterDrains(s, g, i);
    hide FifoHolds, CrcHolds, TypesHold, Counter, Up, Down, CrcNext, SubFrames, Encode, FifoNext, InserterNext, Req,
      Emitted;
    assert g'.wire + Pending(t) == g'.wire;
  }

  /** Everything that is known about a frame is kept by every clock edge, up to its end. */
  lemma FrameStep(s: State, g: Log, i: Input, cfg: Config)
    requires InFrame(s, g, cfg) && NeverDry(s) && InputOk(i, cfg.c) && i.ready && !Stuck(Next(s, i, cfg))
    ensures var t, g' := Next(s, i, cfg), LogNext(g, s, i, cfg);
      if t.ctl.mode == IDLE then Sent(t, g', cfg) else InFrame(t, g', cfg)
  {
    assert s.ctl.mode == CRC_WORD ==> Req(s, i);
    WireStep(s, g, i, cfg);
    ShapeStep(s, g, i, cfg);
    CrcStep(s, g, i, cfg);
    FifoStep(s, g, i, cfg);
    LastChunkStep(s, i, cfg);
    ModeStep(s, g, i, cfg);
    TypesStep(s, g, i, cfg);
    hide WireHolds, ShapeHolds, FifoHolds, CrcHolds, TypesHold, Next, LogNext, Sent, Req, Stuck;
    if Next(s, i, cfg).ctl.mode == IDLE { LastStep(s, g, i, cfg); }
  }

  // ----- whole frames -----

  ghost predicate InputsOk(ins: seq<Input>, c: nat) {
    forall k | 0 <= k < |ins| :: InputOk(ins[k], c)
  }

  lemma SaneStep(s: State, i: Input, cfg: Config)
    requires Sane(s, cfg.c) && InputOk(i, cfg.c)
    ensures Sane(Next(s, i, cfg), cfg.c)
  {
    hide Req, Counter, Up, Down, InserterNext, HeaderWord, CrcNext, PortNext;
  }

  /** The state after the first n cycles. */
  ghost function Run(s: State, ins: seq<Input>, n: nat, cfg: Config): (t: State)
    requires Sane(s, cfg.c) && InputsOk(ins, cfg.c) && n <= |ins|
    ensures Sane(t, cfg.c)
  {
    if n == 0 then s
    else
      var t := Run(s, ins, n - 1, cfg);
      SaneStep(t, ins[n - 1], cfg);
      Next(t, ins[n - 1], cfg)
  }

  ghost function RunLog(s: State, ins: seq<Input>, n: nat, cfg: Config): Log
    requires Sane(s, cfg.c) && InputsOk(ins, cfg.c) && n <= |ins|
  {
    if n == 0 then NewLog(s.fifo)
    else LogNext(RunLog(s, ins, n - 1, cfg), Run(s, ins, n - 1, cfg), ins[n - 1], cfg)
  }

  /** The log of a frame that is about to begin with a given FIFO. */
  function NewLog(fifo: seq<Entry>): Log {
    Log([], [], [], [], 0, [], fifo, 0)
  }

  /** The machine has just left IDLE. */
  predicate Starts(s: State, cfg: Config) {
    && Sane(s, cfg.c) && s.ctl.mode == SOF && !s.port.dvalid && !s.port.enable && !s.port.escape
    && !s.ins.inserting && !s.crc.en && (s.crc.reset || s.crc.seen == []) && s.port.sof && !s.port.eof
  }

  lemma StartsInFrame(s: State, cfg: Config)
    requires Starts(s, cfg)
    ensures InFrame(s, NewLog(s.fifo), cfg)
  {
    var g := NewLog(s.fifo);
    assert BlockEntries(g.done) + Entries(g.open, false) + s.fifo == s.fifo;
  }

  /** Cycle k of a frame: the fabric is ready, and the FIFO does not run dry inside a block. */
  ghost predicate Runs(s: State, ins: seq<Input>, k: nat, cfg: Config)
    requires Sane(s, cfg.c) && InputsOk(ins, cfg.c) && k < |ins|
  {
    ins[k].ready && NeverDry(Run(s, ins, k, cfg)) && Run(s, ins, k, cfg).ctl.mode != IDLE
  }

  /** From the start of a frame to its end. */
  ghost predicate RunsFrame(s: State, ins: seq<Input>, cfg: Config)
    requires Sane(s, cfg.c) && InputsOk(ins, cfg.c)
  {
    && ins != [] && Run(s, ins, |ins|, cfg).ctl.mode == IDLE
    && (forall k | 0 <= k < |ins| :: Runs(s, ins, k, cfg))
  }

  lemma StuckStep(s: State, i: Input, cfg: Config)
    requires Sane(s, cfg.c) && Stuck(s)
    ensures Stuck(Next(s, i, cfg))
  {}

  /** Once stuck, the streamer never leaves CRC_WORD again, whatever the fabric and the user do. */
  lemma {:induction false} StuckForEver(s: State, ins: seq<Input>, m: nat, n: nat, cfg: Config)
    requires Sane(s, cfg.c) && InputsOk(ins, cfg.c) && m <= n <= |ins| && Stuck(Run(s, ins, m, cfg))
    ensures Stuck(Run(s, ins, n, cfg))
  {
    hide Stuck, Next;
    if m < n {
      StuckForEver(s, ins, m, n - 1, cfg);
      StuckStep(Run(s, ins, n - 1, cfg), ins[n - 1], cfg);
    }
  }

  lemma {:induction false} FramePrefix(s: State, ins: seq<Input>, n: nat, cfg: Config)
    requires Sane(s, cfg.c) && Starts(s, cfg) && InputsOk(ins, cfg.c) && RunsFrame(s, ins, cfg) && n <= |ins|
    ensures n < |ins| ==> InFrame(Run(s, ins, n, cfg), RunLog(s, ins, n, cfg), cfg)
    ensures n == |ins| ==> Sent(Run(s, ins, n, cfg), RunLog(s, ins, n, cfg), cfg)
  {
    hide InFrame, Next, LogNext, Starts, Sent;
    if n == 0 {
      StartsInFrame(s, cfg);
    } else {
      FramePrefix(s, ins, n - 1, cfg);
      if Stuck(Run(s, ins, n, cfg)) { StuckForEver(s, ins, n, |ins|, cfg); }
      assert Runs(s, ins, n - 1, cfg);
      FrameStep(Run(s, ins, n - 1, cfg), RunLog(s, ins, n - 1, cfg), ins[n - 1], cfg);
      if n < |ins| { assert Runs(s, ins, n, cfg); }
    }
  }

  /** A completed frame is its header, then the escape code of its sub-frames and of at least one
      end-of-frame word; its blocks are, word by word, what was taken from the FIFO. */
  lemma {:induction false} FrameIsWellFormed(s: State, ins: seq<Input>, cfg: Config)
    requires Starts(s, cfg) && InputsOk(ins, cfg.c) && RunsFrame(s, ins, cfg)
    ensures Sent(Run(s, ins, |ins|, cfg), RunLog(s, ins, |ins|, cfg), cfg)
  {
    FramePrefix(s, ins, |ins|, cfg);
  }

  /** The header words in front of the time tag: both addresses and the type. */
  function Title(cfg: Config): (t: seq<Chunk>)
    ensures |t| == 7
  {
    [cfg.target.0, cfg.target.1, cfg.target.2, cfg.local.0, cfg.local.1, cfg.local.2, cfg.ethertype]
  }

  ghost predicate Titled(s: State, g: Log, cfg: Config) {
    && (s.ctl.mode == SOF ==> g.head == []) && (s.ctl.mode == ETH_HEADER ==> |g.head| == s.ctl.count)
    && forall k: nat | k < |g.head| && k < 7 :: g.head[k] == Title(cfg)[k]
  }

  lemma TitledStep(s: State, g: Log, i: Input, cfg: Config)
    requires Sane(s, cfg.c) && Titled(s, g, cfg) && s.ctl.mode != IDLE
    ensures Titled(Next(s, i, cfg), LogNext(g, s, i, cfg), cfg)
  {
    hide Req, Counter, Up, Down, InserterNext, Checked, CrcNext, Emitted, FifoNext, EndsBlock;
  }

  lemma {:induction false} FrameIsTitled(s: State, ins: seq<Input>, n: nat, cfg: Config)
    requires Starts(s, cfg) && InputsOk(ins, cfg.c) && RunsFrame(s, ins, cfg) && n <= |ins|
    ensures Titled(Run(s, ins, n, cfg), RunLog(s, ins, n, cfg), cfg)
  {
    hide Next, LogNext, Title;
    if n > 0 {
      hide Titled;
      FrameIsTitled(s, ins, n - 1, cfg);
      assert Runs(s, ins, n - 1, cfg);
      TitledStep(Run(s, ins, n - 1, cfg), RunLog(s, ins, n - 1, cfg), ins[n - 1], cfg);
    }
  }

  /** A completed frame begins with nine header words, the first seven of which are the configured ones. */
  lemma {:induction false} FrameIsAddressed(s: State, ins: seq<Input>, cfg: Config)
    requires Starts(s, cfg) && InputsOk(ins, cfg.c) && RunsFrame(s, ins, cfg)
    ensures var head := RunLog(s, ins, |ins|, cfg).head; |head| == 9 && head[..7] == Title(cfg)
  {
    hide Run, RunLog, RunsFrame, FifoHolds, TypesHold, SubFrames, Encode, Starts;
    FrameIsWellFormed(s, ins, cfg);
    FrameIsTitled(s, ins, |ins|, cfg);
  }

  // ----- one frame after another -----

  /** Between two frames, nothing is left over from the last one. */
  predicate AtRest(s: State) {
    && s.ctl.mode == IDLE && !s.port.dvalid && !s.port.sof
    && !s.ins.inserting && !s.crc.en && (s.crc.reset || s.crc.seen == [])
  }

  /** From rest the machine stays at rest or starts a frame, so every frame starts clean. */
  lemma RestStep(s: State, i: Input, cfg: Config)
    requires Sane(s, cfg.c) && InputOk(i, cfg.c) && AtRest(s)
    ensures var t := Next(s, i, cfg); Sane(t, cfg.c) && (if t.ctl.mode == IDLE then AtRest(t) else Starts(t, cfg))
  {
    SaneStep(s, i, cfg);
    hide Req, Counter, Up, Down, FifoNext;
  }

  /** A frame that has been sent leaves the machine at rest. */
  lemma FrameLeavesRest(s: State, g: Log, i: Input, cfg: Config)
    requires InFrame(s, g, cfg) && i.ready && s.ctl.mode == EOF && Req(s, i) && !s.port.sof
    ensures AtRest(Next(s, i, cfg))
  {
    InserterDrains(s, g, i);
    hide ShapeHolds, FifoHolds, TypesHold, Req, InserterNext, FifoNext, Counter, Up, Down, SubFrames;
  }

  // ----- the length of a frame -----

  /** The word counter follows the words handed to the inserter; p_fsm leaves PADDING late enough. */
  ghost predicate LengthHolds(s: State, g: Log) {
    var n, pending := |g.head| + |g.code|, if s.port.dvalid then 1 else 0;
    if s.ctl.mode == SOF then s.port.sof && n == 0 && !s.port.dvalid
    else
      && !s.port.sof && pending <= n && s.totalWords == (n - pending) % 2048
      && (s.ctl.mode == EOF || s.ctl.mode == IDLE ==> n > MIN_PACKET_SIZE)
  }

  lemma LengthStep(s: State, g: Log, i: Input, cfg: Config)
    requires Sane(s, cfg.c) && s.ctl.mode != IDLE && NeverDry(s) && LengthHolds(s, g)
    requires s.ctl.mode == CRC_WORD ==> Req(s, i)
    ensures LengthHolds(Next(s, i, cfg), LogNext(g, s, i, cfg))
  {
    PortStep(s, i, cfg);
    LogStep(g, s, i, cfg);
    CountStep(|g.head| + |g.code|, if s.port.dvalid then 1 else 0);
    hide Req, PortNext, LogNext, CrcNext, FifoNext, Counter, Up, Down, InserterNext, EndsBlock;
  }

  lemma CountStep(n: nat, pending: nat)
    requires pending <= n
    ensures ((n - pending) % 2048 + pending) % 2048 == n % 2048
    ensures (n - pending) % 2048 <= n - pending
  {}

  lemma PortStep(s: State, i: Input, cfg: Config)
    requires Sane(s, cfg.c) && s.ctl.mode != IDLE && NeverDry(s)
    requires s.ctl.mode == CRC_WORD ==> Req(s, i)
    ensures var p := PortNext(s, i, cfg);
      && p.sof == (s.port.sof && s.ctl.mode != SOF)
      && p.dvalid == if s.ctl.mode == SOF then s.port.dvalid else s.ctl.mode != EOF && Req(s, i)
  {
    hide Req, HeaderWord, Checked;
  }

  lemma LogStep(g: Log, s: State, i: Input, cfg: Config)
    requires Sane(s, cfg.c) && s.ctl.mode != IDLE && NeverDry(s)
    ensures var t := LogNext(g, s, i, cfg);
      |t.head| + |t.code| == |g.head| + |g.code| + if Req(s, i) && s.ctl.mode != SOF && s.ctl.mode != EOF then 1 else 0
  {
    hide Req, PortNext, Emitted;
  }

  lemma {:induction false} LengthPrefix(s: State, ins: seq<Input>, n: nat, cfg: Config)
    requires Sane(s, cfg.c) && Starts(s, cfg) && InputsOk(ins, cfg.c) && RunsFrame(s, ins, cfg) && n <= |ins|
    ensures LengthHolds(Run(s, ins, n, cfg), RunLog(s, ins, n, cfg))
  {
    hide Next, LogNext, LengthHolds, InFrame, RunsFrame, Starts, Sent;
    if n == 0 {
      StartLength(s, cfg);
    } else {
      LengthPrefix(s, ins, n - 1, cfg);
      FramePrefix(s, ins, n - 1, cfg);
      CycleOfFrame(s, ins, n - 1, cfg);
      LengthInFrame(Run(s, ins, n - 1, cfg), RunLog(s, ins, n - 1, cfg), ins[n - 1], cfg);
    }
  }

  lemma StartLength(s: State, cfg: Config)
    requires Starts(s, cfg)
    ensures LengthHolds(s, NewLog(s.fifo))
  {}

  lemma {:induction false} CycleOfFrame(s: State, ins: seq<Input>, k: nat, cfg: Config)
    requires Sane(s, cfg.c) && InputsOk(ins, cfg.c) && RunsFrame(s, ins, cfg) && k < |ins|
    ensures ins[k].ready && NeverDry(Run(s, ins, k, cfg)) && Run(s, ins, k, cfg).ctl.mode != IDLE
  {
    assert Runs(s, ins, k, cfg);
    hide Run, NeverDry;
  }

  lemma LengthInFrame(s: State, g: Log, i: Input, cfg: Config)
    requires InFrame(s, g, cfg) && i.ready && NeverDry(s) && LengthHolds(s, g)
    ensures LengthHolds(Next(s, i, cfg), LogNext(g, s, i, cfg))
  {
    assert s.ctl.mode == CRC_WORD ==> Req(s, i);
    hide WireHolds, ShapeHolds, CrcHolds, FifoHolds, TypesHold, Next, LogNext, LengthHolds, Req;
    LengthStep(s, g, i, cfg);
  }

  /** Every frame has more than 30 words: with the check sequence, more than the minimum of
      section 4.4.2 of IEEE 802.3. */
  lemma {:induction false} FrameIsLongEnough(s: State, ins: seq<Input>, cfg: Config)
    requires Starts(s, cfg) && InputsOk(ins, cfg.c) && RunsFrame(s, ins, cfg)
    ensures |RunLog(s, ins, |ins|, cfg).wire| > 30
  {
    var g := RunLog(s, ins, |ins|, cfg);
    LengthPrefix(s, ins, |ins|, cfg);
    FrameIsWellFormed(s, ins, cfg);
    CodeIsNotShorter(g.code);
    hide Run, RunLog, RunsFrame, Encode, SubFrames;
  }

  // ----- a FIFO that runs dry -----

  /** Inside a sub-frame with an empty FIFO, no chunk goes out and the sub-frame is closed; with a stall, nothing
      moves at all. */
  lemma DryFifoCloses(s: State, i: Input, cfg: Config)
    requires Sane(s, cfg.c) && s.ctl.mode == PAYLOAD
    ensures var t := Next(s, i, cfg);
      && (s.fifo == [] ==> !t.port.dvalid && (t.ctl.mode == CRC_WORD <==> Req(s, i)))
      && (!Req(s, i) ==> !t.port.dvalid && t.ctl == s.ctl && t.fifo == Append(s.fifo, i.push))
  {
    hide Req, CrcNext, Counter, Up, Down, InserterNext;
  }

  // ----- no block is empty -----

  ghost predicate Filled(s: State, g: Log) {
    (s.ctl.mode == CRC_WORD ==> g.open != []) && forall b | b in g.done :: b.words != []
  }

  lemma FilledStep(s: State, g: Log, i: Input, cfg: Config)
    requires Sane(s, cfg.c) && s.ctl.mode != IDLE && NeverDry(s) && Filled(s, g)
    ensures Filled(Next(s, i, cfg), LogNext(g, s, i, cfg))
  {
    hide Req, CrcNext, InserterNext, FifoNext, HeaderWord, Emitted, Checked, Counter, Up, Down;
  }

  lemma {:induction false} FilledPrefix(s: State, ins: seq<Input>, n: nat, cfg: Config)
    requires Sane(s, cfg.c) && Starts(s, cfg) && InputsOk(ins, cfg.c) && RunsFrame(s, ins, cfg) && n <= |ins|
    ensures Filled(Run(s, ins, n, cfg), RunLog(s, ins, n, cfg))
  {
    hide Next, LogNext, RunsFrame, Starts, NeverDry, Filled;
    if n == 0 {
      StartFilled(s, cfg);
    } else {
      FilledPrefix(s, ins, n - 1, cfg);
      CycleOfFrame(s, ins, n - 1, cfg);
      FilledStep(Run(s, ins, n - 1, cfg), RunLog(s, ins, n - 1, cfg), ins[n - 1], cfg);
    }
  }

  lemma StartFilled(s: State, cfg: Config)
    requires Starts(s, cfg)
    ensures Filled(s, NewLog(s.fifo))
  {}

  /** A completed frame has no empty blocks. */
  lemma {:induction false} BlocksAreFilled(s: State, ins: seq<Input>, cfg: Config)
    requires Starts(s, cfg) && InputsOk(ins, cfg.c) && RunsFrame(s, ins, cfg)
    ensures forall b | b in RunLog(s, ins, |ins|, cfg).done :: b.words != []
  {
    FilledPrefix(s, ins, |ins|, cfg);
    hide RunLog, Run, RunsFrame;
  }

  // ----- the number of blocks in the FIFO -----

  function Lasts(fifo: seq<Entry>): nat {
    if fifo == [] then 0 else Lasts(fifo[..|fifo| - 1]) + if fifo[|fifo| - 1].last then 1 else 0
  }

  lemma {:induction false} LastsOfTail(fifo: seq<Entry>)
    requires fifo != []
    ensures Lasts(fifo) == Lasts(fifo[1..]) + if fifo[0].last then 1 else 0
  {
    if |fifo| > 1 {
      LastsOfTail(fifo[..|fifo| - 1]);
      assert fifo[..|fifo| - 1][1..] == fifo[1..][..|fifo| - 2];
    }
  }

  lemma FifoLasts(s: State, i: Input, c: nat)
    ensures Lasts(FifoNext(s, i, c)) == Lasts(s.fifo) - (if Down(s, i, c) then 1 else 0) + (if Up(i) then 1 else 0)
  {
    hide Req;
    var rest := if Reads(s, i, c) then s.fifo[1..] else s.fifo;
    if Reads(s, i, c) { LastsOfTail(s.fifo); }
    if i.push.Some? { assert (rest + [i.push.value])[..|rest|] == rest; }
    hide Reads;
  }

  /** p_frame_counter counts the blocks in the FIFO, with any pushes and any reads. */
  lemma FrameCountIsExact(s: State, i: Input, cfg: Config)
    requires Sane(s, cfg.c) && s.frames == Lasts(s.fifo) % 64
    ensures var t := Next(s, i, cfg); t.frames == Lasts(t.fifo) % 64
  {
    hide Req, ControlNext, PortNext, CrcNext, InserterNext, Lasts, FifoNext, Reads;
    FifoLasts(s, i, cfg.c);
    CounterModulo(Lasts(s.fifo), Up(i), Down(s, i, cfg.c));
    hide Counter, Up, Down;
  }

  lemma CounterModulo(n: nat, up: bool, down: bool)
    ensures Counter(n % 64, up, down) == (n - (if down then 1 else 0) + (if up then 1 else 0)) % 64
  {
  }

  // ----- the registers, clocked in place -----

  /** One frame at a time: at rest, or with everything that is known inside a frame. */
  ghost predicate Steady(s: State, g: Log, cfg: Config) {
    && Sane(s, cfg.c)
    && if s.ctl.mode == IDLE then AtRest(s) else InFrame(s, g, cfg) && LengthHolds(s, g) && !s.port.eof
  }

  function Track(g: Log, s: State, i: Input, cfg: Config): Log
    requires Sane(s, cfg.c)
  {
    if s.ctl.mode == IDLE then NewLog(Next(s, i, cfg).fifo) else LogNext(g, s, i, cfg)
  }

  /** The conditions under which frame after frame is sent as it should be. */
  ghost predicate Smooth(s: State, i: Input, cfg: Config)
    requires Sane(s, cfg.c)
  {
    s.ctl.mode == IDLE || (i.ready && NeverDry(s) && !Stuck(Next(s, i, cfg)))
  }

  lemma SteadyStep(s: State, g: Log, i: Input, cfg: Config)
    requires Steady(s, g, cfg) && Smooth(s, i, cfg) && InputOk(i, cfg.c)
    ensures Steady(Next(s, i, cfg), Track(g, s, i, cfg), cfg)
    ensures s.ctl.mode != IDLE && Next(s, i, cfg).ctl.mode == IDLE ==>
      Sent(Next(s, i, cfg), Track(g, s, i, cfg), cfg) && |Track(g, s, i, cfg).wire| > 30
    ensures var t := Next(s, i, cfg);
      t.port.sof == (t.ctl.mode == SOF) && t.port.eof == (s.ctl.mode != IDLE && t.ctl.mode == IDLE)
  {
    MarksAtEdge(s, g, i, cfg);
    hide InFrame, AtRest, Next, LogNext, LengthHolds, Starts, Sent;
    if s.ctl.mode == IDLE {
      RestStep(s, i, cfg);
      if Next(s, i, cfg).ctl.mode != IDLE {
        StartsInFrame(Next(s, i, cfg), cfg);
        StartLength(Next(s, i, cfg), cfg);
      }
    } else {
      SaneStep(s, i, cfg);
      FrameStep(s, g, i, cfg);
      LengthInFrame(s, g, i, cfg);
      if Next(s, i, cfg).ctl.mode == IDLE { SteadyEnd(s, g, i, cfg); }
    }
  }

  /** sof is high in SOF, and eof in the first cycle back in IDLE. */
  lemma MarksAtEdge(s: State, g: Log, i: Input, cfg: Config)
    requires Steady(s, g, cfg)
    ensures var t := Next(s, i, cfg);
      t.port.sof == (t.ctl.mode == SOF) && t.port.eof == (s.ctl.mode != IDLE && t.ctl.mode == IDLE)
  {
    hide WireHolds, ShapeHolds, CrcHolds, FifoHolds, LastChunkOut, TypesHold, Req, EndsBlock, HeaderWord, Checked,
      CrcNext, FifoNext, Counter, Up, Down, InserterNext;
  }

  lemma SteadyEnd(s: State, g: Log, i: Input, cfg: Config)
    requires InFrame(s, g, cfg) && LengthHolds(s, g) && i.ready && Next(s, i, cfg).ctl.mode == IDLE
    requires Sent(Next(s, i, cfg), LogNext(g, s, i, cfg), cfg)
    requires LengthHolds(Next(s, i, cfg), LogNext(g, s, i, cfg))
    ensures AtRest(Next(s, i, cfg)) && |LogNext(g, s, i, cfg).wire| > 30
  {
    ModeStep(s, g, i, cfg);
    hide Next, LogNext, InFrame, Encode, SubFrames, FifoHolds, TypesHold, Req;
    FrameLeavesRest(s, g, i, cfg);
    CodeIsNotShorter(LogNext(g, s, i, cfg).code);
  }

  class Transmitter {
    const cfg: Config
    const inserter: EscapeInserter
    var mode: Mode
    var count: nat
    var serCount: nat
    var seqNo: nat
    var dvalid: bool
    var data: Chunk
    var escape: bool
    var enable: bool
    var sof: bool
    var eof: bool
    var crcEn: bool
    var crcReset: bool
    var crcSeen: seq<Chunk>
    var totalWords: nat
    var fifo: seq<Entry>
    var frames: nat
    ghost var steady: bool
    ghost var log: Log

    ghost function Controls(): Control
      reads this`mode, this`count, this`serCount, this`seqNo
    {
      Control(mode, count, serCount, seqNo)
    }

    ghost function Ports(): Port
      reads this`dvalid, this`data, this`escape, this`enable, this`sof, this`eof
    {
      Port(dvalid, data, escape, enable, sof, eof)
    }

    ghost function Registers(): State
      reads this, inserter
    {
      State(Controls(), Ports(), Crc(crcEn, crcReset, crcSeen), totalWords, fifo, frames, inserter.Registers())
    }

    ghost predicate Valid()
      reads this, inserter
    {
      && Sane(Registers(), cfg.c) && inserter.Valid()
      && frames == Lasts(fifo) % 64
      && (steady ==> Steady(Registers(), log, cfg))
    }

    constructor (cfg: Config)
      requires cfg.c >= 1
      ensures Valid() && steady && fifo == [] && this.cfg == cfg && fresh(inserter)
    {
      this.cfg := cfg;
      var e := new EscapeInserter();
      inserter := e;
      mode, count, serCount, seqNo := IDLE, 0, 0, 0;
      dvalid, data, escape, enable, sof, eof := false, 0, false, false, false, false;
      crcEn, crcReset, crcSeen, totalWords, fifo, frames := false, true, [], 0, [], 0;
      steady, log := true, NewLog([]);
    }

    /** The registers of p_fsm, and what it sees of the rest, are those of `s`. */
    ghost predicate Sees(s: State, i: Input, req: bool)
      reads this`mode, this`count, this`serCount, this`seqNo, this`dvalid, this`data, this`escape, this`enable,
        this`sof, this`eof, this`crcEn, this`crcReset, this`totalWords, this`fifo
    {
      && Sane(s, cfg.c) && Controls() == s.ctl && Ports() == s.port && fifo == s.fifo && totalWords == s.totalWords
      && crcEn == s.crc.en && crcReset == s.crc.reset && req == Req(s, i)
    }

    /** What p_fsm makes of its registers. */
    ghost predicate FsmClocked(s: State, i: Input)
      requires Sane(s, cfg.c)
      reads this`mode, this`count, this`serCount, this`seqNo, this`dvalid, this`data, this`escape, this`enable,
        this`sof, this`eof, this`crcEn, this`crcReset
    {
      && Controls() == ControlNext(s, i, cfg) && Ports() == PortNext(s, i, cfg)
      && crcEn == CrcNext(s, i).en && crcReset == CrcNext(s, i).reset
    }

    method ClockIdle(ghost s: State, i: Input, req: bool)
      requires Sees(s, i, req) && mode == IDLE
      modifies this`mode, this`crcEn, this`crcReset, this`eof, this`sof, this`escape, this`enable
      ensures FsmClocked(s, i)
    {
      hide Req;
      crcEn, crcReset, eof, sof := false, false, false, req && i.go;
      if req && i.go { mode := SOF; }
      enable, escape := false, false;
    }

    method ClockSof(ghost s: State, ghost i: Input, ghost req: bool)
      requires Sees(s, i, req) && mode == SOF
      modifies this`mode, this`sof, this`count, this`serCount
      ensures FsmClocked(s, i)
    {
      hide Req;
      sof, serCount, count, mode := false, 0, 0, ETH_HEADER;
    }

    method ClockEthHeader(ghost s: State, i: Input, req: bool)
      requires Sees(s, i, req) && mode == ETH_HEADER
      modifies this`mode, this`count, this`data, this`dvalid
      ensures FsmClocked(s, i)
    {
      hide Req, HeaderWord;
      dvalid := req;
      if req {
        data := HeaderWord(cfg, count, i);
        if count == 8 { count, mode := 0, SUBFRAME_HEADER; } else { count := count + 1; }
      }
    }

    method ClockSubframeHeader(ghost s: State, ghost i: Input, req: bool)
      requires Sees(s, i, req) && mode == SUBFRAME_HEADER
      modifies this`mode, this`crcEn, this`crcReset, this`dvalid, this`data, this`escape, this`enable, this`seqNo
      ensures FsmClocked(s, i)
    {
      hide Req;
      crcEn, crcReset, dvalid := true, false, req;
      if req {
        escape, enable, data := true, true, 0x8000 + seqNo;
        seqNo, mode := (seqNo + 1) % 0x8000, PAYLOAD;
      }
    }

    method ClockPayload(ghost s: State, ghost i: Input, req: bool)
      requires Sees(s, i, req) && mode == PAYLOAD
      modifies this`mode, this`count, this`serCount, this`dvalid, this`data, this`escape
      ensures FsmClocked(s, i)
    {
      hide Req;
      escape, dvalid := false, false;
      if req {
        if fifo != [] {
          data, dvalid := fifo[0].data[serCount], true;
        }
        if fifo == [] || (serCount + 1 == cfg.c && fifo[0].last) {
          mode := CRC_WORD;
        }
        if serCount + 1 == cfg.c {
          count, serCount := (count + 1) % 256, 0;
        } else {
          serCount := serCount + 1;
        }
      }
    }

    method ClockCrcWord(ghost s: State, ghost i: Input, req: bool, checked: seq<Chunk>)
      requires Sees(s, i, req) && mode == CRC_WORD && checked == Checked(s)
      modifies this`mode, this`serCount, this`crcEn, this`crcReset, this`dvalid, this`data
      ensures FsmClocked(s, i)
    {
      hide Req, Checked;
      crcEn, serCount := false, 0;
      if req {
        dvalid, data, crcReset := true, cfg.crc(checked), true;
        if fifo == [] || count >= cfg.maxWords { mode := PADDING; } else { mode := SUBFRAME_HEADER; }
      }
    }

    method ClockPadding(ghost s: State, ghost i: Input, req: bool)
      requires Sees(s, i, req) && mode == PADDING
      modifies this`mode, this`dvalid, this`data, this`escape
      ensures FsmClocked(s, i)
    {
      hide Req;
      dvalid := req;
      if req {
        escape, data := true, END_OF_FRAME;
        if totalWords >= MIN_PACKET_SIZE { mode := EOF; }
      }
    }

    method ClockEof(ghost s: State, ghost i: Input, req: bool)
      requires Sees(s, i, req) && mode == EOF
      modifies this`mode, this`dvalid, this`eof
      ensures FsmClocked(s, i)
    {
      hide Req;
      dvalid := false;
      if req { eof, mode := true, IDLE; }
    }

    /** p_fsm */
    method ClockFsm(ghost s: State, i: Input, req: bool, checked: seq<Chunk>)
      requires Sees(s, i, req) && checked == Checked(s)
      modifies this`mode, this`count, this`serCount, this`seqNo, this`dvalid, this`data, this`escape, this`enable,
        this`sof, this`eof, this`crcEn, this`crcReset
      ensures FsmClocked(s, i)
    {
      assert Sane(s, cfg.c);
      hide FsmClocked, Sees, Checked, Sane;
      match mode
      case IDLE => ClockIdle(s, i, req);
      case SOF => ClockSof(s, i, req);
      case ETH_HEADER => ClockEthHeader(s, i, req);
      case SUBFRAME_HEADER => ClockSubframeHeader(s, i, req);
      case PAYLOAD => ClockPayload(s, i, req);
      case CRC_WORD => ClockCrcWord(s, i, req, checked);
      case PADDING => ClockPadding(s, i, req);
      case EOF => ClockEof(s, i, req);
    }

    /** p_frame_counter and the CRC generator, while the FIFO and p_fsm are as they were before the edge. */
    method ClockFrameCounter(ghost s: State, i: Input, fifoRead: bool, checked: seq<Chunk>)
      requires Sees(s, i, Req(s, i)) && fifoRead == Reads(s, i, cfg.c) && checked == Checked(s) && frames == s.frames
      modifies this`frames, this`crcSeen
      ensures frames == Counter(s.frames, Up(i), Down(s, i, cfg.c)) && crcSeen == if s.crc.reset then [] else Checked(s)
    {
      hide Checked, Req, Sane;
      var inLast, outLast := i.push.Some? && i.push.value.last, fifo != [] && fifo[0].last;
      if inLast && (!fifoRead || !outLast) {
        frames := (frames + 1) % 64;
      } else if !inLast && fifoRead && outLast {
        frames := (frames + 63) % 64;
      }
      crcSeen := if crcReset then [] else checked;
    }

    /** p_count_words, from the outputs of p_fsm before the edge, and the FIFO. */
    method ClockFifo(ghost s: State, i: Input, wasSof: bool, wasDvalid: bool, fifoRead: bool)
      requires fifo == s.fifo && totalWords == s.totalWords && fifoRead == Reads(s, i, cfg.c)
      requires wasSof == s.port.sof && wasDvalid == s.port.dvalid
      modifies this`totalWords, this`fifo
      ensures totalWords == if s.port.sof then 0 else if s.port.dvalid then (s.totalWords + 1) % 2048 else s.totalWords
      ensures fifo == FifoNext(s, i, cfg.c)
    {
      hide Req;
      if wasSof { totalWords := 0; } else if wasDvalid { totalWords := (totalWords + 1) % 2048; }
      if fifoRead { fifo := fifo[1..]; }
      if i.push.Some? { fifo := fifo + [i.push.value]; }
    }

    /** What all processes but the inserter make of the registers. */
    ghost predicate Clocked(s: State, i: Input)
      requires Sane(s, cfg.c)
      reads this`mode, this`count, this`serCount, this`seqNo, this`dvalid, this`data, this`escape, this`enable,
        this`sof, this`eof, this`crcEn, this`crcReset, this`crcSeen, this`totalWords, this`fifo, this`frames
    {
      && FsmClocked(s, i) && crcSeen == (if s.crc.reset then [] else Checked(s)) && fifo == FifoNext(s, i, cfg.c)
      && totalWords == (if s.port.sof then 0 else if s.port.dvalid then (s.totalWords + 1) % 2048 else s.totalWords)
      && frames == Counter(s.frames, Up(i), Down(s, i, cfg.c))
    }

    lemma ClockedIsNext(s: State, i: Input)
      requires Sane(s, cfg.c) && Clocked(s, i) && inserter.Registers() == InserterNext(s.ins, InserterInput(s, i))
      ensures Registers() == Next(s, i, cfg)
    {
      hide ControlNext, PortNext, InserterNext, Sane, Counter, Up, Down, FifoNext, Checked, Req;
    }

    /** tx_fifo_rd, crc_value and what else the processes see before the edge. */
    method Observe(ghost s: State, ghost i: Input, req: bool)
      returns (fifoRead: bool, checked: seq<Chunk>, wasSof: bool, wasDvalid: bool)
      requires Sees(s, i, req) && crcSeen == s.crc.seen
      ensures Sane(s, cfg.c) && req == Req(s, i) && fifo == s.fifo && totalWords == s.totalWords
      ensures fifoRead == Reads(s, i, cfg.c) && checked == Checked(s) && wasSof == s.port.sof
        && wasDvalid == s.port.dvalid
    {
      hide Req, Sane;
      fifoRead := mode == PAYLOAD && serCount + 1 == cfg.c && req && fifo != [];
      checked := if crcEn && dvalid then crcSeen + [data] else crcSeen;
      wasSof, wasDvalid := sof, dvalid;
    }

    /** The processes see the registers as they were before the edge. */
    method ClockProcesses(ghost s: State, i: Input, req: bool)
      requires Sees(s, i, req) && crcSeen == s.crc.seen && frames == s.frames
      modifies this`mode, this`count, this`serCount, this`seqNo, this`dvalid, this`data, this`escape, this`enable,
        this`sof, this`eof, this`crcEn, this`crcReset, this`crcSeen, this`totalWords, this`fifo, this`frames
      ensures Clocked(s, i)
    {
      hide Checked, Req, Sane, Counter, Up, Down, FifoNext, FsmClocked, Reads, Sees;
      var fifoRead, checked, wasSof, wasDvalid := Observe(s, i, req);
      ClockFrameCounter(s, i, fifoRead, checked);
      ClockFsm(s, i, req, checked);
      ClockFifo(s, i, wasSof, wasDvalid, fifoRead);
    }

    /** One rising edge. */
    method ClockRegisters(i: Input) returns (word: Option<Chunk>)
      requires Sane(Registers(), cfg.c) && inserter.Valid()
      modifies this`mode, this`count, this`serCount, this`seqNo, this`dvalid, this`data, this`escape, this`enable,
        this`sof, this`eof, this`crcEn, this`crcReset, this`crcSeen, this`totalWords, this`fifo, this`frames, inserter
      ensures inserter.Valid() && Registers() == Next(old(Registers()), i, cfg) && word == Emitted(old(Registers()), i)
    {
      ghost var s := Registers();
      hide InserterNext, InserterOut, Sane, InserterRun, Clocked, Next;
      var req;
      word, req := inserter.Clock(InserterIn(data, escape, dvalid, enable, i.ready));
      ClockProcesses(s, i, req);
      ClockedIsNext(s, i);
    }

    /** As long as the fabric is ready and the FIFO never runs dry inside a frame, frame after frame is
        sent as it should be; the frame counter is exact in any case. */
    method Clock(i: Input) returns (word: Option<Chunk>)
      requires Valid() && InputOk(i, cfg.c)
      modifies this, inserter
      ensures Valid() && Registers() == old(Next(Registers(), i, cfg)) && word == old(Emitted(Registers(), i))
      ensures steady == old(steady && Smooth(Registers(), i, cfg))
      ensures log == old(Track(log, Registers(), i, cfg))
      ensures old(mode) != IDLE && mode == IDLE && steady ==>
        Sent(Registers(), log, cfg) && |log.wire| > 30
      ensures steady ==> sof == (mode == SOF) && eof == (old(mode) != IDLE && mode == IDLE)
    {
      hide Sane, Next, Smooth, Steady, Track, Sent, Emitted, Lasts, InputOk, InserterRun;
      ghost var s, g := Registers(), log;
      word := ClockRegisters(i);
      FrameCountIsExact(s, i, cfg);
      SaneStep(s, i, cfg);
      steady := steady && Smooth(s, i, cfg);
      log := Track(log, s, i, cfg);
      if steady { SteadyStep(s, g, i, cfg); }
    }
  }
}
