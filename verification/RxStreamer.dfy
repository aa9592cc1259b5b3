// The receiving streamer (xrx_streamer): escape detector, frame parser and dropping buffer.
// `c` is the number of 16-bit chunks in a data word.
module RxStreamer {
  import opened EscapeCode
  import opened DroppingBuffer

  /** One word as the user sees it on rx_first_o, rx_last_o and rx_data_o. */
  datatype Entry = Entry(first: bool, last: bool, data: Word)

  datatype Mode = IDLE | HEADER | SUBFRAME_HEADER | PAYLOAD | FRAME_END

  datatype Config = Config(
    macLocal: (Chunk, Chunk, Chunk), macRemote: (Chunk, Chunk, Chunk), ethertype: Chunk,
    acceptBroadcasts: bool, filterRemote: bool)

  /** Registers of p_fsm: its state, the assembly of words from chunks, and the signals towards the
      buffer, with accept delayed once more by p_delay_fifo_accept. */
  datatype Control = Control(mode: Mode, count: nat, detect: bool)

  datatype Assembler = Assembler(serCount: nat, pack: Word, fifoData: Word, pending: bool, gotNext: bool)

  datatype Port = Port(sync: bool, last: bool, dvalid: bool, accept: bool, acceptD0: bool, drop: bool)

  /** One cycle on the fabric side and on the user side: a payload word, start and end of frame, the
      verdict of the CRC checker and the user's data request. */
  datatype Input = Input(word: Option<Chunk>, sof: bool, eof: bool, crcMatch: bool, req: bool)

  datatype State = State(
    check: bool, ctl: Control, asm: Assembler, port: Port, ring: Ring<Entry>, lastReq: bool)

  // ----- the header -----

  /** The three comparisons with the local address, written with `nor` as in the source. */
  predicate LocalRejects(data: Chunk, mac: Chunk, acceptBroadcasts: bool) {
    !(data != mac || (acceptBroadcasts && data != 0xFFFF))
  }

  predicate HeaderRejects(cfg: Config, count: nat, data: Chunk) {
    match count
    case 0 => LocalRejects(data, cfg.macLocal.0, cfg.acceptBroadcasts)
    case 1 => LocalRejects(data, cfg.macLocal.1, cfg.acceptBroadcasts)
    case 2 => LocalRejects(data, cfg.macLocal.2, cfg.acceptBroadcasts)
    case 3 => data != cfg.macRemote.0 && cfg.filterRemote
    case 4 => data != cfg.macRemote.1 && cfg.filterRemote
    case 5 => data != cfg.macRemote.2 && cfg.filterRemote
    case 6 => data != cfg.ethertype
    case _ => false
  }

  /** What a header word has to be: not the own address as the comparison is written, the remote address when
      it is filtered, the type. */
  predicate ComparisonHolds(cfg: Config, count: nat, data: Chunk) {
    && (count == 0 ==> data != cfg.macLocal.0 || (cfg.acceptBroadcasts && data != 0xFFFF))
    && (count == 1 ==> data != cfg.macLocal.1 || (cfg.acceptBroadcasts && data != 0xFFFF))
    && (count == 2 ==> data != cfg.macLocal.2 || (cfg.acceptBroadcasts && data != 0xFFFF))
    && (count == 3 ==> data == cfg.macRemote.0 || !cfg.filterRemote)
    && (count == 4 ==> data == cfg.macRemote.1 || !cfg.filterRemote)
    && (count == 5 ==> data == cfg.macRemote.2 || !cfg.filterRemote)
    && (count == 6 ==> data == cfg.ethertype)
  }

  lemma ComparesHeader(cfg: Config, count: nat, data: Chunk)
    ensures ComparisonHolds(cfg, count, data) <==> !HeaderRejects(cfg, count, data)
  {}

  function HeaderMode(cfg: Config, count: nat, data: Chunk): Mode {
    if count == 8 then SUBFRAME_HEADER else if HeaderRejects(cfg, count, data) then IDLE else HEADER
  }

  // ----- the parser, clocked -----

  function ControlNext(s: Control, i: Input, sym: Option<Symbol>, cfg: Config): Control {
    match s.mode
    case IDLE => Control(if i.sof then HEADER else IDLE, 0, false)
    case FRAME_END => s.(mode := IDLE)
    case _ =>
      if i.eof then s.(mode := IDLE)
      else if sym.None? then s
      else if s.mode == HEADER then
        Control(HeaderMode(cfg, s.count, sym.value.data), s.count + 1, s.detect || s.count == 8)
      else if !sym.value.escape then s
      else if s.mode == SUBFRAME_HEADER || sym.value.data >= 0x8000 then s.(mode := PAYLOAD)
      else s.(mode := FRAME_END)
  }

  function AssembleChunk(a: Assembler, data: Chunk, c: nat): Assembler
    requires 2 <= c == |a.pack| && a.serCount < c
  {
    var pack := a.pack[a.serCount := data];
    if a.serCount == c - 1 then Assembler(0, pack, a.pack[..c - 1] + [data], true, a.gotNext)
    else if a.serCount == c - 2 && a.pending then Assembler(a.serCount + 1, pack, a.fifoData, false, false)
    else Assembler(a.serCount + 1, pack, a.fifoData, a.pending, a.gotNext)
  }

  function AssemblerNext(mode: Mode, a: Assembler, eof: bool, sym: Option<Symbol>, c: nat): Assembler
    requires 2 <= c == |a.pack| && a.serCount < c
  {
    match mode
    case IDLE => a.(pending := false)
    case HEADER => a
    case SUBFRAME_HEADER => a.(serCount := 0, gotNext := a.gotNext || (!eof && sym.Some? && sym.value.escape))
    case PAYLOAD =>
      if eof then a.(gotNext := false)
      else if sym.None? then a
      else if sym.value.escape then
        a.(serCount := 0, gotNext := true, pending := a.pending && sym.value.data < 0x8000)
      else AssembleChunk(a, sym.value.data, c)
    case FRAME_END => a
  }

  /** fifo_accept, fifo_drop and fifo_dvalid when a control word closes the sub-frame. */
  function PortAtEscape(p: Port, a: Assembler, data: Chunk, crcMatch: bool): Port {
    var sync := a.gotNext && !p.dvalid;
    if data >= 0x8000 || data == END_OF_FRAME
    then Port(sync, true, a.pending && !p.dvalid, crcMatch, p.accept, !crcMatch)
    else Port(sync, true, p.dvalid, false, p.accept, true)
  }

  function PortNext(mode: Mode, p: Port, a: Assembler, i: Input, sym: Option<Symbol>, c: nat): Port {
    var sync := a.gotNext && !p.dvalid;
    match mode
    case IDLE => Port(p.sync, p.last, false, false, p.accept, false)
    case HEADER => p.(acceptD0 := p.accept)
    case SUBFRAME_HEADER => Port(p.sync, p.last, p.dvalid, false, p.accept, false)
    case PAYLOAD =>
      if i.eof then Port(sync, p.last, p.dvalid, false, p.accept, true)
      else if sym.None? then Port(sync, p.last, false, p.accept, p.accept, p.drop)
      else if sym.value.escape then PortAtEscape(p, a, sym.value.data, i.crcMatch)
      else Port(sync, false, a.serCount + 2 == c && a.pending, false, p.accept, false)
    case FRAME_END => Port(p.sync, p.last, false, false, p.accept, false)
  }

  function SymbolIn(s: State, i: Input): Option<Symbol> {
    DetectorOut(s.check, i.word, s.ctl.detect)
  }

  function FifoIn(p: Port, data: Word, req: bool): DroppingBuffer.Input<Entry> {
    DroppingBuffer.Input(Entry(p.sync, p.last, data), p.dvalid, p.drop, p.acceptD0, req)
  }

  predicate Assembling(a: Assembler, c: nat) {
    3 <= c == |a.pack| && a.serCount < c
  }

  function Next(s: State, i: Input, cfg: Config, c: nat): (t: State)
    requires Assembling(s.asm, c) && InBounds(s.ring)
    ensures |t.ring.mem| == |s.ring.mem|
  {
    var sym := SymbolIn(s, i);
    State(
      DetectorNext(s.check, i.word, s.ctl.detect),
      ControlNext(s.ctl, i, sym, cfg),
      AssemblerNext(s.ctl.mode, s.asm, i.eof, sym, c),
      PortNext(s.ctl.mode, s.port, s.asm, i, sym, c),
      RingNext(s.ring, FifoIn(s.port, s.asm.fifoData, i.req)),
      !Full(s.ring))
  }

  function Output(s: State, i: Input): Option<Entry>
    requires InBounds(s.ring)
  {
    Out(s.ring, FifoIn(s.port, s.asm.fifoData, i.req))
  }

  // ----- what reception means: an atomic parser with an unbounded result -----

  /** The parser without assembly registers, FIFO or delays.  `header` is the control word that opened
      the sub-frame, `words` and `rest` are its complete words and the chunks behind them, `delivered`
      is everything handed to the user. */
  datatype Parser = Parser(
    check: bool, ctl: Control, header: Chunk, words: seq<Word>, rest: seq<Chunk>, delivered: seq<Entry>)

  /** Words of a sub-frame without their last one, flagged. */
  function FirstFlagged(ws: seq<Word>): seq<Entry> {
    seq(|ws|, k requires 0 <= k < |ws| => Entry(k == 0, false, ws[k]))
  }

  /** A whole sub-frame, flagged.  The chunks behind its last word are the CRC; only when they are
      one short of a word, the last word has already left without its flag. */
  function Flagged(ws: seq<Word>, rest: seq<Chunk>, c: nat): seq<Entry> {
    var n := |ws| - 1;
    if ws == [] then [] else FirstFlagged(ws[..n]) + [Entry(n == 0, |rest| + 1 < c, ws[n])]
  }

  function ParseChunk(p: Parser, data: Chunk, c: nat): Parser {
    if |p.rest| + 1 == c then p.(words := p.words + [p.rest + [data]], rest := [])
    else p.(rest := p.rest + [data])
  }

  /** A control word closes the open sub-frame: all of it is delivered, or nothing. */
  function Close(p: Parser, data: Chunk, crcMatch: bool, c: nat): Parser {
    var t := p.(header := data, words := [], rest := []);
    if crcMatch && (data >= 0x8000 || data == END_OF_FRAME)
    then t.(delivered := p.delivered + Flagged(p.words, p.rest, c)) else t
  }

  function ParseSymbol(p: Parser, i: Input, sym: Option<Symbol>, c: nat): Parser {
    if p.ctl.mode == SUBFRAME_HEADER && !i.eof && sym.Some? && sym.value.escape then p.(header := sym.value.data)
    else if p.ctl.mode != PAYLOAD then p
    else if i.eof then p.(words := [], rest := [])
    else if sym.None? then p
    else if sym.value.escape then Close(p, sym.value.data, i.crcMatch, c)
    else ParseChunk(p, sym.value.data, c)
  }

  function Parse(p: Parser, i: Input, cfg: Config, c: nat): Parser {
    var sym := DetectorOut(p.check, i.word, p.ctl.detect);
    var t := ParseSymbol(p, i, sym, c);
    Parser(DetectorNext(p.check, i.word, p.ctl.detect), ControlNext(p.ctl, i, sym, cfg),
      t.header, t.words, t.rest, t.delivered)
  }

  // ----- refinement: the effective queues -----

  /** The open sub-frame in the buffer once the write, drop and commit of this cycle have happened,
      but before the commit that is still one register away. */
  function OpenNow(p: Port, data: Word, q: Queues<Entry>): seq<Entry> {
    var open := if p.acceptD0 then [] else q.tentative;
    if p.drop then [] else if p.dvalid then open + [Entry(p.sync, p.last, data)] else open
  }

  function Committed(p: Port, data: Word, q: Queues<Entry>): seq<Entry> {
    q.committed + (if p.acceptD0 then q.tentative else []) + (if p.accept then OpenNow(p, data, q) else [])
  }

  function Uncommitted(p: Port, data: Word, q: Queues<Entry>): seq<Entry> {
    if p.accept then [] else OpenNow(p, data, q)
  }

  lemma PopFirst<T>(outs: seq<T>, k: seq<T>, x: seq<T>)
    requires k != []
    ensures outs + [k[0]] + (k + x)[1..] == outs + (k + x)
  {}

  lemma OpenStep(p: Port, data: Word, r: Ring<Entry>, req: bool)
    requires Valid(r) && !Collides(r, FifoIn(p, data, req)) && !(p.accept && p.drop)
    requires p.dvalid && !p.drop ==> !Full(r)
    ensures var i := FifoIn(p, data, req);
      After(Contents(r), i, Full(r), Pops(r, i)).tentative == OpenNow(p, data, Contents(r))
  {}

  lemma CommittedStep(p: Port, data: Word, r: Ring<Entry>, req: bool, outs: seq<Entry>)
    requires Valid(r)
    ensures var i, q := FifoIn(p, data, req), Contents(r);
      Append(outs, if Pops(r, i) then Some(q.committed[0]) else None) + After(q, i, Full(r), Pops(r, i)).committed
      == outs + (q.committed + (if p.acceptD0 then q.tentative else []))
  {
    var i, q := FifoIn(p, data, req), Contents(r);
    var x := if p.acceptD0 then q.tentative else [];
    hide Contents;
    assert q.committed + [] == q.committed;
    if Pops(r, i) { PopFirst(outs, q.committed, x); }
  }

  /** Both queues after a clock edge, from the control outputs of the parser. */
  lemma QueuesStep(p: Port, data: Word, p': Port, data': Word, r: Ring<Entry>, req: bool, outs: seq<Entry>)
    requires Valid(r) && !Collides(r, FifoIn(p, data, req)) && !(p.accept && p.drop)
    requires p.dvalid && !p.drop ==> !Full(r)
    requires p'.acceptD0 == p.accept
    ensures var i := FifoIn(p, data, req); var r' := RingNext(r, i);
      && Valid(r')
      && OpenNow(p', data', Contents(r')) == (if p'.drop then []
        else if p'.dvalid then Uncommitted(p, data, Contents(r)) + [Entry(p'.sync, p'.last, data')]
        else Uncommitted(p, data, Contents(r)))
      && Append(outs, Out(r, i)) + Committed(p', data', Contents(r'))
        == outs + Committed(p, data, Contents(r)) + (if p'.accept then OpenNow(p', data', Contents(r')) else [])
  {
    var i := FifoIn(p, data, req);
    RefinesQueues(r, i);
    OpenStep(p, data, r, req);
    CommittedStep(p, data, r, req, outs);
    hide Contents, Valid, RingNext, Full, Collides, After;
    var q, q' := Contents(r), Contents(RingNext(r, i));
    var now := q.committed + (if p.acceptD0 then q.tentative else []);
    assert Append(outs, Out(r, i)) + q'.committed == outs + now;
    var x, y := if p.accept then q'.tentative else [], if p'.accept then OpenNow(p', data', q') else [];
    Regroup(Append(outs, Out(r, i)), q'.committed, x, y, outs, now);
  }

  lemma Regroup<T>(a: seq<T>, b: seq<T>, x: seq<T>, y: seq<T>, outs: seq<T>, now: seq<T>)
    requires a + b == outs + now
    ensures a + (b + x + y) == outs + (now + x) + y
  {
    assert a + (b + x + y) == (a + b) + x + y;
    assert outs + (now + x) + y == (outs + now) + x + y;
  }

  // ----- refinement: the assembly of words -----

  /** The words of the open sub-frame that have been sent to the buffer. */
  function Written(a: Assembler, ws: seq<Word>): seq<Word>
    requires a.pending ==> ws != []
  {
    if a.pending then ws[..|ws| - 1] else ws
  }

  /** The assembler inside a sub-frame: a complete word waits until the chunk before the end of the
      next one, so that a control word can still give it the last-flag. */
  ghost predicate Assembled(a: Assembler, dvalid: bool, ws: seq<Word>, rest: seq<Chunk>, c: nat) {
    && Assembling(a, c)
    && a.serCount == |rest| && a.pack[..a.serCount] == rest
    && (a.pending ==> ws != [] && a.fifoData == ws[|ws| - 1] && |rest| + 1 < c)
    && (!a.pending ==> ws == [] || |rest| + 1 == c)
    && (a.gotNext <==> Written(a, ws) == [])
    && (dvalid ==> !a.pending && (a.serCount == 0 || a.serCount == c - 1))
  }

  ghost predicate Simulates(s: State, outs: seq<Entry>, p: Parser, c: nat) {
    && Assembling(s.asm, c) && Valid(s.ring)
    && s.check == p.check && s.ctl == p.ctl
    && !(s.port.accept && s.port.drop)
    && outs + Committed(s.port, s.asm.fifoData, Contents(s.ring)) == p.delivered
    && (s.ctl.mode == PAYLOAD ==>
      && Assembled(s.asm, s.port.dvalid, p.words, p.rest, c)
      && Uncommitted(s.port, s.asm.fifoData, Contents(s.ring)) == FirstFlagged(Written(s.asm, p.words)))
    && (s.ctl.mode != PAYLOAD ==>
      p.words == [] && p.rest == [] && Uncommitted(s.port, s.asm.fifoData, Contents(s.ring)) == [])
    && (s.ctl.mode == HEADER || s.ctl.mode == SUBFRAME_HEADER ==> !s.asm.pending && !s.port.dvalid)
    && (s.ctl.mode == PAYLOAD || s.ctl.mode == SUBFRAME_HEADER ==> s.ctl.detect)
  }

  lemma ChunkStep(a: Assembler, dvalid: bool, ws: seq<Word>, rest: seq<Chunk>, data: Chunk, c: nat)
    requires Assembled(a, dvalid, ws, rest, c)
    ensures var a' := AssembleChunk(a, data, c);
      var ws', rest' := if |rest| + 1 == c then ws + [rest + [data]] else ws,
        if |rest| + 1 == c then [] else rest + [data];
      var dvalid' := a.serCount + 2 == c && a.pending;
      && Assembled(a', dvalid', ws', rest', c)
      && FirstFlagged(Written(a', ws')) == if dvalid'
        then FirstFlagged(Written(a, ws)) + [Entry(a.gotNext && !dvalid, false, a'.fifoData)]
        else FirstFlagged(Written(a, ws))
  {
    var a' := AssembleChunk(a, data, c);
    assert a.pack[a.serCount := data][..a.serCount] == a.pack[..a.serCount];
    if |rest| + 1 == c {
      assert (ws + [rest + [data]])[..|ws|] == ws;
    } else {
      assert a'.pack[..a'.serCount] == rest + [data];
      if a.serCount + 2 == c && a.pending { assert ws == ws[..|ws| - 1] + [ws[|ws| - 1]]; }
    }
  }

  lemma EscapeStep(a: Assembler, dvalid: bool, ws: seq<Word>, rest: seq<Chunk>, c: nat)
    requires Assembled(a, dvalid, ws, rest, c)
    ensures a.pending ==> !dvalid
    ensures Flagged(ws, rest, c) == if a.pending
      then FirstFlagged(Written(a, ws)) + [Entry(a.gotNext && !dvalid, true, a.fifoData)]
      else FirstFlagged(Written(a, ws))
  {
    if !a.pending && ws != [] { assert ws == ws[..|ws| - 1] + [ws[|ws| - 1]]; }
  }

  /** The conclusion of QueuesStep for the states before and after an edge. */
  ghost predicate QueuesMoved(s: State, outs: seq<Entry>, s': State, outs': seq<Entry>) {
    && Valid(s.ring) && Valid(s'.ring)
    && var data, data', q, q' := s.asm.fifoData, s'.asm.fifoData, Contents(s.ring), Contents(s'.ring);
    && OpenNow(s'.port, data', q') == (if s'.port.drop then []
      else if s'.port.dvalid then Uncommitted(s.port, data, q) + [Entry(s'.port.sync, s'.port.last, data')]
      else Uncommitted(s.port, data, q))
    && outs' + Committed(s'.port, data', q')
      == outs + Committed(s.port, data, q) + (if s'.port.accept then OpenNow(s'.port, data', q') else [])
  }

  lemma OutsideStep(s: State, outs: seq<Entry>, s': State, outs': seq<Entry>, p: Parser, i: Input, cfg: Config, c: nat)
    requires Simulates(s, outs, p, c) && QueuesMoved(s, outs, s', outs') && s.ctl.mode != PAYLOAD
    requires s' == Next(s, i, cfg, c)
    ensures Simulates(s', outs', Parse(p, i, cfg, c), c)
  {
    hide Contents, Valid, RingNext, Full, Committed, OpenNow, HeaderRejects, DetectorNext;
    assert FirstFlagged([]) == [];
  }

  lemma EofStep(s: State, outs: seq<Entry>, s': State, outs': seq<Entry>, p: Parser, i: Input, cfg: Config, c: nat)
    requires Simulates(s, outs, p, c) && QueuesMoved(s, outs, s', outs') && s.ctl.mode == PAYLOAD
    requires s' == Next(s, i, cfg, c) && (i.eof || SymbolIn(s, i).None?)
    ensures Simulates(s', outs', Parse(p, i, cfg, c), c)
  {
    hide Contents, Valid, RingNext, Full, Committed, HeaderMode, DetectorNext, DetectorOut, FirstFlagged;
  }

  lemma ControlWordStep(s: State, outs: seq<Entry>, s': State, outs': seq<Entry>, p: Parser, i: Input, cfg: Config,
      c: nat)
    requires Simulates(s, outs, p, c) && QueuesMoved(s, outs, s', outs') && s.ctl.mode == PAYLOAD
    requires s' == Next(s, i, cfg, c) && !i.eof && SymbolIn(s, i).Some? && SymbolIn(s, i).value.escape
    ensures Simulates(s', outs', Parse(p, i, cfg, c), c)
  {
    hide Contents, Valid, RingNext, Full, Committed, OpenNow, HeaderMode, DetectorNext, DetectorOut;
    hide Flagged, FirstFlagged;
    assert FirstFlagged([]) == [] by { NoneFlagged(); }
    EscapeStep(s.asm, s.port.dvalid, p.words, p.rest, c);
  }

  lemma NoneFlagged()
    ensures FirstFlagged([]) == []
  {}

  lemma DataStep(s: State, outs: seq<Entry>, s': State, outs': seq<Entry>, p: Parser, i: Input, cfg: Config, c: nat)
    requires Simulates(s, outs, p, c) && QueuesMoved(s, outs, s', outs') && s.ctl.mode == PAYLOAD
    requires s' == Next(s, i, cfg, c) && !i.eof && SymbolIn(s, i).Some? && !SymbolIn(s, i).value.escape
    ensures Simulates(s', outs', Parse(p, i, cfg, c), c)
  {
    hide Contents, Valid, RingNext, Full, Committed, OpenNow, HeaderMode, DetectorNext, DetectorOut;
    hide FirstFlagged, AssembleChunk, Written;
    ChunkStep(s.asm, s.port.dvalid, p.words, p.rest, SymbolIn(s, i).value.data, c);
  }

  lemma StepMovesQueues(s: State, outs: seq<Entry>, i: Input, cfg: Config, c: nat)
    requires Assembling(s.asm, c) && Valid(s.ring) && !(s.port.accept && s.port.drop)
    requires !Collides(s.ring, FifoIn(s.port, s.asm.fifoData, i.req))
    requires s.port.dvalid && !s.port.drop ==> !Full(s.ring)
    ensures QueuesMoved(s, outs, Next(s, i, cfg, c), Append(outs, Output(s, i)))
  {
    var s' := Next(s, i, cfg, c);
    DelayedAccept(s.ctl.mode, s.port, s.asm, i, SymbolIn(s, i), c);
    hide Contents, Valid, RingNext, Full, Collides, Committed, Uncommitted, OpenNow, PortNext, AssemblerNext,
      ControlNext;
    QueuesStep(s.port, s.asm.fifoData, s'.port, s'.asm.fifoData, s.ring, i.req, outs);
  }

  /** p_delay_fifo_accept */
  lemma DelayedAccept(mode: Mode, p: Port, a: Assembler, i: Input, sym: Option<Symbol>, c: nat)
    ensures PortNext(mode, p, a, i, sym, c).acceptD0 == p.accept
  {}

  /** One clock edge keeps the machine and the atomic parser together. */
  lemma SimulationStep(s: State, outs: seq<Entry>, p: Parser, i: Input, cfg: Config, c: nat)
    requires Simulates(s, outs, p, c)
    requires !Collides(s.ring, FifoIn(s.port, s.asm.fifoData, i.req))
    requires s.port.dvalid && !s.port.drop ==> !Full(s.ring)
    ensures Simulates(Next(s, i, cfg, c), Append(outs, Output(s, i)), Parse(p, i, cfg, c), c)
  {
    var s', outs' := Next(s, i, cfg, c), Append(outs, Output(s, i));
    StepMovesQueues(s, outs, i, cfg, c);
    hide QueuesMoved, Parse, Next, Simulates, DetectorOut;
    if s.ctl.mode != PAYLOAD {
      OutsideStep(s, outs, s', outs', p, i, cfg, c);
    } else if i.eof || SymbolIn(s, i).None? {
      EofStep(s, outs, s', outs', p, i, cfg, c);
    } else if SymbolIn(s, i).value.escape {
      ControlWordStep(s, outs, s', outs', p, i, cfg, c);
    } else {
      DataStep(s, outs, s', outs', p, i, cfg, c);
    }
  }

  // ----- flow control and collisions -----

  /** The sub-frame that is about to be committed. */
  function Closing(s: State): seq<Entry>
    requires Valid(s.ring)
  {
    if s.port.accept then OpenNow(s.port, s.asm.fifoData, Contents(s.ring)) else []
  }

  /** The frame is cut in the very cycle after a control word has delivered a sub-frame: `before` and
      `now` are the parser before and after the edge with the control word, `i` the input behind it. */
  predicate Cuts(before: Parser, now: Parser, i: Input) {
    now.ctl.mode == PAYLOAD && i.eof && now.delivered != before.delivered
  }

  /** What is about to be committed is what the last edge has delivered. */
  ghost predicate Delivering(s: State, before: Parser, now: Parser)
    requires Valid(s.ring)
  {
    Closing(s) != [] <==> now.delivered != before.delivered
  }

  lemma DeliveringStep(s: State, outs: seq<Entry>, p: Parser, i: Input, cfg: Config, c: nat)
    requires Simulates(s, outs, p, c)
    requires !Collides(s.ring, FifoIn(s.port, s.asm.fifoData, i.req))
    requires s.port.dvalid && !s.port.drop ==> !Full(s.ring)
    ensures Valid(Next(s, i, cfg, c).ring) && Delivering(Next(s, i, cfg, c), p, Parse(p, i, cfg, c))
  {
    var outs', t, q := Append(outs, Output(s, i)), Next(s, i, cfg, c), Parse(p, i, cfg, c);
    StepMovesQueues(s, outs, i, cfg, c);
    SimulationStep(s, outs, p, i, cfg, c);
    hide Next, Parse, Valid, Contents, Committed, OpenNow, Uncommitted, Assembled, Output, FirstFlagged, Full, Collides;
    assert q.delivered == p.delivered + Closing(t);
  }

  /** The fabric delivers a word only in the cycle after the buffer asked for one. */
  predicate ObeysRequest(s: State, i: Input) {
    i.word.Some? ==> s.lastReq
  }

  /** No write meets a full buffer, and no drop a pending commit. */
  ghost predicate Flowing(s: State, c: nat) {
    && Valid(s.ring)
    && (s.port.dvalid && !s.port.drop ==> !Full(s.ring))
    && (s.ctl.mode == PAYLOAD && Full(s.ring) && s.lastReq ==>
      !(s.asm.pending && (s.asm.serCount == c - 2 || s.check)))
    && (Closing(s) != [] ==> !s.check || s.ctl.mode != PAYLOAD)
    && (s.port.acceptD0 && s.port.drop ==> s.ring.wr == s.ring.boundary)
  }

  /** An escaped control word takes two fabric words. */
  lemma ControlWordIsSpaced(s: State, i: Input)
    ensures SymbolIn(s, i).Some? && SymbolIn(s, i).value.escape ==> s.check
    ensures SymbolIn(s, i).Some? && s.ctl.detect ==> !DetectorNext(s.check, i.word, s.ctl.detect)
  {}

  /** While a word is being written, none is waiting. */
  lemma WaitingWord(s: State, outs: seq<Entry>, p: Parser, c: nat)
    requires Simulates(s, outs, p, c)
    ensures s.ctl.mode == PAYLOAD ==> s.ctl.detect && (s.asm.pending ==> s.asm.serCount + 1 < c)
    ensures s.ctl.mode == PAYLOAD && s.port.dvalid ==>
      !s.asm.pending && (s.asm.serCount == 0 || s.asm.serCount == c - 1)
    ensures s.ctl.mode == HEADER || s.ctl.mode == SUBFRAME_HEADER ==> !s.asm.pending && !s.port.dvalid
    ensures s.ctl.mode == SUBFRAME_HEADER ==> s.ctl.detect
    ensures Valid(s.ring) && Assembling(s.asm, c) && !(s.port.accept && s.port.drop)
  {
    hide Valid, Committed, Uncommitted, FirstFlagged, Written;
  }

  /** A word is written when a control word comes, or when the chunk before the last one comes. */
  lemma PortWrites(mode: Mode, p: Port, a: Assembler, i: Input, sym: Option<Symbol>, c: nat)
    ensures var p' := PortNext(mode, p, a, i, sym, c);
      p'.dvalid && !p'.drop && !(p.dvalid && (mode == HEADER || mode == SUBFRAME_HEADER)) ==>
        mode == PAYLOAD && !i.eof && sym.Some? && a.pending && (sym.value.escape || a.serCount + 2 == c)
  {}

  /** A word begins to wait when its last chunk comes. */
  lemma WordWaits(mode: Mode, a: Assembler, eof: bool, sym: Option<Symbol>, c: nat)
    requires 3 <= c == |a.pack| && a.serCount < c && !a.pending
    ensures var a' := AssemblerNext(mode, a, eof, sym, c);
      a'.pending ==> mode == PAYLOAD && !eof && sym.Some? && a'.serCount == 0
  {}

  lemma EntersPayload(s: Control, i: Input, sym: Option<Symbol>, cfg: Config)
    ensures ControlNext(s, i, sym, cfg).mode == PAYLOAD ==> s.mode == PAYLOAD || s.mode == SUBFRAME_HEADER
  {}

  lemma WritesFit(s: State, outs: seq<Entry>, p: Parser, i: Input, cfg: Config, c: nat)
    requires Simulates(s, outs, p, c) && Flowing(s, c) && ObeysRequest(s, i)
    ensures var t := Next(s, i, cfg, c); t.port.dvalid && !t.port.drop ==> !Full(t.ring)
  {
    var r, f := s.ring, FifoIn(s.port, s.asm.fifoData, i.req);
    WaitingWord(s, outs, p, c);
    PortWrites(s.ctl.mode, s.port, s.asm, i, SymbolIn(s, i), c);
    if !Full(r) && (s.port.dvalid ==> s.port.drop) { StaysWritable(r, f); }
    ControlWordIsSpaced(s, i);
    assert SymbolIn(s, i).Some? ==> s.lastReq;
    hide Valid, RingNext, Full, Simulates, ControlNext, AssemblerNext, PortNext, DetectorOut, Closing;
  }

  /** No word waits for a place in a buffer that has just become full. */
  lemma NothingWaits(s: State, outs: seq<Entry>, p: Parser, i: Input, cfg: Config, c: nat)
    requires Simulates(s, outs, p, c) && Flowing(s, c)
    ensures var t := Next(s, i, cfg, c);
      t.ctl.mode == PAYLOAD && Full(t.ring) && t.lastReq ==> !(t.asm.pending && (t.asm.serCount == c - 2 || t.check))
  {
    var r, f := s.ring, FifoIn(s.port, s.asm.fifoData, i.req);
    WaitingWord(s, outs, p, c);
    if !s.asm.pending { WordWaits(s.ctl.mode, s.asm, i.eof, SymbolIn(s, i), c); }
    if !Full(r) && (s.port.dvalid ==> s.port.drop) { StaysWritable(r, f); }
    ControlWordIsSpaced(s, i);
    EntersPayload(s.ctl, i, SymbolIn(s, i), cfg);
    hide Valid, RingNext, Full, Simulates, ControlNext, AssemblerNext, PortNext, DetectorOut, Closing;
  }

  lemma CommitsAreSpaced(s: State, outs: seq<Entry>, p: Parser, i: Input, cfg: Config, c: nat)
    requires Simulates(s, outs, p, c) && Flowing(s, c)
    ensures var t := Next(s, i, cfg, c); Valid(t.ring) && (Closing(t) != [] ==> !t.check || t.ctl.mode != PAYLOAD)
  {
    var r, f, t := s.ring, FifoIn(s.port, s.asm.fifoData, i.req), Next(s, i, cfg, c);
    RefinesQueues(r, f);
    ControlWordIsSpaced(s, i);
    hide Contents, Valid, RingNext, Full, Committed, FirstFlagged, HeaderMode, Parse, After, Pops, Collides;
  }

  /** The one way to make accept and drop collide. */
  lemma CutCollides(s: State, outs: seq<Entry>, before: Parser, p: Parser, i: Input, cfg: Config, c: nat, req: bool)
    requires Simulates(s, outs, p, c) && Flowing(s, c) && Delivering(s, before, p)
    ensures var t := Next(s, i, cfg, c); Cuts(before, p, i) <==> Collides(t.ring, FifoIn(t.port, t.asm.fifoData, req))
  {
    var r, f, t := s.ring, FifoIn(s.port, s.asm.fifoData, i.req), Next(s, i, cfg, c);
    RefinesQueues(r, f);
    NothingTentative(t.ring);
    OpenStep(s.port, s.asm.fifoData, r, i.req);
    ControlWordIsSpaced(s, i);
    DelayedAccept(s.ctl.mode, s.port, s.asm, i, SymbolIn(s, i), c);
    assert s.ctl.mode == p.ctl.mode;
    hide Contents, Valid, RingNext, Full, Committed, FirstFlagged, HeaderMode, Parse, After, OpenNow, Pops;
    hide DetectorNext, DetectorOut, AssemblerNext;
  }

  lemma FlowStep(s: State, outs: seq<Entry>, before: Parser, p: Parser, i: Input, cfg: Config, c: nat)
    requires Simulates(s, outs, p, c) && Flowing(s, c) && Delivering(s, before, p)
    requires ObeysRequest(s, i) && !Cuts(before, p, i)
    ensures Flowing(Next(s, i, cfg, c), c)
  {
    WritesFit(s, outs, p, i, cfg, c);
    NothingWaits(s, outs, p, i, cfg, c);
    CommitsAreSpaced(s, outs, p, i, cfg, c);
    CutCollides(s, outs, before, p, i, cfg, c, false);
    hide Next, Simulates, Closing, Valid, Cuts, Delivering;
  }

  // ----- whole receptions -----

  predicate Initial(s: State, c: nat) {
    && Assembling(s.asm, c) && !s.asm.pending && |s.ring.mem| >= 2
    && !s.check && s.ctl == Control(IDLE, 0, false)
    && s.port == Port(s.port.sync, s.port.last, false, false, false, false)
    && Valid(s.ring) && Contents(s.ring) == Queues([], [])
  }

  const START: Parser := Parser(false, Control(IDLE, 0, false), 0, [], [], [])

  function Run(s: State, ins: seq<Input>, cfg: Config, c: nat): (t: State)
    requires Assembling(s.asm, c) && InBounds(s.ring)
    ensures Assembling(t.asm, c) && InBounds(t.ring) && |t.ring.mem| == |s.ring.mem|
  {
    if ins == [] then s else Next(Run(s, ins[..|ins| - 1], cfg, c), ins[|ins| - 1], cfg, c)
  }

  function Outputs(s: State, ins: seq<Input>, cfg: Config, c: nat): seq<Entry>
    requires Assembling(s.asm, c) && InBounds(s.ring)
  {
    if ins == [] then []
    else
      var before := ins[..|ins| - 1];
      Append(Outputs(s, before, cfg, c), Output(Run(s, before, cfg, c), ins[|ins| - 1]))
  }

  function ParseAll(p: Parser, ins: seq<Input>, cfg: Config, c: nat): Parser {
    if ins == [] then p else Parse(ParseAll(p, ins[..|ins| - 1], cfg, c), ins[|ins| - 1], cfg, c)
  }

  /** After the inputs `ins`, the input i cuts a frame behind a delivery. */
  predicate CutsAfter(ins: seq<Input>, i: Input, cfg: Config, c: nat) {
    ins != [] && Cuts(ParseAll(START, ins[..|ins| - 1], cfg, c), ParseAll(START, ins, cfg, c), i)
  }

  /** Every cycle of the reception is one in which the machine can be trusted: the fabric obeys the
      request and no frame is cut behind a delivery. */
  ghost predicate Trusted(s: State, ins: seq<Input>, cfg: Config, c: nat)
    requires Assembling(s.asm, c) && InBounds(s.ring)
  {
    ins == [] || (
      var before, i := ins[..|ins| - 1], ins[|ins| - 1];
      Trusted(s, before, cfg, c) && ObeysRequest(Run(s, before, cfg, c), i) && !CutsAfter(before, i, cfg, c))
  }

  ghost predicate Tracks(s: State, ins: seq<Input>, cfg: Config, c: nat)
    requires Assembling(s.asm, c) && InBounds(s.ring)
  {
    var t, p := Run(s, ins, cfg, c), ParseAll(START, ins, cfg, c);
    && Simulates(t, Outputs(s, ins, cfg, c), p, c)
    && Delivering(t, if ins == [] then START else ParseAll(START, ins[..|ins| - 1], cfg, c), p)
  }

  lemma InitialTracks(s: State, cfg: Config, c: nat)
    requires Initial(s, c)
    ensures Tracks(s, [], cfg, c) && Flowing(s, c)
  {
    FullMeansNoRoom(s.ring);
    hide Full;
  }

  lemma {:induction false} ReceptionRefinesParser(s: State, ins: seq<Input>, cfg: Config, c: nat)
    requires Initial(s, c) && Trusted(s, ins, cfg, c)
    ensures Flowing(Run(s, ins, cfg, c), c) && Tracks(s, ins, cfg, c)
  {
    assert Assembling(s.asm, c) && InBounds(s.ring);
    hide Next, Flowing, Tracks, Cuts, Parse, Output, Initial;
    if ins == [] {
      InitialTracks(s, cfg, c);
    } else {
      ReceptionRefinesParser(s, ins[..|ins| - 1], cfg, c);
      ReceptionStep(s, ins, cfg, c);
    }
  }

  /** One more input, which may be a cut: only what comes after it goes wrong. */
  lemma ReceptionStep(s: State, ins: seq<Input>, cfg: Config, c: nat)
    requires Assembling(s.asm, c) && InBounds(s.ring) && ins != []
    requires var before := ins[..|ins| - 1]; Flowing(Run(s, before, cfg, c), c) && Tracks(s, before, cfg, c)
    requires ObeysRequest(Run(s, ins[..|ins| - 1], cfg, c), ins[|ins| - 1])
    ensures Tracks(s, ins, cfg, c) && KeepsFlowing(Run(s, ins, cfg, c))
    ensures !CutsAfter(ins[..|ins| - 1], ins[|ins| - 1], cfg, c) ==> Flowing(Run(s, ins, cfg, c), c)
  {
    var before, i := ins[..|ins| - 1], ins[|ins| - 1];
    var t, outs, p := Run(s, before, cfg, c), Outputs(s, before, cfg, c), ParseAll(START, before, cfg, c);
    var last := if before == [] then START else ParseAll(START, before[..|before| - 1], cfg, c);
    assert !Collides(t.ring, FifoIn(t.port, t.asm.fifoData, i.req));
    assert Cuts(last, p, i) ==> CutsAfter(before, i, cfg, c);
    hide Next, Simulates, Cuts, Parse, Output, Delivering, CutsAfter, Collides, Full;
    SimulationStep(t, outs, p, i, cfg, c);
    DeliveringStep(t, outs, p, i, cfg, c);
    WritesFit(t, outs, p, i, cfg, c);
    if !Cuts(last, p, i) { FlowStep(t, outs, last, p, i, cfg, c); }
  }

  /** No write meets a full buffer. */
  predicate KeepsFlowing(s: State)
    requires InBounds(s.ring)
  {
    s.port.dvalid && !s.port.drop ==> !Full(s.ring)
  }

  /** The words read, those ready to be read and those being committed are, in order, the complete
      words of the sub-frames that were closed with a matching CRC; no write is lost to a full buffer. */
  ghost predicate Received(s: State, ins: seq<Input>, cfg: Config, c: nat)
    requires Assembling(s.asm, c) && InBounds(s.ring)
  {
    var t := Run(s, ins, cfg, c);
    && Outputs(s, ins, cfg, c) + Committed(t.port, t.asm.fifoData, Contents(t.ring))
      == ParseAll(START, ins, cfg, c).delivered
    && KeepsFlowing(t)
  }

  /** All or nothing, over any reception: whatever the frames contain, wherever else they are cut, with
      any gaps, any CRC verdicts and any reading by the user. */
  lemma {:induction false} AllOrNothing(s: State, ins: seq<Input>, cfg: Config, c: nat)
    requires Initial(s, c) && Trusted(s, ins, cfg, c)
    ensures Valid(Run(s, ins, cfg, c).ring) && Received(s, ins, cfg, c)
  {
    ReceptionRefinesParser(s, ins, cfg, c);
    hide Run, Outputs, ParseAll, Trusted, Valid, Contents, Committed;
  }

  /** Words are whole. */
  ghost predicate Whole(p: Parser, c: nat) {
    && |p.rest| < c && (forall k | 0 <= k < |p.words| :: |p.words[k]| == c)
    && (forall k | 0 <= k < |p.delivered| :: |p.delivered[k].data| == c)
  }

  lemma WholeStep(p: Parser, i: Input, cfg: Config, c: nat)
    requires Whole(p, c)
    ensures Whole(Parse(p, i, cfg, c), c)
  {
    hide DetectorOut, DetectorNext, ControlNext;
  }

  lemma {:induction false} DeliveredAreWhole(ins: seq<Input>, cfg: Config, c: nat)
    requires c > 0
    ensures Whole(ParseAll(START, ins, cfg, c), c)
  {
    hide Parse, Whole;
    if ins == [] {
      StartIsWhole(c);
    } else {
      DeliveredAreWhole(ins[..|ins| - 1], cfg, c);
      WholeStep(ParseAll(START, ins[..|ins| - 1], cfg, c), ins[|ins| - 1], cfg, c);
    }
  }

  lemma StartIsWhole(c: nat)
    requires c > 0
    ensures Whole(START, c)
  {}

  // ----- short receptions -----

  /** A receiver that has been reset, with words of c chunks and a buffer of n slots. */
  function PowerUp(c: nat, n: nat): (s: State)
    requires c >= 3 && n >= 2
    ensures Initial(s, c) && s.lastReq && |s.ring.mem| == n
  {
    var none, pack: Word := Entry(false, false, []), seq(c, _ => 0);
    State(false, Control(IDLE, 0, false), Assembler(0, pack, [], false, false),
      Port(false, false, false, false, false, false), Ring(seq(n, _ => none), 0, 0, 0, true), true)
  }

  const START_OF_FRAME: Input := Input.Input(None, true, false, false, false)
  const FRAME_ENDS: Input := Input.Input(None, false, true, false, false)

  function Occupied(s: State): nat
    requires Valid(s.ring)
  {
    |Contents(s.ring).committed| + |Contents(s.ring).tentative|
  }

  lemma OccupiedStep(s: State, i: Input, cfg: Config, c: nat)
    requires Assembling(s.asm, c) && Valid(s.ring) && !Collides(s.ring, FifoIn(s.port, s.asm.fifoData, i.req))
    ensures var t := Next(s, i, cfg, c); Valid(t.ring) && Occupied(t) <= Occupied(s) + 1 && t.lastReq == !Full(s.ring)
  {
    RefinesQueues(s.ring, FifoIn(s.port, s.asm.fifoData, i.req));
    hide Contents, Valid, RingNext, Full, Pops, Collides, ControlNext, AssemblerNext, PortNext, DetectorOut,
      DetectorNext;
  }

  /** A reception that is shorter than the buffer never makes it ask for a pause. */
  lemma {:induction false} ShortReception(s: State, ins: seq<Input>, cfg: Config, c: nat)
    requires Initial(s, c) && s.lastReq && |ins| < |s.ring.mem|
    requires forall k | 0 <= k < |ins| :: !CutsAfter(ins[..k], ins[k], cfg, c)
    ensures Trusted(s, ins, cfg, c)
    ensures var t := Run(s, ins, cfg, c);
      Valid(t.ring) && t.lastReq && Occupied(t) <= |ins| && |t.ring.mem| == |s.ring.mem|
  {
    assert Assembling(s.asm, c) && InBounds(s.ring);
    hide Next, Flowing, Tracks, Occupied, ParseAll, Valid, Full;
    if ins == [] {
      NothingOccupied(s, c);
    } else {
      var before := ins[..|ins| - 1];
      assert forall k | 0 <= k < |before| :: ins[..k] == before[..k] && ins[k] == before[k];
      ShortReception(s, before, cfg, c);
      ReceptionRefinesParser(s, before, cfg, c);
      ShortStep(Run(s, before, cfg, c), |before|, ins[|ins| - 1], cfg, c);
    }
  }

  lemma NothingOccupied(s: State, c: nat)
    requires Initial(s, c)
    ensures Occupied(s) == 0
  {}

  lemma ShortStep(s: State, n: nat, i: Input, cfg: Config, c: nat)
    requires Assembling(s.asm, c) && Valid(s.ring) && Flowing(s, c) && Occupied(s) <= n && n + 1 < |s.ring.mem|
    ensures var t := Next(s, i, cfg, c);
      Valid(t.ring) && t.lastReq && Occupied(t) <= n + 1 && |t.ring.mem| == |s.ring.mem|
  {
    OccupiedStep(s, i, cfg, c);
    FullMeansNoRoom(s.ring);
    hide Contents, Valid, RingNext, Full, ControlNext, AssemblerNext, PortNext, DetectorOut, DetectorNext;
  }

  // ----- the registers, clocked in place -----

  lemma {:induction false} RunExtends(s: State, ins: seq<Input>, i: Input, cfg: Config, c: nat, t: State)
    requires Assembling(s.asm, c) && InBounds(s.ring) && t == Next(Run(s, ins, cfg, c), i, cfg, c)
    ensures Run(s, ins + [i], cfg, c) == t
    ensures Outputs(s, ins + [i], cfg, c) == Append(Outputs(s, ins, cfg, c), Output(Run(s, ins, cfg, c), i))
  {
    hide Next, Output;
    assert (ins + [i])[..|ins|] == ins;
  }

  class Receiver {
    const c: nat
    const cfg: Config
    const detector: EscapeDetector
    const buffer: RingBuffer<Entry>
    const packData: array<Chunk>
    var mode: Mode
    var count: nat
    var detect: bool
    var serCount: nat
    var fifoData: Word
    var pendingWrite: bool
    var gotNextSubframe: bool
    var fifoSync: bool
    var fifoLast: bool
    var fifoDvalid: bool
    var fifoAccept: bool
    var fifoAcceptD0: bool
    var fifoDrop: bool
    var lastReq: bool
    ghost const start: State
    ghost var history: seq<Input>

    ghost function Controls(): Control
      reads this
    {
      Control(mode, count, detect)
    }

    ghost function Assembly(): Assembler
      reads this, packData
    {
      Assembler(serCount, packData[..], fifoData, pendingWrite, gotNextSubframe)
    }

    ghost function Ports(): Port
      reads this
    {
      Port(fifoSync, fifoLast, fifoDvalid, fifoAccept, fifoAcceptD0, fifoDrop)
    }

    ghost function Registers(): State
      reads this, detector, buffer, buffer.mem, packData
    {
      State(detector.check, Controls(), Assembly(), Ports(), buffer.Registers(), lastReq)
    }

    ghost predicate Valid()
      reads this, detector, buffer, buffer.mem, packData
    {
      Initial(start, c) && Registers() == Run(start, history, cfg, c)
    }

    constructor (cfg: Config, mem: array<Entry>, packData: array<Chunk>)
      requires mem.Length >= 2 && packData.Length >= 3
      ensures Valid() && history == [] && this.cfg == cfg && c == packData.Length
      ensures buffer.mem == mem && this.packData == packData && fresh(detector) && fresh(buffer)
    {
      this.c, this.cfg, this.packData := packData.Length, cfg, packData;
      var d := new EscapeDetector();
      var b := new RingBuffer(mem);
      detector, buffer := d, b;
      mode, count, detect := IDLE, 0, false;
      serCount, fifoData, pendingWrite, gotNextSubframe := 0, [], false, false;
      fifoSync, fifoLast, fifoDvalid, fifoAccept, fifoAcceptD0, fifoDrop := false, false, false, false, false, false;
      lastReq := true;
      history := [];
      start := State(false, Control(IDLE, 0, false), Assembler(0, packData[..], [], false, false),
        Port(false, false, false, false, false, false), b.Registers(), true);
      new;
      hide Contents, DroppingBuffer.Valid;
    }

    /** What p_fsm makes of the registers `s`, `a` and `p`. */
    ghost predicate FsmClocked(s: Control, a: Assembler, p: Port, i: Input, sym: Option<Symbol>)
      requires Assembling(a, c)
      reads this, packData
    {
      && Controls() == ControlNext(s, i, sym, cfg)
      && Assembly() == AssemblerNext(s.mode, a, i.eof, sym, c)
      && Ports() == PortNext(s.mode, p, a, i, sym, c).(acceptD0 := fifoAcceptD0)
    }

    ghost predicate Clocked(s: State, i: Input)
      requires Assembling(s.asm, c) && InBounds(s.ring)
      reads this, detector, buffer, buffer.mem, packData
    {
      && FsmClocked(s.ctl, s.asm, s.port, i, SymbolIn(s, i)) && fifoAcceptD0 == s.port.accept
      && detector.check == DetectorNext(s.check, i.word, s.ctl.detect)
      && buffer.Registers() == RingNext(s.ring, FifoIn(s.port, s.asm.fifoData, i.req))
      && lastReq == !Full(s.ring)
    }

    lemma ClockedIsNext(s: State, i: Input)
      requires Assembling(s.asm, c) && InBounds(s.ring) && Clocked(s, i)
      ensures Registers() == Next(s, i, cfg, c)
    {
      DelayedAccept(s.ctl.mode, s.port, s.asm, i, SymbolIn(s, i), c);
      hide ControlNext, AssemblerNext, PortNext, RingNext, DetectorOut, DetectorNext, Assembling, Full;
    }

    method ClockIdle(i: Input, ghost sym: Option<Symbol>)
      requires Assembling(Assembly(), c) && mode == IDLE
      modifies this`mode, this`count, this`detect, this`fifoAccept, this`fifoDrop, this`fifoDvalid, this`pendingWrite
      ensures FsmClocked(old(Controls()), old(Assembly()), old(Ports()), i, sym)
    {
      detect, count, fifoAccept, fifoDrop, fifoDvalid, pendingWrite := false, 0, false, false, false, false;
      if i.sof { mode := HEADER; }
    }

    /** p_fsm in HEADER: the ninth word ends it, and a word that is not the expected one gives the frame up. */
    method ClockHeader(i: Input, sym: Option<Symbol>)
      requires Assembling(Assembly(), c) && mode == HEADER
      modifies this`mode, this`count, this`detect
      ensures FsmClocked(old(Controls()), old(Assembly()), old(Ports()), i, sym)
      ensures i.eof ==> mode == IDLE
      ensures !i.eof && sym.Some? && old(count) == 8 ==> mode == SUBFRAME_HEADER && detect
      ensures !i.eof && sym.Some? && old(count) < 8 ==>
        (mode == HEADER <==> ComparisonHolds(cfg, old(count), sym.value.data))
    {
      if sym.Some? { ComparesHeader(cfg, count, sym.value.data); }
      hide ComparisonHolds;
      hide HeaderRejects;
      if i.eof {
        mode := IDLE;
      } else if sym.Some? {
        if count == 8 {
          detect, mode := true, SUBFRAME_HEADER;
        } else if HeaderRejects(cfg, count, sym.value.data) {
          mode := IDLE;
        }
        count := count + 1;
      }
    }

    method ClockSubframeHeader(i: Input, sym: Option<Symbol>)
      requires Assembling(Assembly(), c) && mode == SUBFRAME_HEADER
      modifies this`mode, this`serCount, this`gotNextSubframe, this`fifoAccept, this`fifoDrop
      ensures FsmClocked(old(Controls()), old(Assembly()), old(Ports()), i, sym)
    {
      fifoDrop, fifoAccept, serCount := false, false, 0;
      if i.eof {
        mode := IDLE;
      } else if sym.Some? && sym.value.escape {
        gotNextSubframe, mode := true, PAYLOAD;
      }
    }

    /** p_fsm in PAYLOAD, with a chunk of data. */
    method ClockChunk(data: Chunk)
      requires Assembling(Assembly(), c)
      modifies packData, this`serCount, this`fifoData, this`pendingWrite, this`gotNextSubframe,
        this`fifoLast, this`fifoDvalid, this`fifoAccept, this`fifoDrop
      ensures Assembly() == AssembleChunk(old(Assembly()), data, c)
      ensures !fifoLast && !fifoAccept && !fifoDrop
      ensures fifoDvalid == (old(serCount) + 2 == c && old(pendingWrite))
    {
      var k := serCount;
      fifoLast, fifoAccept, fifoDrop, fifoDvalid := false, false, false, false;
      if k == c - 1 {
        serCount, pendingWrite := 0, true;
        fifoData := packData[..c - 1] + [data];
      } else if k == c - 2 && pendingWrite {
        pendingWrite, serCount, fifoDvalid, gotNextSubframe := false, k + 1, true, false;
      } else {
        serCount := k + 1;
      }
      packData[k] := data;
      assert packData[..] == old(packData[..])[k := data];
    }

    /** p_fsm in PAYLOAD, with a control word. */
    method ClockControlWord(data: Chunk, crcMatch: bool)
      modifies this`mode, this`serCount, this`pendingWrite, this`gotNextSubframe,
        this`fifoLast, this`fifoDvalid, this`fifoAccept, this`fifoDrop
      ensures mode == if data >= 0x8000 then PAYLOAD else FRAME_END
      ensures serCount == 0 && gotNextSubframe && fifoLast && pendingWrite == (old(pendingWrite) && data < 0x8000)
      ensures if data >= 0x8000 || data == END_OF_FRAME
        then fifoAccept == crcMatch && fifoDrop == !crcMatch && fifoDvalid == (old(pendingWrite) && !old(fifoDvalid))
        else !fifoAccept && fifoDrop && fifoDvalid == old(fifoDvalid)
    {
      serCount, fifoLast, gotNextSubframe := 0, true, true;
      if data >= 0x8000 {
        mode, fifoAccept, fifoDrop := PAYLOAD, crcMatch, !crcMatch;
        fifoDvalid := pendingWrite && !fifoDvalid;
        pendingWrite := false;
      } else if data == END_OF_FRAME {
        mode, fifoAccept, fifoDrop := FRAME_END, crcMatch, !crcMatch;
        fifoDvalid := pendingWrite && !fifoDvalid;
      } else {
        mode, fifoAccept, fifoDrop := FRAME_END, false, true;
      }
    }

    /** p_fsm in PAYLOAD, with a word.  fifo_sync is cleared behind the word that carried it. */
    method ClockPayload(i: Input, sym: Symbol)
      requires Assembling(Assembly(), c) && mode == PAYLOAD && !i.eof
      modifies packData, this`mode, this`serCount, this`fifoData, this`pendingWrite, this`gotNextSubframe,
        this`fifoSync,
        this`fifoLast, this`fifoDvalid, this`fifoAccept, this`fifoDrop
      ensures FsmClocked(old(Controls()), old(Assembly()), old(Ports()), i, Some(sym))
    {
      hide AssembleChunk;
      fifoSync := gotNextSubframe && !fifoDvalid;
      if sym.escape {
        ClockControlWord(sym.data, i.crcMatch);
      } else {
        ClockChunk(sym.data);
      }
    }

    /** p_fsm in PAYLOAD, without a word, or at the end of the frame. */
    method ClockQuiet(i: Input, ghost sym: Option<Symbol>)
      requires Assembling(Assembly(), c) && mode == PAYLOAD && (i.eof || sym.None?)
      modifies this`mode, this`gotNextSubframe, this`fifoSync, this`fifoDvalid, this`fifoAccept, this`fifoDrop
      ensures FsmClocked(old(Controls()), old(Assembly()), old(Ports()), i, sym)
    {
      hide AssembleChunk, PortAtEscape;
      fifoSync := gotNextSubframe && !fifoDvalid;
      if i.eof {
        mode, fifoDrop, fifoAccept, gotNextSubframe := IDLE, true, false, false;
      } else {
        fifoDvalid := false;
      }
    }

    method ClockFrameEnd(i: Input, ghost sym: Option<Symbol>)
      requires Assembling(Assembly(), c) && mode == FRAME_END
      modifies this`mode, this`fifoAccept, this`fifoDrop, this`fifoDvalid
      ensures FsmClocked(old(Controls()), old(Assembly()), old(Ports()), i, sym)
    {
      fifoDvalid, fifoDrop, fifoAccept, mode := false, false, false, IDLE;
    }

    /** p_fsm */
    method ClockFsm(i: Input, sym: Option<Symbol>)
      requires Assembling(Assembly(), c)
      modifies packData, this`mode, this`count, this`detect, this`serCount, this`fifoData, this`pendingWrite,
        this`gotNextSubframe, this`fifoSync, this`fifoLast, this`fifoDvalid, this`fifoAccept, this`fifoDrop
      ensures FsmClocked(old(Controls()), old(Assembly()), old(Ports()), i, sym)
    {
      hide FsmClocked;
      match mode
      case IDLE => ClockIdle(i, sym);
      case HEADER => ClockHeader(i, sym);
      case SUBFRAME_HEADER => ClockSubframeHeader(i, sym);
      case PAYLOAD => if i.eof || sym.None? { ClockQuiet(i, sym); } else { ClockPayload(i, sym.value); }
      case FRAME_END => ClockFrameEnd(i, sym);
    }

    /** U_Output_FIFO and its d_req_o. */
    method ClockBuffer(i: Input) returns (out: Option<Entry>)
      requires InBounds(buffer.Registers())
      modifies this`lastReq, buffer, buffer.mem
      ensures lastReq == !old(Full(buffer.Registers()))
        && out == Out(old(buffer.Registers()), FifoIn(Ports(), fifoData, i.req))
      ensures buffer.Registers() == RingNext(old(buffer.Registers()), FifoIn(Ports(), fifoData, i.req))
    {
      hide RingNext, Contents, Pops, Out, Valid;
      lastReq := (if buffer.wr + 1 == buffer.mem.Length then 0 else buffer.wr + 1) != buffer.rd;
      out := buffer.Clock(FifoIn(Port(fifoSync, fifoLast, fifoDvalid, fifoAccept, fifoAcceptD0, fifoDrop), fifoData,
        i.req));
    }

    /** One rising edge: the FSM and the buffer both see the registers as they were before it. */
    method ClockRegisters(i: Input) returns (out: Option<Entry>)
      requires Assembling(Assembly(), c) && InBounds(buffer.Registers())
      modifies this`mode, this`count, this`detect, this`serCount, this`fifoData, this`pendingWrite,
        this`gotNextSubframe,
        this`fifoSync, this`fifoLast, this`fifoDvalid, this`fifoAccept, this`fifoAcceptD0, this`fifoDrop, this`lastReq,
        detector, buffer, buffer.mem, packData
      ensures Clocked(old(Registers()), i) && out == Output(old(Registers()), i)
    {
      hide ControlNext, AssemblerNext, PortNext, RingNext, Contents, Pops, Out, Full, DetectorOut, DetectorNext,
        Assembling;
      var wasAccept := fifoAccept;
      out := ClockBuffer(i);
      var sym := detector.Clock(i.word, detect);
      ClockFsm(i, sym);
      fifoAcceptD0 := wasAccept;
    }

    /** What has been read, can be read and is being committed is what the atomic parser has delivered. */
    method Clock(i: Input) returns (out: Option<Entry>)
      requires Valid()
      modifies this, detector, buffer, buffer.mem, packData
      ensures Valid() && history == old(history) + [i]
      ensures Outputs(start, history, cfg, c) == Append(Outputs(start, old(history), cfg, c), out)
      ensures Trusted(start, history, cfg, c) ==>
        && DroppingBuffer.Valid(buffer.Registers())
        && Outputs(start, history, cfg, c) + Committed(Ports(), fifoData, Contents(buffer.Registers()))
          == ParseAll(START, history, cfg, c).delivered
    {
      assert Assembling(start.asm, c) && InBounds(start.ring);
      hide Initial, Contents, Committed, ParseAll, Trusted, Run, Outputs, Output, Clocked;
      ghost var before := Registers();
      out := ClockRegisters(i);
      history := history + [i];
      ClockedIsNext(before, i);
      RunExtends(start, old(history), i, cfg, c, Registers());
      if Trusted(start, history, cfg, c) {
        AllOrNothing(start, history, cfg, c);
      }
    }
  }
}
