// The cut that the receiving streamer does not survive, seen from its user: which receptions are sound,
// and how a receiver comes to a standstill.
module CutFrames {
  import opened EscapeCode
  import opened RxStreamer
  import Buffer = DroppingBuffer

  // ----- the pointers after a cut -----

  /** The state two edges after a reception. */
  function TwoLater(s: State, ins: seq<Input>, i: Input, j: Input, cfg: Config, c: nat): (t: State)
    requires Assembling(s.asm, c) && Buffer.InBounds(s.ring)
    ensures Buffer.InBounds(t.ring)
  {
    Next(Next(Run(s, ins, cfg, c), i, cfg, c), j, cfg, c)
  }

  /** A cut behind a delivery is exactly what leaves the pointers of the buffer out of order, two edges
      later. */
  lemma {:induction false} CutCorrupts(s: State, ins: seq<Input>, cfg: Config, c: nat, i: Input, j: Input)
    requires Initial(s, c) && Trusted(s, ins, cfg, c)
    ensures CutsAfter(ins, i, cfg, c) <==> !Buffer.Valid(TwoLater(s, ins, i, j, cfg, c).ring)
  {
    ReceptionRefinesParser(s, ins, cfg, c);
    var t, outs, p := Run(s, ins, cfg, c), Outputs(s, ins, cfg, c), ParseAll(START, ins, cfg, c);
    var u, last := Next(t, i, cfg, c), if ins == [] then START else ParseAll(START, ins[..|ins| - 1], cfg, c);
    assert Cuts(last, p, i) <==> CutsAfter(ins, i, cfg, c);
    CommitsAreSpaced(t, outs, p, i, cfg, c);
    CutCollides(t, outs, last, p, i, cfg, c, j.req);
    Buffer.RefinesQueues(u.ring, FifoIn(u.port, u.asm.fifoData, j.req));
    hide Buffer.Valid, Cuts, Simulates, Flowing, ControlNext, AssemblerNext, PortNext, Buffer.Contents,
      Buffer.Collides, Buffer.RingNext, CutsAfter;
  }

  // ----- receptions that go on -----

  ghost predicate Obedient(s: State, ins: seq<Input>, cfg: Config, c: nat)
    requires Assembling(s.asm, c) && Buffer.InBounds(s.ring)
  {
    forall k | 0 <= k < |ins| :: RxStreamer.ObeysRequest(Run(s, ins[..k], cfg, c), ins[k])
  }

  /** No frame is cut behind a delivery from the m-th to before the n-th input. */
  ghost predicate Uncut(ins: seq<Input>, m: nat, n: nat, cfg: Config, c: nat)
    requires n <= |ins|
  {
    forall k | m <= k < n :: !CutsAfter(ins[..k], ins[k], cfg, c)
  }

  lemma {:induction false} UncutIsTrusted(s: State, ins: seq<Input>, n: nat, cfg: Config, c: nat)
    requires Assembling(s.asm, c) && Buffer.InBounds(s.ring) && n <= |ins|
    requires Obedient(s, ins, cfg, c) && Uncut(ins, 0, n, cfg, c)
    ensures Trusted(s, ins[..n], cfg, c)
  {
    hide Run, CutsAfter, RxStreamer.ObeysRequest;
    if n > 0 {
      UncutIsTrusted(s, ins, n - 1, cfg, c);
      assert ins[..n][..n - 1] == ins[..n - 1];
    }
  }

  lemma FirstCut(ins: seq<Input>, cfg: Config, c: nat) returns (k: nat)
    ensures k <= |ins| && Uncut(ins, 0, k, cfg, c)
    ensures k < |ins| ==> CutsAfter(ins[..k], ins[k], cfg, c)
  {
    hide CutsAfter;
    k := 0;
    while k < |ins| && !CutsAfter(ins[..k], ins[k], cfg, c)
      invariant k <= |ins| && Uncut(ins, 0, k, cfg, c)
    {
      k := k + 1;
    }
  }

  /** `all` goes on where `ins` ends, obeying the request and without a further cut; nothing more is delivered. */
  ghost predicate GoesOn(s: State, ins: seq<Input>, all: seq<Input>, cfg: Config, c: nat)
    requires Assembling(s.asm, c) && Buffer.InBounds(s.ring)
  {
    && ins <= all && Obedient(s, all, cfg, c) && Uncut(all, |ins|, |all|, cfg, c)
    && ParseAll(START, all, cfg, c).delivered == ParseAll(START, ins, cfg, c).delivered
  }

  lemma {:induction false} ObedientStep(s: State, all: seq<Input>, i: Input, cfg: Config, c: nat)
    requires Assembling(s.asm, c) && Buffer.InBounds(s.ring)
    requires Obedient(s, all, cfg, c) && RxStreamer.ObeysRequest(Run(s, all, cfg, c), i)
    ensures Obedient(s, all + [i], cfg, c)
  {
    hide Run, RxStreamer.ObeysRequest;
    var more := all + [i];
    forall k | 0 <= k < |more| ensures RxStreamer.ObeysRequest(Run(s, more[..k], cfg, c), more[k]) {
      if k < |all| { assert more[..k] == all[..k]; } else { assert more[..k] == all; }
    }
  }

  lemma UncutStep(all: seq<Input>, m: nat, i: Input, cfg: Config, c: nat)
    requires Uncut(all, m, |all|, cfg, c) && !i.eof
    ensures Uncut(all + [i], m, |all| + 1, cfg, c)
  {
    var more := all + [i];
    forall k | m <= k < |more| ensures !CutsAfter(more[..k], more[k], cfg, c) {
      if k < |all| { assert more[..k] == all[..k]; }
    }
  }

  lemma NothingDelivered(p: Parser, i: Input, cfg: Config, c: nat)
    requires !i.crcMatch
    ensures Parse(p, i, cfg, c).delivered == p.delivered
  {}

  lemma {:induction false} GoOn(s: State, ins: seq<Input>, all: seq<Input>, i: Input, cfg: Config, c: nat)
    requires Assembling(s.asm, c) && Buffer.InBounds(s.ring) && GoesOn(s, ins, all, cfg, c)
    requires RxStreamer.ObeysRequest(Run(s, all, cfg, c), i) && !i.eof && !i.crcMatch
    ensures GoesOn(s, ins, all + [i], cfg, c) && Run(s, all + [i], cfg, c) == Next(Run(s, all, cfg, c), i, cfg, c)
    ensures var t := Run(s, all, cfg, c);
      Outputs(s, all + [i], cfg, c) == Append(Outputs(s, all, cfg, c), Output(t, i))
  {
    hide Next, Obedient, Uncut, RxStreamer.ObeysRequest, Parse, Output;
    ObedientStep(s, all, i, cfg, c);
    UncutStep(all, |ins|, i, cfg, c);
    NothingDelivered(ParseAll(START, all, cfg, c), i, cfg, c);
    RunExtends(s, all, i, cfg, c, Next(Run(s, all, cfg, c), i, cfg, c));
    assert (all + [i])[..|all|] == all;
  }

  // ----- a frame that is not delivered, behind the cut -----

  const NOTHING: Input := Input.Input(None, false, false, false, false)
  const READ: Input := Input.Input(None, false, false, false, true)

  /** A word of a frame whose check words are all wrong, while the user does not read. */
  function BadWord(w: Chunk): Input {
    Input.Input(Some(w), false, false, false, false)
  }

  function Unlike(x: Chunk): Chunk {
    if x == 0 then 1 else 0
  }

  /** Nine header words that the receiver accepts. */
  function HeaderWord(cfg: Config, n: nat): (w: Chunk)
    ensures n < 8 ==> !HeaderRejects(cfg, n, w)
  {
    match n
    case 0 => Unlike(cfg.macLocal.0)
    case 1 => Unlike(cfg.macLocal.1)
    case 2 => Unlike(cfg.macLocal.2)
    case 3 => cfg.macRemote.0
    case 4 => cfg.macRemote.1
    case 5 => cfg.macRemote.2
    case _ => cfg.ethertype
  }

  /** A frame with one sub-frame, which consists of the word x. */
  function FrameWord(cfg: Config, x: Word, n: nat): Chunk {
    if n < 9 then HeaderWord(cfg, n)
    else if n == 9 || n == 11 + |x| then ESC
    else if n == 10 then 0x8000
    else if n < 11 + |x| then x[n - 11]
    else 0x8001
  }

  function FrameSize(x: Word): nat {
    13 + |x|
  }

  predicate Quiet(p: Port) {
    !p.dvalid && !p.accept && !p.acceptD0 && !p.drop
  }

  predicate Plain(x: Word) {
    forall k | 0 <= k < |x| :: x[k] != ESC
  }

  /** The parser of the receiver when n words of the frame have come. */
  ghost predicate Hears(s: State, x: Word, n: nat, c: nat) {
    && Assembling(s.asm, c) && |x| == c && n <= FrameSize(x)
    && s.check == (n == 10 || n == 12 + c)
    && s.ctl == (if n < 9 then Control(HEADER, n, false)
      else Control(if n < 11 then SUBFRAME_HEADER else PAYLOAD, 9, true))
    && (n < 11 + c ==> !s.asm.pending)
    && (11 <= n < 11 + c ==> s.asm.serCount == n - 11 && s.asm.pack[..n - 11] == x[..n - 11])
    && (n >= 11 ==> s.asm.gotNext)
    && (n == 11 + c || n == 12 + c ==> s.asm.pending && s.asm.serCount == 0)
    && (n >= 11 + c ==> s.asm.fifoData == x)
    && (if n < FrameSize(x) then Quiet(s.port) else s.port == Port(true, true, true, false, false, true))
  }

  lemma HeaderHeard(s: State, x: Word, n: nat, cfg: Config, c: nat)
    requires Buffer.InBounds(s.ring) && Hears(s, x, n, c) && n < 11
    ensures Hears(Next(s, BadWord(FrameWord(cfg, x, n)), cfg, c), x, n + 1, c)
  {
    hide HeaderRejects, HeaderWord, Buffer.RingNext, Buffer.Full;
    if n < 8 { assert !HeaderRejects(cfg, n, HeaderWord(cfg, n)); }
  }

  lemma ChunkHeard(s: State, x: Word, n: nat, cfg: Config, c: nat)
    requires Buffer.InBounds(s.ring) && Hears(s, x, n, c) && 11 <= n < 11 + c && Plain(x)
    ensures Hears(Next(s, BadWord(FrameWord(cfg, x, n)), cfg, c), x, n + 1, c)
  {
    hide HeaderWord, Buffer.RingNext, Buffer.Full;
    var k := n - 11;
    assert x[..k] + [x[k]] == x[..k + 1] && x[..c] == x;
    assert x[k] != ESC;
    assert s.asm.pack[k := x[k]][..k] == s.asm.pack[..k];
    assert s.asm.pack[k := x[k]][..k + 1] == x[..k + 1];
  }

  lemma CloseHeard(s: State, x: Word, n: nat, cfg: Config, c: nat)
    requires Buffer.InBounds(s.ring) && Hears(s, x, n, c) && 11 + c <= n < FrameSize(x)
    ensures Hears(Next(s, BadWord(FrameWord(cfg, x, n)), cfg, c), x, n + 1, c)
  {
    hide HeaderWord, Buffer.RingNext, Buffer.Full;
  }

  /** The buffer that nothing happens to while the port is quiet. */
  predicate Holding<T>(r: Buffer.Ring<T>) {
    Buffer.InBounds(r) && !Buffer.Full(r) && !r.emptyReg && r.boundary != r.rd
  }

  lemma FrameStep(s: State, x: Word, n: nat, cfg: Config, c: nat)
    requires Hears(s, x, n, c) && n < FrameSize(x) && Plain(x) && Holding(s.ring) && s.lastReq
    ensures var t, i := Next(s, BadWord(FrameWord(cfg, x, n)), cfg, c), BadWord(FrameWord(cfg, x, n));
      Hears(t, x, n + 1, c) && t.ring == s.ring && t.lastReq && Output(s, i).None?
  {
    if n < 11 {
      HeaderHeard(s, x, n, cfg, c);
    } else if n < 11 + c {
      ChunkHeard(s, x, n, cfg, c);
    } else {
      CloseHeard(s, x, n, cfg, c);
    }
    assert Quiet(s.port);
    hide Hears, ControlNext, AssemblerNext, PortNext, SymbolIn, DetectorNext, FrameWord;
  }

  /** The frame is sent. */
  lemma SendFrame(s: State, ins: seq<Input>, start: seq<Input>, x: Word, cfg: Config, c: nat)
    returns (all: seq<Input>)
    requires Assembling(s.asm, c) && Buffer.InBounds(s.ring) && GoesOn(s, ins, start, cfg, c) && Plain(x)
    requires var t := Run(s, start, cfg, c); Hears(t, x, 0, c) && Holding(t.ring) && t.lastReq
    ensures GoesOn(s, ins, all, cfg, c) && Outputs(s, all, cfg, c) == Outputs(s, start, cfg, c)
    ensures var t := Run(s, all, cfg, c); Hears(t, x, FrameSize(x), c) && t.ring == Run(s, start, cfg, c).ring
  {
    hide Run, Outputs, Next, GoesOn, Hears, Holding, Plain, Output, FrameSize;
    all := start;
    var n := 0;
    while n < FrameSize(x)
      invariant 0 <= n <= FrameSize(x) && GoesOn(s, ins, all, cfg, c)
      invariant Outputs(s, all, cfg, c) == Outputs(s, start, cfg, c)
      invariant var t := Run(s, all, cfg, c); Hears(t, x, n, c) && t.ring == Run(s, start, cfg, c).ring && t.lastReq
    {
      FrameStep(Run(s, all, cfg, c), x, n, cfg, c);
      GoOn(s, ins, all, BadWord(FrameWord(cfg, x, n)), cfg, c);
      all, n := all + [BadWord(FrameWord(cfg, x, n))], n + 1;
    }
  }

  /** The word x has been written, without a right to stay, where the next word to be written belongs. */
  function Overwritten(r: Buffer.Ring<Entry>, x: Word): Buffer.Ring<Entry>
    requires r.wr < |r.mem|
  {
    r.(mem := r.mem[r.wr := Entry(true, true, x)], wr := r.boundary)
  }

  /** The user has read m words of what the buffer r holds, and nothing else happens. */
  ghost predicate Drains(s: State, r: Buffer.Ring<Entry>, m: nat, c: nat) {
    && Assembling(s.asm, c) && s.ctl.mode == PAYLOAD && !s.port.dvalid && !s.port.accept && !s.port.acceptD0
    && Buffer.InBounds(r) && m <= Buffer.Distance(r.rd, r.boundary, |r.mem|)
    && r.wr == r.boundary && !r.emptyReg && s.ring == r.(rd := Buffer.At(r.rd, m, |r.mem|))
  }

  lemma OverwriteStep(s: State, x: Word, cfg: Config, c: nat)
    requires Hears(s, x, FrameSize(x), c) && Holding(s.ring)
    ensures Drains(Next(s, NOTHING, cfg, c), Overwritten(s.ring, x), 0, c) && Output(s, NOTHING).None?
  {}

  lemma DrainStep(s: State, r: Buffer.Ring<Entry>, m: nat, cfg: Config, c: nat)
    requires Drains(s, r, m, c) && m < Buffer.Distance(r.rd, r.boundary, |r.mem|)
    ensures Drains(Next(s, READ, cfg, c), r, m + 1, c)
    ensures Output(s, READ) == Some(r.mem[Buffer.At(r.rd, m, |r.mem|)])
  {}

  /** The user reads m words and one more. */
  lemma ReadUpTo(s: State, ins: seq<Input>, start: seq<Input>, r: Buffer.Ring<Entry>, m: nat, cfg: Config, c: nat)
    returns (all: seq<Input>)
    requires Assembling(s.asm, c) && Buffer.InBounds(s.ring) && GoesOn(s, ins, start, cfg, c)
    requires Drains(Run(s, start, cfg, c), r, 0, c) && m < Buffer.Distance(r.rd, r.boundary, |r.mem|)
    ensures GoesOn(s, ins, all, cfg, c)
    ensures var outs, before := Outputs(s, all, cfg, c), |Outputs(s, start, cfg, c)|;
      |outs| == before + m + 1 && outs[before + m] == r.mem[Buffer.At(r.rd, m, |r.mem|)]
  {
    hide Run, Outputs, Next, GoesOn, Drains, Output, Buffer.Distance, Buffer.At;
    all := start;
    var n := 0;
    while true
      invariant 0 <= n <= m && GoesOn(s, ins, all, cfg, c)
      invariant |Outputs(s, all, cfg, c)| == |Outputs(s, start, cfg, c)| + n
      invariant Drains(Run(s, all, cfg, c), r, n, c)
      decreases m - n
    {
      DrainStep(Run(s, all, cfg, c), r, n, cfg, c);
      GoOn(s, ins, all, READ, cfg, c);
      all := all + [READ];
      if n == m { break; }
      n := n + 1;
    }
  }

  /** One edge behind the cut: the sub-frame is being committed while it is being dropped. */
  ghost predicate Torn(s: State, c: nat) {
    && Assembling(s.asm, c) && Buffer.Valid(s.ring) && s.ring.wr != s.ring.boundary
    && s.ctl.mode == IDLE && s.port.drop && s.port.acceptD0 && !s.port.accept
  }

  /** Two edges later the next frame may begin; the words it brings go where the delivered ones are. */
  lemma TornStep(s: State, x: Word, cfg: Config, c: nat)
    requires Torn(s, c) && |x| == c
    ensures Assembling(Next(s, NOTHING, cfg, c).asm, c)
    ensures var t := Next(Next(s, NOTHING, cfg, c), START_OF_FRAME, cfg, c);
      && Hears(t, x, 0, c) && Holding(t.ring) && t.lastReq
      && t.ring.wr == s.ring.boundary && t.ring.boundary == s.ring.wr && t.ring.rd == s.ring.rd
    ensures Output(s, NOTHING).None? && Output(Next(s, NOTHING, cfg, c), START_OF_FRAME).None?
  {}

  lemma TornPort(s: State, i: Input, cfg: Config, c: nat)
    requires Assembling(s.asm, c) && Buffer.InBounds(s.ring) && s.ctl.mode == PAYLOAD && i.eof
    ensures var t := Next(s, i, cfg, c); t.ctl.mode == IDLE && t.port.drop && !t.port.accept
  {}

  /** What has been delivered is what has been read and what is in the buffer. */
  lemma TornQueues(s: State, outs: seq<Entry>, p: Parser, c: nat)
    requires Simulates(s, outs, p, c) && s.port.acceptD0 && !s.port.accept
    ensures Assembling(s.asm, c) && Buffer.Valid(s.ring)
    ensures p.delivered == outs + (Buffer.Contents(s.ring).committed + Buffer.Contents(s.ring).tentative)
  {
    assert Buffer.InBounds(s.ring);
    hide Buffer.Contents, Buffer.Valid, Uncommitted, Assembled, FirstFlagged;
    var q := Buffer.Contents(s.ring);
    assert q.committed + q.tentative + [] == q.committed + q.tentative;
  }

  lemma {:induction false} CutTears(s: State, ins: seq<Input>, i: Input, cfg: Config, c: nat)
    requires Initial(s, c) && Trusted(s, ins, cfg, c) && CutsAfter(ins, i, cfg, c)
    requires RxStreamer.ObeysRequest(Run(s, ins, cfg, c), i)
    ensures var t, outs := Run(s, ins + [i], cfg, c), Outputs(s, ins + [i], cfg, c);
      && Torn(t, c)
      && ParseAll(START, ins + [i], cfg, c).delivered
        == outs + (Buffer.Contents(t.ring).committed + Buffer.Contents(t.ring).tentative)
  {
    assert Assembling(s.asm, c) && Buffer.InBounds(s.ring);
    var t, all, p := Run(s, ins, cfg, c), ins + [i], ParseAll(START, ins, cfg, c);
    var u := Next(t, i, cfg, c);
    assert all[..|all| - 1] == ins;
    assert t.ctl.mode == PAYLOAD && i.eof by {
      ReceptionRefinesParser(s, ins, cfg, c);
      hide Trusted, Flowing, Run, Next, Initial;
    }
    hide Initial, Trusted, Flowing, Simulates, Delivering, Parse, Next, Outputs, ParseAll, Run, Buffer.Valid,
      Buffer.Contents;
    hide Cuts;
    TornPort(t, i, cfg, c);
    RunExtends(s, ins, i, cfg, c, u);
    ReceptionRefinesParser(s, ins, cfg, c);
    ReceptionStep(s, all, cfg, c);
    CutCollides(t, Outputs(s, ins, cfg, c), ParseAll(START, ins[..|ins| - 1], cfg, c), p, i, cfg, c, false);
    TornQueues(u, Outputs(s, all, cfg, c), ParseAll(START, all, cfg, c), c);
  }

  function Filled(k: Chunk, c: nat): (x: Word)
    ensures |x| == c && forall j | 0 <= j < c :: x[j] == k
  {
    seq(c, _ => k)
  }

  /** A word without the escape code that is not the given one. */
  lemma OtherWord(y: Word, c: nat) returns (x: Word)
    requires c > 0
    ensures |x| == c && Plain(x) && x != y
  {
    x := Filled(if y == Filled(0, c) then 1 else 0, c);
    assert x[0] != Filled(0, c)[0] || y != Filled(0, c);
  }

  /** The torn sub-frame begins where the buffer will be written next, behind the words that are waiting. */
  lemma TornSlot(r: Buffer.Ring<Entry>)
    requires Buffer.Valid(r) && r.wr != r.boundary
    ensures var d, n, q := Buffer.Distance(r.rd, r.boundary, |r.mem|), |r.mem|, Buffer.Contents(r);
      && d < Buffer.Distance(r.rd, r.wr, n) && Buffer.At(r.rd, d, n) == r.boundary
      && |q.committed| == d && q.tentative != [] && q.tentative[0] == r.mem[r.boundary]
  {}

  lemma WrongItem<T>(before: seq<T>, a: seq<T>, t: seq<T>, outs: seq<T>, delivered: seq<T>)
    requires delivered == before + (a + t) && t != []
    requires |outs| == |before| + |a| + 1 && outs[|before| + |a|] != t[0]
    ensures !(outs <= delivered)
  {
    var k := |before| + |a|;
    assert delivered[k] == (a + t)[|a|] == t[0];
  }

  lemma NoneRead(outs: seq<Entry>, o: Option<Entry>)
    requires o.None?
    ensures Append(outs, o) == outs
  {}

  /** The two idle cycles between the cut and the next frame. */
  lemma Settle(s: State, cut: seq<Input>, x: Word, cfg: Config, c: nat) returns (all: seq<Input>)
    requires Assembling(s.asm, c) && Buffer.InBounds(s.ring) && Obedient(s, cut, cfg, c)
    requires Torn(Run(s, cut, cfg, c), c) && |x| == c
    ensures GoesOn(s, cut, all, cfg, c) && Outputs(s, all, cfg, c) == Outputs(s, cut, cfg, c)
    ensures var t, u := Run(s, all, cfg, c), Run(s, cut, cfg, c);
      && Hears(t, x, 0, c) && Holding(t.ring) && t.lastReq
      && t.ring.wr == u.ring.boundary && t.ring.boundary == u.ring.wr && t.ring.rd == u.ring.rd
  {
    var u := Run(s, cut, cfg, c);
    assert GoesOn(s, cut, cut, cfg, c);
    hide Run, Outputs, Next, GoesOn, Hears, Holding, Output, Obedient, Torn;
    TornStep(u, x, cfg, c);
    GoOn(s, cut, cut, NOTHING, cfg, c);
    all := cut + [NOTHING];
    NoneRead(Outputs(s, cut, cfg, c), Output(u, NOTHING));
    GoOn(s, cut, all, START_OF_FRAME, cfg, c);
    NoneRead(Outputs(s, cut, cfg, c), Output(Run(s, all, cfg, c), START_OF_FRAME));
    all := all + [START_OF_FRAME];
  }

  /** The user has read what was in front of the torn sub-frame, and then the word written over its first. */
  lemma ReadWrongWord(s: State, cut: seq<Input>, x: Word, cfg: Config, c: nat) returns (all: seq<Input>)
    requires Assembling(s.asm, c) && Buffer.InBounds(s.ring) && Obedient(s, cut, cfg, c)
    requires Torn(Run(s, cut, cfg, c), c) && |x| == c && Plain(x)
    ensures GoesOn(s, cut, all, cfg, c)
    ensures var q, before := Buffer.Contents(Run(s, cut, cfg, c).ring), |Outputs(s, cut, cfg, c)|;
      var outs := Outputs(s, all, cfg, c);
      |outs| == before + |q.committed| + 1 && outs[before + |q.committed|] == Entry(true, true, x)
  {
    hide Run, Outputs, Next, GoesOn, Hears, Holding, Output, Obedient, Buffer.Contents, Buffer.Distance, Buffer.At,
      Plain, Drains;
    var r := Run(s, cut, cfg, c).ring;
    TornSlot(r);
    var start := Settle(s, cut, x, cfg, c);
    var sent := SendFrame(s, cut, start, x, cfg, c);
    var t := Run(s, sent, cfg, c);
    OverwriteStep(t, x, cfg, c);
    NoneRead(Outputs(s, sent, cfg, c), Output(t, NOTHING));
    GoOn(s, cut, sent, NOTHING, cfg, c);
    all := ReadUpTo(s, cut, sent + [NOTHING], Overwritten(t.ring, x),
      Buffer.Distance(r.rd, r.boundary, |r.mem|), cfg, c);
  }

  lemma TornBuffer(s: State, c: nat)
    requires Torn(s, c)
    ensures Buffer.InBounds(s.ring) && Buffer.Valid(s.ring) && s.ring.wr != s.ring.boundary
  {}

  lemma TornMisleads(s: State, cut: seq<Input>, cfg: Config, c: nat) returns (all: seq<Input>)
    requires Assembling(s.asm, c) && Buffer.InBounds(s.ring) && c > 0
    requires Obedient(s, cut, cfg, c) && Torn(Run(s, cut, cfg, c), c)
    requires ParseAll(START, cut, cfg, c).delivered == Outputs(s, cut, cfg, c)
      + (Buffer.Contents(Run(s, cut, cfg, c).ring).committed + Buffer.Contents(Run(s, cut, cfg, c).ring).tentative)
    ensures GoesOn(s, cut, all, cfg, c)
    ensures !(Outputs(s, all, cfg, c) <= ParseAll(START, all, cfg, c).delivered)
  {
    hide *;
    var r := Run(s, cut, cfg, c).ring;
    TornBuffer(Run(s, cut, cfg, c), c);
    TornSlot(r);
    var q := Buffer.Contents(r);
    var x := OtherWord(q.tentative[0].data, c);
    all := ReadWrongWord(s, cut, x, cfg, c);
    SameDelivered(s, cut, all, cfg, c);
    assert Outputs(s, all, cfg, c)[|Outputs(s, cut, cfg, c)| + |q.committed|].data == x;
    WrongItem(Outputs(s, cut, cfg, c), q.committed, q.tentative, Outputs(s, all, cfg, c),
      ParseAll(START, all, cfg, c).delivered);
  }

  /** After any trusted reception and a cut behind a delivery, a frame that is itself not delivered makes
      the user read a wrong word: it has been written over one that was delivered. */
  lemma CutMisleads(s: State, ins: seq<Input>, i: Input, cfg: Config, c: nat) returns (all: seq<Input>)
    requires Initial(s, c) && Trusted(s, ins, cfg, c) && CutsAfter(ins, i, cfg, c)
    requires Obedient(s, ins + [i], cfg, c)
    ensures GoesOn(s, ins + [i], all, cfg, c)
    ensures !(Outputs(s, all, cfg, c) <= ParseAll(START, all, cfg, c).delivered)
  {
    assert Assembling(s.asm, c) && Buffer.InBounds(s.ring) && c > 0;
    var cut := ins + [i];
    assert cut[..|ins|] == ins && cut[|ins|] == i;
    assert RxStreamer.ObeysRequest(Run(s, ins, cfg, c), i);
    hide *;
    CutTears(s, ins, i, cfg, c);
    all := TornMisleads(s, cut, cfg, c);
  }

  lemma {:induction false} SameDelivered(s: State, ins: seq<Input>, all: seq<Input>, cfg: Config, c: nat)
    requires Assembling(s.asm, c) && Buffer.InBounds(s.ring) && GoesOn(s, ins, all, cfg, c)
    ensures ParseAll(START, all, cfg, c).delivered == ParseAll(START, ins, cfg, c).delivered
  {}

  // ----- exactly which receptions are sound -----

  /** What the user has read are the first words of those that were delivered: none is wrong, missing,
      repeated or out of order. */
  predicate ReadRight(s: State, ins: seq<Input>, cfg: Config, c: nat)
    requires Assembling(s.asm, c) && Buffer.InBounds(s.ring)
  {
    Outputs(s, ins, cfg, c) <= ParseAll(START, ins, cfg, c).delivered
  }

  /** `all` is how the reception may go on after its first n cycles, with a fabric that obeys the request
      and without a cut behind a delivery. */
  ghost predicate Proceeds(s: State, ins: seq<Input>, n: nat, all: seq<Input>, cfg: Config, c: nat)
    requires Assembling(s.asm, c) && Buffer.InBounds(s.ring)
  {
    n <= |ins| && ins[..n] <= all && Obedient(s, all, cfg, c) && Uncut(all, n, |all|, cfg, c)
  }

  /** However the reception may go on after each of its cycles, the user reads right. */
  ghost predicate Sound(s: State, ins: seq<Input>, cfg: Config, c: nat)
    requires Assembling(s.asm, c) && Buffer.InBounds(s.ring)
  {
    forall n: nat, all: seq<Input> | Proceeds(s, ins, n, all, cfg, c) :: ReadRight(s, all, cfg, c)
  }

  lemma UncutReadsRight(s: State, all: seq<Input>, cfg: Config, c: nat)
    requires Initial(s, c) && Obedient(s, all, cfg, c) && Uncut(all, 0, |all|, cfg, c)
    ensures ReadRight(s, all, cfg, c)
  {
    assert Assembling(s.asm, c) && Buffer.InBounds(s.ring);
    hide Run, Outputs, ParseAll, Obedient, Uncut, Trusted, Buffer.Contents, Committed, Initial;
    UncutIsTrusted(s, all, |all|, cfg, c);
    assert all[..|all|] == all;
    AllOrNothing(s, all, cfg, c);
  }

  lemma UncutTogether(ins: seq<Input>, n: nat, all: seq<Input>, cfg: Config, c: nat)
    requires n <= |ins| && Uncut(ins, 0, |ins|, cfg, c) && ins[..n] <= all && Uncut(all, n, |all|, cfg, c)
    ensures Uncut(all, 0, |all|, cfg, c)
  {
    hide CutsAfter;
    forall k | 0 <= k < |all| ensures !CutsAfter(all[..k], all[k], cfg, c) {
      if k < n {
        assert all[..k] == ins[..k] && all[k] == ins[..n][k];
      }
    }
  }

  lemma FrontObeys(s: State, ins: seq<Input>, k: nat, cfg: Config, c: nat)
    requires Assembling(s.asm, c) && Buffer.InBounds(s.ring) && Obedient(s, ins, cfg, c) && k < |ins|
    ensures Obedient(s, ins[..k + 1], cfg, c) && ins[..k + 1] == ins[..k] + [ins[k]]
  {
    hide Run, RxStreamer.ObeysRequest;
    var front := ins[..k + 1];
    forall j | 0 <= j < |front| ensures RxStreamer.ObeysRequest(Run(s, front[..j], cfg, c), front[j]) {
      assert front[..j] == ins[..j];
    }
  }

  lemma CutIsUnsound(s: State, ins: seq<Input>, k: nat, cfg: Config, c: nat)
    requires Initial(s, c) && Obedient(s, ins, cfg, c) && k < |ins|
    requires Uncut(ins, 0, k, cfg, c) && CutsAfter(ins[..k], ins[k], cfg, c)
    ensures !Sound(s, ins, cfg, c)
  {
    assert Assembling(s.asm, c) && Buffer.InBounds(s.ring);
    hide Initial, Obedient, Uncut, CutsAfter, Run, Outputs, ParseAll, Trusted;
    UncutIsTrusted(s, ins, k, cfg, c);
    FrontObeys(s, ins, k, cfg, c);
    var all := CutMisleads(s, ins[..k], ins[k], cfg, c);
    assert Proceeds(s, ins, k + 1, all, cfg, c) && !ReadRight(s, all, cfg, c);
  }

  /** With a fabric that obeys the request, the user of a reception can rely on what is read, during it and
      ever after, if and only if none of its cycles cuts a frame behind a delivery. */
  lemma ReceptionIsSound(s: State, ins: seq<Input>, cfg: Config, c: nat)
    requires Initial(s, c) && Obedient(s, ins, cfg, c)
    ensures Sound(s, ins, cfg, c) <==> Uncut(ins, 0, |ins|, cfg, c)
  {
    assert Assembling(s.asm, c) && Buffer.InBounds(s.ring);
    hide Initial, CutsAfter, ReadRight, Assembling, Buffer.InBounds;
    var k := FirstCut(ins, cfg, c);
    if k < |ins| {
      CutIsUnsound(s, ins, k, cfg, c);
    } else {
      hide Obedient, Uncut;
      forall n: nat, all: seq<Input> | Proceeds(s, ins, n, all, cfg, c)
        ensures ReadRight(s, all, cfg, c)
      {
        UncutTogether(ins, n, all, cfg, c);
        UncutReadsRight(s, all, cfg, c);
      }
    }
  }

  // ----- a receiver at a standstill -----

  /** The buffer looks full to the fabric and empty to the user, and nothing is under way that could change it. */
  predicate Choked(s: State) {
    Buffer.Full(s.ring) && s.ring.rd == s.ring.boundary && !s.lastReq && Quiet(s.port)
  }

  lemma ChokedStep(s: State, i: Input, cfg: Config, c: nat)
    requires Assembling(s.asm, c) && Buffer.InBounds(s.ring) && Choked(s) && RxStreamer.ObeysRequest(s, i)
    requires s.ctl.mode == PAYLOAD ==> !i.eof
    ensures var t := Next(s, i, cfg, c);
      Choked(t) && (t.ctl.mode == PAYLOAD <==> s.ctl.mode == PAYLOAD) && Output(s, i).None? && i.word.None?
  {}

  lemma NoWordNothingDelivered(p: Parser, i: Input, cfg: Config, c: nat)
    requires i.word.None?
    ensures Parse(p, i, cfg, c).delivered == p.delivered
  {}

  lemma {:induction false} OneMoreChoked(s: State, all: seq<Input>, i: Input, cfg: Config, c: nat)
    requires Assembling(s.asm, c) && Buffer.InBounds(s.ring) && Choked(Run(s, all, cfg, c))
    requires RxStreamer.ObeysRequest(Run(s, all, cfg, c), i)
    requires Run(s, all, cfg, c).ctl.mode == PAYLOAD ==> !i.eof
    ensures var t, u := Run(s, all, cfg, c), Run(s, all + [i], cfg, c);
      && Choked(u) && (u.ctl.mode == PAYLOAD <==> t.ctl.mode == PAYLOAD) && i.word.None?
      && Outputs(s, all + [i], cfg, c) == Outputs(s, all, cfg, c)
      && ParseAll(START, all + [i], cfg, c).delivered == ParseAll(START, all, cfg, c).delivered
  {
    hide Run, Outputs, ParseAll, Choked, Next, Output, Parse, RxStreamer.ObeysRequest;
    var t := Run(s, all, cfg, c);
    ChokedStep(t, i, cfg, c);
    RunExtends(s, all, i, cfg, c, Next(t, i, cfg, c));
    NoneRead(Outputs(s, all, cfg, c), Output(t, i));
    ParseExtends(all, i, cfg, c);
    NoWordNothingDelivered(ParseAll(START, all, cfg, c), i, cfg, c);
  }

  /** There is no way out: the fabric is never asked for another word and the user never gets one, with
      any reading and any starts of frames, and with any ends of frames outside a sub-frame. */
  lemma {:induction false} ChokedForEver(s: State, ins: seq<Input>, more: seq<Input>, cfg: Config, c: nat)
    requires Assembling(s.asm, c) && Buffer.InBounds(s.ring) && Choked(Run(s, ins, cfg, c))
    requires Obedient(s, ins + more, cfg, c)
    requires Run(s, ins, cfg, c).ctl.mode == PAYLOAD ==> forall k | 0 <= k < |more| :: !more[k].eof
    ensures var t, all := Run(s, ins + more, cfg, c), ins + more;
      && Choked(t) && (t.ctl.mode == PAYLOAD <==> Run(s, ins, cfg, c).ctl.mode == PAYLOAD)
      && Outputs(s, all, cfg, c) == Outputs(s, ins, cfg, c)
      && ParseAll(START, all, cfg, c).delivered == ParseAll(START, ins, cfg, c).delivered
    ensures forall k | 0 <= k < |more| :: more[k].word.None?
  {
    hide *;
    if more == [] {
      assert ins + more == ins;
    } else {
      var n := |more| - 1;
      var before, i := ins + more[..n], more[n];
      assert ins + more == before + [i];
      FewerObey(s, before, i, cfg, c);
      ChokedForEver(s, ins, more[..n], cfg, c);
      OneMoreChoked(s, before, i, cfg, c);
    }
  }

  lemma {:induction false} FewerObey(s: State, ins: seq<Input>, i: Input, cfg: Config, c: nat)
    requires Assembling(s.asm, c) && Buffer.InBounds(s.ring) && Obedient(s, ins + [i], cfg, c)
    ensures Obedient(s, ins, cfg, c) && RxStreamer.ObeysRequest(Run(s, ins, cfg, c), i)
  {
    hide Run, RxStreamer.ObeysRequest;
    var all := ins + [i];
    assert all[..|ins|] == ins;
    forall j | 0 <= j < |ins| ensures RxStreamer.ObeysRequest(Run(s, ins[..j], cfg, c), ins[j]) {
      assert all[..j] == ins[..j];
    }
  }

  lemma {:induction false} ParseExtends(ins: seq<Input>, i: Input, cfg: Config, c: nat)
    ensures ParseAll(START, ins + [i], cfg, c) == Parse(ParseAll(START, ins, cfg, c), i, cfg, c)
  {
    hide Parse;
    assert (ins + [i])[..|ins|] == ins;
  }

  /** Four cycles in which the user asks for words and none comes in. */
  function Reads(): seq<Input> {
    [READ, READ, READ, READ]
  }

  lemma {:induction false} ReadObeys(s: State, ins: seq<Input>, cfg: Config, c: nat)
    requires Assembling(s.asm, c) && Buffer.InBounds(s.ring) && Obedient(s, ins, cfg, c)
    ensures Obedient(s, ins + [READ], cfg, c)
    ensures Run(s, ins + [READ], cfg, c) == Next(Run(s, ins, cfg, c), READ, cfg, c)
    ensures Outputs(s, ins + [READ], cfg, c) == Append(Outputs(s, ins, cfg, c), Output(Run(s, ins, cfg, c), READ))
    ensures ParseAll(START, ins + [READ], cfg, c).delivered == ParseAll(START, ins, cfg, c).delivered
  {
    hide Next, Output, Obedient, Parse, Run, Outputs, ParseAll;
    ObedientStep(s, ins, READ, cfg, c);
    RunExtends(s, ins, READ, cfg, c, Next(Run(s, ins, cfg, c), READ, cfg, c));
    ParseExtends(ins, READ, cfg, c);
    NothingDelivered(ParseAll(START, ins, cfg, c), READ, cfg, c);
  }

  /** The user has read k times since a sub-frame of a single word was torn with nothing in front of it. */
  ghost predicate Stalling(u: State, s: State, k: nat, c: nat)
    requires Torn(u, c)
  {
    var r, a, b := s.ring, u.ring.boundary, u.ring.wr;
    && Assembling(s.asm, c) && |r.mem| == |u.ring.mem| && s.ctl.mode == IDLE
    && b == Buffer.Inc(a, |r.mem|) && u.ring.rd == a && r.mem[a] == u.ring.mem[a]
    && (if k == 0 then s == u else Quiet(s.port) && r.wr == a && r.boundary == b)
    && r.rd == (if k < 3 then a else b) && (1 <= k < 4 ==> r.emptyReg == (k == 1)) && (k >= 4 ==> !s.lastReq)
  }

  lemma StallStep(u: State, s: State, k: nat, cfg: Config, c: nat)
    requires Torn(u, c) && Stalling(u, s, k, c) && k < 4
    ensures Stalling(u, Next(s, READ, cfg, c), k + 1, c)
    ensures Output(s, READ) == if k == 2 then Some(u.ring.mem[u.ring.boundary]) else None
  {}

  lemma StallsToStandstill(u: State, s: State, c: nat)
    requires Torn(u, c) && Stalling(u, s, 4, c)
    ensures Choked(s) && s.ctl.mode != PAYLOAD
  {}

  lemma ReadsObey(s: State, ins: seq<Input>, cfg: Config, c: nat)
    requires Assembling(s.asm, c) && Buffer.InBounds(s.ring) && Obedient(s, ins, cfg, c)
    ensures Obedient(s, ins + Reads(), cfg, c)
  {
    hide Obedient, Run, Next, Outputs, ParseAll, Output;
    ReadObeys(s, ins, cfg, c);
    ReadObeys(s, ins + [READ], cfg, c);
    ReadObeys(s, ins + [READ] + [READ], cfg, c);
    ReadObeys(s, ins + [READ] + [READ] + [READ], cfg, c);
    assert ins + Reads() == ins + [READ] + [READ] + [READ] + [READ];
  }

  lemma {:induction false} ReadsStall(s: State, cut: seq<Input>, cfg: Config, c: nat)
    requires Assembling(s.asm, c) && Buffer.InBounds(s.ring) && Obedient(s, cut, cfg, c)
    requires var u := Run(s, cut, cfg, c); Torn(u, c) && Stalling(u, u, 0, c)
    ensures var t, all := Run(s, cut + Reads(), cfg, c), cut + Reads();
      && Choked(t) && t.ctl.mode != PAYLOAD && |Outputs(s, all, cfg, c)| == |Outputs(s, cut, cfg, c)| + 1
      && ParseAll(START, all, cfg, c).delivered == ParseAll(START, cut, cfg, c).delivered
  {
    hide Obedient, Run, Next, Outputs, ParseAll, Output, Stalling, Torn, Choked;
    var u := Run(s, cut, cfg, c);
    var one := cut + [READ];
    var two := one + [READ];
    var three := two + [READ];
    StallStep(u, u, 0, cfg, c);
    ReadObeys(s, cut, cfg, c);
    StallStep(u, Run(s, one, cfg, c), 1, cfg, c);
    ReadObeys(s, one, cfg, c);
    StallStep(u, Run(s, two, cfg, c), 2, cfg, c);
    ReadObeys(s, two, cfg, c);
    StallStep(u, Run(s, three, cfg, c), 3, cfg, c);
    ReadObeys(s, three, cfg, c);
    assert cut + Reads() == three + [READ];
    StallsToStandstill(u, Run(s, three + [READ], cfg, c), c);
  }

  lemma OneWordTorn(s: State, c: nat)
    requires Torn(s, c) && |Buffer.Contents(s.ring).committed + Buffer.Contents(s.ring).tentative| == 1
    ensures Stalling(s, s, 0, c)
  {}

  /** After any trusted reception and a cut behind the delivery of a sub-frame that is the one word the user
      has not read yet: when the user reads on, the receiver comes to a standstill for ever. */
  lemma {:induction false} CutDeafens(s: State, ins: seq<Input>, i: Input, more: seq<Input>, cfg: Config, c: nat)
    requires Initial(s, c) && Trusted(s, ins, cfg, c) && CutsAfter(ins, i, cfg, c)
    requires Obedient(s, ins + [i], cfg, c) && Obedient(s, ins + [i] + Reads() + more, cfg, c)
    requires |ParseAll(START, ins + [i], cfg, c).delivered| == |Outputs(s, ins + [i], cfg, c)| + 1
    ensures var all := ins + [i] + Reads() + more;
      && !Run(s, all, cfg, c).lastReq && |Outputs(s, all, cfg, c)| == |Outputs(s, ins + [i], cfg, c)| + 1
      && ParseAll(START, all, cfg, c).delivered == ParseAll(START, ins + [i], cfg, c).delivered
    ensures forall k | 0 <= k < |more| :: more[k].word.None?
  {
    assert Assembling(s.asm, c) && Buffer.InBounds(s.ring);
    hide *;
    var cut := ins + [i];
    FewerObey(s, ins, i, cfg, c);
    CutTears(s, ins, i, cfg, c);
    OneWordTorn(Run(s, cut, cfg, c), c);
    ReadsStall(s, cut, cfg, c);
    ChokedForEver(s, cut + Reads(), more, cfg, c);
    ChokedAsksNothing(Run(s, cut + Reads() + more, cfg, c));
  }

  lemma ChokedAsksNothing(s: State)
    requires Choked(s)
    ensures !s.lastReq
  {}

  // ----- a sub-frame longer than the buffer -----

  /** The open sub-frame of a trusted reception never has more words than the buffer has slots. */
  lemma {:induction false} OpenSubFrameFits(s: State, ins: seq<Input>, cfg: Config, c: nat)
    requires Initial(s, c) && Trusted(s, ins, cfg, c)
    ensures |ParseAll(START, ins, cfg, c).words| <= |s.ring.mem|
  {
    assert Assembling(s.asm, c) && Buffer.InBounds(s.ring);
    hide *;
    ReceptionRefinesParser(s, ins, cfg, c);
    TracksSimulates(s, ins, cfg, c);
    OpenFits(Run(s, ins, cfg, c), Outputs(s, ins, cfg, c), ParseAll(START, ins, cfg, c), c);
  }

  lemma {:induction false} TracksSimulates(s: State, ins: seq<Input>, cfg: Config, c: nat)
    requires Assembling(s.asm, c) && Buffer.InBounds(s.ring) && Tracks(s, ins, cfg, c)
    ensures Simulates(Run(s, ins, cfg, c), Outputs(s, ins, cfg, c), ParseAll(START, ins, cfg, c), c)
  {}

  lemma OpenFits(s: State, outs: seq<Entry>, p: Parser, c: nat)
    requires Simulates(s, outs, p, c) && Flowing(s, c)
    ensures |p.words| <= |s.ring.mem|
    ensures |p.words| == |s.ring.mem| >= 2 ==>
      Quiet(s.port) && s.asm.pending && s.ctl.mode == PAYLOAD && Buffer.Full(s.ring) && s.ring.rd == s.ring.boundary
  {
    if s.ctl.mode == PAYLOAD {
      var q, written := Buffer.Contents(s.ring), Written(s.asm, p.words);
      assert |FirstFlagged(written)| == |written|;
      RoomOf(s.ring);
      hide Buffer.Full, Buffer.Contents, Committed, FirstFlagged, Buffer.Valid;
      assert |OpenNow(s.port, s.asm.fifoData, q)| < |s.ring.mem|;
    }
  }

  lemma RoomOf<T>(r: Buffer.Ring<T>)
    requires Buffer.Valid(r)
    ensures var q, n := Buffer.Contents(r), |r.mem|;
      && |q.committed| + |q.tentative| < n && (Buffer.Full(r) <==> |q.committed| + |q.tentative| == n - 1)
      && (|q.committed| == 0 <==> r.rd == r.boundary)
  {}

  lemma FullStep(s: State, i: Input, cfg: Config, c: nat)
    requires Assembling(s.asm, c) && Flowing(s, c) && s.ctl.mode == PAYLOAD && s.ctl.detect
    requires Quiet(s.port) && s.asm.pending && Buffer.Full(s.ring) && s.ring.rd == s.ring.boundary
    requires RxStreamer.ObeysRequest(s, i) && !i.eof
    ensures var t := Next(s, i, cfg, c); Choked(t) && t.ctl.mode == PAYLOAD
  {
    hide Buffer.Valid, Buffer.Contents;
  }

  lemma DeliversItsWords(p: Parser, i: Input, cfg: Config, c: nat)
    ensures |Parse(p, i, cfg, c).delivered| <= |p.delivered| + |p.words|
  {
    hide DetectorOut, DetectorNext, ControlNext;
  }

  /** With a word for every slot, the control word that would close the sub-frame is not asked for. */
  lemma FullDeliversNothing(s: State, outs: seq<Entry>, p: Parser, i: Input, cfg: Config, c: nat)
    requires Simulates(s, outs, p, c) && Flowing(s, c) && s.ctl.mode == PAYLOAD
    requires s.asm.pending && Buffer.Full(s.ring) && RxStreamer.ObeysRequest(s, i)
    ensures Parse(p, i, cfg, c).delivered == p.delivered
  {
    hide Buffer.Valid, Buffer.Contents, Committed, Uncommitted, Assembled, DetectorNext, ControlNext, Flagged;
  }

  /** A sub-frame that fills every slot or more is never delivered. */
  lemma {:induction false} DeliveryFits(s: State, ins: seq<Input>, i: Input, cfg: Config, c: nat)
    requires Initial(s, c) && Trusted(s, ins, cfg, c) && Obedient(s, ins + [i], cfg, c)
    ensures |ParseAll(START, ins + [i], cfg, c).delivered| < |ParseAll(START, ins, cfg, c).delivered| + |s.ring.mem|
  {
    assert Assembling(s.asm, c) && Buffer.InBounds(s.ring) && |s.ring.mem| >= 2;
    hide *;
    var t, outs, p := Run(s, ins, cfg, c), Outputs(s, ins, cfg, c), ParseAll(START, ins, cfg, c);
    ReceptionRefinesParser(s, ins, cfg, c);
    TracksSimulates(s, ins, cfg, c);
    FewerObey(s, ins, i, cfg, c);
    OpenFits(t, outs, p, c);
    ParseExtends(ins, i, cfg, c);
    DeliversItsWords(p, i, cfg, c);
    if |p.words| == |s.ring.mem| { FullDeliversNothing(t, outs, p, i, cfg, c); }
  }

  /** A sub-frame that has as many words as the buffer has slots brings the receiver to a standstill that only
      the end of the frame, which discards the sub-frame, can resolve. */
  lemma {:induction false} LongSubFrameChokes(s: State, ins: seq<Input>, i: Input, more: seq<Input>, cfg: Config,
      c: nat)
    requires Initial(s, c) && Trusted(s, ins, cfg, c) && Obedient(s, ins + [i] + more, cfg, c)
    requires |ParseAll(START, ins, cfg, c).words| == |s.ring.mem|
    requires !i.eof && forall k | 0 <= k < |more| :: !more[k].eof
    ensures var all := ins + [i] + more;
      && !Run(s, all, cfg, c).lastReq && Outputs(s, all, cfg, c) == Outputs(s, ins + [i], cfg, c)
      && ParseAll(START, all, cfg, c).delivered == ParseAll(START, ins + [i], cfg, c).delivered
    ensures forall k | 0 <= k < |more| :: more[k].word.None?
  {
    assert Assembling(s.asm, c) && Buffer.InBounds(s.ring) && |s.ring.mem| >= 2;
    hide *;
    var t := Run(s, ins, cfg, c);
    ReceptionRefinesParser(s, ins, cfg, c);
    TracksSimulates(s, ins, cfg, c);
    OpenFits(t, Outputs(s, ins, cfg, c), ParseAll(START, ins, cfg, c), c);
    WaitingWord(t, Outputs(s, ins, cfg, c), ParseAll(START, ins, cfg, c), c);
    FrontOfObedient(s, ins + [i], more, cfg, c);
    FewerObey(s, ins, i, cfg, c);
    FullStep(t, i, cfg, c);
    RunExtends(s, ins, i, cfg, c, Next(t, i, cfg, c));
    ChokedForEver(s, ins + [i], more, cfg, c);
    ChokedAsksNothing(Run(s, ins + [i] + more, cfg, c));
  }

  lemma FrontOfObedient(s: State, ins: seq<Input>, more: seq<Input>, cfg: Config, c: nat)
    requires Assembling(s.asm, c) && Buffer.InBounds(s.ring) && Obedient(s, ins + more, cfg, c)
    ensures Obedient(s, ins, cfg, c)
  {
    hide Run, RxStreamer.ObeysRequest;
    var all := ins + more;
    forall j | 0 <= j < |ins| ensures RxStreamer.ObeysRequest(Run(s, ins[..j], cfg, c), ins[j]) {
      assert all[..j] == ins[..j];
    }
  }

  // ----- both are within reach -----

  const SOME_CONFIG: Config := Config((1, 1, 1), (0, 0, 0), 7, true, false)

  function WordInput(w: Chunk): Input {
    Input.Input(Some(w), false, false, true, false)
  }

  /** A frame so far, from its start on: one word per cycle, every check word right. */
  function Heard(ws: seq<Chunk>): (ins: seq<Input>)
    ensures |ins| == |ws| + 1 && forall k | 0 <= k < |ins| :: !ins[k].eof && !ins[k].req
  {
    if ws == [] then [START_OF_FRAME]
    else Heard(ws[..|ws| - 1]) + [WordInput(ws[|ws| - 1])]
  }

  function Read(ws: seq<Chunk>): Parser {
    ParseAll(START, Heard(ws), SOME_CONFIG, 3)
  }

  lemma {:induction false} ReadMore(ws: seq<Chunk>, w: Chunk, p: Parser)
    requires p == Parse(Read(ws), WordInput(w), SOME_CONFIG, 3)
    ensures Read(ws + [w]) == p && Heard(ws + [w]) == Heard(ws) + [WordInput(w)]
  {
    hide Parse;
    assert (ws + [w])[..|ws|] == ws;
    var ins := Heard(ws + [w]);
    assert ins[..|ins| - 1] == Heard(ws);
  }

  function HeaderParser(n: nat): Parser {
    Parser(false, if n < 9 then Control(HEADER, n, false) else Control(SUBFRAME_HEADER, 9, true), 0, [], [], [])
  }

  lemma ReadHeaderWord(ws: seq<Chunk>, w: Chunk)
    requires |ws| < 9 && Read(ws) == HeaderParser(|ws|)
    requires |ws| == 8 || !HeaderRejects(SOME_CONFIG, |ws|, w)
    ensures Read(ws + [w]) == HeaderParser(|ws| + 1)
  {
    hide Read, HeaderRejects;
    ReadMore(ws, w, HeaderParser(|ws| + 1));
  }

  /** The nine words of a header that the receiver accepts. */
  lemma ReadHeader() returns (ws: seq<Chunk>)
    ensures |ws| == 9 && Read(ws) == HeaderParser(9)
  {
    ws := [];
    assert Heard(ws)[..0] == [];
    assert Read(ws) == HeaderParser(0);
    hide Read, Heard;
    while |ws| < 9
      invariant |ws| <= 9 && Read(ws) == HeaderParser(|ws|)
      decreases 9 - |ws|
    {
      var w: Chunk := if |ws| == 6 then 7 else 2;
      ReadHeaderWord(ws, w);
      ws := ws + [w];
    }
  }

  /** A parser inside a sub-frame. */
  function InSubFrame(check: bool, header: Chunk, words: seq<Word>, rest: seq<Chunk>, delivered: seq<Entry>): Parser {
    Parser(check, Control(PAYLOAD, 9, true), header, words, rest, delivered)
  }

  /** Behind the header, a sub-frame of one word, up to the escape code of the next control word. */
  lemma ReadOneWord(head: seq<Chunk>) returns (ws: seq<Chunk>)
    requires Read(head) == HeaderParser(9)
    ensures |ws| == |head| + 7 && Read(ws) == InSubFrame(true, 0x8000, [[10, 11, 12]], [99], [])
  {
    hide Read;
    ReadMore(head, ESC, HeaderParser(9).(check := true));
    ws := head + [ESC];
    ReadMore(ws, 0x8000, InSubFrame(false, 0x8000, [], [], []));
    ws := ws + [0x8000];
    ReadMore(ws, 10, InSubFrame(false, 0x8000, [], [10], []));
    ws := ws + [10];
    ReadMore(ws, 11, InSubFrame(false, 0x8000, [], [10, 11], []));
    ws := ws + [11];
    assert [10, 11] + [12 as Chunk] == [10, 11, 12] && [] + [[10, 11, 12 as Chunk]] == [[10, 11, 12]];
    ReadMore(ws, 12, InSubFrame(false, 0x8000, [[10, 11, 12]], [], []));
    ws := ws + [12];
    ReadMore(ws, 99, InSubFrame(false, 0x8000, [[10, 11, 12]], [99], []));
    ws := ws + [99];
    ReadMore(ws, ESC, InSubFrame(true, 0x8000, [[10, 11, 12]], [99], []));
    ws := ws + [ESC];
  }

  /** A cut behind a delivery is within reach: an accepted header, a sub-frame of one word with its check
      word, the next control word, and in the following cycle the end of the frame. */
  lemma CutIsReachable() returns (s: State, ins: seq<Input>, i: Input)
    ensures Initial(s, 3) && Trusted(s, ins, SOME_CONFIG, 3) && CutsAfter(ins, i, SOME_CONFIG, 3)
    ensures Obedient(s, ins + [i], SOME_CONFIG, 3) && Outputs(s, ins + [i], SOME_CONFIG, 3) == []
    ensures |ParseAll(START, ins + [i], SOME_CONFIG, 3).delivered| == 1
  {
    hide *;
    s := PowerUp(3, 64);
    InitialIsSane(s, 3);
    ins, i := SomeCut();
    NoEndNoCut(ins, SOME_CONFIG, 3);
    ShortReception(s, ins, SOME_CONFIG, 3);
    TrustedObeys(s, ins, SOME_CONFIG, 3);
    NoWordObeys(Run(s, ins, SOME_CONFIG, 3), i);
    ObedientStep(s, ins, i, SOME_CONFIG, 3);
    NothingRead(s, ins + [i], SOME_CONFIG, 3);
  }

  lemma InitialIsSane(s: State, c: nat)
    requires Initial(s, c)
    ensures Assembling(s.asm, c) && Buffer.InBounds(s.ring)
  {}

  lemma NoWordObeys(s: State, i: Input)
    requires i.word.None?
    ensures RxStreamer.ObeysRequest(s, i)
  {}

  lemma NoEndNoCut(ins: seq<Input>, cfg: Config, c: nat)
    requires forall k | 0 <= k < |ins| :: !ins[k].eof
    ensures forall k | 0 <= k < |ins| :: !CutsAfter(ins[..k], ins[k], cfg, c)
  {}

  lemma {:induction false} TrustedObeys(s: State, ins: seq<Input>, cfg: Config, c: nat)
    requires Assembling(s.asm, c) && Buffer.InBounds(s.ring) && Trusted(s, ins, cfg, c)
    ensures Obedient(s, ins, cfg, c)
  {
    hide Run, RxStreamer.ObeysRequest, CutsAfter, Obedient;
    if ins == [] {
      NothingObeys(s, cfg, c);
    } else {
      var n := |ins| - 1;
      TrustedObeys(s, ins[..n], cfg, c);
      ObedientStep(s, ins[..n], ins[n], cfg, c);
      assert ins[..n] + [ins[n]] == ins;
    }
  }

  lemma NothingObeys(s: State, cfg: Config, c: nat)
    requires Assembling(s.asm, c) && Buffer.InBounds(s.ring)
    ensures Obedient(s, [], cfg, c)
  {}

  lemma {:induction false} NothingRead(s: State, ins: seq<Input>, cfg: Config, c: nat)
    requires Assembling(s.asm, c) && Buffer.InBounds(s.ring) && forall k | 0 <= k < |ins| :: !ins[k].req
    ensures Outputs(s, ins, cfg, c) == []
  {
    hide Run;
    if ins != [] { NothingRead(s, ins[..|ins| - 1], cfg, c); }
  }

  /** So is the standstill: a receiver that has been reset, has delivered one word and will never ask for
      another one, whatever the fabric and the user do. */
  lemma StandstillIsReachable() returns (s: State, ins: seq<Input>)
    ensures Initial(s, 3) && Obedient(s, ins, SOME_CONFIG, 3)
    ensures forall more | Obedient(s, ins + more, SOME_CONFIG, 3) ::
      var all := ins + more;
      && !Run(s, all, SOME_CONFIG, 3).lastReq && |Outputs(s, all, SOME_CONFIG, 3)| == 1
      && forall k | |ins| <= k < |all| :: all[k].word.None?
  {
    var before, i;
    s, before, i := CutIsReachable();
    assert Assembling(s.asm, 3) && Buffer.InBounds(s.ring);
    hide *;
    ins := before + [i] + Reads();
    ReadsObey(s, before + [i], SOME_CONFIG, 3);
    forall more | Obedient(s, ins + more, SOME_CONFIG, 3)
      ensures var all := ins + more;
        && !Run(s, all, SOME_CONFIG, 3).lastReq && |Outputs(s, all, SOME_CONFIG, 3)| == 1
        && forall k | |ins| <= k < |all| :: all[k].word.None?
    {
      CutDeafens(s, before, i, more, SOME_CONFIG, 3);
    }
  }

  lemma SomeCut() returns (ins: seq<Input>, i: Input)
    ensures CutsAfter(ins, i, SOME_CONFIG, 3) && |ins| == 18 && i.word.None? && !i.req
    ensures forall k | 0 <= k < |ins| :: !ins[k].eof && !ins[k].req
    ensures |ParseAll(START, ins + [i], SOME_CONFIG, 3).delivered| == 1
  {
    var head := ReadHeader();
    var ws := ReadOneWord(head);
    var p := Read(ws);
    var q := Parse(p, WordInput(0x8001), SOME_CONFIG, 3);
    ReadMore(ws, 0x8001, q);
    assert q.ctl.mode == PAYLOAD && q.delivered == [Entry(true, true, [10, 11, 12])];
    ins, i := Heard(ws + [0x8001]), Input.Input(None, false, true, false, false);
    assert Parse(q, i, SOME_CONFIG, 3).delivered == q.delivered;
    hide Parse, ParseAll, Heard;
    assert ins[..|ins| - 1] == Heard(ws);
    ParseExtends(ins, i, SOME_CONFIG, 3);
  }
}
