// Which frames of the transmitting streamer come to their end, and what they take from the FIFO.
module FrameEnding {
  import opened EscapeCode
  import opened TxStreamer

  // ----- the words a frame has taken -----

  function Words(bs: seq<Block>): nat {
    if bs == [] then 0 else Words(bs[..|bs| - 1]) + |bs[|bs| - 1].words|
  }

  function Taken(g: Log): nat {
    Words(g.done) + |g.open|
  }

  predicate EndsWell(w: Word, c: nat) {
    |w| == c > 0 && w[c - 1] != ESC
  }

  predicate EndsWith(ws: seq<Word>, x: Chunk, c: nat) {
    ws != [] && |ws[|ws| - 1]| == c > 0 && ws[|ws| - 1][c - 1] == x
  }

  ghost predicate AllEndWell(bs: seq<Block>, c: nat) {
    forall b | b in bs :: b.words != [] && EndsWell(b.words[|b.words| - 1], c)
  }

  /** The word counter is exact within its 8 bits, and the blocks that have been closed did not end in
      the escape code. */
  ghost predicate Counted(s: State, g: Log, cfg: Config) {
    && (s.ctl.mode == SOF || s.ctl.mode == ETH_HEADER ==> g.done == [] && g.open == [])
    && (s.ctl.mode != SOF && s.ctl.mode != ETH_HEADER ==> s.ctl.count == Taken(g) % 256)
    && |g.supplied| == Taken(g) + |s.fifo|
    && AllEndWell(g.done, cfg.c)
    && (s.ctl.mode == CRC_WORD ==> EndsWith(g.open, s.port.data, cfg.c))
  }

  lemma {:induction false} WordsAppend(bs: seq<Block>, b: Block)
    ensures Words(bs + [b]) == Words(bs) + |b.words|
  {
    assert (bs + [b])[..|bs|] == bs;
  }

  lemma AllEndWellAppend(bs: seq<Block>, b: Block, c: nat)
    requires AllEndWell(bs, c) && b.words != [] && EndsWell(b.words[|b.words| - 1], c)
    ensures AllEndWell(bs + [b], c)
  {
    hide EndsWell;
  }

  lemma CountedClose(s: State, g: Log, i: Input, cfg: Config)
    requires Sane(s, cfg.c) && LastChunkOut(s) && Counted(s, g, cfg) && s.ctl.mode == CRC_WORD && Req(s, i)
    ensures Counted(Next(s, i, cfg), LogNext(g, s, i, cfg), cfg)
  {
    var b := Block(g.header, g.open);
    WordsAppend(g.done, b);
    assert b.words != [] && EndsWell(b.words[|b.words| - 1], cfg.c);
    AllEndWellAppend(g.done, b, cfg.c);
    hide Sane, Emitted, HeaderWord, Checked, CrcNext, InserterNext, Req, LastChunkOut;
    hide PortNext, Counter, Up, Down, Words, EndsWell, EndsWith, AllEndWell;
  }

  lemma CountStep(n: nat)
    ensures (n % 256 + 1) % 256 == (n + 1) % 256
  {}

  lemma CountedPayload(s: State, g: Log, i: Input, cfg: Config)
    requires Sane(s, cfg.c) && Counted(s, g, cfg) && NeverDry(s) && s.ctl.mode == PAYLOAD
    ensures Counted(Next(s, i, cfg), LogNext(g, s, i, cfg), cfg)
  {
    CountStep(Taken(g));
    hide Emitted, CrcNext, InserterNext, Req, Words, AllEndWell, Counter, Up, Down;
  }

  lemma CountedOther(s: State, g: Log, i: Input, cfg: Config)
    requires Sane(s, cfg.c) && Counted(s, g, cfg)
    requires s.ctl.mode != PAYLOAD && s.ctl.mode != CRC_WORD && s.ctl.mode != IDLE
    ensures Counted(Next(s, i, cfg), LogNext(g, s, i, cfg), cfg)
  {
    hide Emitted, CrcNext, InserterNext, Req, AllEndWell, HeaderWord, EndsWith, Counter, Up, Down;
    assert Words([]) == 0;
  }

  lemma CountedStep(s: State, g: Log, i: Input, cfg: Config)
    requires InFrame(s, g, cfg) && Counted(s, g, cfg) && NeverDry(s) && i.ready
    ensures Counted(Next(s, i, cfg), LogNext(g, s, i, cfg), cfg)
  {
    assert s.ctl.mode == CRC_WORD ==> Req(s, i);
    hide WireHolds, CrcHolds, FifoHolds, ShapeHolds, Counted, Next, LogNext, Req;
    if s.ctl.mode == CRC_WORD { CountedClose(s, g, i, cfg); }
    else if s.ctl.mode == PAYLOAD { CountedPayload(s, g, i, cfg); }
    else { CountedOther(s, g, i, cfg); }
  }

  lemma TakenStep(s: State, g: Log, i: Input, cfg: Config)
    requires Sane(s, cfg.c) && s.ctl.mode != IDLE && NeverDry(s)
    ensures Taken(LogNext(g, s, i, cfg)) == Taken(g) + if Reads(s, i, cfg.c) then 1 else 0
  {
    WordsAppend(g.done, Block(g.header, g.open));
    hide Req, Emitted, PortNext, Words;
  }

  // ----- progress -----

  /** Requests that must still be granted before the frame can end, if it takes no further word. */
  function GrantsLeft(t: Control): int {
    match t.mode
    case IDLE => 0
    case SOF => 15
    case ETH_HEADER => 14 - t.count
    case SUBFRAME_HEADER => 5
    case PAYLOAD => 4 - t.serCount
    case CRC_WORD => 6
    case PADDING => 2
    case EOF => 1
  }

  function Busy(p: Port): int {
    if p.dvalid && (p.escape || p.data == ESC) then 1 else 0
  }

  function PadsMissing(mode: Mode, total: nat, dvalid: bool): nat {
    var n := (total + if dvalid then 1 else 0) % 2048;
    if mode == IDLE || mode == EOF then 0 else if mode != PADDING then 31 else if n < 31 then 31 - n else 0
  }

  /** Decreases in every cycle of a frame in which no word is taken. */
  function Potential(s: State): int {
    2 * GrantsLeft(s.ctl) + 3 * PadsMissing(s.ctl.mode, s.totalWords, s.port.dvalid) + Busy(s.port)
  }

  lemma GrantsStep(s: State, i: Input, cfg: Config)
    requires s.ctl.serCount < cfg.c && NeverDry(s) && s.ctl.mode != IDLE
    requires s.ctl.mode == ETH_HEADER ==> s.ctl.count <= 8
    ensures var t, left, cost := ControlNext(s, i, cfg), GrantsLeft(s.ctl), if Reads(s, i, cfg.c) then cfg.c + 2 else 0;
      if Req(s, i) || s.ctl.mode == SOF
      then GrantsLeft(t) < left + cost
        || (s.ctl.mode == t.mode == PADDING && GrantsLeft(t) == left && s.totalWords < MIN_PACKET_SIZE)
      else GrantsLeft(t) <= left && t.mode == s.ctl.mode
  {
    hide Req;
  }

  lemma Requested(s: State, i: Input, cfg: Config)
    requires Sane(s, cfg.c) && i.ready && LastChunkOut(s) && s.ctl.mode != IDLE && s.ctl.mode != SOF
    ensures !Req(s, i) ==> Busy(s.port) == 1 && !PortNext(s, i, cfg).dvalid
    ensures Req(s, i) ==> Busy(s.port) == 0
    ensures s.ctl.mode == PADDING && Req(s, i) ==> PortNext(s, i, cfg).dvalid
  {
    hide ControlNext, CrcNext, InserterNext, HeaderWord, Checked, FifoNext;
  }

  lemma PadsStep(s: State, i: Input, cfg: Config)
    requires Sane(s, cfg.c) && i.ready && LastChunkOut(s) && s.ctl.mode != IDLE && s.ctl.mode != SOF && !s.port.sof
    ensures var t := Next(s, i, cfg);
      var n := PadsMissing(s.ctl.mode, s.totalWords, s.port.dvalid);
      var n' := PadsMissing(t.ctl.mode, t.totalWords, t.port.dvalid);
      n' <= n && (s.ctl.mode == t.ctl.mode == PADDING && Req(s, i) && s.totalWords < MIN_PACKET_SIZE ==> n' < n)
  {
    Requested(s, i, cfg);
    hide FifoNext, CrcNext, InserterNext, Req, HeaderWord, Checked, Counter, Up, Down;
  }

  /** Every cycle of a frame that is not stuck makes progress, whatever is pushed meanwhile. */
  lemma PotentialStep(s: State, g: Log, i: Input, cfg: Config)
    requires InFrame(s, g, cfg) && LengthHolds(s, g) && NeverDry(s) && i.ready
    ensures Potential(Next(s, i, cfg)) < Potential(s) + if Reads(s, i, cfg.c) then 2 * cfg.c + 4 else 0
  {
    assert s.ctl.mode == ETH_HEADER ==> s.ctl.count <= 8;
    assert s.ctl.mode == SOF ==> !s.port.dvalid;
    assert s.ctl.mode != SOF ==> !s.port.sof;
    hide WireHolds, ShapeHolds, CrcHolds, FifoHolds, TypesHold, LengthHolds;
    GrantsStep(s, i, cfg);
    if s.ctl.mode == SOF {
      hide GrantsLeft, FifoNext, CrcNext, InserterNext, Req, Counter, Up, Down;
    } else {
      Requested(s, i, cfg);
      PadsStep(s, i, cfg);
      hide GrantsLeft, FifoNext, CrcNext, InserterNext, Req, PortNext, ControlNext, PadsMissing, Reads, Counter, Up,
        Down;
    }
  }

  /** What n words cost. */
  function Cost(n: nat, c: nat): (r: nat)
  {
    if n == 0 then 0 else Cost(n - 1, c) + 2 * c + 4
  }

  lemma CostStep(n: nat, c: nat)
    ensures Cost(n + 1, c) == Cost(n, c) + 2 * c + 4
  {}

  lemma {:induction false} CostMonotone(m: nat, n: nat, c: nat)
    requires m <= n
    ensures Cost(m, c) <= Cost(n, c)
  {
    if m < n { CostMonotone(m, n - 1, c); }
  }

  lemma PotentialIsBounded(s: State, c: nat)
    requires s.ctl.serCount < c && (s.ctl.mode == ETH_HEADER ==> s.ctl.count <= 8)
    ensures Potential(s) >= -2 * c
  {}

  // ----- a frame under way -----

  /** For n cycles the machine is in a frame with a ready fabric and a FIFO that does not run dry inside
      a block; whatever is pushed meanwhile. */
  ghost predicate Fed(s: State, ins: seq<Input>, n: nat, cfg: Config)
    requires Sane(s, cfg.c) && InputsOk(ins, cfg.c) && n <= |ins|
  {
    forall k | 0 <= k < n :: Runs(s, ins, k, cfg)
  }

  ghost predicate Underway(s: State, n: nat, t: State, g: Log, cfg: Config) {
    && InFrame(t, g, cfg) && LengthHolds(t, g) && Counted(t, g, cfg)
    && Potential(t) + n <= Potential(s) + Cost(Taken(g), cfg.c)
  }

  ghost predicate Ended(t: State, g: Log, cfg: Config) {
    t.ctl.mode == IDLE && Sent(t, g, cfg) && Counted(t, g, cfg)
  }

  lemma StartUnderway(s: State, cfg: Config)
    requires Starts(s, cfg)
    ensures Underway(s, 0, s, NewLog(s.fifo), cfg)
  {
    StartsInFrame(s, cfg);
    hide InFrame, Potential;
  }

  lemma OpenUnderway(s: State, n: nat, t: State, g: Log, cfg: Config)
    requires Underway(s, n, t, g, cfg)
    ensures Sane(t, cfg.c) && t.ctl.mode != IDLE && LastChunkOut(t) && t.ctl.serCount < cfg.c
    ensures InFrame(t, g, cfg) && LengthHolds(t, g) && Counted(t, g, cfg) && FifoHolds(t, g) && TypesHold(t, g, cfg.c)
    ensures t.ctl.mode == ETH_HEADER ==> t.ctl.count <= 8
    ensures Potential(t) + n <= Potential(s) + Cost(Taken(g), cfg.c)
  {
    hide Counted, FifoHolds, TypesHold, Potential, LengthHolds, Cost, Taken, LastChunkOut;
  }

  lemma GoOn(s: State, n: nat, t: State, g: Log, i: Input, cfg: Config)
    requires Underway(s, n, t, g, cfg) && NeverDry(t) && i.ready && Sane(t, cfg.c)
    ensures var u, g' := Next(t, i, cfg), LogNext(g, t, i, cfg);
      && LengthHolds(u, g') && Counted(u, g', cfg)
      && Potential(u) + n + 1 <= Potential(s) + Cost(Taken(g'), cfg.c)
  {
    hide *;
    OpenUnderway(s, n, t, g, cfg);
    CountedStep(t, g, i, cfg);
    LengthInFrame(t, g, i, cfg);
    PotentialStep(t, g, i, cfg);
    TakenStep(t, g, i, cfg);
    CostStep(Taken(g), cfg.c);
  }

  lemma UnderwayStep(s: State, n: nat, t: State, g: Log, i: Input, cfg: Config)
    requires Underway(s, n, t, g, cfg) && NeverDry(t) && i.ready && InputOk(i, cfg.c) && Sane(t, cfg.c)
    requires !Stuck(Next(t, i, cfg))
    ensures var u, g' := Next(t, i, cfg), LogNext(g, t, i, cfg);
      if u.ctl.mode == IDLE then Ended(u, g', cfg) else Underway(s, n + 1, u, g', cfg)
  {
    hide Next, LogNext, Potential, Sent, Counted, InFrame, LengthHolds, Stuck, Taken, Cost, NeverDry, InputOk, Sane;
    FrameStep(t, g, i, cfg);
    GoOn(s, n, t, g, i, cfg);
  }

  lemma {:induction false} NeverStuckBefore(s: State, ins: seq<Input>, m: nat, n: nat, cfg: Config)
    requires Sane(s, cfg.c) && InputsOk(ins, cfg.c) && m <= n <= |ins| && !Stuck(Run(s, ins, n, cfg))
    ensures !Stuck(Run(s, ins, m, cfg))
  {
    hide Stuck;
    if Stuck(Run(s, ins, m, cfg)) { StuckForEver(s, ins, m, n, cfg); }
  }

  lemma {:induction false} FedCycle(s: State, ins: seq<Input>, n: nat, k: nat, cfg: Config)
    requires Sane(s, cfg.c) && InputsOk(ins, cfg.c) && k < n <= |ins| && Fed(s, ins, n, cfg)
    ensures ins[k].ready && NeverDry(Run(s, ins, k, cfg)) && Run(s, ins, k, cfg).ctl.mode != IDLE
      && InputOk(ins[k], cfg.c)
    ensures Fed(s, ins, k, cfg)
  {
    assert Runs(s, ins, k, cfg);
    hide Run, NeverDry;
  }

  lemma RunStep(s: State, ins: seq<Input>, n: nat, cfg: Config)
    requires Sane(s, cfg.c) && InputsOk(ins, cfg.c) && 0 < n <= |ins|
    ensures var t, g := Run(s, ins, n - 1, cfg), RunLog(s, ins, n - 1, cfg);
      && Run(s, ins, n, cfg) == Next(t, ins[n - 1], cfg) && RunLog(s, ins, n, cfg) == LogNext(g, t, ins[n - 1], cfg)
  {
    hide Next, LogNext;
  }

  lemma {:induction false} RunStart(s: State, ins: seq<Input>, cfg: Config)
    requires Sane(s, cfg.c) && InputsOk(ins, cfg.c)
    ensures Run(s, ins, 0, cfg) == s && RunLog(s, ins, 0, cfg) == NewLog(s.fifo)
  {}

  lemma StartIsSane(s: State, cfg: Config)
    requires Starts(s, cfg)
    ensures Sane(s, cfg.c) && s.ctl.mode == SOF && !Stuck(s)
  {}

  /** A fed frame that is not stuck is under way, or has ended. */
  lemma {:induction false} FedFrame(s: State, ins: seq<Input>, n: nat, cfg: Config)
    requires Starts(s, cfg) && InputsOk(ins, cfg.c) && n <= |ins| && Fed(s, ins, n, cfg) && !Stuck(Run(s, ins, n, cfg))
    ensures var t, g := Run(s, ins, n, cfg), RunLog(s, ins, n, cfg);
      if t.ctl.mode == IDLE then Ended(t, g, cfg) else Underway(s, n, t, g, cfg)
  {
    hide *;
    StartIsSane(s, cfg);
    if n == 0 {
      RunStart(s, ins, cfg);
      StartUnderway(s, cfg);
    } else {
      RunStep(s, ins, n, cfg);
      NeverStuckBefore(s, ins, n - 1, n, cfg);
      FedCycle(s, ins, n, n - 1, cfg);
      FedFrame(s, ins, n - 1, cfg);
      UnderwayStep(s, n - 1, Run(s, ins, n - 1, cfg), RunLog(s, ins, n - 1, cfg), ins[n - 1], cfg);
    }
  }

  // ----- what makes it hang -----

  /** The last word of a block is taken, and its last chunk is the escape code. */
  predicate Traps(s: State, i: Input, c: nat) {
    Reads(s, i, c) && s.fifo[0].last && |s.fifo[0].data| == c && s.fifo[0].data[c - 1] == ESC
  }

  lemma TrapStep(s: State, i: Input, cfg: Config)
    requires Sane(s, cfg.c) && Traps(s, i, cfg.c)
    ensures Stuck(Next(s, i, cfg))
  {
    hide Req, CrcNext, InserterNext, FifoNext, Counter, Up, Down;
  }

  /** In any run whatsoever, with any fabric and any pushes: once the last word of a block with the
      escape code in its last chunk has been taken, the streamer never comes back to IDLE. */
  lemma {:induction false} TrapIsForEver(s: State, ins: seq<Input>, m: nat, n: nat, cfg: Config)
    requires Sane(s, cfg.c) && InputsOk(ins, cfg.c) && m < n <= |ins| && Traps(Run(s, ins, m, cfg), ins[m], cfg.c)
    ensures Run(s, ins, n, cfg).ctl.mode == CRC_WORD
  {
    hide Next, Traps;
    TrapStep(Run(s, ins, m, cfg), ins[m], cfg);
    StuckForEver(s, ins, m + 1, n, cfg);
  }

  lemma OnlyTraps(s: State, i: Input, cfg: Config)
    requires Sane(s, cfg.c) && NeverDry(s) && i.ready && LastChunkOut(s) && !Traps(s, i, cfg.c)
    ensures !Stuck(Next(s, i, cfg))
  {
    hide CrcNext, InserterNext, HeaderWord, Checked, FifoNext, Counter, Up, Down;
  }

  ghost predicate Untrapped(s: State, ins: seq<Input>, n: nat, cfg: Config)
    requires Sane(s, cfg.c) && InputsOk(ins, cfg.c) && n <= |ins|
  {
    forall k | 0 <= k < n :: !Traps(Run(s, ins, k, cfg), ins[k], cfg.c)
  }

  lemma FewerTraps(s: State, ins: seq<Input>, n: nat, cfg: Config)
    requires Sane(s, cfg.c) && InputsOk(ins, cfg.c) && 0 < n <= |ins| && Untrapped(s, ins, n, cfg)
    ensures Untrapped(s, ins, n - 1, cfg) && !Traps(Run(s, ins, n - 1, cfg), ins[n - 1], cfg.c)
  {
    hide Traps, Run;
  }

  lemma FreeStep(s: State, n: nat, t: State, g: Log, i: Input, cfg: Config)
    requires Underway(s, n, t, g, cfg) && NeverDry(t) && i.ready && Sane(t, cfg.c) && !Traps(t, i, cfg.c)
    ensures !Stuck(Next(t, i, cfg))
  {
    hide *;
    OpenUnderway(s, n, t, g, cfg);
    OnlyTraps(t, i, cfg);
  }

  lemma {:induction false} UntrappedIsNotStuck(s: State, ins: seq<Input>, n: nat, cfg: Config)
    requires Starts(s, cfg) && InputsOk(ins, cfg.c) && n <= |ins| && Fed(s, ins, n, cfg) && Untrapped(s, ins, n, cfg)
    ensures !Stuck(Run(s, ins, n, cfg))
  {
    hide *;
    StartIsSane(s, cfg);
    if n == 0 {
      RunStart(s, ins, cfg);
    } else {
      RunStep(s, ins, n, cfg);
      FedCycle(s, ins, n, n - 1, cfg);
      FewerTraps(s, ins, n, cfg);
      UntrappedIsNotStuck(s, ins, n - 1, cfg);
      FedFrame(s, ins, n - 1, cfg);
      FreeStep(s, n - 1, Run(s, ins, n - 1, cfg), RunLog(s, ins, n - 1, cfg), ins[n - 1], cfg);
    }
  }

  /** A fed frame ends, hangs, or goes on taking words: it cannot spend cycles on anything else. */
  lemma {:induction false} FrameProgresses(s: State, ins: seq<Input>, n: nat, cfg: Config)
    requires Starts(s, cfg) && InputsOk(ins, cfg.c) && n <= |ins| && Fed(s, ins, n, cfg)
    requires Run(s, ins, n, cfg).ctl.mode != IDLE && !Stuck(Run(s, ins, n, cfg))
    ensures n <= Potential(s) + 2 * cfg.c + Cost(Taken(RunLog(s, ins, n, cfg)), cfg.c)
  {
    FedFrame(s, ins, n, cfg);
    hide Run, RunLog, Fed, Potential, Underway, Cost, Taken, InFrame, LengthHolds, Counted, FifoHolds, TypesHold, Stuck;
    OpenUnderway(s, n, Run(s, ins, n, cfg), RunLog(s, ins, n, cfg), cfg);
    PotentialIsBounded(Run(s, ins, n, cfg), cfg.c);
  }

  // ----- the end of a frame -----

  /** The first cycle from n on in which the machine is in IDLE, or the last one. */
  ghost function EndFrom(s: State, ins: seq<Input>, n: nat, cfg: Config): (e: nat)
    requires Sane(s, cfg.c) && InputsOk(ins, cfg.c) && n <= |ins|
    ensures e <= |ins|
    decreases |ins| - n
  {
    if n == |ins| || Run(s, ins, n, cfg).ctl.mode == IDLE then n else EndFrom(s, ins, n + 1, cfg)
  }

  lemma {:induction false} EndFromIsFirst(s: State, ins: seq<Input>, n: nat, cfg: Config)
    requires Sane(s, cfg.c) && InputsOk(ins, cfg.c) && n <= |ins|
    ensures var e := EndFrom(s, ins, n, cfg);
      && n <= e && (e < |ins| ==> Run(s, ins, e, cfg).ctl.mode == IDLE)
      && forall k | n <= k < e :: Run(s, ins, k, cfg).ctl.mode != IDLE
    decreases |ins| - n
  {
    hide Run;
    if n < |ins| && Run(s, ins, n, cfg).ctl.mode != IDLE { EndFromIsFirst(s, ins, n + 1, cfg); }
  }

  /** The cycle in which the frame is over. */
  ghost function End(s: State, ins: seq<Input>, cfg: Config): (e: nat)
    requires Sane(s, cfg.c) && InputsOk(ins, cfg.c)
    ensures e <= |ins| && (e < |ins| ==> Run(s, ins, e, cfg).ctl.mode == IDLE)
    ensures forall k | 0 <= k < e :: Run(s, ins, k, cfg).ctl.mode != IDLE
  {
    EndFromIsFirst(s, ins, 0, cfg);
    hide EndFrom, Run;
    EndFrom(s, ins, 0, cfg)
  }

  ghost predicate Ends(s: State, ins: seq<Input>, cfg: Config)
    requires Sane(s, cfg.c) && InputsOk(ins, cfg.c)
  {
    Run(s, ins, End(s, ins, cfg), cfg).ctl.mode == IDLE
  }

  lemma EndsUntrapped(s: State, ins: seq<Input>, cfg: Config)
    requires Sane(s, cfg.c) && InputsOk(ins, cfg.c) && Ends(s, ins, cfg)
    ensures Untrapped(s, ins, End(s, ins, cfg), cfg)
  {
    hide Run, Traps;
    forall k | 0 <= k < End(s, ins, cfg) ensures !Traps(Run(s, ins, k, cfg), ins[k], cfg.c) {
      if Traps(Run(s, ins, k, cfg), ins[k], cfg.c) { TrapIsForEver(s, ins, k, End(s, ins, cfg), cfg); }
    }
  }

  /** A fed run that is long enough for the words it takes ends its frame, unless there is a trap. */
  lemma {:induction false} EndsIffUntrapped(s: State, ins: seq<Input>, limit: nat, cfg: Config)
    requires Starts(s, cfg) && InputsOk(ins, cfg.c) && Fed(s, ins, End(s, ins, cfg), cfg)
    requires !Stuck(Run(s, ins, |ins|, cfg)) ==> Taken(RunLog(s, ins, |ins|, cfg)) <= limit
    requires |ins| > Potential(s) + 2 * cfg.c + Cost(limit, cfg.c)
    ensures Ends(s, ins, cfg) <==> Untrapped(s, ins, End(s, ins, cfg), cfg)
  {
    assert Sane(s, cfg.c);
    var e := End(s, ins, cfg);
    hide Run, RunLog, Fed, Untrapped, Potential, Cost, Taken, Stuck, Starts, End;
    if Ends(s, ins, cfg) {
      EndsUntrapped(s, ins, cfg);
    } else if Untrapped(s, ins, e, cfg) {
      assert e == |ins|;
      UntrappedIsNotStuck(s, ins, e, cfg);
      FrameProgresses(s, ins, e, cfg);
      CostMonotone(Taken(RunLog(s, ins, e, cfg)), limit, cfg.c);
    }
  }

  // ----- what the entries of the FIFO become -----

  lemma {:induction false} BlockEntriesLength(bs: seq<Block>)
    ensures |BlockEntries(bs)| == Words(bs)
  {
    if bs != [] { BlockEntriesLength(bs[..|bs| - 1]); }
  }

  /** No word that ends a block has the escape code in its last chunk. */
  predicate Clean(fifo: seq<Entry>, c: nat) {
    forall k | 0 <= k < |fifo| :: fifo[k].last ==> EndsWell(fifo[k].data, c)
  }

  lemma {:induction false} BlocksAreClean(bs: seq<Block>, c: nat)
    requires AllEndWell(bs, c)
    ensures Clean(BlockEntries(bs), c)
  {
    if bs != [] {
      BlocksAreClean(bs[..|bs| - 1], c);
      assert bs[|bs| - 1] in bs;
    }
  }

  /** The word at the head of the FIFO is the next one of the supply. */
  lemma HeadOfSupply(t: State, g: Log)
    requires FifoHolds(t, g) && t.fifo != []
    ensures Taken(g) < |g.supplied| && g.supplied[Taken(g)] == t.fifo[0]
  {
    BlockEntriesLength(g.done);
  }

  /** After a frame, the words taken are those of its blocks, and the rest of the supply is in the FIFO. */
  lemma EndOfSupply(t: State, g: Log, cfg: Config)
    requires Ended(t, g, cfg)
    ensures Taken(g) <= |g.supplied| && g.supplied[..Taken(g)] == BlockEntries(g.done)
    ensures g.supplied[Taken(g)..] == t.fifo && Clean(BlockEntries(g.done), cfg.c)
  {
    BlockEntriesLength(g.done);
    BlocksAreClean(g.done, cfg.c);
    hide BlockEntries, TypesHold, SubFrames, Clean;
    NoEntries(false);
    assert g.supplied == BlockEntries(g.done) + [] + t.fifo;
    assert BlockEntries(g.done) + [] == BlockEntries(g.done);
  }

  // ----- frames that are filled while they are open -----

  predicate HasLast(e: seq<Entry>) {
    exists m | 0 <= m < |e| :: e[m].last
  }

  /** Every stretch of b entries holds a last-flag: no block is longer than b words. */
  ghost predicate ShortBlocks(e: seq<Entry>, b: nat) {
    forall k, m | 0 <= k <= m <= |e| && m == k + b :: HasLast(e[k..m])
  }

  lemma OpenIsShort(front: seq<Entry>, open: seq<Word>, closed: bool, rest: seq<Entry>, b: nat)
    requires ShortBlocks(front + Entries(open, closed) + rest, b) && b >= 1
    ensures |open| <= b && (!closed ==> |open| < b)
  {
    var e := front + Entries(open, closed) + rest;
    if |open| >= b {
      var k := |front|;
      assert HasLast(e[k..k + b]);
      var m :| 0 <= m < b && e[k..k + b][m].last;
      assert e[k + m] == Entries(open, closed)[m];
    }
  }

  /** With blocks of at most b words, what a frame has taken so far. */
  ghost predicate Limited(t: State, g: Log, b: nat, cfg: Config) {
    && (t.ctl.mode == SUBFRAME_HEADER || t.ctl.mode == PAYLOAD || t.ctl.mode == CRC_WORD ==>
      Words(g.done) < cfg.maxWords)
    && Taken(g) < cfg.maxWords + b
  }

  lemma LimitedStep(t: State, g: Log, i: Input, b: nat, cfg: Config)
    requires Sane(t, cfg.c) && t.ctl.mode != IDLE && NeverDry(t) && Counted(t, g, cfg) && Limited(t, g, b, cfg)
    requires 1 <= cfg.maxWords && cfg.maxWords + b <= 256
    requires t.ctl.mode == CRC_WORD ==> Req(t, i)
    requires t.ctl.mode == PAYLOAD ==> |LogNext(g, t, i, cfg).open| <= b
    ensures Limited(Next(t, i, cfg), LogNext(g, t, i, cfg), b, cfg)
  {
    hide Req, Emitted, PortNext, CrcNext, FifoNext, InserterNext, Words, AllEndWell, EndsWith, Counter, Up, Down;
    WordsAppend(g.done, Block(g.header, g.open));
    NoWords();
  }

  lemma NoWords()
    ensures Words([]) == 0
  {}

  lemma PayloadIsShort(t: State, g: Log, b: nat)
    requires FifoHolds(t, g) && ShortBlocks(g.supplied, b) && b >= 1
    ensures |g.open| <= b
  {
    hide ShortBlocks, BlockEntries, Entries;
    OpenIsShort(BlockEntries(g.done), g.open, t.ctl.mode == CRC_WORD, t.fifo, b);
  }

  lemma FewerSupplied(e: seq<Entry>, o: Option<Entry>, b: nat)
    requires ShortBlocks(Append(e, o), b)
    ensures ShortBlocks(e, b)
  {
    hide HasLast;
    forall k, m | 0 <= k <= m <= |e| && m == k + b ensures HasLast(e[k..m]) {
      assert Append(e, o)[k..m] == e[k..m];
    }
  }

  lemma SuppliedStep(t: State, g: Log, i: Input, cfg: Config)
    requires Sane(t, cfg.c)
    ensures LogNext(g, t, i, cfg).supplied == Append(g.supplied, i.push)
  {
    hide Req, Emitted, PortNext;
  }

  lemma LimitedCycle(s: State, n: nat, t: State, g: Log, i: Input, b: nat, cfg: Config)
    requires Underway(s, n, t, g, cfg) && NeverDry(t) && i.ready && InputOk(i, cfg.c) && Sane(t, cfg.c)
    requires !Stuck(Next(t, i, cfg)) && Limited(t, g, b, cfg) && ShortBlocks(LogNext(g, t, i, cfg).supplied, b)
    requires 1 <= cfg.maxWords && cfg.maxWords + b <= 256 && b >= 1
    ensures Limited(Next(t, i, cfg), LogNext(g, t, i, cfg), b, cfg) && ShortBlocks(g.supplied, b)
  {
    SuppliedStep(t, g, i, cfg);
    FewerSupplied(g.supplied, i.push, b);
    assert t.ctl.mode == CRC_WORD && LastChunkOut(t) ==> Req(t, i);
    hide *;
    OpenUnderway(s, n, t, g, cfg);
    FrameStep(t, g, i, cfg);
    HoldsAfter(Next(t, i, cfg), LogNext(g, t, i, cfg), cfg);
    PayloadIsShort(Next(t, i, cfg), LogNext(g, t, i, cfg), b);
    LimitedStep(t, g, i, b, cfg);
  }

  lemma HoldsAfter(t: State, g: Log, cfg: Config)
    requires if t.ctl.mode == IDLE then Sent(t, g, cfg) else InFrame(t, g, cfg)
    ensures FifoHolds(t, g)
  {
    hide FifoHolds;
  }

  lemma StartIsLimited(s: State, b: nat, cfg: Config)
    requires s.ctl.mode == SOF && 1 <= cfg.maxWords
    ensures Limited(s, NewLog(s.fifo), b, cfg)
  {
    assert Words([]) == 0;
  }

  lemma {:induction false} FedFrameIsLimited(s: State, ins: seq<Input>, n: nat, b: nat, cfg: Config)
    requires Starts(s, cfg) && InputsOk(ins, cfg.c) && n <= |ins| && Fed(s, ins, n, cfg) && !Stuck(Run(s, ins, n, cfg))
    requires ShortBlocks(RunLog(s, ins, n, cfg).supplied, b)
    requires 1 <= cfg.maxWords && cfg.maxWords + b <= 256 && b >= 1
    ensures Limited(Run(s, ins, n, cfg), RunLog(s, ins, n, cfg), b, cfg)
  {
    hide *;
    StartIsSane(s, cfg);
    if n == 0 {
      RunStart(s, ins, cfg);
      StartIsLimited(s, b, cfg);
    } else {
      RunStep(s, ins, n, cfg);
      var t, g, i := Run(s, ins, n - 1, cfg), RunLog(s, ins, n - 1, cfg), ins[n - 1];
      NeverStuckBefore(s, ins, n - 1, n, cfg);
      FedCycle(s, ins, n, n - 1, cfg);
      FedFrame(s, ins, n - 1, cfg);
      SuppliedStep(t, g, i, cfg);
      FewerSupplied(g.supplied, i.push, b);
      FedFrameIsLimited(s, ins, n - 1, b, cfg);
      LimitedCycle(s, n - 1, t, g, i, b, cfg);
    }
  }

  /** Words may be pushed while the frame is open: as long as the fabric is ready, the FIFO does not run dry
      inside a block and no block is longer than b words, the frame ends if and only if no block with the
      escape code in its last chunk is taken. */
  lemma {:induction false} FedFrameEnds(s: State, ins: seq<Input>, b: nat, cfg: Config)
    requires Starts(s, cfg) && InputsOk(ins, cfg.c) && Fed(s, ins, End(s, ins, cfg), cfg)
    requires 1 <= cfg.maxWords && cfg.maxWords + b <= 256 && b >= 1
    requires ShortBlocks(RunLog(s, ins, |ins|, cfg).supplied, b)
    requires |ins| > Potential(s) + 2 * cfg.c + Cost(cfg.maxWords + b, cfg.c)
    ensures Ends(s, ins, cfg) <==> Untrapped(s, ins, End(s, ins, cfg), cfg)
  {
    hide *;
    StartIsSane(s, cfg);
    if Ends(s, ins, cfg) {
      EndsUntrapped(s, ins, cfg);
    } else {
      NotEnded(s, ins, cfg);
      if !Stuck(Run(s, ins, |ins|, cfg)) {
        FedFrameIsLimited(s, ins, |ins|, b, cfg);
        LimitOf(Run(s, ins, |ins|, cfg), RunLog(s, ins, |ins|, cfg), b, cfg);
      }
      EndsIffUntrapped(s, ins, cfg.maxWords + b, cfg);
    }
  }

  lemma NotEnded(s: State, ins: seq<Input>, cfg: Config)
    requires Sane(s, cfg.c) && InputsOk(ins, cfg.c) && !Ends(s, ins, cfg)
    ensures End(s, ins, cfg) == |ins|
  {
    hide Run, End;
  }

  lemma LimitOf(t: State, g: Log, b: nat, cfg: Config)
    requires Limited(t, g, b, cfg)
    ensures Taken(g) <= cfg.maxWords + b
  {}

  // ----- frames that are left alone -----

  /** The FIFO ends with a block, so without pushes the machine never runs dry. */
  predicate Complete(fifo: seq<Entry>) {
    fifo != [] ==> fifo[|fifo| - 1].last
  }

  /** The frame is sent undisturbed: a ready fabric, whole blocks in the FIFO, and no further words. */
  ghost predicate Undisturbed(s: State, ins: seq<Input>, cfg: Config) {
    && Starts(s, cfg) && s.fifo != [] && Complete(s.fifo)
    && (forall k | 0 <= k < |ins| :: ins[k].ready && ins[k].push.None?)
  }

  predicate Closed(s: State) {
    && Complete(s.fifo) && NeverDry(s)
    && (s.ctl.mode == SOF || s.ctl.mode == ETH_HEADER || s.ctl.mode == SUBFRAME_HEADER ==> s.fifo != [])
  }

  /** The number of words that the next frame takes from the FIFO: whole blocks, until there is none left or
      the word counter, at `count` so far, has reached the maximum. */
  function Span(fifo: seq<Entry>, count: nat, max: nat): (n: nat)
    ensures n <= |fifo| && (fifo != [] ==> n >= 1)
  {
    if fifo == [] then 0
    else
      var counted := (count + 1) % 256;
      1 + if fifo[0].last && (|fifo| == 1 || counted >= max) then 0 else Span(fifo[1..], counted, max)
  }

  /** What the frame has taken and what it will take. */
  ghost predicate Spans(t: State, g: Log, total: nat, cfg: Config) {
    match t.ctl.mode
    case SOF => Taken(g) == 0 && Span(t.fifo, 0, cfg.maxWords) == total
    case ETH_HEADER => Taken(g) == 0 && Span(t.fifo, 0, cfg.maxWords) == total
    case SUBFRAME_HEADER => Taken(g) + Span(t.fifo, t.ctl.count, cfg.maxWords) == total
    case PAYLOAD => Taken(g) + Span(t.fifo, t.ctl.count, cfg.maxWords) == total
    case CRC_WORD =>
      Taken(g) + (if t.fifo == [] || t.ctl.count >= cfg.maxWords then 0 else Span(t.fifo, t.ctl.count, cfg.maxWords))
        == total
    case _ => Taken(g) == total
  }

  lemma SpansPayload(t: State, g: Log, i: Input, total: nat, cfg: Config)
    requires Sane(t, cfg.c) && Closed(t) && Spans(t, g, total, cfg) && i.push.None? && t.ctl.mode == PAYLOAD
    ensures Spans(Next(t, i, cfg), LogNext(g, t, i, cfg), total, cfg)
  {
    TakenStep(t, g, i, cfg);
    hide Req, LogNext, PortNext, CrcNext, InserterNext, Taken, Counter, Up, Down;
  }

  lemma SpansStep(t: State, g: Log, i: Input, total: nat, cfg: Config)
    requires Sane(t, cfg.c) && Closed(t) && Spans(t, g, total, cfg) && i.push.None? && t.ctl.mode != IDLE
    requires t.ctl.mode == CRC_WORD ==> Req(t, i)
    ensures Spans(Next(t, i, cfg), LogNext(g, t, i, cfg), total, cfg)
  {
    if t.ctl.mode == PAYLOAD {
      hide Spans, Next, LogNext, Closed, Req, Sane;
      SpansPayload(t, g, i, total, cfg);
    } else {
      TakenStep(t, g, i, cfg);
      hide Req, LogNext, PortNext, CrcNext, InserterNext, Taken, Counter, Up, Down, Span;
    }
  }

  lemma ClosedStep(s: State, i: Input, cfg: Config)
    requires Sane(s, cfg.c) && Closed(s) && i.push.None? && s.ctl.mode != IDLE
    ensures Closed(Next(s, i, cfg))
  {
    hide HeaderWord, Checked, CrcNext, InserterNext, Req, Counter, Up, Down;
  }

  lemma UndisturbedCycle(s: State, ins: seq<Input>, k: nat, cfg: Config)
    requires Undisturbed(s, ins, cfg)
    ensures Starts(s, cfg) && Closed(s) && (k < |ins| ==> ins[k].ready && ins[k].push.None?)
  {
    hide Sane;
  }

  /** An undisturbed frame is fed to its end. */
  lemma {:induction false} UndisturbedIsFed(s: State, ins: seq<Input>, n: nat, cfg: Config)
    requires Sane(s, cfg.c) && InputsOk(ins, cfg.c) && n <= |ins| && Undisturbed(s, ins, cfg)
    requires forall k | 0 <= k < n :: Run(s, ins, k, cfg).ctl.mode != IDLE
    ensures Fed(s, ins, n, cfg) && Closed(Run(s, ins, n, cfg)) && RunLog(s, ins, n, cfg).supplied == s.fifo
  {
    hide *;
    UndisturbedCycle(s, ins, if n == 0 then 0 else n - 1, cfg);
    if n == 0 {
      RunStart(s, ins, cfg);
      NothingFed(s, ins, cfg);
    } else {
      RunStep(s, ins, n, cfg);
      UndisturbedIsFed(s, ins, n - 1, cfg);
      ClosedStep(Run(s, ins, n - 1, cfg), ins[n - 1], cfg);
      NothingSupplied(Run(s, ins, n - 1, cfg), RunLog(s, ins, n - 1, cfg), ins[n - 1], cfg);
      FedMore(s, ins, n, cfg);
    }
  }

  lemma NothingFed(s: State, ins: seq<Input>, cfg: Config)
    requires Sane(s, cfg.c) && InputsOk(ins, cfg.c)
    ensures Fed(s, ins, 0, cfg) && NewLog(s.fifo).supplied == s.fifo
  {}

  lemma NothingSupplied(t: State, g: Log, i: Input, cfg: Config)
    requires Sane(t, cfg.c) && i.push.None?
    ensures LogNext(g, t, i, cfg).supplied == g.supplied
  {
    hide Req, Emitted, PortNext;
  }

  lemma FedMore(s: State, ins: seq<Input>, n: nat, cfg: Config)
    requires Sane(s, cfg.c) && InputsOk(ins, cfg.c) && 0 < n <= |ins| && Fed(s, ins, n - 1, cfg)
    requires ins[n - 1].ready && Closed(Run(s, ins, n - 1, cfg)) && Run(s, ins, n - 1, cfg).ctl.mode != IDLE
    ensures Fed(s, ins, n, cfg)
  {
    hide Run, NeverDry, Complete;
  }

  lemma StartSpans(s: State, ins: seq<Input>, cfg: Config)
    requires Undisturbed(s, ins, cfg)
    ensures Spans(s, NewLog(s.fifo), Span(s.fifo, 0, cfg.maxWords), cfg)
  {
    hide Span, Sane, Complete;
    assert Words([]) == 0;
  }

  lemma {:induction false} UndisturbedSpans(s: State, ins: seq<Input>, n: nat, cfg: Config)
    requires Sane(s, cfg.c) && InputsOk(ins, cfg.c) && n <= |ins| && Undisturbed(s, ins, cfg)
    requires forall k | 0 <= k < n :: Run(s, ins, k, cfg).ctl.mode != IDLE
    requires !Stuck(Run(s, ins, n, cfg))
    ensures Spans(Run(s, ins, n, cfg), RunLog(s, ins, n, cfg), Span(s.fifo, 0, cfg.maxWords), cfg)
  {
    hide *;
    UndisturbedCycle(s, ins, if n == 0 then 0 else n - 1, cfg);
    if n == 0 {
      RunStart(s, ins, cfg);
      StartSpans(s, ins, cfg);
    } else {
      var t, g, i := Run(s, ins, n - 1, cfg), RunLog(s, ins, n - 1, cfg), ins[n - 1];
      RunStep(s, ins, n, cfg);
      NeverStuckBefore(s, ins, n - 1, n, cfg);
      UndisturbedSpans(s, ins, n - 1, cfg);
      UndisturbedIsFed(s, ins, n - 1, cfg);
      FedFrame(s, ins, n - 1, cfg);
      OpenUnderway(s, n - 1, t, g, cfg);
      LastChunkIsRequested(t, i);
      SpansStep(t, g, i, Span(s.fifo, 0, cfg.maxWords), cfg);
    }
  }

  lemma LastChunkIsRequested(t: State, i: Input)
    requires LastChunkOut(t) && i.ready
    ensures t.ctl.mode == CRC_WORD ==> Req(t, i)
  {}

  /** In PAYLOAD, the word at the head of the FIFO is one of those the frame takes. */
  lemma HeadIsSpanned(t: State, g: Log, fifo: seq<Entry>, total: nat, i: Input, cfg: Config)
    requires Spans(t, g, total, cfg) && FifoHolds(t, g) && g.supplied == fifo && total <= |fifo|
      && Clean(fifo[..total], cfg.c)
    ensures !Traps(t, i, cfg.c)
  {
    hide FifoHolds, Req, Taken;
    if Reads(t, i, cfg.c) {
      HeadOfSupply(t, g);
      assert fifo[..total][Taken(g)] == t.fifo[0];
    }
  }

  /** If the blocks it takes are clean, an undisturbed frame meets no trap. */
  lemma {:induction false} CleanIsUntrapped(s: State, ins: seq<Input>, n: nat, cfg: Config)
    requires Sane(s, cfg.c) && InputsOk(ins, cfg.c) && n <= |ins| && Undisturbed(s, ins, cfg)
    requires forall k | 0 <= k < n :: Run(s, ins, k, cfg).ctl.mode != IDLE
    requires Clean(s.fifo[..Span(s.fifo, 0, cfg.maxWords)], cfg.c)
    ensures Untrapped(s, ins, n, cfg)
  {
    hide *;
    UndisturbedCycle(s, ins, if n == 0 then 0 else n - 1, cfg);
    if n == 0 {
      NoTraps(s, ins, cfg);
    } else {
      var t, g := Run(s, ins, n - 1, cfg), RunLog(s, ins, n - 1, cfg);
      CleanIsUntrapped(s, ins, n - 1, cfg);
      UndisturbedIsFed(s, ins, n - 1, cfg);
      UntrappedIsNotStuck(s, ins, n - 1, cfg);
      FedFrame(s, ins, n - 1, cfg);
      OpenUnderway(s, n - 1, t, g, cfg);
      UndisturbedSpans(s, ins, n - 1, cfg);
      HeadIsSpanned(t, g, s.fifo, Span(s.fifo, 0, cfg.maxWords), ins[n - 1], cfg);
      MoreUntrapped(s, ins, n, cfg);
    }
  }

  lemma NoTraps(s: State, ins: seq<Input>, cfg: Config)
    requires Sane(s, cfg.c) && InputsOk(ins, cfg.c)
    ensures Untrapped(s, ins, 0, cfg)
  {}

  lemma MoreUntrapped(s: State, ins: seq<Input>, n: nat, cfg: Config)
    requires Sane(s, cfg.c) && InputsOk(ins, cfg.c) && 0 < n <= |ins| && Untrapped(s, ins, n - 1, cfg)
    requires !Traps(Run(s, ins, n - 1, cfg), ins[n - 1], cfg.c)
    ensures Untrapped(s, ins, n, cfg)
  {
    hide Run, Traps;
  }

  /** What an undisturbed frame that has ended has taken: whole blocks, none of them empty or ending in the
      escape code. */
  lemma {:induction false} EndedFrame(s: State, ins: seq<Input>, cfg: Config)
    requires Sane(s, cfg.c) && InputsOk(ins, cfg.c) && Undisturbed(s, ins, cfg) && Ends(s, ins, cfg)
    ensures var e, n := End(s, ins, cfg), Span(s.fifo, 0, cfg.maxWords);
      && BlockEntries(RunLog(s, ins, e, cfg).done) == s.fifo[..n] && Run(s, ins, e, cfg).fifo == s.fifo[n..]
      && Clean(s.fifo[..n], cfg.c)
  {
    hide *;
    var e := End(s, ins, cfg);
    var t, g := Run(s, ins, e, cfg), RunLog(s, ins, e, cfg);
    UndisturbedCycle(s, ins, 0, cfg);
    IdleAtEnd(s, ins, cfg);
    UndisturbedIsFed(s, ins, e, cfg);
    UndisturbedSpans(s, ins, e, cfg);
    FedFrame(s, ins, e, cfg);
    AllTaken(t, g, Span(s.fifo, 0, cfg.maxWords), cfg);
    EndOfSupply(t, g, cfg);
  }

  lemma {:induction false} IdleAtEnd(s: State, ins: seq<Input>, cfg: Config)
    requires Sane(s, cfg.c) && InputsOk(ins, cfg.c) && Ends(s, ins, cfg)
    ensures var t := Run(s, ins, End(s, ins, cfg), cfg); t.ctl.mode == IDLE && !Stuck(t)
  {
    hide Run, End;
  }

  lemma AllTaken(t: State, g: Log, total: nat, cfg: Config)
    requires Spans(t, g, total, cfg) && t.ctl.mode == IDLE
    ensures Taken(g) == total
  {}

  /** Cycles within which an undisturbed frame ends or hangs. */
  function Measure(s: State, c: nat): int {
    Potential(s) + 2 * c + Cost(|s.fifo|, c)
  }

  /** An undisturbed frame of whole blocks, however many are waiting, comes to its end if and only if none of
      the blocks it takes ends in a chunk equal to the escape code; otherwise the streamer hangs. */
  lemma FrameEnds(s: State, ins: seq<Input>, cfg: Config)
    requires Sane(s, cfg.c) && InputsOk(ins, cfg.c) && Undisturbed(s, ins, cfg) && |ins| > Measure(s, cfg.c)
    ensures Ends(s, ins, cfg) <==> Clean(s.fifo[..Span(s.fifo, 0, cfg.maxWords)], cfg.c)
  {
    MeasureIs(s, cfg.c);
    hide *;
    var e := End(s, ins, cfg);
    UndisturbedCycle(s, ins, 0, cfg);
    if Ends(s, ins, cfg) {
      EndedFrame(s, ins, cfg);
    } else if Clean(s.fifo[..Span(s.fifo, 0, cfg.maxWords)], cfg.c) {
      NotEnded(s, ins, cfg);
      CleanIsUntrapped(s, ins, e, cfg);
      UndisturbedIsFed(s, ins, e, cfg);
      if !Stuck(Run(s, ins, |ins|, cfg)) { TakenIsBounded(s, ins, cfg); }
      EndsIffUntrapped(s, ins, |s.fifo|, cfg);
    }
  }

  lemma {:induction false} MeasureIs(s: State, c: nat)
    ensures Measure(s, c) == Potential(s) + 2 * c + Cost(|s.fifo|, c)
  {}

  lemma {:induction false} TakenIsBounded(s: State, ins: seq<Input>, cfg: Config)
    requires Sane(s, cfg.c) && InputsOk(ins, cfg.c) && Starts(s, cfg) && Fed(s, ins, |ins|, cfg)
    requires RunLog(s, ins, |ins|, cfg).supplied == s.fifo && !Stuck(Run(s, ins, |ins|, cfg))
    ensures Taken(RunLog(s, ins, |ins|, cfg)) <= |s.fifo|
  {
    FedFrame(s, ins, |ins|, cfg);
    hide Run, RunLog, Fed, Starts, InFrame, Sent, LengthHolds, Potential, Cost, AllEndWell, EndsWith, Taken;
  }

  // ----- from conditions on the start to completed frames -----

  lemma {:induction false} RunOfPrefix(s: State, ins: seq<Input>, m: nat, n: nat, cfg: Config)
    requires Sane(s, cfg.c) && InputsOk(ins, cfg.c) && n <= m <= |ins|
    ensures InputsOk(ins[..m], cfg.c)
    ensures Run(s, ins[..m], n, cfg) == Run(s, ins, n, cfg) && RunLog(s, ins[..m], n, cfg) == RunLog(s, ins, n, cfg)
  {
    assert InputsOk(ins[..m], cfg.c) by { hide Run, RunLog; }
    hide *;
    if n == 0 {
      RunStart(s, ins, cfg);
      RunStart(s, ins[..m], cfg);
    } else {
      RunOfPrefix(s, ins, m, n - 1, cfg);
      RunStep(s, ins, n, cfg);
      RunStep(s, ins[..m], n, cfg);
    }
  }

  lemma {:induction false} FedIsFrame(s: State, ins: seq<Input>, e: nat, cfg: Config)
    requires Starts(s, cfg) && InputsOk(ins, cfg.c) && e <= |ins| && Fed(s, ins, e, cfg)
      && Run(s, ins, e, cfg).ctl.mode == IDLE
    ensures InputsOk(ins[..e], cfg.c) && RunsFrame(s, ins[..e], cfg)
  {
    StartIsSane(s, cfg);
    RunOfPrefix(s, ins, e, e, cfg);
    hide Run, Starts, NeverDry;
    RunStart(s, ins, cfg);
    forall k | 0 <= k < e ensures Runs(s, ins[..e], k, cfg) {
      RunOfPrefix(s, ins, e, k, cfg);
      assert Runs(s, ins, k, cfg);
    }
  }

  /** Clean blocks are sent: an undisturbed frame whose blocks do not end in the escape code is a completed run,
      whose blocks are exactly the words it had to take. */
  lemma CleanFrameRuns(s: State, ins: seq<Input>, cfg: Config) returns (e: nat)
    requires Sane(s, cfg.c) && InputsOk(ins, cfg.c) && Undisturbed(s, ins, cfg) && |ins| > Measure(s, cfg.c)
    requires Clean(s.fifo[..Span(s.fifo, 0, cfg.maxWords)], cfg.c)
    ensures e == End(s, ins, cfg) && Starts(s, cfg) && InputsOk(ins[..e], cfg.c) && RunsFrame(s, ins[..e], cfg)
    ensures RunLog(s, ins[..e], e, cfg) == RunLog(s, ins, e, cfg)
    ensures var n := Span(s.fifo, 0, cfg.maxWords);
      BlockEntries(RunLog(s, ins, e, cfg).done) == s.fifo[..n] && Run(s, ins[..e], e, cfg).fifo == s.fifo[n..]
  {
    hide *;
    e := End(s, ins, cfg);
    UndisturbedCycle(s, ins, 0, cfg);
    FrameEnds(s, ins, cfg);
    IdleAtEnd(s, ins, cfg);
    EndedFrame(s, ins, cfg);
    UndisturbedIsFed(s, ins, e, cfg);
    FedIsFrame(s, ins, e, cfg);
    RunOfPrefix(s, ins, e, e, cfg);
  }

  /** Whole blocks that fit one frame are all taken. */
  lemma {:induction false} SpanOfOneFrame(fifo: seq<Entry>, count: nat, max: nat)
    requires Complete(fifo) && count + |fifo| <= max < 256
    ensures Span(fifo, count, max) == |fifo|
  {
    if |fifo| > 1 { SpanOfOneFrame(fifo[1..], count + 1, max); }
  }

  /** What a frame takes ends with a block. */
  lemma {:induction false} SpanEndsWithLast(fifo: seq<Entry>, count: nat, max: nat)
    requires Complete(fifo) && fifo != []
    ensures fifo[Span(fifo, count, max) - 1].last
  {
    if |fifo| > 1 { SpanEndsWithLast(fifo[1..], (count + 1) % 256, max); }
  }

  // ----- from power-up to the start of a frame -----

  function PowerUp(): State {
    State(Control(IDLE, 0, 0, 0), Port(false, 0, false, false, false, false), Crc(false, true, []), 0, [], 0,
      Inserter(false, 0, false))
  }

  /** In IDLE, words are pushed until a frame is wanted. */
  lemma RestPushes(s: State, i: Input, cfg: Config)
    requires Sane(s, cfg.c) && AtRest(s) && InputOk(i, cfg.c) && i.ready
    ensures var t := Next(s, i, cfg);
      Sane(t, cfg.c) && t.fifo == Append(s.fifo, i.push) && (if i.go then Starts(t, cfg) else AtRest(t))
  {
    RestStep(s, i, cfg);
    hide CrcNext, Counter, Up, Down;
  }

  lemma {:induction false} RunMore(s: State, ins: seq<Input>, i: Input, cfg: Config)
    requires Sane(s, cfg.c) && InputsOk(ins, cfg.c) && InputOk(i, cfg.c)
    ensures InputsOk(ins + [i], cfg.c)
    ensures Run(s, ins + [i], |ins| + 1, cfg) == Next(Run(s, ins, |ins|, cfg), i, cfg)
  {
    var all := ins + [i];
    assert all[..|ins|] == ins && all[|ins|] == i;
    assert InputsOk(all, cfg.c) by { hide Run; }
    hide *;
    RunOfPrefix(s, all, |ins|, |ins|, cfg);
    RunStep(s, all, |all|, cfg);
  }

  function Pushing(fifo: seq<Entry>): (ins: seq<Input>)
    ensures |ins| == |fifo|
  {
    seq(|fifo|, k requires 0 <= k < |fifo| => Input(Some(fifo[k]), false, true, 0, 0))
  }

  lemma {:induction false} PowerUpRests(cfg: Config)
    requires cfg.c >= 1
    ensures Sane(PowerUp(), cfg.c) && AtRest(PowerUp()) && InputsOk([], cfg.c)
    ensures Run(PowerUp(), [], 0, cfg) == PowerUp() && PowerUp().fifo == [] && Pushing([]) == []
  {}

  lemma PushingMore(fifo: seq<Entry>, e: Entry)
    ensures Pushing(fifo + [e]) == Pushing(fifo) + [Input(Some(e), false, true, 0, 0)]
  {}

  /** Any words can be pushed before a frame starts. */
  lemma {:induction false} Fills(fifo: seq<Entry>, cfg: Config)
    requires cfg.c >= 1 && forall k | 0 <= k < |fifo| :: |fifo[k].data| == cfg.c
    ensures Sane(PowerUp(), cfg.c) && InputsOk(Pushing(fifo), cfg.c)
    ensures var t := Run(PowerUp(), Pushing(fifo), |fifo|, cfg); AtRest(t) && t.fifo == fifo
  {
    PowerUpRests(cfg);
    if fifo == [] {
      hide *;
    } else {
      var n, e := |fifo| - 1, fifo[|fifo| - 1];
      var i := Input(Some(e), false, true, 0, 0);
      assert InputOk(i, cfg.c) && fifo[..n] + [e] == fifo;
      hide *;
      Fills(fifo[..n], cfg);
      PushingMore(fifo[..n], e);
      RestPushes(Run(PowerUp(), Pushing(fifo[..n]), n, cfg), i, cfg);
      RunMore(PowerUp(), Pushing(fifo[..n]), i, cfg);
      AppendOne(fifo[..n], e);
    }
  }

  lemma AppendOne<T>(xs: seq<T>, x: T)
    ensures Append(xs, Some(x)) == xs + [x]
  {}

  /** Power-up, any words into the FIFO, and a frame starts with exactly these words. */
  lemma FrameFromPowerUp(fifo: seq<Entry>, cfg: Config) returns (ins: seq<Input>)
    requires cfg.c >= 1 && forall k | 0 <= k < |fifo| :: |fifo[k].data| == cfg.c
    ensures Sane(PowerUp(), cfg.c) && InputsOk(ins, cfg.c)
    ensures var t := Run(PowerUp(), ins, |ins|, cfg); Starts(t, cfg) && t.fifo == fifo
  {
    hide *;
    var go := Input(None, true, true, 0, 0);
    NothingPushed(go, cfg.c);
    Fills(fifo, cfg);
    ins := Pushing(fifo) + [go];
    RestPushes(Run(PowerUp(), Pushing(fifo), |fifo|, cfg), go, cfg);
    RunMore(PowerUp(), Pushing(fifo), go, cfg);
    AppendNothing(fifo);
  }

  lemma NothingPushed(i: Input, c: nat)
    requires i.push.None?
    ensures InputOk(i, c)
  {}

  lemma AppendNothing<T>(xs: seq<T>)
    ensures Append(xs, None) == xs
  {}
}
