// A frame as the fabric sees it: its start, its words and its end, with the header words, the numbers of the
// sub-frames and the padding it has, and nothing between two frames.
module FabricFrames {
  import opened EscapeCode
  import opened TxStreamer

  datatype Signal = Start | Data(word: Chunk) | End

  /** fsm_out.sof and fsm_out.eof */
  function Marks(s: State): seq<Signal> {
    (if s.port.sof then [Start] else []) + (if s.port.eof then [End] else [])
  }

  function Datas(ws: seq<Chunk>): (d: seq<Signal>)
    ensures |d| == |ws| && forall k | 0 <= k < |ws| :: d[k] == Data(ws[k])
  {
    seq(|ws|, k requires 0 <= k < |ws| => Data(ws[k]))
  }

  function WordSignal(w: Option<Chunk>): seq<Signal> {
    match w case None => [] case Some(x) => [Data(x)]
  }

  /** All signals of the first n cycles, and those of the state after them. */
  ghost function Fabric(s: State, ins: seq<Input>, n: nat, cfg: Config): seq<Signal>
    requires Sane(s, cfg.c) && InputsOk(ins, cfg.c) && n <= |ins|
  {
    if n == 0 then Marks(s)
    else
      var w := Emitted(Run(s, ins, n - 1, cfg), ins[n - 1]);
      Fabric(s, ins, n - 1, cfg) + WordSignal(w) + Marks(Run(s, ins, n, cfg))
  }

  // ----- start and end -----

  ghost predicate Marked(s: State, first: bool) {
    s.port.sof == first && s.port.eof == (s.ctl.mode == IDLE) && (first <==> s.ctl.mode == SOF)
  }

  lemma MarksStep(s: State, i: Input, cfg: Config, first: bool)
    requires Sane(s, cfg.c) && s.ctl.mode != IDLE && Marked(s, first)
    ensures Marked(Next(s, i, cfg), false)
  {
    hide Req, Counter, Up, Down, InserterNext, Checked, CrcNext, FifoNext, EndsBlock, HeaderWord;
  }

  /** Of a frame, sof is high in the first state only, and eof in the last one, in which the frame is back in IDLE. */
  lemma {:induction false} FrameMarks(s: State, ins: seq<Input>, n: nat, cfg: Config)
    requires Starts(s, cfg) && InputsOk(ins, cfg.c) && RunsFrame(s, ins, cfg) && n <= |ins|
    ensures Run(s, ins, n, cfg).port.sof == (n == 0) && Run(s, ins, n, cfg).port.eof == (n == |ins|)
  {
    MarkedPrefix(s, ins, n, cfg);
    if n < |ins| { assert Runs(s, ins, n, cfg); }
    hide Run;
  }

  lemma {:induction false} MarkedPrefix(s: State, ins: seq<Input>, n: nat, cfg: Config)
    requires Starts(s, cfg) && InputsOk(ins, cfg.c) && RunsFrame(s, ins, cfg) && n <= |ins|
    ensures Marked(Run(s, ins, n, cfg), n == 0)
  {
    hide Next;
    if n > 0 {
      hide Marked;
      MarkedPrefix(s, ins, n - 1, cfg);
      assert Runs(s, ins, n - 1, cfg);
      MarksStep(Run(s, ins, n - 1, cfg), ins[n - 1], cfg, n == 1);
    }
  }

  lemma DatasGrow(ws: seq<Chunk>, w: Option<Chunk>)
    ensures Datas(Append(ws, w)) == Datas(ws) + WordSignal(w)
  {}

  lemma LogGrows(g: Log, s: State, i: Input, cfg: Config)
    requires Sane(s, cfg.c)
    ensures LogNext(g, s, i, cfg).wire == Append(g.wire, Emitted(s, i))
  {
    hide Req, PortNext, Emitted;
  }

  lemma FabricGrows(s: State, ins: seq<Input>, n: nat, cfg: Config)
    requires Starts(s, cfg) && InputsOk(ins, cfg.c) && 0 < n <= |ins|
    ensures var w := Emitted(Run(s, ins, n - 1, cfg), ins[n - 1]);
      && Fabric(s, ins, n, cfg) == Fabric(s, ins, n - 1, cfg) + WordSignal(w) + Marks(Run(s, ins, n, cfg))
      && Datas(RunLog(s, ins, n, cfg).wire) == Datas(RunLog(s, ins, n - 1, cfg).wire) + WordSignal(w)
  {
    var g, t := RunLog(s, ins, n - 1, cfg), Run(s, ins, n - 1, cfg);
    LogGrows(g, t, ins[n - 1], cfg);
    hide LogNext, Emitted, Next, Datas;
    DatasGrow(g.wire, Emitted(t, ins[n - 1]));
  }

  lemma {:induction false} FabricPrefix(s: State, ins: seq<Input>, n: nat, cfg: Config)
    requires Starts(s, cfg) && InputsOk(ins, cfg.c) && RunsFrame(s, ins, cfg) && n <= |ins|
    ensures Fabric(s, ins, n, cfg)
      == [Start] + Datas(RunLog(s, ins, n, cfg).wire) + (if n == |ins| then [End] else [])
  {
    hide *;
    StartsSane(s, cfg);
    BackInIdle(s, ins, cfg);
    if n == 0 {
      FabricBegins(s, ins, cfg);
    } else {
      FabricPrefix(s, ins, n - 1, cfg);
      FabricGrows(s, ins, n, cfg);
      FrameMarks(s, ins, n, cfg);
      MarksOf(Run(s, ins, n, cfg));
    }
  }

  lemma {:induction false} FabricBegins(s: State, ins: seq<Input>, cfg: Config)
    requires Starts(s, cfg) && InputsOk(ins, cfg.c)
    ensures Fabric(s, ins, 0, cfg) == [Start] && Datas(RunLog(s, ins, 0, cfg).wire) == []
  {}

  lemma {:induction false} BackInIdle(s: State, ins: seq<Input>, cfg: Config)
    requires Starts(s, cfg) && InputsOk(ins, cfg.c) && RunsFrame(s, ins, cfg)
    ensures ins != [] && Run(s, ins, |ins|, cfg).ctl.mode == IDLE
  {
    hide Run;
  }

  lemma StartsSane(s: State, cfg: Config)
    requires Starts(s, cfg)
    ensures Sane(s, cfg.c)
  {}

  lemma MarksOf(s: State)
    ensures !s.port.sof ==> Marks(s) == if s.port.eof then [End] else []
  {}

  /** On the fabric a completed frame is its start, its words and its end, in this order and once each. */
  lemma {:induction false} FrameOnFabric(s: State, ins: seq<Input>, cfg: Config)
    requires Starts(s, cfg) && InputsOk(ins, cfg.c) && RunsFrame(s, ins, cfg)
    ensures Fabric(s, ins, |ins|, cfg) == [Start] + Datas(RunLog(s, ins, |ins|, cfg).wire) + [End]
  {
    FabricPrefix(s, ins, |ins|, cfg);
  }

  // ----- between two frames -----

  /** A frame leaves the machine at rest. */
  lemma {:induction false} FrameEndsAtRest(s: State, ins: seq<Input>, cfg: Config)
    requires Starts(s, cfg) && InputsOk(ins, cfg.c) && RunsFrame(s, ins, cfg)
    ensures AtRest(Run(s, ins, |ins|, cfg))
  {
    var m := |ins| - 1;
    var t := Run(s, ins, m, cfg);
    hide InFrame, Next, Starts, AtRest, RunLog;
    FramePrefix(s, ins, m, cfg);
    CycleOfFrame(s, ins, m, cfg);
    ModeStep(t, RunLog(s, ins, m, cfg), ins[m], cfg);
    MarkedPrefix(s, ins, m, cfg);
    FrameLeavesRest(t, RunLog(s, ins, m, cfg), ins[m], cfg);
  }

  /** At rest nothing goes out; a frame starts exactly when it is asked for and the fabric is ready, and an
      end of frame is not signalled twice. */
  lemma RestIsSilent(s: State, i: Input, cfg: Config)
    requires Sane(s, cfg.c) && AtRest(s)
    ensures var t := Next(s, i, cfg);
      && Emitted(s, i).None? && !t.port.eof && t.port.sof == (i.go && i.ready)
      && t.ctl.mode == if i.go && i.ready then SOF else IDLE
  {
    hide CrcNext, FifoNext, Counter, Up, Down, InserterNext;
  }

  /** After a frame and before the next start, the fabric sees nothing. */
  lemma {:induction false} SilentAfterFrame(s: State, ins: seq<Input>, n: nat, cfg: Config)
    requires Sane(s, cfg.c) && InputsOk(ins, cfg.c) && AtRest(s) && n <= |ins|
    requires forall k | 0 <= k < n :: !(ins[k].go && ins[k].ready)
    ensures AtRest(Run(s, ins, n, cfg)) && Fabric(s, ins, n, cfg) == Marks(s)
  {
    hide Next, Emitted;
    if n > 0 {
      hide AtRest;
      SilentAfterFrame(s, ins, n - 1, cfg);
      var t := Run(s, ins, n - 1, cfg);
      RestIsSilent(t, ins[n - 1], cfg);
      RestStep(t, ins[n - 1], cfg);
    }
  }

  // ----- the time tag in the header -----

  lemma HeaderGrows(g: Log, s: State, i: Input, cfg: Config)
    requires Sane(s, cfg.c) && Titled(s, g, cfg)
    ensures var head := LogNext(g, s, i, cfg).head;
      head == g.head || (s.ctl.mode == ETH_HEADER && |head| == |g.head| + 1 && head[..|g.head|] == g.head
        && (|g.head| == 7 ==> head[7] == i.tagHigh) && (|g.head| >= 8 ==> head[|g.head|] == i.tagLow))
  {
    hide Req, Emitted, Checked;
  }

  lemma {:induction false} TagPrefix(s: State, ins: seq<Input>, n: nat, cfg: Config) returns (a: nat, b: nat)
    requires Starts(s, cfg) && InputsOk(ins, cfg.c) && RunsFrame(s, ins, cfg) && n <= |ins|
    ensures var head := RunLog(s, ins, n, cfg).head;
      && (|head| >= 8 ==> a < n && head[7] == ins[a].tagHigh)
      && (|head| >= 9 ==> a < b < n && head[8] == ins[b].tagLow)
  {
    hide *;
    StartsSane(s, cfg);
    a, b := 0, 0;
    if n == 0 {
      NoHeadYet(s, ins, cfg);
    } else {
      a, b := TagPrefix(s, ins, n - 1, cfg);
      FrameIsTitled(s, ins, n - 1, cfg);
      LogUnfolds(s, ins, n, cfg);
      var g := RunLog(s, ins, n - 1, cfg);
      HeaderGrows(g, Run(s, ins, n - 1, cfg), ins[n - 1], cfg);
      if |RunLog(s, ins, n, cfg).head| > |g.head| {
        if |g.head| == 7 { a := n - 1; }
        if |g.head| == 8 { b := n - 1; }
      }
    }
  }

  lemma {:induction false} NoHeadYet(s: State, ins: seq<Input>, cfg: Config)
    requires Starts(s, cfg) && InputsOk(ins, cfg.c)
    ensures RunLog(s, ins, 0, cfg).head == []
  {}

  lemma LogUnfolds(s: State, ins: seq<Input>, n: nat, cfg: Config)
    requires Starts(s, cfg) && InputsOk(ins, cfg.c) && 0 < n <= |ins|
    ensures RunLog(s, ins, n, cfg) == LogNext(RunLog(s, ins, n - 1, cfg), Run(s, ins, n - 1, cfg), ins[n - 1], cfg)
  {}

  /** The last two header words are the two halves of the time tag, each as it is when the word is handed over. */
  lemma FrameIsTagged(s: State, ins: seq<Input>, cfg: Config) returns (a: nat, b: nat)
    requires Starts(s, cfg) && InputsOk(ins, cfg.c) && RunsFrame(s, ins, cfg)
    ensures a < b < |ins| && |RunLog(s, ins, |ins|, cfg).head| == 9
    ensures RunLog(s, ins, |ins|, cfg).head[7] == ins[a].tagHigh && RunLog(s, ins, |ins|, cfg).head[8] == ins[b].tagLow
  {
    FrameIsAddressed(s, ins, cfg);
    hide RunLog, RunsFrame;
    a, b := TagPrefix(s, ins, |ins|, cfg);
  }

  // ----- the numbers of the sub-frames -----

  /** Sub-frames are numbered from q on, modulo 2^15. */
  ghost predicate Numbered(s: State, g: Log, q: nat) {
    && (forall k | 0 <= k < |g.done| :: g.done[k].header == 0x8000 + (q + k) % 0x8000)
    && (if s.ctl.mode == PAYLOAD || s.ctl.mode == CRC_WORD
      then g.header == 0x8000 + (q + |g.done|) % 0x8000 && s.ctl.seqNo == (q + |g.done| + 1) % 0x8000
      else s.ctl.seqNo == (q + |g.done|) % 0x8000)
  }

  lemma NumberedStep(s: State, g: Log, i: Input, q: nat, cfg: Config)
    requires Sane(s, cfg.c) && s.ctl.mode != IDLE && Numbered(s, g, q)
    ensures Numbered(Next(s, i, cfg), LogNext(g, s, i, cfg), q)
  {
    hide Req, CrcNext, InserterNext, FifoNext, HeaderWord, Emitted, Checked, Counter, Up, Down, EndsBlock;
    var r := q + |g.done|;
    assert (r % 0x8000 + 1) % 0x8000 == (r + 1) % 0x8000;
  }

  lemma {:induction false} NumberedPrefix(s: State, ins: seq<Input>, n: nat, cfg: Config)
    requires Starts(s, cfg) && InputsOk(ins, cfg.c) && RunsFrame(s, ins, cfg) && n <= |ins|
    ensures Numbered(Run(s, ins, n, cfg), RunLog(s, ins, n, cfg), s.ctl.seqNo)
  {
    hide Next, LogNext;
    if n > 0 {
      hide Numbered;
      NumberedPrefix(s, ins, n - 1, cfg);
      assert Runs(s, ins, n - 1, cfg);
      NumberedStep(Run(s, ins, n - 1, cfg), RunLog(s, ins, n - 1, cfg), ins[n - 1], s.ctl.seqNo, cfg);
    }
  }

  /** The control words of a frame's sub-frames count up from where the last frame left off, and the next frame
      will go on from there. */
  lemma {:induction false} SubFramesCountUp(s: State, ins: seq<Input>, cfg: Config)
    requires Starts(s, cfg) && InputsOk(ins, cfg.c) && RunsFrame(s, ins, cfg)
    ensures var done, t := RunLog(s, ins, |ins|, cfg).done, Run(s, ins, |ins|, cfg);
      && (forall k | 0 <= k < |done| :: done[k].header == 0x8000 + (s.ctl.seqNo + k) % 0x8000)
      && t.ctl.seqNo == (s.ctl.seqNo + |done|) % 0x8000
  {
    hide *;
    StartsSane(s, cfg);
    BackInIdle(s, ins, cfg);
    NumberedPrefix(s, ins, |ins|, cfg);
    NumberedAtEnd(Run(s, ins, |ins|, cfg), RunLog(s, ins, |ins|, cfg), s.ctl.seqNo);
  }

  lemma NumberedAtEnd(s: State, g: Log, q: nat)
    requires Numbered(s, g, q) && s.ctl.mode == IDLE
    ensures forall k | 0 <= k < |g.done| :: g.done[k].header == 0x8000 + (q + k) % 0x8000
    ensures s.ctl.seqNo == (q + |g.done|) % 0x8000
  {}

  // ----- no more padding than needed -----

  /** A second end-of-frame word is only added while the frame has no more than 31 words. */
  ghost predicate Tight(s: State, g: Log) {
    var n := |g.head| + |g.code|;
    && (s.ctl.mode == PADDING && 1 <= g.pads && n <= 2048 ==> n <= 31)
    && ((s.ctl.mode == PADDING || s.ctl.mode == EOF || s.ctl.mode == IDLE) && 2 <= g.pads && n <= 2048 ==> n <= 32)
    && (s.ctl.mode != PADDING && s.ctl.mode != EOF && s.ctl.mode != IDLE ==> g.pads == 0)
  }

  lemma TightStep(s: State, g: Log, i: Input, cfg: Config)
    requires Sane(s, cfg.c) && s.ctl.mode != IDLE && LengthHolds(s, g) && Tight(s, g)
    ensures Tight(Next(s, i, cfg), LogNext(g, s, i, cfg))
  {
    hide Req, CrcNext, InserterNext, FifoNext, HeaderWord, Emitted, Checked, Counter, Up, Down, EndsBlock;
  }

  lemma {:induction false} TightPrefix(s: State, ins: seq<Input>, n: nat, cfg: Config)
    requires Starts(s, cfg) && InputsOk(ins, cfg.c) && RunsFrame(s, ins, cfg) && n <= |ins|
    ensures Tight(Run(s, ins, n, cfg), RunLog(s, ins, n, cfg))
  {
    hide Next, LogNext;
    if n > 0 {
      hide Tight;
      TightPrefix(s, ins, n - 1, cfg);
      LengthPrefix(s, ins, n - 1, cfg);
      assert Runs(s, ins, n - 1, cfg);
      TightStep(Run(s, ins, n - 1, cfg), RunLog(s, ins, n - 1, cfg), ins[n - 1], cfg);
    }
  }

  /** A frame that is long enough by itself gets one end-of-frame word, a shorter one is padded to 31 or 32 words. */
  lemma {:induction false} PaddingIsTight(s: State, ins: seq<Input>, cfg: Config)
    requires Starts(s, cfg) && InputsOk(ins, cfg.c) && RunsFrame(s, ins, cfg)
    ensures var g := RunLog(s, ins, |ins|, cfg);
      |g.head| + |g.code| <= 2048 ==> |g.head| + |g.code| > 30 && (g.pads == 1 || |g.head| + |g.code| <= 32)
  {
    TightPrefix(s, ins, |ins|, cfg);
    LengthPrefix(s, ins, |ins|, cfg);
    FrameIsWellFormed(s, ins, cfg);
    hide RunLog, Run, Encode, SubFrames, FifoHolds, TypesHold;
  }
}
