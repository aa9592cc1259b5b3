// Packing of samples into streamer words (dds_tx_path) and unpacking (dds_rx_path), with 64-bit words.
module RecordPath {
  import opened Bits
  import opened EscapeCode
  import Tx = TxStreamer
  import Rx = RxStreamer

  type Word64 = x: int | 0 <= x < 0x1_0000_0000_0000_0000
  type Tai = x: int | 0 <= x < 0x100_0000_0000
  type Cycles = x: int | 0 <= x < 0x1000_0000
  type Phase = x: int | 0 <= x < 0x800_0000_0000
  type Tune = x: int | 0 <= x < 0x4_0000

  /** tai_snap, cycles_snap, acc_snap and tune_snap. */
  datatype Snapshot = Snapshot(tai: Tai, cycles: Cycles, acc: Phase, tune: Tune)

  /** A record as the receiver sees it; of the TAI seconds 32 bits are sent. */
  datatype Record = Record(tai: int, cycles: int, acc: int, tune: int, clkId: int)

  function RecordOf(s: Snapshot, clkId: Chunk): Record {
    Record(s.tai % 0x1_0000_0000, s.cycles, s.acc, s.tune, clkId)
  }

  // ----- 64-bit words and their 16-bit chunks -----

  function Low(v: int): Chunk {
    var r: int := v % 0x10000;
    r
  }

  function Chunks(w: Word64): (r: Word)
    ensures |r| == 4
  {
    var q1: int := w / 0x10000;
    var q2: int := q1 / 0x10000;
    [Low(w), Low(q1), Low(q2), Low(q2 / 0x10000)]
  }

  function Horner(a: int, b: int, c: int, d: int): int {
    a + 0x10000 * (b + 0x10000 * (c + 0x10000 * d))
  }

  function Value(r: Word): Word64
    requires |r| == 4
  {
    Horner(r[0], r[1], r[2], r[3])
  }

  lemma ValueOfChunks(w: Word64)
    ensures Value(Chunks(w)) == w && Chunks(w)[3] == w / 0x1_0000_0000_0000
  {
    var q1 := w / 0x10000;
    var q2 := q1 / 0x10000;
    assert q2 / 0x10000 < 0x10000;
  }

  // ----- assignments to slices of tx_data -----

  /** bits 27..0 and 63..32 */
  function SetTimestamp(w: Word64, s: Snapshot): Word64 {
    s.tai % 0x1_0000_0000 * 0x1_0000_0000 + w / 0x1000_0000 % 16 * 0x1000_0000 + s.cycles
  }

  /** bits 42..0 */
  function SetAcc(w: Word64, s: Snapshot): Word64 {
    w / 0x800_0000_0000 * 0x800_0000_0000 + s.acc
  }

  /** bits 17..0 and 47..32 */
  function SetTune(w: Word64, s: Snapshot, clkId: Chunk): Word64 {
    w / 0x1_0000_0000_0000 * 0x1_0000_0000_0000 + clkId * 0x1_0000_0000
      + w / 0x4_0000 % 0x4000 * 0x4_0000 + s.tune
  }

  // ----- the transmit side, clocked -----

  datatype TxMode = WAIT_SAMPLE | TX_TIMESTAMP | TX_ACC | TX_TUNE | TX_PAD

  datatype TxState = TxState(mode: TxMode, data: Word64, valid: bool, last: bool)

  const TX_RESET := TxState(WAIT_SAMPLE, 0, false, false)

  datatype TxInput = TxInput(master: bool, newSample: bool, snap: Snapshot, clkId: Chunk, dreq: bool)

  function TxNext(s: TxState, i: TxInput): TxState {
    if !i.master then TX_RESET
    else
      match s.mode
      case WAIT_SAMPLE => TxState(if i.newSample then TX_TIMESTAMP else WAIT_SAMPLE, s.data, false, false)
      case TX_TIMESTAMP =>
        if i.dreq then TxState(TX_ACC, SetTimestamp(s.data, i.snap), true, false) else s.(valid := false)
      case TX_ACC =>
        if i.dreq then TxState(TX_TUNE, SetAcc(s.data, i.snap), true, false) else s.(valid := false)
      case TX_TUNE =>
        if i.dreq then TxState(TX_PAD, SetTune(s.data, i.snap, i.clkId), true, false) else s.(valid := false)
      case TX_PAD => if i.dreq then TxState(WAIT_SAMPLE, s.data, true, true) else s.(valid := false)
  }

  /** The word offered to the streamer in one cycle. */
  function TxOut(s: TxState): Option<Tx.Entry> {
    if s.valid then Some(Tx.Entry(s.last, Chunks(s.data))) else None
  }

  function TxRun(ins: seq<TxInput>, n: nat): TxState
    requires n <= |ins|
  {
    if n == 0 then TX_RESET else TxNext(TxRun(ins, n - 1), ins[n - 1])
  }

  /** Everything offered up to and including the register contents after n cycles. */
  function TxWords(ins: seq<TxInput>, n: nat): seq<Tx.Entry>
    requires n <= |ins|
  {
    if n == 0 then [] else Append(TxWords(ins, n - 1), TxOut(TxRun(ins, n)))
  }

  /** The master stays on. */
  ghost predicate MasterOn(ins: seq<TxInput>) {
    forall k | 0 <= k < |ins| :: ins[k].master
  }

  /** What has been taken for the record on its way: timestamp, phase and tune word are sampled one after the
      other, each when the streamer asks for it. */
  datatype Sampled = Sampled(snap: Snapshot, clkId: Chunk)

  function Sample(h: Sampled, mode: TxMode, i: TxInput): Sampled {
    if !i.dreq then h
    else
      match mode
      case TX_TIMESTAMP => h.(snap := h.snap.(tai := i.snap.tai, cycles := i.snap.cycles))
      case TX_ACC => h.(snap := h.snap.(acc := i.snap.acc))
      case TX_TUNE => Sampled(h.snap.(tune := i.snap.tune), i.clkId)
      case _ => h
  }

  function TxSampled(ins: seq<TxInput>, n: nat): Sampled
    requires n <= |ins|
  {
    if n == 0 then Sampled(Snapshot(0, 0, 0, 0), 0)
    else Sample(TxSampled(ins, n - 1), TxRun(ins, n - 1).mode, ins[n - 1])
  }

  /** The records that have been sent: one with every padding word. */
  function TxRecords(ins: seq<TxInput>, n: nat): seq<Record>
    requires n <= |ins|
  {
    if n == 0 then []
    else
      var before, h := TxRecords(ins, n - 1), TxSampled(ins, n - 1);
      if TxRun(ins, n - 1).mode == TX_PAD && ins[n - 1].dreq then before + [RecordOf(h.snap, h.clkId)] else before
  }

  // ----- the block format -----

  function Unpack(ws: seq<Word>): Record
    requires |ws| >= 3 && forall w | w in ws :: |w| == 4
  {
    var ts, acc, tune := Value(ws[0]), Value(ws[1]), Value(ws[2]);
    Record(ts / 0x1_0000_0000, ts % 0x1000_0000, acc % 0x800_0000_0000, tune % 0x4_0000, tune / 0x1_0000_0000 % 0x10000)
  }

  predicate IsBlock(ws: seq<Word>) {
    |ws| == 4 && forall w | w in ws :: |w| == 4
  }

  /** The block of a record: its fields, and in the last chunk of its padding word what is left there
      from the timestamp, the upper half of the 32 TAI bits. */
  predicate BlockOf(ws: seq<Word>, r: Record) {
    IsBlock(ws) && Unpack(ws) == r && ws[3][3] == r.tai / 0x10000
  }

  lemma PackTimestamp(w: Word64, s: Snapshot)
    ensures var d := SetTimestamp(w, s); d / 0x1_0000_0000 == s.tai % 0x1_0000_0000 && d % 0x1000_0000 == s.cycles
  {
    var d, high, stale := SetTimestamp(w, s), s.tai % 0x1_0000_0000, w / 0x1000_0000 % 16;
    ModUnique(d, 0x1_0000_0000, high, stale * 0x1000_0000 + s.cycles);
    ModUnique(d, 0x1000_0000, high * 16 + stale, s.cycles);
  }

  lemma PackAcc(w: Word64, s: Snapshot)
    ensures var d := SetAcc(w, s); d % 0x800_0000_0000 == s.acc && d / 0x800_0000_0000 == w / 0x800_0000_0000
  {
    ModUnique(SetAcc(w, s), 0x800_0000_0000, w / 0x800_0000_0000, s.acc);
  }

  lemma PackTune(w: Word64, s: Snapshot, clkId: Chunk)
    ensures var d := SetTune(w, s, clkId);
      && d % 0x4_0000 == s.tune && d / 0x1_0000_0000 % 0x10000 == clkId
      && d / 0x1_0000_0000_0000 == w / 0x1_0000_0000_0000
  {
    var d, high, stale, id := SetTune(w, s, clkId), w / 0x1_0000_0000_0000, w / 0x4_0000 % 0x4000, clkId as int;
    assert d == high * 0x1_0000_0000_0000 + id * 0x1_0000_0000 + stale * 0x4_0000 + s.tune;
    hide SetTune;
    ModUnique(d, 0x4_0000, high * 0x4000_0000 + id * 0x4000 + stale, s.tune);
    ModUnique(d, 0x1_0000_0000, high * 0x10000 + id, stale * 0x4_0000 + s.tune);
    ModUnique(high * 0x10000 + id, 0x10000, high, id);
    ModUnique(d, 0x1_0000_0000_0000, high, id * 0x1_0000_0000 + stale * 0x4_0000 + s.tune);
  }

  lemma Quotients(w: Word64, v: Word64)
    requires w / 0x800_0000_0000 == v / 0x800_0000_0000
    ensures w / 0x1_0000_0000_0000 == v / 0x1_0000_0000_0000
  {
    assert w / 0x1_0000_0000_0000 == w / 0x800_0000_0000 / 32;
    assert v / 0x1_0000_0000_0000 == v / 0x800_0000_0000 / 32;
  }

  function BlockWords(w: Word64, s: Snapshot, clkId: Chunk): seq<Word> {
    var ts := SetTimestamp(w, s);
    var acc := SetAcc(ts, s);
    var tune := SetTune(acc, s, clkId);
    [Chunks(ts), Chunks(acc), Chunks(tune), Chunks(tune)]
  }

  /** Whatever is left in tx_data from earlier blocks, the four words are a block of the record. */
  lemma PackedBlock(w: Word64, s: Snapshot, clkId: Chunk)
    ensures BlockOf(BlockWords(w, s, clkId), RecordOf(s, clkId))
  {
    var ts := SetTimestamp(w, s);
    var acc := SetAcc(ts, s);
    var tune := SetTune(acc, s, clkId);
    PackTimestamp(w, s);
    PackAcc(ts, s);
    PackTune(acc, s, clkId);
    Quotients(acc, ts);
    ValueOfChunks(ts);
    ValueOfChunks(acc);
    ValueOfChunks(tune);
    assert ts / 0x1_0000_0000_0000 == ts / 0x1_0000_0000 / 0x10000;
    hide SetTimestamp, SetAcc, SetTune, Chunks, Value;
  }

  // ----- the transmit side sends blocks -----

  /** The words of the block that is being sent. */
  function TxOpen(ins: seq<TxInput>, n: nat): seq<Word>
    requires n <= |ins|
  {
    if n == 0 then []
    else
      var s, t, before := TxRun(ins, n - 1), TxRun(ins, n), TxOpen(ins, n - 1);
      if s.mode == WAIT_SAMPLE || !ins[n - 1].dreq then before
      else if s.mode == TX_PAD then [] else before + [Chunks(t.data)]
  }

  function TxBlocks(ins: seq<TxInput>, n: nat): seq<seq<Word>>
    requires n <= |ins|
  {
    if n == 0 then []
    else
      var s, before := TxRun(ins, n - 1), TxBlocks(ins, n - 1);
      if s.mode == TX_PAD && ins[n - 1].dreq then before + [TxOpen(ins, n - 1) + [Chunks(s.data)]] else before
  }

  /** tx_data as the block that is being sent found it. */
  function TxStale(ins: seq<TxInput>, n: nat): Word64
    requires n <= |ins|
  {
    if n == 0 then 0
    else
      var s := TxRun(ins, n - 1);
      if s.mode == TX_TIMESTAMP && ins[n - 1].dreq then s.data else TxStale(ins, n - 1)
  }

  function AllEntries(bs: seq<seq<Word>>): seq<Tx.Entry> {
    if bs == [] then [] else AllEntries(bs[..|bs| - 1]) + Tx.Entries(bs[|bs| - 1], true)
  }

  ghost predicate Sending(s: TxState, w: Word64, h: Sampled, open: seq<Word>) {
    var block := BlockWords(w, h.snap, h.clkId);
    var ts := SetTimestamp(w, h.snap);
    var acc := SetAcc(ts, h.snap);
    match s.mode
    case WAIT_SAMPLE => open == []
    case TX_TIMESTAMP => open == []
    case TX_ACC => s.data == ts && open == block[..1]
    case TX_TUNE => s.data == acc && open == block[..2]
    case TX_PAD => s.data == SetTune(acc, h.snap, h.clkId) && open == block[..3]
  }

  lemma SendingStep(s: TxState, w: Word64, h: Sampled, i: TxInput, open: seq<Word>)
    requires Sending(s, w, h, open) && i.master
    ensures var t := TxNext(s, i);
      var open' := if s.mode == WAIT_SAMPLE || !i.dreq then open else if s.mode == TX_PAD then []
        else open + [Chunks(t.data)];
      && Sending(t, if s.mode == TX_TIMESTAMP && i.dreq then s.data else w, Sample(h, s.mode, i), open')
      && (s.mode == TX_PAD && i.dreq ==> open + [Chunks(s.data)] == BlockWords(w, h.snap, h.clkId))
  {
    var snap' := Sample(h, s.mode, i).snap;
    var ts := SetTimestamp(w, h.snap);
    SettersRead(s.data, i.snap, snap', i.clkId);
    SettersRead(w, h.snap, snap', i.clkId);
    SettersRead(ts, h.snap, snap', i.clkId);
    hide SetTimestamp, SetAcc, SetTune, Chunks;
  }

  /** Every field is set from its own part of the snapshot. */
  lemma SettersRead(w: Word64, a: Snapshot, b: Snapshot, clkId: Chunk)
    ensures a.tai == b.tai && a.cycles == b.cycles ==> SetTimestamp(w, a) == SetTimestamp(w, b)
    ensures a.acc == b.acc ==> SetAcc(w, a) == SetAcc(w, b)
    ensures a.tune == b.tune ==> SetTune(w, a, clkId) == SetTune(w, b, clkId)
  {}

  ghost predicate BlocksOf(bs: seq<seq<Word>>, recs: seq<Record>) {
    |bs| == |recs| && forall k | 0 <= k < |bs| :: BlockOf(bs[k], recs[k])
  }

  ghost predicate TxHolds(ins: seq<TxInput>, n: nat)
    requires n <= |ins|
  {
    && Sending(TxRun(ins, n), TxStale(ins, n), TxSampled(ins, n), TxOpen(ins, n))
    && BlocksOf(TxBlocks(ins, n), TxRecords(ins, n))
    && TxWords(ins, n) == AllEntries(TxBlocks(ins, n)) + Tx.Entries(TxOpen(ins, n), false)
  }

  lemma {:induction false} AllEntriesAppend(bs: seq<seq<Word>>, b: seq<Word>)
    ensures AllEntries(bs + [b]) == AllEntries(bs) + Tx.Entries(b, true)
  {
    assert (bs + [b])[..|bs|] == bs;
  }

  lemma {:induction false} EntriesGrow(bs: seq<seq<Word>>, open: seq<Word>, w: Word)
    ensures AllEntries(bs) + Tx.Entries(open + [w], false)
      == AllEntries(bs) + Tx.Entries(open, false) + [Tx.Entry(false, w)]
    ensures AllEntries(bs + [open + [w]]) + Tx.Entries([], false)
      == AllEntries(bs) + Tx.Entries(open, false) + [Tx.Entry(true, w)]
  {
    AllEntriesAppend(bs, open + [w]);
    hide AllEntries;
    Tx.EntriesAppend(open, w, true);
    Tx.EntriesAppend(open, w, false);
    assert Tx.Entries([], false) == [];
  }

  lemma {:induction false} TransmitHolds(ins: seq<TxInput>, n: nat)
    requires n <= |ins| && MasterOn(ins)
    ensures TxHolds(ins, n)
  {
    hide TxHolds;
    if n > 0 {
      TransmitHolds(ins, n - 1);
      TransmitStep(ins, n);
    } else {
      NothingSent(ins);
    }
  }

  lemma NothingSent(ins: seq<TxInput>)
    ensures TxHolds(ins, 0)
  {
    assert Tx.Entries([], false) == [];
  }

  lemma {:induction false} WordsStep(ins: seq<TxInput>, n: nat)
    requires 0 < n <= |ins| && MasterOn(ins) && TxHolds(ins, n - 1)
    ensures TxWords(ins, n) == AllEntries(TxBlocks(ins, n)) + Tx.Entries(TxOpen(ins, n), false)
  {
    var s, t, open, bs := TxRun(ins, n - 1), TxRun(ins, n), TxOpen(ins, n - 1), TxBlocks(ins, n - 1);
    assert ins[n - 1].master;
    EntriesGrow(bs, open, Chunks(t.data));
    OutStep(s, ins[n - 1]);
    hide TxNext, TxOut, Chunks, BlockOf, AllEntries, Tx.Entries, Sending, BlocksOf, TxStale, TxRecords, TxSampled;
  }

  lemma OutStep(s: TxState, i: TxInput)
    requires i.master
    ensures var t := TxNext(s, i);
      && (s.mode == WAIT_SAMPLE || !i.dreq ==> TxOut(t).None?)
      && (s.mode != WAIT_SAMPLE && i.dreq ==> TxOut(t) == Some(Tx.Entry(s.mode == TX_PAD, Chunks(t.data))))
      && (s.mode == TX_PAD ==> t.data == s.data)
  {
    hide SetTimestamp, SetAcc, SetTune, Chunks;
  }

  lemma BlocksOfGrows(bs: seq<seq<Word>>, b: seq<Word>, recs: seq<Record>, r: Record)
    requires BlocksOf(bs, recs) && BlockOf(b, r)
    ensures BlocksOf(bs + [b], recs + [r])
  {
    hide BlockOf;
  }

  lemma TransmitStep(ins: seq<TxInput>, n: nat)
    requires 0 < n <= |ins| && MasterOn(ins) && TxHolds(ins, n - 1)
    ensures TxHolds(ins, n)
  {
    var s, w, h, open := TxRun(ins, n - 1), TxStale(ins, n - 1), TxSampled(ins, n - 1), TxOpen(ins, n - 1);
    WordsStep(ins, n);
    assert ins[n - 1].master;
    SendingStep(s, w, h, ins[n - 1], open);
    PackedBlock(w, h.snap, h.clkId);
    if s.mode == TX_PAD && ins[n - 1].dreq {
      BlocksOfGrows(TxBlocks(ins, n - 1), open + [Chunks(s.data)], TxRecords(ins, n - 1), RecordOf(h.snap, h.clkId));
    }
    hide Sending, BlocksOf, BlockOf, BlockWords, TxWords, AllEntries, Tx.Entries, TxNext, Sample, Chunks, RecordOf;
  }

  /** Whatever the streamer's requests, however often new samples come in and whatever the snapshot does
      meanwhile, the words offered to the streamer are whole blocks of the records sampled, in order, and
      the beginning of one more. */
  lemma {:induction false} RecordsAreSentAsBlocks(ins: seq<TxInput>, n: nat)
    requires n <= |ins| && MasterOn(ins)
    ensures TxWords(ins, n) == AllEntries(TxBlocks(ins, n)) + Tx.Entries(TxOpen(ins, n), false)
    ensures BlocksOf(TxBlocks(ins, n), TxRecords(ins, n))
  {
    TransmitHolds(ins, n);
    hide TxWords, TxBlocks, TxOpen, TxRecords, TxRun, TxStale, TxSampled, Sending, BlocksOf, AllEntries, Tx.Entries;
  }

  /** The words of the record on its way that are still to be offered: four from a new sample on, one less with
      every request of the streamer, and none as soon as the master is off. */
  function Owing(ins: seq<TxInput>, n: nat): (w: nat)
    requires n <= |ins|
    ensures w <= 4
  {
    if n == 0 then 0
    else
      var i, before := ins[n - 1], Owing(ins, n - 1);
      if !i.master then 0
      else if before == 0 then (if i.newSample then 4 else 0)
      else if i.dreq then before - 1 else before
  }

  function WordsOwed(mode: TxMode): nat {
    match mode case WAIT_SAMPLE => 0 case TX_TIMESTAMP => 4 case TX_ACC => 3 case TX_TUNE => 2 case TX_PAD => 1
  }

  /** With the master on or off, any new samples and any stalls: a word is offered in exactly the cycles behind those
      in which one was owed and asked for, the last one of four with the flag; switching the master off forgets
      the record and what is in tx_data. */
  lemma {:induction false} WordsAreOwed(ins: seq<TxInput>, n: nat)
    requires n <= |ins|
    ensures WordsOwed(TxRun(ins, n).mode) == Owing(ins, n)
    ensures n > 0 ==> var i, owed := ins[n - 1], Owing(ins, n - 1);
      && TxRun(ins, n).valid == (i.master && i.dreq && owed > 0)
      && (TxRun(ins, n).valid ==> TxRun(ins, n).last == (owed == 1))
      && (!i.master ==> TxRun(ins, n).data == 0)
  {
    hide SetTimestamp, SetAcc, SetTune;
    if n > 0 { WordsAreOwed(ins, n - 1); }
  }

  /** Snapshot and clock id keep still while a record is on its way. */
  ghost predicate Still(ins: seq<TxInput>) {
    forall k | 0 < k < |ins| :: TxRun(ins, k - 1).mode != WAIT_SAMPLE && TxRun(ins, k).mode != WAIT_SAMPLE ==>
      ins[k].snap == ins[k - 1].snap && ins[k].clkId == ins[k - 1].clkId
  }

  /** The snapshots at the beginning of each transmission. */
  function TxSnapshots(ins: seq<TxInput>, n: nat): seq<Record>
    requires n <= |ins|
  {
    if n == 0 then []
    else
      var i, before := ins[n - 1], TxSnapshots(ins, n - 1);
      if TxRun(ins, n - 1).mode == TX_TIMESTAMP && i.dreq then before + [RecordOf(i.snap, i.clkId)] else before
  }

  /** What is known of the record on its way when the snapshot keeps still. */
  ghost predicate Begun(ins: seq<TxInput>, n: nat)
    requires n <= |ins|
  {
    var h, mode, taken, sent := TxSampled(ins, n).snap, TxRun(ins, n).mode, TxSnapshots(ins, n), TxRecords(ins, n);
    if mode == WAIT_SAMPLE || mode == TX_TIMESTAMP then taken == sent
    else
      && n > 0 && TxRun(ins, n - 1).mode != WAIT_SAMPLE
      && var i := ins[n - 1];
      && taken == sent + [RecordOf(i.snap, i.clkId)]
      && h.tai == i.snap.tai && h.cycles == i.snap.cycles
      && (mode == TX_ACC || h.acc == i.snap.acc)
      && (mode == TX_PAD ==> h.tune == i.snap.tune && TxSampled(ins, n).clkId == i.clkId)
  }

  lemma BegunStep(ins: seq<TxInput>, n: nat)
    requires 0 < n <= |ins| && MasterOn(ins) && Still(ins) && Begun(ins, n - 1)
    ensures Begun(ins, n)
  {
    var s, i := TxRun(ins, n - 1), ins[n - 1];
    assert i.master;
    assert n > 1 && s.mode != WAIT_SAMPLE && TxRun(ins, n - 2).mode != WAIT_SAMPLE ==>
      i.snap == ins[n - 2].snap && i.clkId == ins[n - 2].clkId;
    hide SetTimestamp, SetAcc, SetTune, Still, MasterOn;
  }

  lemma {:induction false} BegunHolds(ins: seq<TxInput>, n: nat)
    requires n <= |ins| && MasterOn(ins) && Still(ins)
    ensures Begun(ins, n)
  {
    hide MasterOn, Still, TxNext;
    if n > 0 {
      hide Begun;
      BegunHolds(ins, n - 1);
      BegunStep(ins, n);
    }
  }

  /** When snapshot and clock id keep still during each transmission, the records sent are the snapshots at
      the beginning of each transmission, but for the one that is still on its way. */
  lemma {:induction false} RecordsAreSnapshots(ins: seq<TxInput>, n: nat)
    requires n <= |ins| && MasterOn(ins) && Still(ins)
    ensures var taken, sent, mode := TxSnapshots(ins, n), TxRecords(ins, n), TxRun(ins, n).mode;
      if mode == WAIT_SAMPLE || mode == TX_TIMESTAMP then sent == taken
      else |taken| == |sent| + 1 && taken[..|sent|] == sent
  {
    BegunHolds(ins, n);
    hide TxSnapshots, TxRecords, TxRun, TxSampled, MasterOn, Still, RecordOf;
  }

  lemma {:induction false} TxExtends(ins: seq<TxInput>, i: TxInput, n: nat)
    requires n <= |ins|
    ensures TxRun(ins + [i], n) == TxRun(ins, n) && TxWords(ins + [i], n) == TxWords(ins, n)
  {
    hide TxNext, TxOut;
    if n > 0 {
      TxExtends(ins, i, n - 1);
      assert (ins + [i])[n - 1] == ins[n - 1];
    }
  }

  class Packer {
    var mode: TxMode
    var data: Word64
    var valid: bool
    var last: bool
    ghost var history: seq<TxInput>

    ghost function Registers(): TxState
      reads this
    {
      TxState(mode, data, valid, last)
    }

    ghost predicate Valid()
      reads this
    {
      Registers() == TxRun(history, |history|)
    }

    constructor ()
      ensures Valid() && history == []
    {
      mode, data, valid, last := WAIT_SAMPLE, 0, false, false;
      history := [];
    }

    /** p_tx_fsm */
    method ClockFsm(i: TxInput)
      modifies this`mode, this`data, this`valid, this`last
      ensures Registers() == TxNext(old(Registers()), i)
    {
      hide SetTimestamp, SetAcc, SetTune;
      if !i.master {
        mode, data, valid, last := WAIT_SAMPLE, 0, false, false;
      } else if mode == WAIT_SAMPLE {
        valid, last := false, false;
        if i.newSample { mode := TX_TIMESTAMP; }
      } else if !i.dreq {
        valid := false;
      } else {
        valid := true;
        match mode {
          case WAIT_SAMPLE =>
          case TX_TIMESTAMP => data, last, mode := SetTimestamp(data, i.snap), false, TX_ACC;
          case TX_ACC => data, last, mode := SetAcc(data, i.snap), false, TX_TUNE;
          case TX_TUNE => data, last, mode := SetTune(data, i.snap, i.clkId), false, TX_PAD;
          case TX_PAD => last, mode := true, WAIT_SAMPLE;
        }
      }
    }

    /** One rising edge, and the word it offers to the streamer. */
    method Clock(i: TxInput) returns (word: Option<Tx.Entry>)
      requires Valid()
      modifies this
      ensures Valid() && history == old(history) + [i]
      ensures TxWords(history, |history|) == Append(TxWords(old(history), |old(history)|), word)
      ensures MasterOn(history) ==>
        var n := |history|;
        && TxWords(history, n) == AllEntries(TxBlocks(history, n)) + Tx.Entries(TxOpen(history, n), false)
        && BlocksOf(TxBlocks(history, n), TxRecords(history, n))
    {
      hide TxNext, MasterOn, TxBlocks, TxOpen, TxRecords, AllEntries, Tx.Entries, BlocksOf, Chunks;
      ClockFsm(i);
      TxExtends(history, i, |history|);
      history := history + [i];
      word := if valid then Some(Tx.Entry(last, Chunks(data))) else None;
      if MasterOn(history) { RecordsAreSentAsBlocks(history, |history|); }
    }
  }

  // ----- the receive side, clocked -----

  datatype RxMode = RX_WAIT_SAMPLE | RX_ACC | RX_TUNE

  /** Registers of p_rx_fsm; `rec` collects tai, cycles, acc and tune for the asynchronous FIFO. */
  datatype RxState = RxState(mode: RxMode, rec: Record, newSample: bool)

  datatype RxInput = RxInput(slave: bool, word: Option<Rx.Entry>, clkId: Chunk, full: bool)

  const RX_RESET := RxState(RX_WAIT_SAMPLE, Record(0, 0, 0, 0, 0), false)

  predicate Wide(i: RxInput) {
    i.word.Some? ==> |i.word.value.data| == 4
  }

  function RxNext(s: RxState, i: RxInput): RxState
    requires Wide(i)
  {
    if !i.slave then s
    else
      match s.mode
      case RX_WAIT_SAMPLE =>
        if i.word.Some? && i.word.value.first then
          var w := Value(i.word.value.data);
          RxState(RX_ACC, s.rec.(tai := w / 0x1_0000_0000, cycles := w % 0x1000_0000), false)
        else s.(newSample := false)
      case RX_ACC =>
        if i.word.Some? then s.(mode := RX_TUNE, rec := s.rec.(acc := Value(i.word.value.data) % 0x800_0000_0000))
          else s
      case RX_TUNE =>
        if i.word.Some? then
          var w := Value(i.word.value.data);
          var id := w / 0x1_0000_0000 % 0x10000;
          RxState(RX_WAIT_SAMPLE, s.rec.(tune := w % 0x4_0000, clkId := id),
                  if id == i.clkId then !i.full else s.newSample)
        else s
  }

  ghost predicate AllWide(ins: seq<RxInput>) {
    forall k | 0 <= k < |ins| :: Wide(ins[k])
  }

  function RxRun(ins: seq<RxInput>, n: nat): RxState
    requires n <= |ins| && AllWide(ins)
  {
    if n == 0 then RX_RESET else RxNext(RxRun(ins, n - 1), ins[n - 1])
  }

  function RxWords(ins: seq<RxInput>, n: nat): seq<Rx.Entry>
    requires n <= |ins|
  {
    if n == 0 then [] else Append(RxWords(ins, n - 1), ins[n - 1].word)
  }

  /** The records written to the FIFO: one in every cycle in which new_sample_sys is set. */
  function RxPushed(ins: seq<RxInput>, n: nat): seq<Record>
    requires n <= |ins| && AllWide(ins)
  {
    if n == 0 then []
    else
      var s := RxRun(ins, n);
      Append(RxPushed(ins, n - 1), if s.newSample then Some(s.rec) else None)
  }

  // ----- the receive side reads blocks -----

  predicate AllBlocks(bs: seq<seq<Word>>) {
    forall k | 0 <= k < |bs| :: IsBlock(bs[k])
  }

  /** A block with its flags. */
  function FlaggedWord(b: seq<Word>, j: nat): Rx.Entry
    requires |b| == 4 && j < 4
  {
    Rx.Entry(j == 0, j == 3, b[j])
  }

  /** The k-th word of a stream of blocks. */
  function WordAt(bs: seq<seq<Word>>, k: nat): Rx.Entry
    requires k < 4 * |bs| && AllBlocks(bs)
  {
    FlaggedWord(bs[k / 4], k % 4)
  }

  function Matching(bs: seq<seq<Word>>, clkId: Chunk): seq<Record>
    requires AllBlocks(bs)
  {
    if bs == [] then []
    else
      var r, before := Unpack(bs[|bs| - 1]), Matching(bs[..|bs| - 1], clkId);
      if r.clkId == clkId then before + [r] else before
  }

  /** The receiver's own clock id and the state of its FIFO when the tune word of a block comes. */
  datatype Gate = Gate(clkId: Chunk, full: bool)

  function RxGates(ins: seq<RxInput>, n: nat): seq<Gate>
    requires n <= |ins| && AllWide(ins)
  {
    if n == 0 then []
    else
      var before, i := RxGates(ins, n - 1), ins[n - 1];
      if RxRun(ins, n - 1).mode == RX_TUNE && i.word.Some? then before + [Gate(i.clkId, i.full)] else before
  }

  /** The records of the first blocks that carry the own clock id and find room. */
  function Kept(bs: seq<seq<Word>>, gates: seq<Gate>): seq<Record>
    requires AllBlocks(bs) && |gates| <= |bs|
  {
    if gates == [] then []
    else
      var n := |gates| - 1;
      var r, before := Unpack(bs[n]), Kept(bs, gates[..n]);
      if r.clkId == gates[n].clkId && !gates[n].full then before + [r] else before
  }

  /** The stream so far is the beginning of a stream of blocks, and the slave is on. */
  ghost predicate Reads(ins: seq<RxInput>, n: nat, bs: seq<seq<Word>>)
    requires n <= |ins| && AllWide(ins) && AllBlocks(bs)
  {
    var ws := RxWords(ins, n);
    && |ws| <= 4 * |bs| && (forall k | 0 <= k < |ws| :: ws[k] == WordAt(bs, k))
    && (forall k | 0 <= k < n :: ins[k].slave)
  }

  /** Blocks whose tune word has come, after `got` words. */
  function BlocksRead(got: nat): nat {
    if got % 4 == 3 then got / 4 + 1 else got / 4
  }

  ghost predicate RxHolds(s: RxState, pushed: seq<Record>, gates: seq<Gate>, got: nat, bs: seq<seq<Word>>)
    requires got <= 4 * |bs| && AllBlocks(bs)
  {
    var m, j := got / 4, got % 4;
    && s.mode == (if j == 1 then RX_ACC else if j == 2 then RX_TUNE else RX_WAIT_SAMPLE)
    && (s.newSample ==> s.mode == RX_WAIT_SAMPLE)
    && (j == 1 || j == 2 ==> s.rec.tai == Unpack(bs[m]).tai && s.rec.cycles == Unpack(bs[m]).cycles)
    && (j == 2 ==> s.rec.acc == Unpack(bs[m]).acc)
    && |gates| == BlocksRead(got) && pushed == Kept(bs, gates)
  }

  lemma {:induction false} KeptMore(bs: seq<seq<Word>>, gates: seq<Gate>, g: Gate)
    requires |gates| < |bs| && AllBlocks(bs)
    ensures var r := Unpack(bs[|gates|]);
      Kept(bs, gates + [g]) == if r.clkId == g.clkId && !g.full then Kept(bs, gates) + [r] else Kept(bs, gates)
  {
    assert (gates + [g])[..|gates|] == gates;
  }

  lemma RxStep(s: RxState, pushed: seq<Record>, gates: seq<Gate>, got: nat, bs: seq<seq<Word>>, i: RxInput)
    requires AllBlocks(bs)
    requires got <= 4 * |bs| && Wide(i) && RxHolds(s, pushed, gates, got, bs) && i.slave
    requires i.word.Some? ==> got < 4 * |bs| && i.word.value == WordAt(bs, got)
    ensures var t := RxNext(s, i);
      RxHolds(t, Append(pushed, if t.newSample then Some(t.rec) else None),
        if s.mode == RX_TUNE && i.word.Some? then gates + [Gate(i.clkId, i.full)] else gates,
        if i.word.Some? then got + 1 else got, bs)
  {
    if i.word.Some? && got % 4 == 2 {
      KeptMore(bs, gates, Gate(i.clkId, i.full));
      hide Kept;
      assert (got + 1) / 4 == got / 4 && (got + 1) % 4 == 3;
    } else if i.word.Some? {
      hide Kept;
      assert got % 4 == 3 ==> (got + 1) / 4 == got / 4 + 1 && (got + 1) % 4 == 0;
      assert got % 4 < 3 ==> (got + 1) / 4 == got / 4 && (got + 1) % 4 == got % 4 + 1;
    } else {
      hide Kept;
    }
  }

  /** For any gaps, any clock ids and any filling of the FIFO, the records written are, in order and once
      each, those of the blocks that carry the own clock id and find room when their tune word comes; padding
      words and all other blocks are not. */
  lemma {:induction false} BlocksAreRead(ins: seq<RxInput>, n: nat, bs: seq<seq<Word>>)
    requires n <= |ins| && AllWide(ins) && AllBlocks(bs) && Reads(ins, n, bs)
    ensures RxHolds(RxRun(ins, n), RxPushed(ins, n), RxGates(ins, n), |RxWords(ins, n)|, bs)
  {
    hide RxNext, WordAt, Kept, Unpack, RxHolds;
    if n > 0 {
      var before := RxWords(ins, n - 1);
      assert forall k | 0 <= k < |before| :: before[k] == RxWords(ins, n)[k];
      BlocksAreRead(ins, n - 1, bs);
      RxStep(RxRun(ins, n - 1), RxPushed(ins, n - 1), RxGates(ins, n - 1), |before|, bs, ins[n - 1]);
    } else {
      NothingRead(bs);
    }
  }

  lemma NothingRead(bs: seq<seq<Word>>)
    requires AllBlocks(bs)
    ensures RxHolds(RX_RESET, [], [], 0, bs)
  {}

  /** While the slave is off, the unpacker keeps everything as it is, and goes on from there. */
  lemma {:induction false} SlaveOffHolds(ins: seq<RxInput>, m: nat, n: nat)
    requires m <= n <= |ins| && AllWide(ins) && forall k | m <= k < n :: !ins[k].slave
    ensures RxRun(ins, n) == RxRun(ins, m)
  {
    if m < n { SlaveOffHolds(ins, m, n - 1); }
  }

  lemma {:induction false} RecordsAreKept(ins: seq<RxInput>, n: nat, bs: seq<seq<Word>>)
    requires n <= |ins| && AllWide(ins) && AllBlocks(bs) && Reads(ins, n, bs)
    ensures |RxGates(ins, n)| == BlocksRead(|RxWords(ins, n)|) <= |bs|
    ensures RxPushed(ins, n) == Kept(bs, RxGates(ins, n))
  {
    BlocksAreRead(ins, n, bs);
    hide RxRun, RxPushed, RxGates, RxWords, Kept, Unpack, AllWide, AllBlocks, WordAt;
  }

  /** One clock id throughout, and always room. */
  ghost predicate Open(ins: seq<RxInput>, clkId: Chunk) {
    forall k | 0 <= k < |ins| :: ins[k].clkId == clkId && !ins[k].full
  }

  lemma {:induction false} OpenGates(ins: seq<RxInput>, n: nat, clkId: Chunk)
    requires n <= |ins| && AllWide(ins) && Open(ins, clkId)
    ensures forall k | 0 <= k < |RxGates(ins, n)| :: RxGates(ins, n)[k] == Gate(clkId, false)
  {
    hide RxRun, AllWide;
    if n > 0 { OpenGates(ins, n - 1, clkId); }
  }

  lemma {:induction false} KeptIsMatching(bs: seq<seq<Word>>, gates: seq<Gate>, clkId: Chunk)
    requires AllBlocks(bs) && |gates| <= |bs| && forall k | 0 <= k < |gates| :: gates[k] == Gate(clkId, false)
    ensures Kept(bs, gates) == Matching(bs[..|gates|], clkId)
  {
    hide Unpack, IsBlock;
    if gates != [] {
      var n := |gates| - 1;
      KeptIsMatching(bs, gates[..n], clkId);
      assert bs[..n + 1][..n] == bs[..n];
    }
  }

  /** With one clock id and room in the FIFO, exactly the records of the blocks with that id are written. */
  lemma {:induction false} MatchingAreRead(ins: seq<RxInput>, bs: seq<seq<Word>>, clkId: Chunk)
    requires AllWide(ins) && AllBlocks(bs) && Reads(ins, |ins|, bs) && Open(ins, clkId)
    requires |RxWords(ins, |ins|)| == 4 * |bs|
    ensures RxPushed(ins, |ins|) == Matching(bs, clkId)
  {
    hide RxRun, RxPushed, RxGates, RxWords, Kept, Matching, Unpack, Reads, AllWide, AllBlocks, Open;
    RecordsAreKept(ins, |ins|, bs);
    OpenGates(ins, |ins|, clkId);
    KeptIsMatching(bs, RxGates(ins, |ins|), clkId);
    assert bs[..|bs|] == bs;
  }

  // ----- the asynchronous FIFO -----

  /** fifo_in: acc in bits 42 to 0, tune in 63 to 46, cycles in 91 to 64, tai in 127 to 96; the bits
      between them are never assigned. */
  function FifoWord(r: Record, gap0: int, gap1: int): int {
    r.tai * 0x1_0000_0000_0000_0000_0000_0000 + gap1 * 0x1000_0000_0000_0000_0000_0000
      + r.cycles * 0x1_0000_0000_0000_0000 + r.tune * 0x4000_0000_0000 + gap0 * 0x800_0000_0000 + r.acc
  }

  predicate FieldsFit(r: Record) {
    0 <= r.tai < 0x1_0000_0000 && 0 <= r.cycles < 0x1000_0000 && 0 <= r.acc < 0x800_0000_0000 && 0 <= r.tune < 0x4_0000
  }

  /** The slices of fifo_out are the fields that were written. */
  lemma FifoKeepsFields(r: Record, gap0: int, gap1: int)
    requires FieldsFit(r) && 0 <= gap0 < 8 && 0 <= gap1 < 16
    ensures var w := FifoWord(r, gap0, gap1);
      && w % 0x800_0000_0000 == r.acc && w / 0x4000_0000_0000 % 0x4_0000 == r.tune
      && w / 0x1_0000_0000_0000_0000 % 0x1000_0000 == r.cycles
      && w / 0x1_0000_0000_0000_0000_0000_0000 == r.tai
  {
    var w, low := FifoWord(r, gap0, gap1), gap0 * 0x800_0000_0000 + r.acc;
    var high := (r.tai * 16 + gap1) * 0x1000_0000 + r.cycles;
    assert w == (high * 0x4_0000 + r.tune) * 0x4000_0000_0000 + low;
    assert w == high * 0x1_0000_0000_0000_0000 + (r.tune * 0x4000_0000_0000 + low);
    assert w == ((high * 0x4_0000 + r.tune) * 8 + gap0) * 0x800_0000_0000 + r.acc;
    hide FifoWord;
    ModUnique(w, 0x800_0000_0000, (high * 0x4_0000 + r.tune) * 8 + gap0, r.acc);
    ModUnique(w, 0x4000_0000_0000, high * 0x4_0000 + r.tune, low);
    ModUnique(high * 0x4_0000 + r.tune, 0x4_0000, high, r.tune);
    ModUnique(w, 0x1_0000_0000_0000_0000, high, r.tune * 0x4000_0000_0000 + low);
    ModUnique(high, 0x1000_0000, r.tai * 16 + gap1, r.cycles);
    ModUnique(w, 0x1_0000_0000_0000_0000_0000_0000, r.tai,
      gap1 * 0x1000_0000_0000_0000_0000_0000 + r.cycles * 0x1_0000_0000_0000_0000 + r.tune * 0x4000_0000_0000 + low);
  }

  lemma {:induction false} RxExtends(ins: seq<RxInput>, i: RxInput, n: nat)
    requires n <= |ins| && AllWide(ins) && Wide(i)
    ensures AllWide(ins + [i])
    ensures RxRun(ins + [i], n) == RxRun(ins, n) && RxPushed(ins + [i], n) == RxPushed(ins, n)
  {
    hide RxNext;
    if n > 0 {
      RxExtends(ins, i, n - 1);
      assert (ins + [i])[n - 1] == ins[n - 1];
    }
  }

  class Unpacker {
    var mode: RxMode
    var tai: int
    var cycles: int
    var acc: int
    var tune: int
    var clkId: int
    var newSample: bool
    ghost var history: seq<RxInput>

    ghost function Registers(): RxState
      reads this
    {
      RxState(mode, Record(tai, cycles, acc, tune, clkId), newSample)
    }

    ghost predicate Valid()
      reads this
    {
      AllWide(history) && Registers() == RxRun(history, |history|)
    }

    constructor ()
      ensures Valid() && history == []
    {
      mode, tai, cycles, acc, tune, clkId, newSample := RX_WAIT_SAMPLE, 0, 0, 0, 0, 0, false;
      history := [];
    }

    /** p_rx_fsm */
    method ClockFsm(i: RxInput)
      requires Wide(i)
      modifies this`mode, this`tai, this`cycles, this`acc, this`tune, this`clkId, this`newSample
      ensures Registers() == RxNext(old(Registers()), i)
    {
      hide Value;
      if i.slave {
        var w := if i.word.Some? then Value(i.word.value.data) else 0;
        match mode
        case RX_WAIT_SAMPLE =>
          newSample := false;
          if i.word.Some? && i.word.value.first {
            mode, tai, cycles := RX_ACC, w / 0x1_0000_0000, w % 0x1000_0000;
          }
        case RX_ACC =>
          if i.word.Some? {
            acc, mode := w % 0x800_0000_0000, RX_TUNE;
          }
        case RX_TUNE =>
          if i.word.Some? {
            tune, clkId, mode := w % 0x4_0000, w / 0x1_0000_0000 % 0x10000, RX_WAIT_SAMPLE;
            if clkId == i.clkId { newSample := !i.full; }
          }
      }
    }

    /** One rising edge, and the record it writes to the FIFO: as long as the words are those of a stream
        of blocks, the records written are those of the blocks with the own clock id that find room. */
    method Clock(i: RxInput, ghost bs: seq<seq<Word>>) returns (rec: Option<Record>)
      requires Valid() && Wide(i) && AllBlocks(bs)
      modifies this
      ensures Valid() && history == old(history) + [i]
      ensures RxPushed(history, |history|) == Append(RxPushed(old(history), |old(history)|), rec)
      ensures Reads(history, |history|, bs) ==>
        |RxGates(history, |history|)| <= |bs| && RxPushed(history, |history|) == Kept(bs, RxGates(history, |history|))
    {
      hide RxNext, Reads, Kept, AllWide, Wide, AllBlocks, RxGates;
      ClockFsm(i);
      RxExtends(history, i, |history|);
      history := history + [i];
      rec := if newSample then Some(Record(tai, cycles, acc, tune, clkId)) else None;
      if Reads(history, |history|, bs) { RecordsAreKept(history, |history|, bs); }
    }
  }
}
