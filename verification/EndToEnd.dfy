// The whole way of a sample: packed into a block, framed, carried, checked, buffered and unpacked.
module EndToEnd {
  import opened EscapeCode
  import opened RecordPath
  import opened FrameRoundTrip
  import FrameEnding
  import Tx = TxStreamer
  import Rx = RxStreamer
  import Fabric = FabricFrames
  import Buffer = DroppingBuffer

  // ----- the flags in the FIFO determine the blocks -----

  ghost predicate SameBlocks(done: seq<Tx.Block>, bs: seq<seq<Word>>) {
    |done| == |bs| && forall k | 0 <= k < |bs| :: done[k].words == bs[k]
  }

  ghost predicate NoneEmpty(done: seq<Tx.Block>, bs: seq<seq<Word>>) {
    (forall b | b in done :: b.words != []) && (forall k | 0 <= k < |bs| :: bs[k] != [])
  }

  lemma {:induction false} EndsWithLast(bs: seq<seq<Word>>)
    requires bs != [] && bs[|bs| - 1] != []
    ensures var e := AllEntries(bs); e != [] && e[|e| - 1].last
  {}

  lemma {:induction false} DoneEndsWithLast(done: seq<Tx.Block>)
    requires done != [] && done[|done| - 1].words != []
    ensures var e := Tx.BlockEntries(done); e != [] && e[|e| - 1].last
  {}

  /** Inside the closing block, only the very last word carries the flag. */
  lemma FlagsInside(e: seq<Tx.Entry>, y: seq<Tx.Entry>, b: seq<Word>, k: nat)
    requires e == y + Tx.Entries(b, true)
    ensures |y| <= k < |e| - 1 ==> !e[k].last
  {}

  /** Two ways to end a stream with a closed block, after nothing or after a last-flag, are the same. */
  lemma LastBlockIsUnique(x: seq<Tx.Entry>, a: seq<Word>, y: seq<Tx.Entry>, b: seq<Word>)
    requires x + Tx.Entries(a, true) == y + Tx.Entries(b, true)
    requires (x != [] ==> x[|x| - 1].last) && (y != [] ==> y[|y| - 1].last)
    requires a != [] && b != []
    ensures a == b && x == y
  {
    var e := x + Tx.Entries(a, true);
    assert x != [] ==> e[|x| - 1] == x[|x| - 1];
    assert y != [] ==> e[|y| - 1] == (y + Tx.Entries(b, true))[|y| - 1] == y[|y| - 1];
    if x != [] { FlagsInside(e, y, b, |x| - 1); }
    if y != [] { FlagsInside(e, x, a, |y| - 1); }
    assert |x| == |y|;
    assert e[..|x|] == x && e[..|y|] == y;
    assert e[|x|..] == Tx.Entries(a, true) && e[|y|..] == Tx.Entries(b, true);
    forall k | 0 <= k < |a| ensures a[k] == b[k] {
      assert Tx.Entries(a, true)[k].data == Tx.Entries(b, true)[k].data;
    }
  }

  lemma {:induction false} FlagsDetermineBlocks(done: seq<Tx.Block>, bs: seq<seq<Word>>)
    requires Tx.BlockEntries(done) == AllEntries(bs) && NoneEmpty(done, bs)
    ensures SameBlocks(done, bs)
  {
    if done == [] || bs == [] {
      if done != [] { DoneEndsWithLast(done); }
      if bs != [] { EndsWithLast(bs); }
    } else {
      var m, n := |done| - 1, |bs| - 1;
      if m > 0 { DoneEndsWithLast(done[..m]); }
      if n > 0 { EndsWithLast(bs[..n]); }
      LastBlockIsUnique(Tx.BlockEntries(done[..m]), done[m].words, AllEntries(bs[..n]), bs[n]);
      FlagsDetermineBlocks(done[..m], bs[..n]);
    }
  }

  lemma {:induction false} AllEntriesConcat(a: seq<seq<Word>>, b: seq<seq<Word>>)
    ensures AllEntries(a + b) == AllEntries(a) + AllEntries(b)
  {
    hide Tx.Entries;
    if b == [] {
      assert a + b == a;
    } else {
      var n := |b| - 1;
      AllEntriesConcat(a, b[..n]);
      AllEntriesAppend(a + b[..n], b[n]);
      assert a + b == a + b[..n] + [b[n]];
      hide AllEntries;
      assert AllEntries(a) + (AllEntries(b[..n]) + Tx.Entries(b[n], true))
        == AllEntries(a) + AllEntries(b[..n]) + Tx.Entries(b[n], true);
    }
  }

  /** A stream of blocks can only be cut behind a last-flag at the end of a block. */
  lemma {:induction false} CutAtBlock(bs: seq<seq<Word>>, open: seq<Word>, x: seq<Tx.Entry>, y: seq<Tx.Entry>)
    returns (k: nat)
    requires AllEntries(bs) + Tx.Entries(open, false) == x + y
    requires x != [] ==> x[|x| - 1].last
    ensures k <= |bs| && x == AllEntries(bs[..k])
  {
    var whole, e := AllEntries(bs), AllEntries(bs) + Tx.Entries(open, false);
    assert x != [] ==> e[|x| - 1] == x[|x| - 1];
    assert |x| <= |whole|;
    assert whole[..|x|] == e[..|x|] == x;
    if |x| == |whole| {
      k := |bs|;
      assert bs[..k] == bs;
    } else {
      var n := |bs| - 1;
      var before := AllEntries(bs[..n]);
      if x != [] { FlagsInside(whole, before, bs[n], |x| - 1); }
      assert |x| <= |before|;
      assert before[..|x|] == whole[..|x|] == x;
      assert before + Tx.Entries([], false) == x + before[|x|..];
      k := CutAtBlock(bs[..n], [], x, before[|x|..]);
      assert bs[..n][..k] == bs[..k];
    }
  }

  // ----- delivered frames are streams of blocks -----

  lemma {:induction false} DeliveredWords(done: seq<Tx.Block>, bs: seq<seq<Word>>)
    requires SameBlocks(done, bs) && AllBlocks(bs)
    ensures var ws := Delivered(done, 4);
      |ws| == 4 * |bs| && forall k | 0 <= k < |ws| :: ws[k] == WordAt(bs, k)
  {
    if bs != [] {
      var n := |bs| - 1;
      DeliveredWords(done[..n], bs[..n]);
      var before, b := Delivered(done[..n], 4), bs[n];
      FlaggedBlock(b);
      forall k | 0 <= k < 4 * |bs| ensures Delivered(done, 4)[k] == WordAt(bs, k) {
        if k < 4 * n {
          assert Delivered(done, 4)[k] == before[k] == WordAt(bs[..n], k);
        } else {
          assert k / 4 == n && k % 4 == k - 4 * n;
          assert Delivered(done, 4)[k] == FrameRoundTrip.Flagged(b, 4)[k - 4 * n];
        }
      }
    }
  }

  lemma FlaggedBlock(b: seq<Word>)
    requires IsBlock(b)
    ensures var f := FrameRoundTrip.Flagged(b, 4);
      |f| == 4 && forall j: nat | j < 4 :: f[j] == FlaggedWord(b, j)
  {}

  // ----- the last chunk of a block -----

  /** Bits 31 to 16 of the TAI seconds are not the escape code. */
  ghost predicate TaiAvoidsEscape(recs: seq<Record>) {
    forall k | 0 <= k < |recs| :: recs[k].tai / 0x10000 != ESC
  }

  lemma TaiAppend(recs: seq<Record>, r: Record)
    ensures TaiAvoidsEscape(recs + [r]) <==> TaiAvoidsEscape(recs) && r.tai / 0x10000 != ESC
  {
    var all := recs + [r];
    assert all[|recs|] == r && forall k | 0 <= k < |recs| :: all[k] == recs[k];
  }

  /** The padding word of a block repeats, in its last chunk, bits 31 to 16 of the TAI seconds. */
  lemma {:induction false} CleanMeansTai(bs: seq<seq<Word>>, recs: seq<Record>)
    requires BlocksOf(bs, recs) && |bs| == |recs|
    ensures FrameEnding.Clean(AllEntries(bs), 4) <==> TaiAvoidsEscape(recs)
  {
    if bs != [] {
      var n := |bs| - 1;
      assert bs[..n] + [bs[n]] == bs && recs[..n] + [recs[n]] == recs;
      AllEntriesAppend(bs[..n], bs[n]);
      hide FrameEnding.Clean, BlockOf, Tx.Entries, TaiAvoidsEscape, AllEntries;
      CleanMeansTai(bs[..n], recs[..n]);
      CleanConcat(AllEntries(bs[..n]), Tx.Entries(bs[n], true));
      CleanBlock(bs[n], recs[n]);
      TaiAppend(recs[..n], recs[n]);
    }
  }

  lemma CleanConcat(x: seq<Tx.Entry>, y: seq<Tx.Entry>)
    ensures FrameEnding.Clean(x + y, 4) <==> FrameEnding.Clean(x, 4) && FrameEnding.Clean(y, 4)
  {
    if FrameEnding.Clean(x + y, 4) {
      assert forall k | 0 <= k < |x| :: (x + y)[k] == x[k];
      assert forall k | 0 <= k < |y| :: (x + y)[|x| + k] == y[k];
    }
  }

  lemma CleanBlock(b: seq<Word>, r: Record)
    requires BlockOf(b, r)
    ensures FrameEnding.Clean(Tx.Entries(b, true), 4) <==> r.tai / 0x10000 != ESC
  {
    hide Unpack;
    assert Tx.Entries(b, true)[3] == Tx.Entry(true, b[3]);
  }

  function Filtered(recs: seq<Record>, clkId: Chunk): seq<Record> {
    if recs == [] then []
    else
      var r, before := recs[|recs| - 1], Filtered(recs[..|recs| - 1], clkId);
      if r.clkId == clkId then before + [r] else before
  }

  /** The records, one for each gate, that carry the own clock id and find room. */
  function Passing(recs: seq<Record>, gates: seq<Gate>): seq<Record>
    requires |gates| <= |recs|
  {
    if gates == [] then []
    else
      var n := |gates| - 1;
      var before := Passing(recs, gates[..n]);
      if recs[n].clkId == gates[n].clkId && !gates[n].full then before + [recs[n]] else before
  }

  lemma {:induction false} KeptRecords(bs: seq<seq<Word>>, recs: seq<Record>, gates: seq<Gate>)
    requires AllBlocks(bs) && BlocksOf(bs, recs) && |gates| <= |bs|
    ensures Kept(bs, gates) == Passing(recs, gates)
  {
    hide Unpack, IsBlock;
    if gates != [] {
      var n := |gates| - 1;
      KeptRecords(bs, recs, gates[..n]);
      assert BlockOf(bs[n], recs[n]);
    }
  }

  /** What the unpacker writes when the words of the records `recs` have come: those that carry its clock id
      and find room as their tune words come, in order and once each. */
  ghost predicate Unpacked(unpIns: seq<RxInput>, recs: seq<Record>)
    requires AllWide(unpIns)
  {
    var gates := RxGates(unpIns, |unpIns|);
    |gates| == |recs| && RxPushed(unpIns, |unpIns|) == Passing(recs, gates)
  }

  lemma {:induction false} OpenPassing(recs: seq<Record>, gates: seq<Gate>, clkId: Chunk)
    requires |gates| == |recs| && forall k | 0 <= k < |gates| :: gates[k] == Gate(clkId, false)
    ensures Passing(recs, gates) == Filtered(recs, clkId)
  {
    if gates != [] {
      var n := |gates| - 1;
      OpenPassing(recs[..n], gates[..n], clkId);
      PassingFirst(recs, gates[..n]);
    }
  }

  lemma {:induction false} PassingFirst(recs: seq<Record>, gates: seq<Gate>)
    requires |gates| <= |recs|
    ensures Passing(recs, gates) == Passing(recs[..|gates|], gates)
    decreases gates
  {
    if gates != [] {
      var n := |gates| - 1;
      PassingFirst(recs, gates[..n]);
      PassingFirst(recs[..n + 1], gates[..n]);
      assert recs[..n + 1][..n] == recs[..n];
    }
  }

  /** With one clock id throughout and room in the FIFO, these are all records with that id. */
  lemma {:induction false} MatchingArrive(unpIns: seq<RxInput>, recs: seq<Record>, clkId: Chunk)
    requires AllWide(unpIns) && Unpacked(unpIns, recs) && Open(unpIns, clkId)
    ensures RxPushed(unpIns, |unpIns|) == Filtered(recs, clkId)
  {
    hide RxPushed, RxGates, Passing, Filtered, AllWide, Open;
    OpenGates(unpIns, |unpIns|, clkId);
    OpenPassing(recs, RxGates(unpIns, |unpIns|), clkId);
  }

  /** Of the words of the packer, those of the first j blocks have gone out in earlier frames, and `rest`
      has not. */
  ghost predicate Backlog(rest: seq<Tx.Entry>, recIns: seq<TxInput>, j: nat) {
    && MasterOn(recIns) && j <= |TxBlocks(recIns, |recIns|)|
    && TxWords(recIns, |recIns|) == AllEntries(TxBlocks(recIns, |recIns|)[..j]) + rest
  }

  lemma {:induction false} SentBlocks(recIns: seq<TxInput>)
    requires MasterOn(recIns)
    ensures var n := |recIns|; var bs, recs := TxBlocks(recIns, n), TxRecords(recIns, n);
      && TxWords(recIns, n) == AllEntries(bs) + Tx.Entries(TxOpen(recIns, n), false)
      && BlocksOf(bs, recs) && AllBlocks(bs)
  {
    RecordsAreSentAsBlocks(recIns, |recIns|);
    hide TxWords, TxBlocks, TxRecords, AllEntries, MasterOn, Unpack, TxOpen, Tx.Entries;
  }

  /** Cut off the blocks that have gone out already. */
  lemma {:induction false} DropFront(bs: seq<seq<Word>>, open: seq<Word>, j: nat, x: seq<Tx.Entry>, rest: seq<Tx.Entry>)
    requires j <= |bs| && AllEntries(bs) + Tx.Entries(open, false) == AllEntries(bs[..j]) + (x + rest)
    ensures AllEntries(bs[j..]) + Tx.Entries(open, false) == x + rest
  {
    assert bs[..j] + bs[j..] == bs;
    AllEntriesConcat(bs[..j], bs[j..]);
    hide AllEntries, Tx.Entries;
    Tx.Assoc(AllEntries(bs[..j]), AllEntries(bs[j..]), Tx.Entries(open, false));
    SameTail(AllEntries(bs[..j]), AllEntries(bs[j..]) + Tx.Entries(open, false), x + rest);
  }

  /** Blocks taken from the front of a backlog are the next ones. */
  lemma NextBlocks(bs: seq<seq<Word>>, open: seq<Word>, j: nat, done: seq<Tx.Block>, rest: seq<Tx.Entry>)
    returns (k: nat)
    requires j <= |bs| && NoneEmpty(done, bs)
    requires AllEntries(bs) + Tx.Entries(open, false) == AllEntries(bs[..j]) + (Tx.BlockEntries(done) + rest)
    ensures j <= k <= |bs| && SameBlocks(done, bs[j..k])
    ensures AllEntries(bs) + Tx.Entries(open, false) == AllEntries(bs[..k]) + rest
  {
    var x := Tx.BlockEntries(done);
    assert x != [] ==> x[|x| - 1].last by { if done != [] { DoneEndsWithLast(done); } }
    hide AllEntries, Tx.Entries, Tx.BlockEntries, SameBlocks;
    DropFront(bs, open, j, x, rest);
    var m := CutAtBlock(bs[j..], open, x, rest);
    k := j + m;
    assert bs[j..][..m] == bs[j..k] && bs[..j] + bs[j..k] == bs[..k];
    AllEntriesConcat(bs[..j], bs[j..k]);
    Tx.Assoc(AllEntries(bs[..j]), x, rest);
    FlagsDetermineBlocks(done, bs[j..k]);
  }

  /** The frame consists of the next blocks of the packer, and what is left in the FIFO is the new backlog. */
  lemma FrameOfRecords(recIns: seq<TxInput>, j: nat, done: seq<Tx.Block>, rest: seq<Tx.Entry>) returns (k: nat)
    requires Backlog(Tx.BlockEntries(done) + rest, recIns, j)
    requires forall b | b in done :: b.words != []
    ensures j <= k <= |TxBlocks(recIns, |recIns|)| && Backlog(rest, recIns, k)
    ensures SameBlocks(done, TxBlocks(recIns, |recIns|)[j..k])
  {
    hide TxWords, TxBlocks, TxRecords, TxOpen, AllEntries, MasterOn, Tx.Entries, Tx.BlockEntries, SameBlocks, BlocksOf;
    var bs := TxBlocks(recIns, |recIns|);
    SentBlocks(recIns);
    BlocksAreNotEmpty(bs);
    k := NextBlocks(bs, TxOpen(recIns, |recIns|), j, done, rest);
  }

  lemma BlocksAreNotEmpty(bs: seq<seq<Word>>)
    requires AllBlocks(bs)
    ensures forall k | 0 <= k < |bs| :: bs[k] != []
  {}

  /** The words of the frame are unpacked to its records. */
  lemma {:induction false} RecordsOfFrame(recIns: seq<TxInput>, j: nat, k: nat, done: seq<Tx.Block>,
      unpIns: seq<RxInput>)
    requires MasterOn(recIns) && j <= k <= |TxBlocks(recIns, |recIns|)|
    requires SameBlocks(done, TxBlocks(recIns, |recIns|)[j..k])
    requires AllWide(unpIns) && SlaveOn(unpIns) && RxWords(unpIns, |unpIns|) == Delivered(done, 4)
    ensures k <= |TxRecords(recIns, |recIns|)|
    ensures Unpacked(unpIns, TxRecords(recIns, |recIns|)[j..k])
  {
    hide Delivered, TxBlocks, TxRecords, TxWords, AllEntries, WordAt, RxPushed, RxRun, RxWords, Unpack, BlocksOf,
      AllBlocks, MasterOn, Unpacked;
    hide SameBlocks, TxOpen, Tx.Entries, AllWide, SlaveOn;
    SentBlocks(recIns);
    var all, recs := TxBlocks(recIns, |recIns|), TxRecords(recIns, |recIns|);
    PartOfBlocks(all, recs, j, k);
    DeliveredWords(done, all[j..k]);
    AreRead(unpIns, all[j..k], recs[j..k], Delivered(done, 4));
  }

  lemma PartOfBlocks(bs: seq<seq<Word>>, recs: seq<Record>, j: nat, k: nat)
    requires BlocksOf(bs, recs) && AllBlocks(bs) && j <= k <= |bs|
    ensures k <= |recs| && BlocksOf(bs[j..k], recs[j..k]) && AllBlocks(bs[j..k])
  {
    hide BlockOf, IsBlock;
  }

  lemma {:induction false} AreRead(unpIns: seq<RxInput>, bs: seq<seq<Word>>, recs: seq<Record>, ws: seq<Rx.Entry>)
    requires AllWide(unpIns) && SlaveOn(unpIns) && AllBlocks(bs) && BlocksOf(bs, recs)
    requires RxWords(unpIns, |unpIns|) == ws
    requires |ws| == 4 * |bs| && forall k | 0 <= k < |ws| :: ws[k] == WordAt(bs, k)
    ensures Unpacked(unpIns, recs)
  {
    assert |bs| == |recs|;
    hide RxWords, RxPushed, RxGates, Kept, Passing, AllWide, AllBlocks, WordAt, BlockOf, BlocksOf;
    assert Reads(unpIns, |unpIns|, bs);
    RecordsAreKept(unpIns, |unpIns|, bs);
    KeptRecords(bs, recs, RxGates(unpIns, |unpIns|));
  }

  /** The slave stays on. */
  ghost predicate SlaveOn(ins: seq<RxInput>) {
    forall k | 0 <= k < |ins| :: ins[k].slave
  }

  /** Records in, records out.  The packer runs over any samples and any stalls; its words are put into
      the FIFO before or during the frame, which begins when the first j blocks have gone out already.
      The link and the receiver are those of FrameRoundTrip, with any history; the unpacker then reads
      the words of this frame, with any gaps, any clock ids and any filling of its FIFO.  For some k, it
      writes exactly those of the j-th to the k-th of the records taken that carry its clock id and find
      room, in order, and what is left in the transmit FIFO is the backlog that begins with the k-th, so
      that the next frame goes on from there. */
  lemma RecordsArrive(
      recIns: seq<TxInput>, j: nat, tx: Tx.State, txIns: seq<Tx.Input>, txCfg: Tx.Config,
      rx: Rx.State, earlier: seq<Rx.Input>, frame: seq<Rx.Input>, cfg: Rx.Config,
      unpIns: seq<RxInput>)
    returns (k: nat)
    requires txCfg.c == 4 && Tx.Starts(tx, txCfg) && Tx.InputsOk(txIns, 4) && Tx.RunsFrame(tx, txIns, txCfg)
    requires Backlog(Tx.RunLog(tx, txIns, |txIns|, txCfg).supplied, recIns, j)
    requires Rx.Initial(rx, 4) && Rx.Trusted(rx, earlier + frame, cfg, 4)
    requires Idle(Rx.ParseAll(Rx.START, earlier, cfg, 4))
    requires Carries(frame, Fabric.Fabric(tx, txIns, |txIns|, txCfg)) && Accepts(cfg, Tx.Title(txCfg))
    requires Honest(Rx.ParseAll(Rx.START, earlier, cfg, 4), frame, cfg, txCfg.crc, 4)
    requires AllWide(unpIns) && SlaveOn(unpIns)
    requires var t := Rx.Run(rx, earlier + frame, cfg, 4);
      Rx.ParseAll(Rx.START, earlier, cfg, 4).delivered + RxWords(unpIns, |unpIns|)
      == Rx.Outputs(rx, earlier + frame, cfg, 4) + Rx.Committed(t.port, t.asm.fifoData, Buffer.Contents(t.ring))
    ensures j <= k <= |TxRecords(recIns, |recIns|)|
    ensures Unpacked(unpIns, TxRecords(recIns, |recIns|)[j..k])
    ensures Backlog(Tx.Run(tx, txIns, |txIns|, txCfg).fifo, recIns, k)
    ensures Idle(Rx.ParseAll(Rx.START, earlier + frame, cfg, 4))
  {
    assert MasterOn(recIns);
    hide Fabric.Fabric, Rx.Run, Rx.Outputs, Rx.ParseAll, Rx.Trusted, Tx.Run, Tx.RunLog, Tx.RunsFrame, Honest,
      Delivered, Backlog,
      SameBlocks;
    hide Rx.Committed, Rx.Initial, Carries, Accepts, RxWords, RxPushed, TxRecords, Unpacked, Idle, AllWide,
      MasterOn, TxBlocks;
    var g := Tx.RunLog(tx, txIns, |txIns|, txCfg);
    FrameRoundTrip.FrameRoundTrip(tx, txIns, txCfg, rx, earlier, frame, cfg);
    Tx.BlocksAreFilled(tx, txIns, txCfg);
    k := FrameOfRecords(recIns, j, g.done, Tx.Run(tx, txIns, |txIns|, txCfg).fifo);
    SameTail(Rx.ParseAll(Rx.START, earlier, cfg, 4).delivered, RxWords(unpIns, |unpIns|), Delivered(g.done, 4));
    RecordsOfFrame(recIns, j, k, g.done, unpIns);
  }

  // ----- which frames of records are sent -----

  lemma {:induction false} AllEntriesLength(bs: seq<seq<Word>>)
    requires AllBlocks(bs)
    ensures |AllEntries(bs)| == 4 * |bs|
  {
    if bs != [] {
      AllEntriesLength(bs[..|bs| - 1]);
      assert IsBlock(bs[|bs| - 1]);
    }
  }

  lemma NextSpan(bs: seq<seq<Word>>, open: seq<Word>, j: nat, fifo: seq<Tx.Entry>, max: nat) returns (k: nat)
    requires AllBlocks(bs) && j <= |bs| && fifo != [] && FrameEnding.Complete(fifo)
    requires AllEntries(bs) + Tx.Entries(open, false) == AllEntries(bs[..j]) + fifo
    ensures j <= k <= |bs| && 4 * (k - j) == FrameEnding.Span(fifo, 0, max)
    ensures fifo[..FrameEnding.Span(fifo, 0, max)] == AllEntries(bs[j..k])
  {
    hide *;
    FrameEnding.SpanEndsWithLast(fifo, 0, max);
    var n := FrameEnding.Span(fifo, 0, max);
    var x, rest := fifo[..n], fifo[n..];
    assert fifo == x + rest && x[|x| - 1] == fifo[n - 1];
    DropFront(bs, open, j, x, rest);
    var m := CutAtBlock(bs[j..], open, x, rest);
    k := j + m;
    assert bs[j..][..m] == bs[j..k];
    SomeBlocks(bs, j, k);
    AllEntriesLength(bs[j..k]);
  }

  lemma SomeBlocks(bs: seq<seq<Word>>, j: nat, k: nat)
    requires AllBlocks(bs) && j <= k <= |bs|
    ensures AllBlocks(bs[j..k])
  {
    hide IsBlock;
  }

  /** The words an undisturbed frame takes from a backlog are the blocks of the next records. */
  lemma NextRecords(recIns: seq<TxInput>, j: nat, fifo: seq<Tx.Entry>, max: nat) returns (k: nat)
    requires Backlog(fifo, recIns, j) && fifo != [] && FrameEnding.Complete(fifo)
    ensures j <= k <= |TxBlocks(recIns, |recIns|)| && 4 * (k - j) == FrameEnding.Span(fifo, 0, max)
    ensures fifo[..FrameEnding.Span(fifo, 0, max)] == AllEntries(TxBlocks(recIns, |recIns|)[j..k])
  {
    hide TxWords, TxBlocks, TxRecords, TxOpen, AllEntries, AllBlocks, MasterOn, Tx.Entries, BlocksOf;
    hide FrameEnding.Span, FrameEnding.Complete;
    SentBlocks(recIns);
    k := NextSpan(TxBlocks(recIns, |recIns|), TxOpen(recIns, |recIns|), j, fifo, max);
  }

  /** An undisturbed frame of records leaves the transmitter if and only if none of the records it takes has
      0xCAFE in bits 31 to 16 of the TAI seconds; for 65536 seconds of every 2^32 the transmitter hangs. */
  lemma TransmitterHangsWhenTaiIsEscape(recIns: seq<TxInput>, j: nat, tx: Tx.State, txIns: seq<Tx.Input>,
      txCfg: Tx.Config)
    returns (k: nat)
    requires txCfg.c == 4 && Backlog(tx.fifo, recIns, j)
    requires Tx.Sane(tx, 4) && Tx.InputsOk(txIns, 4)
    requires FrameEnding.Undisturbed(tx, txIns, txCfg) && |txIns| > FrameEnding.Measure(tx, 4)
    ensures j <= k <= |TxRecords(recIns, |recIns|)| && 4 * (k - j) == FrameEnding.Span(tx.fifo, 0, txCfg.maxWords)
    ensures FrameEnding.Ends(tx, txIns, txCfg) <==> TaiAvoidsEscape(TxRecords(recIns, |recIns|)[j..k])
  {
    assert tx.fifo != [] && FrameEnding.Complete(tx.fifo) && MasterOn(recIns);
    hide *;
    k := NextRecords(recIns, j, tx.fifo, txCfg.maxWords);
    SentBlocks(recIns);
    PartOfBlocks(TxBlocks(recIns, |recIns|), TxRecords(recIns, |recIns|), j, k);
    CleanMeansTai(TxBlocks(recIns, |recIns|)[j..k], TxRecords(recIns, |recIns|)[j..k]);
    FrameEnding.FrameEnds(tx, txIns, txCfg);
  }

  /** In any run, with any fabric and any pushes: once the last word of a record with 0xCAFE in bits 31 to 16
      of the TAI seconds has been taken, the transmitter never comes back to IDLE. */
  lemma {:induction false} RecordHangsTransmitter(
      b: seq<Word>, r: Record, tx: Tx.State, txIns: seq<Tx.Input>, m: nat, n: nat, txCfg: Tx.Config)
    requires BlockOf(b, r) && r.tai / 0x10000 == ESC && txCfg.c == 4
    requires Tx.Sane(tx, 4) && Tx.InputsOk(txIns, 4) && m < n <= |txIns|
    requires var t := Tx.Run(tx, txIns, m, txCfg); Tx.Reads(t, txIns[m], 4) && t.fifo[0] == Tx.Entry(true, b[3])
    ensures Tx.Run(tx, txIns, n, txCfg).ctl.mode == Tx.CRC_WORD
  {
    assert FrameEnding.Traps(Tx.Run(tx, txIns, m, txCfg), txIns[m], 4) by { hide Tx.Run, Tx.Reads, Unpack; }
    hide *;
    FrameEnding.TrapIsForEver(tx, txIns, m, n, txCfg);
  }

  /** Records in, records out, from conditions on the start alone: an undisturbed frame of records none of
      which has 0xCAFE in bits 31 to 16 of the TAI seconds. */
  lemma CleanRecordsArrive(
      recIns: seq<TxInput>, j: nat, tx: Tx.State, txIns: seq<Tx.Input>, txCfg: Tx.Config,
      rx: Rx.State, earlier: seq<Rx.Input>, frame: seq<Rx.Input>, cfg: Rx.Config,
      unpIns: seq<RxInput>)
    returns (k: nat)
    requires txCfg.c == 4 && Tx.Sane(tx, 4) && Tx.InputsOk(txIns, 4) && Backlog(tx.fifo, recIns, j)
    requires FrameEnding.Undisturbed(tx, txIns, txCfg) && |txIns| > FrameEnding.Measure(tx, 4)
    requires var recs, m := TxRecords(recIns, |recIns|), FrameEnding.Span(tx.fifo, 0, txCfg.maxWords) / 4;
      j + m <= |recs| ==> TaiAvoidsEscape(recs[j..j + m])
    requires Rx.Initial(rx, 4) && Rx.Trusted(rx, earlier + frame, cfg, 4)
    requires Idle(Rx.ParseAll(Rx.START, earlier, cfg, 4))
    requires Carries(frame, SentSignals(tx, txIns, txCfg)) && Accepts(cfg, Tx.Title(txCfg))
    requires Honest(Rx.ParseAll(Rx.START, earlier, cfg, 4), frame, cfg, txCfg.crc, 4)
    requires AllWide(unpIns) && SlaveOn(unpIns)
    requires var t := Rx.Run(rx, earlier + frame, cfg, 4);
      Rx.ParseAll(Rx.START, earlier, cfg, 4).delivered + RxWords(unpIns, |unpIns|)
      == Rx.Outputs(rx, earlier + frame, cfg, 4) + Rx.Committed(t.port, t.asm.fifoData, Buffer.Contents(t.ring))
    ensures j <= k <= |TxRecords(recIns, |recIns|)|
    ensures 4 * (k - j) == FrameEnding.Span(tx.fifo, 0, txCfg.maxWords)
    ensures Unpacked(unpIns, TxRecords(recIns, |recIns|)[j..k])
    ensures Backlog(LeftBehind(tx, txIns, txCfg), recIns, k)
    ensures Idle(Rx.ParseAll(Rx.START, earlier + frame, cfg, 4))
  {
    hide *;
    var m := TransmitterHangsWhenTaiIsEscape(recIns, j, tx, txIns, txCfg);
    FrameEnding.FrameEnds(tx, txIns, txCfg);
    var e := FrameEnding.CleanFrameRuns(tx, txIns, txCfg);
    FrameEnding.UndisturbedIsFed(tx, txIns, e, txCfg);
    FrameEnding.RunOfPrefix(tx, txIns, e, e, txCfg);
    FrameRoundTrip.FabricOfPrefix(tx, txIns, e, e, txCfg);
    SentFrameIs(tx, txIns, txCfg);
    k := RecordsArrive(recIns, j, tx, txIns[..e], txCfg, rx, earlier, frame, cfg, unpIns);
    LeftBehindIs(tx, txIns, txCfg);
    BacklogShrinks(tx.fifo, j, Tx.Run(tx, txIns, e, txCfg).fifo, k, recIns);
  }

  /** What is in the FIFO when the frame is over. */
  ghost function LeftBehind(tx: Tx.State, txIns: seq<Tx.Input>, txCfg: Tx.Config): seq<Tx.Entry>
    requires Tx.Sane(tx, txCfg.c) && Tx.InputsOk(txIns, txCfg.c)
  {
    Tx.Run(tx, txIns, FrameEnding.End(tx, txIns, txCfg), txCfg).fifo
  }

  lemma {:induction false} LeftBehindIs(tx: Tx.State, txIns: seq<Tx.Input>, txCfg: Tx.Config)
    requires Tx.Sane(tx, txCfg.c) && Tx.InputsOk(txIns, txCfg.c)
    ensures LeftBehind(tx, txIns, txCfg) == Tx.Run(tx, txIns, FrameEnding.End(tx, txIns, txCfg), txCfg).fifo
  {}

  /** What has left the FIFO are the words of as many blocks. */
  lemma BacklogShrinks(before: seq<Tx.Entry>, j: nat, after: seq<Tx.Entry>, k: nat, recIns: seq<TxInput>)
    requires Backlog(before, recIns, j) && Backlog(after, recIns, k)
    ensures |before| - |after| == 4 * (k - j)
  {
    var bs := TxBlocks(recIns, |recIns|);
    hide TxWords, TxBlocks, TxRecords, TxOpen, AllEntries, AllBlocks, Tx.Entries, BlocksOf, MasterOn;
    SentBlocks(recIns);
    SomeBlocks(bs, 0, j);
    SomeBlocks(bs, 0, k);
    assert bs[0..j] == bs[..j] && bs[0..k] == bs[..k];
    AllEntriesLength(bs[..j]);
    AllEntriesLength(bs[..k]);
  }

  // ----- one record, from power-up -----

  /** The packer takes one record and is never kept waiting. */
  function OneRecord(snap: Snapshot, clkId: Chunk): (ins: seq<TxInput>)
    ensures |ins| == 5
  {
    var i := TxInput(true, true, snap, clkId, true);
    [i, i, i, i, i]
  }

  lemma OneRecordSent(snap: Snapshot, clkId: Chunk)
    ensures var ins := OneRecord(snap, clkId);
      MasterOn(ins) && TxRecords(ins, 5) == [RecordOf(snap, clkId)] && TxOpen(ins, 5) == [] && |TxBlocks(ins, 5)| == 1
  {
    hide SetTimestamp, SetAcc, SetTune, Chunks, RecordOf;
    var ins, r := OneRecord(snap, clkId), RecordOf(snap, clkId);
    assert TxRun(ins, 1).mode == TX_TIMESTAMP && TxRecords(ins, 1) == [] && TxBlocks(ins, 1) == [];
    assert TxRun(ins, 2).mode == TX_ACC && TxRecords(ins, 2) == [] && TxBlocks(ins, 2) == [];
    assert TxRun(ins, 3).mode == TX_TUNE && TxRecords(ins, 3) == [] && TxBlocks(ins, 3) == [];
    assert TxRun(ins, 4).mode == TX_PAD && TxRecords(ins, 4) == [] && TxBlocks(ins, 4) == [];
    assert TxSampled(ins, 4) == Sampled(snap, clkId);
    assert TxRun(ins, 5).mode == WAIT_SAMPLE && TxRecords(ins, 5) == [r] && |TxBlocks(ins, 5)| == 1;
  }

  /** Its four words are a backlog of their own. */
  lemma OneRecordWaits(snap: Snapshot, clkId: Chunk)
    ensures var fifo := TxWords(OneRecord(snap, clkId), 5);
      && Backlog(fifo, OneRecord(snap, clkId), 0) && |fifo| == 4 && FrameEnding.Complete(fifo)
      && forall k | 0 <= k < 4 :: |fifo[k].data| == 4
  {
    hide *;
    var ins := OneRecord(snap, clkId);
    OneRecordSent(snap, clkId);
    SentBlocks(ins);
    OneBlock(TxBlocks(ins, 5));
    BacklogOfAll(ins);
  }

  lemma {:induction false} OneBlock(bs: seq<seq<Word>>)
    requires |bs| == 1 && AllBlocks(bs)
    ensures var e := AllEntries(bs) + Tx.Entries([], false);
      |e| == 4 && FrameEnding.Complete(e) && forall k | 0 <= k < 4 :: |e[k].data| == 4
  {
    assert IsBlock(bs[0]);
    assert AllEntries(bs[..0]) == [];
    assert AllEntries(bs) == Tx.Entries(bs[0], true);
  }

  lemma {:induction false} BacklogOfAll(recIns: seq<TxInput>)
    requires MasterOn(recIns)
    ensures Backlog(TxWords(recIns, |recIns|), recIns, 0)
  {
    var none := TxBlocks(recIns, |recIns|)[..0];
    assert AllEntries(none) == [];
    hide TxWords, TxBlocks, MasterOn, AllEntries;
    assert AllEntries(none) + TxWords(recIns, |recIns|) == TxWords(recIns, |recIns|);
  }

  function Ready(n: nat): (ins: seq<Tx.Input>)
    ensures |ins| == n && forall k | 0 <= k < n :: ins[k].ready && ins[k].push.None?
  {
    seq(n, _ => Tx.Input(None, false, true, 0, 0))
  }

  /** The hang is within reach: from power-up, with a ready fabric and a FIFO that holds nothing but one
      record, the frame ends if and only if bits 31 to 16 of its TAI seconds are not 0xCAFE. */
  lemma FrameOfOneRecord(snap: Snapshot, clkId: Chunk, txCfg: Tx.Config)
    returns (fill: seq<Tx.Input>, tx: Tx.State, txIns: seq<Tx.Input>)
    requires txCfg.c == 4
    ensures Tx.Sane(FrameEnding.PowerUp(), 4) && Tx.InputsOk(fill, 4)
    ensures tx == Tx.Run(FrameEnding.PowerUp(), fill, |fill|, txCfg) && tx.fifo == TxWords(OneRecord(snap, clkId), 5)
    ensures Tx.Sane(tx, 4) && Tx.InputsOk(txIns, 4)
    ensures FrameEnding.Undisturbed(tx, txIns, txCfg) && |txIns| > FrameEnding.Measure(tx, 4)
    ensures FrameEnding.Ends(tx, txIns, txCfg) <==> snap.tai % 0x1_0000_0000 / 0x10000 != ESC
  {
    var recIns := OneRecord(snap, clkId);
    OneRecordWaits(snap, clkId);
    OneRecordSent(snap, clkId);
    fill := FrameEnding.FrameFromPowerUp(TxWords(recIns, 5), txCfg);
    tx := Tx.Run(FrameEnding.PowerUp(), fill, |fill|, txCfg);
    var m := FrameEnding.Measure(tx, 4);
    FrameEnding.PotentialIsBounded(tx, 4);
    txIns := Ready(m + 1);
    assert Tx.InputsOk(txIns, 4) && FrameEnding.Undisturbed(tx, txIns, txCfg) by {
      hide Tx.Run, TxWords, OneRecord, Ready, Tx.Starts, FrameEnding.Measure, FrameEnding.Complete;
    }
    hide Tx.Run, TxWords, OneRecord, Ready, FrameEnding.Undisturbed, FrameEnding.Ends, TxRecords, Backlog,
      FrameEnding.Measure;
    var k := TransmitterHangsWhenTaiIsEscape(recIns, 0, tx, txIns, txCfg);
    assert k == 1;
    assert TxRecords(recIns, 5)[0..1] == [RecordOf(snap, clkId)];
    TaiAppend([], RecordOf(snap, clkId));
    assert [] + [RecordOf(snap, clkId)] == [RecordOf(snap, clkId)];
  }

  lemma FrameWithTai(snap: Snapshot, txCfg: Tx.Config) returns (tx: Tx.State, txIns: seq<Tx.Input>)
    requires txCfg.c == 4
    ensures Tx.Sane(tx, 4) && Tx.InputsOk(txIns, 4)
    ensures FrameEnding.Undisturbed(tx, txIns, txCfg) && |txIns| > FrameEnding.Measure(tx, 4)
    ensures FrameEnding.Ends(tx, txIns, txCfg) <==> snap.tai % 0x1_0000_0000 / 0x10000 != ESC
  {
    hide *;
    var fill;
    fill, tx, txIns := FrameOfOneRecord(snap, 0, txCfg);
  }

  /** Both sides occur. */
  lemma OneRecordHangsAnotherDoesNot(txCfg: Tx.Config)
    returns (hanging: Tx.State, hangIns: seq<Tx.Input>, ending: Tx.State, endIns: seq<Tx.Input>)
    requires txCfg.c == 4
    ensures Tx.Sane(hanging, 4) && Tx.InputsOk(hangIns, 4) && Tx.Sane(ending, 4) && Tx.InputsOk(endIns, 4)
    ensures FrameEnding.Undisturbed(hanging, hangIns, txCfg) && |hangIns| > FrameEnding.Measure(hanging, 4)
    ensures FrameEnding.Undisturbed(ending, endIns, txCfg) && |endIns| > FrameEnding.Measure(ending, 4)
    ensures !FrameEnding.Ends(hanging, hangIns, txCfg) && FrameEnding.Ends(ending, endIns, txCfg)
  {
    var bad, good := Snapshot(0xCAFE_0000, 0, 0, 0), Snapshot(0, 0, 0, 0);
    hanging, hangIns := FrameWithTai(bad, txCfg);
    ending, endIns := FrameWithTai(good, txCfg);
    hide *;
  }

  /** Words one in every cycle, one clock id and always room. */
  function Received(ws: seq<Rx.Entry>, clkId: Chunk): (ins: seq<RxInput>)
    ensures SlaveOn(ins) && Open(ins, clkId)
  {
    seq(|ws|, k requires 0 <= k < |ws| => RxInput(true, Some(ws[k]), clkId, false))
  }

  lemma {:induction false} ReceivedWords(ws: seq<Rx.Entry>, clkId: Chunk, n: nat)
    requires n <= |ws|
    ensures RxWords(Received(ws, clkId), n) == ws[..n]
  {
    if n > 0 { ReceivedWords(ws, clkId, n - 1); }
  }

  /** A passage of one frame: what fills the FIFO, the transmitter as its frame begins and the inputs of the
      frame, the receiver and its inputs from the start to the end of the frame, and those of the unpacker. */
  datatype Passage = Passage(
    fill: seq<Tx.Input>, tx: Tx.State, txIns: seq<Tx.Input>, rx: Rx.State, frame: seq<Rx.Input>, unpIns: seq<RxInput>)

  /** The transmitter has been filled from power-up with the words of one record, and its frame is left alone. */
  ghost predicate FrameIsSent(p: Passage, snap: Snapshot, clkId: Chunk, txCfg: Tx.Config)
    requires txCfg.c == 4
  {
    && Tx.Sane(FrameEnding.PowerUp(), 4) && Tx.InputsOk(p.fill, 4) && Tx.Sane(p.tx, 4) && Tx.InputsOk(p.txIns, 4)
    && p.tx == Tx.Run(FrameEnding.PowerUp(), p.fill, |p.fill|, txCfg)
    && p.tx.fifo == TxWords(OneRecord(snap, clkId), 5)
    && FrameEnding.Undisturbed(p.tx, p.txIns, txCfg) && |p.txIns| > FrameEnding.Measure(p.tx, 4)
  }

  /** A receiver that has been reset is given the frame, with right CRC verdicts, and the unpacker its words. */
  ghost predicate FrameIsReceived(p: Passage, txCfg: Tx.Config, cfg: Rx.Config)
    requires txCfg.c == 4 && Tx.Sane(p.tx, 4) && Tx.InputsOk(p.txIns, 4)
  {
    && Rx.Initial(p.rx, 4) && Rx.Trusted(p.rx, p.frame, cfg, 4)
    && Carries(p.frame, SentSignals(p.tx, p.txIns, txCfg))
    && Honest(Rx.START, p.frame, cfg, txCfg.crc, 4)
    && var t := Rx.Run(p.rx, p.frame, cfg, 4);
    && RxWords(p.unpIns, |p.unpIns|)
      == Rx.Outputs(p.rx, p.frame, cfg, 4) + Rx.Committed(t.port, t.asm.fifoData, Buffer.Contents(t.ring))
    && AllWide(p.unpIns)
  }

  /** All of it occurs together, for every record without the escape code in bits 31 to 16 of its TAI
      seconds and for every receiver that is set up for the transmitter's frames: from power-up on both
      sides, a frame of this record is sent, carried, received, read, and the record written. */
  lemma OneRecordArrives(snap: Snapshot, clkId: Chunk, txCfg: Tx.Config, cfg: Rx.Config) returns (p: Passage)
    requires txCfg.c == 4 && Accepts(cfg, Tx.Title(txCfg)) && snap.tai % 0x1_0000_0000 / 0x10000 != ESC
    ensures FrameIsSent(p, snap, clkId, txCfg) && FrameIsReceived(p, txCfg, cfg)
    ensures RxPushed(p.unpIns, |p.unpIns|) == [RecordOf(snap, clkId)]
  {
    hide *;
    p := PassageOf(snap, clkId, txCfg, cfg);
    PassageArrives(p, snap, clkId, txCfg, cfg);
  }

  lemma PassageOf(snap: Snapshot, clkId: Chunk, txCfg: Tx.Config, cfg: Rx.Config) returns (p: Passage)
    requires txCfg.c == 4 && Accepts(cfg, Tx.Title(txCfg)) && snap.tai % 0x1_0000_0000 / 0x10000 != ESC
    ensures FrameIsSent(p, snap, clkId, txCfg) && FrameIsReceived(p, txCfg, cfg)
    ensures SlaveOn(p.unpIns) && Open(p.unpIns, clkId)
  {
    var fill, tx, txIns := FrameOfOneRecord(snap, clkId, txCfg);
    hide Tx.Sane, Tx.InputsOk, Tx.Run, TxWords, OneRecord, FrameEnding.Undisturbed, FrameEnding.Measure, Rx.Initial,
      Rx.Trusted, Carries, Honest, Rx.Run, RxWords, Rx.Outputs, Rx.Committed, Buffer.Contents, AllWide, SentFrame,
      LinkFrame, Link, Rx.ParseAll, Rx.PowerUp, SlaveOn, Open, FrameEnding.PowerUp, FrameEnding.Ends, SentSignals,
      FrameEnding.Clean, FrameEnding.Span, Accepts, Fabric.Datas;
    FrameEnding.FrameEnds(tx, txIns, txCfg);
    SentOnLink(tx, txIns, txCfg, cfg);
    var wire := SentFrame(tx, txIns, txCfg).wire;
    var frame := LinkFrame(wire, cfg, txCfg.crc, 4);
    LinkReceives(wire, cfg, txCfg.crc);
    var unpIns := WordsAreRead(Rx.ParseAll(Rx.START, frame, cfg, 4).delivered, clkId);
    p := Passage(fill, tx, txIns, Rx.PowerUp(4, |wire| + 3), frame, unpIns);
  }

  lemma PassageArrives(p: Passage, snap: Snapshot, clkId: Chunk, txCfg: Tx.Config, cfg: Rx.Config)
    requires txCfg.c == 4 && Accepts(cfg, Tx.Title(txCfg)) && snap.tai % 0x1_0000_0000 / 0x10000 != ESC
    requires FrameIsSent(p, snap, clkId, txCfg) && FrameIsReceived(p, txCfg, cfg)
    requires SlaveOn(p.unpIns) && Open(p.unpIns, clkId)
    ensures RxPushed(p.unpIns, |p.unpIns|) == [RecordOf(snap, clkId)]
  {
    hide Tx.Sane, Tx.InputsOk, Tx.Run, TxWords, OneRecord, FrameEnding.Undisturbed, FrameEnding.Measure, Rx.Initial,
      Rx.Trusted, Carries, Honest, Rx.Run, RxWords, Rx.Outputs, Rx.Committed, Buffer.Contents, AllWide, SentFrame,
      Rx.ParseAll, SlaveOn, Open, FrameEnding.PowerUp, FrameEnding.Span, Backlog, TaiAvoidsEscape, Unpacked,
      RxPushed, TxRecords, TxBlocks, RecordOf, Accepts, Tx.Title, FrameEnding.Complete, Idle, Rx.START, MasterOn;
    OneRecordWaits(snap, clkId);
    OneRecordSent(snap, clkId);
    OneRecordIsClean(snap, clkId, FrameEnding.Span(p.tx.fifo, 0, txCfg.maxWords) / 4);
    BeforeAnyFrame(p.frame, RxWords(p.unpIns, |p.unpIns|), cfg, 4);
    var k := CleanRecordsArrive(OneRecord(snap, clkId), 0, p.tx, p.txIns, txCfg, p.rx, [], p.frame, cfg, p.unpIns);
    OneRecordUnpacked(p.unpIns, snap, clkId, k);
  }

  lemma OneRecordIsClean(snap: Snapshot, clkId: Chunk, m: nat)
    requires snap.tai % 0x1_0000_0000 / 0x10000 != ESC && m <= 1
    ensures TaiAvoidsEscape([RecordOf(snap, clkId)][0..m])
  {}

  lemma {:induction false} OneRecordUnpacked(unpIns: seq<RxInput>, snap: Snapshot, clkId: Chunk, k: nat)
    requires AllWide(unpIns) && k == 1 && Unpacked(unpIns, [RecordOf(snap, clkId)][0..k]) && Open(unpIns, clkId)
    ensures RxPushed(unpIns, |unpIns|) == [RecordOf(snap, clkId)]
  {
    hide RxPushed, RxGates, Passing, AllWide, Open;
    var r := RecordOf(snap, clkId);
    assert [r][0..k] == [r];
    MatchingArrive(unpIns, [r], clkId);
    assert Filtered([], clkId) == [] && [r][..0] == [];
    assert Filtered([r], clkId) == [r];
  }

  lemma {:induction false} BeforeAnyFrame(frame: seq<Rx.Input>, ws: seq<Rx.Entry>, cfg: Rx.Config, c: nat)
    ensures Rx.ParseAll(Rx.START, [], cfg, c) == Rx.START && Idle(Rx.START)
    ensures Rx.START.delivered + ws == ws && [] + frame == frame
  {}

  lemma WordsAreRead(ws: seq<Rx.Entry>, clkId: Chunk) returns (unpIns: seq<RxInput>)
    requires forall k | 0 <= k < |ws| :: |ws[k].data| == 4
    ensures AllWide(unpIns) && SlaveOn(unpIns) && Open(unpIns, clkId) && RxWords(unpIns, |unpIns|) == ws
  {
    unpIns := Received(ws, clkId);
    ReceivedWords(ws, clkId, |ws|);
    hide RxWords;
    assert ws[..|ws|] == ws;
  }

  /** A receiver that has been reset, with a buffer that is larger than the frame, gets the frame. */
  lemma {:induction false} LinkReceives(wire: seq<Chunk>, cfg: Rx.Config, crc: seq<Chunk> -> Chunk)
    requires Rx.ParseAll(Rx.START, Link(wire, cfg, crc, 4), cfg, 4).ctl.mode != Rx.PAYLOAD
    ensures var frame := LinkFrame(wire, cfg, crc, 4);
      && Reaches(Rx.PowerUp(4, |wire| + 3), frame, Rx.ParseAll(Rx.START, frame, cfg, 4).delivered, cfg)
      && Carries(frame, [Fabric.Start] + Fabric.Datas(wire) + [Fabric.End])
      && Honest(Rx.START, frame, cfg, crc, 4)
  {
    hide LinkFrame, Link, Honest, Carries, Rx.Trusted, Rx.Run, Rx.Outputs, Rx.Committed, Buffer.Contents,
      Rx.ParseAll, Buffer.Valid, Rx.PowerUp, Fabric.Datas;
    LinkCarriesFrame(wire, cfg, crc, 4);
    var frame, rx := LinkFrame(wire, cfg, crc, 4), Rx.PowerUp(4, |wire| + 3);
    forall k | 0 <= k < |frame| ensures !Rx.CutsAfter(frame[..k], frame[k], cfg, 4) {
      if k <= |wire| { assert frame[k] == frame[..|wire| + 1][k]; }
    }
    Rx.ShortReception(rx, frame, cfg, 4);
    Rx.AllOrNothing(rx, frame, cfg, 4);
    Rx.DeliveredAreWhole(frame, cfg, 4);
  }

  /** The words that the user gets of a reception. */
  ghost predicate Reaches(rx: Rx.State, all: seq<Rx.Input>, ws: seq<Rx.Entry>, cfg: Rx.Config) {
    && Rx.Initial(rx, 4) && Rx.Trusted(rx, all, cfg, 4)
    && (var t := Rx.Run(rx, all, cfg, 4);
      ws == Rx.Outputs(rx, all, cfg, 4) + Rx.Committed(t.port, t.asm.fifoData, Buffer.Contents(t.ring)))
    && forall k | 0 <= k < |ws| :: |ws[k].data| == 4
  }

  lemma SameTail<T>(a: seq<T>, x: seq<T>, y: seq<T>)
    requires a + x == a + y
    ensures x == y
  {
    assert (a + x)[|a|..] == x && (a + y)[|a|..] == y;
  }
}
