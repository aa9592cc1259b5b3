// Which frames reach the user of the receiving streamer at all, and what of a frame is delivered.
module FrameFilter {
  import opened EscapeCode
  import opened FrameRoundTrip
  import Rx = RxStreamer
  import Buffer = DroppingBuffer

  ghost predicate NoStart(ins: seq<Rx.Input>) {
    forall k | 0 <= k < |ins| :: !ins[k].sof
  }

  // ----- outside a frame -----

  predicate Outside(p: Rx.Parser) {
    p.ctl.mode == Rx.IDLE || p.ctl.mode == Rx.FRAME_END
  }

  lemma OutsideStep(p: Rx.Parser, i: Rx.Input, cfg: Rx.Config, c: nat)
    requires !i.sof && (Outside(p) || i.eof)
    ensures var q := Rx.Parse(p, i, cfg, c); q.ctl.mode == Rx.IDLE && q.delivered == p.delivered
  {}

  lemma {:induction false} NothingOutside(p: Rx.Parser, ins: seq<Rx.Input>, cfg: Rx.Config, c: nat)
    requires Outside(p) && NoStart(ins)
    ensures var q := Rx.ParseAll(p, ins, cfg, c); Outside(q) && q.delivered == p.delivered
  {
    hide Rx.Parse;
    if ins != [] {
      var n := |ins| - 1;
      NothingOutside(p, ins[..n], cfg, c);
      OutsideStep(Rx.ParseAll(p, ins[..n], cfg, c), ins[n], cfg, c);
    }
  }

  /** Wherever the end of a frame comes, nothing is delivered with it, nor after it until the next one starts. */
  lemma {:induction false} NothingAfterEnd(p: Rx.Parser, i: Rx.Input, ins: seq<Rx.Input>, cfg: Rx.Config, c: nat)
    requires i.eof && !i.sof && NoStart(ins)
    ensures Rx.ParseAll(p, [i] + ins, cfg, c).delivered == p.delivered
  {
    assert [i][..0] == [];
    assert Rx.ParseAll(p, [i], cfg, c) == Rx.Parse(p, i, cfg, c);
    hide Rx.Parse, Rx.ParseAll;
    OutsideStep(p, i, cfg, c);
    ParseConcat(p, [i], ins, cfg, c);
    NothingOutside(Rx.Parse(p, i, cfg, c), ins, cfg, c);
  }

  // ----- the header -----

  /** The parser since the start of a frame: it has given the frame up, or none of its header words so far has been
      rejected. */
  ghost predicate Filters(p: Rx.Parser, q: Rx.Parser, ws: seq<Chunk>, cfg: Rx.Config) {
    || (q.ctl.mode == Rx.IDLE && q.delivered == p.delivered)
    || ((forall k: nat | k < |ws| && k < 7 :: !Rx.HeaderRejects(cfg, k, ws[k]))
      && (|ws| < 9 ==> q.ctl == Rx.Control(Rx.HEADER, |ws|, false) && q.delivered == p.delivered && !q.check))
  }

  lemma FilterStep(p: Rx.Parser, q: Rx.Parser, ws: seq<Chunk>, i: Rx.Input, cfg: Rx.Config, c: nat)
    requires Filters(p, q, ws, cfg) && !i.sof
    ensures Filters(p, Rx.Parse(q, i, cfg, c), Append(ws, i.word), cfg)
  {
    hide Rx.HeaderRejects, Rx.Flagged;
    if i.word.Some? { assert (ws + [i.word.value])[|ws|] == i.word.value; }
  }

  lemma {:induction false} FilterHolds(p: Rx.Parser, ins: seq<Rx.Input>, cfg: Rx.Config, c: nat)
    requires p.ctl == Rx.Control(Rx.HEADER, 0, false) && !p.check && NoStart(ins)
    ensures Filters(p, Rx.ParseAll(p, ins, cfg, c), WordsOf(ins), cfg)
  {
    hide Rx.Parse, Filters;
    if ins == [] {
      FilterBegins(p, cfg);
    } else {
      var n := |ins| - 1;
      FilterHolds(p, ins[..n], cfg, c);
      FilterStep(p, Rx.ParseAll(p, ins[..n], cfg, c), WordsOf(ins[..n]), ins[n], cfg, c);
    }
  }

  lemma FilterBegins(p: Rx.Parser, cfg: Rx.Config)
    requires p.ctl == Rx.Control(Rx.HEADER, 0, false) && !p.check
    ensures Filters(p, p, [], cfg)
  {}

  lemma {:induction false} AfterStart(p: Rx.Parser, sof: Rx.Input, ins: seq<Rx.Input>, cfg: Rx.Config, c: nat)
    requires Idle(p) && Begins(p, sof)
    ensures var q := Rx.Parse(p, sof, cfg, c);
      && q.ctl == Rx.Control(Rx.HEADER, 0, false) && !q.check && q.words == [] && q.rest == []
      && q.delivered == p.delivered && Rx.ParseAll(p, [sof] + ins, cfg, c) == Rx.ParseAll(q, ins, cfg, c)
  {
    assert [sof][..0] == [];
    assert Rx.ParseAll(p, [sof], cfg, c) == Rx.Parse(p, sof, cfg, c);
    hide Rx.ParseAll;
    ParseConcat(p, [sof], ins, cfg, c);
  }

  /** Whatever comes after its start, and wherever it ends: nothing is delivered of a frame whose header is not
      complete, or has a wrong address or a wrong type. */
  lemma {:induction false} ForeignFrame(p: Rx.Parser, sof: Rx.Input, ins: seq<Rx.Input>, cfg: Rx.Config, c: nat)
    requires Idle(p) && Begins(p, sof) && NoStart(ins)
    requires var ws := WordsOf(ins); |ws| < 9 || !Accepts(cfg, ws[..7])
    ensures Rx.ParseAll(p, [sof] + ins, cfg, c).delivered == p.delivered
  {
    var q, ws := Rx.Parse(p, sof, cfg, c), WordsOf(ins);
    AfterStart(p, sof, ins, cfg, c);
    FilterHolds(q, ins, cfg, c);
    if |ws| >= 9 { NothingRejected(cfg, ws[..7]); }
    hide Rx.Parse, Rx.ParseAll, Accepts, Rx.HeaderRejects, WordsOf;
    assert |ws| >= 9 ==> forall k: nat | k < 7 :: ws[..7][k] == ws[k];
  }

  /** So nothing is delivered of a frame of another type, nor, when the source is filtered, of one from elsewhere. */
  lemma {:induction false} WrongTypeOrSource(p: Rx.Parser, sof: Rx.Input, ins: seq<Rx.Input>, cfg: Rx.Config, c: nat)
    requires Idle(p) && Begins(p, sof) && NoStart(ins)
    requires var ws := WordsOf(ins);
      |ws| >= 7 && (ws[6] != cfg.ethertype || (cfg.filterRemote && (ws[3], ws[4], ws[5]) != cfg.macRemote))
    ensures Rx.ParseAll(p, [sof] + ins, cfg, c).delivered == p.delivered
  {
    hide WordsOf, Rx.ParseAll, Idle, Begins, NoStart;
    OfTypeAndSource(cfg, WordsOf(ins)[..7]);
    ForeignFrame(p, sof, ins, cfg, c);
  }

  lemma OfTypeAndSource(cfg: Rx.Config, title: seq<Chunk>)
    requires |title| == 7
    ensures Accepts(cfg, title) ==>
      title[6] == cfg.ethertype && (cfg.filterRemote ==> (title[3], title[4], title[5]) == cfg.macRemote)
  {
    if Accepts(cfg, title) {
      assert Rx.ComparisonHolds(cfg, 6, title[6]) && Rx.ComparisonHolds(cfg, 3, title[3]);
      assert Rx.ComparisonHolds(cfg, 4, title[4]) && Rx.ComparisonHolds(cfg, 5, title[5]);
    }
  }

  /** Behind the nine words of a header, the receiver listens if and only if it is set up for the frame. */
  lemma {:induction false} HeaderDecides(p: Rx.Parser, sof: Rx.Input, ins: seq<Rx.Input>, cfg: Rx.Config, c: nat)
    requires Idle(p) && Begins(p, sof) && MidFrame(ins) && |WordsOf(ins)| == 9
    ensures var q := Rx.ParseAll(p, [sof] + ins, cfg, c);
      && (q.ctl.mode == Rx.SUBFRAME_HEADER <==> Accepts(cfg, WordsOf(ins)[..7]))
      && (q.ctl.mode == Rx.IDLE <==> !Accepts(cfg, WordsOf(ins)[..7]))
      && q.delivered == p.delivered
  {
    var q, ws := Rx.Parse(p, sof, cfg, c), WordsOf(ins);
    AfterStart(p, sof, ins, cfg, c);
    if Accepts(cfg, ws[..7]) {
      HeaderIsAccepted(cfg, ws, ws[..7]);
      hide Rx.Parse, Rx.ParseAll, Accepts, WordsOf, HeaderAccepted;
      HeaderIsParsed(q, ins, cfg, ws, c);
    } else {
      FilterHolds(q, ins, cfg, c);
      NothingRejected(cfg, ws[..7]);
      hide Rx.Parse, Rx.ParseAll, Accepts, Rx.HeaderRejects, WordsOf;
      assert forall k: nat | k < 7 :: ws[..7][k] == ws[k];
    }
  }

  /** The user of a receiver gets nothing of such a frame. */
  lemma {:induction false} ForeignFrameIsIgnored(rx: Rx.State, earlier: seq<Rx.Input>, sof: Rx.Input,
      ins: seq<Rx.Input>, cfg: Rx.Config, c: nat)
    requires Rx.Initial(rx, c) && Rx.Trusted(rx, earlier + ([sof] + ins), cfg, c)
    requires Idle(Rx.ParseAll(Rx.START, earlier, cfg, c)) && Begins(Rx.ParseAll(Rx.START, earlier, cfg, c), sof)
    requires NoStart(ins)
    requires var ws := WordsOf(ins); |ws| < 9 || !Accepts(cfg, ws[..7])
    ensures var all := earlier + ([sof] + ins); var t := Rx.Run(rx, all, cfg, c);
      Rx.Outputs(rx, all, cfg, c) + Rx.Committed(t.port, t.asm.fifoData, Buffer.Contents(t.ring))
      == Rx.ParseAll(Rx.START, earlier, cfg, c).delivered
  {
    hide Rx.Run, Rx.Outputs, Rx.ParseAll, Rx.Trusted, Rx.Committed, Accepts, WordsOf, Idle, Begins, NoStart,
      Buffer.Contents;
    Rx.AllOrNothing(rx, earlier + ([sof] + ins), cfg, c);
    ParseConcat(Rx.START, earlier, [sof] + ins, cfg, c);
    ForeignFrame(Rx.ParseAll(Rx.START, earlier, cfg, c), sof, ins, cfg, c);
  }

  // ----- sub-frames -----

  /** What is delivered in one cycle: all words of the open sub-frame, in order, the first one flagged as first and
      the last one as last, when a control word closes it, its check word is right, and the control word opens
      another sub-frame or is the end-of-frame word; and nothing in any other cycle. */
  lemma DeliversExactly(p: Rx.Parser, i: Rx.Input, cfg: Rx.Config, c: nat)
    ensures var q, n := Rx.Parse(p, i, cfg, c), |p.words|;
      var closes := p.ctl.mode == Rx.PAYLOAD && !i.eof && p.check && i.word.Some? && i.crcMatch
        && (i.word.value >= 0x8000 || i.word.value == 0x0BAD);
      && |q.delivered| == |p.delivered| + (if closes then n else 0) && q.delivered[..|p.delivered|] == p.delivered
      && (closes ==> forall k | 0 <= k < n ::
        q.delivered[|p.delivered| + k] == Rx.Entry(k == 0, k == n - 1 && |p.rest| + 1 < c, p.words[k]))
  {}
}
