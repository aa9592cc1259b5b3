// Escape coding of the frame payload: the inserter (gc_escape_inserter) and the detector
// (escape_detector), clocked, and the code they implement.
module EscapeCode {

  type Chunk = x: int | 0 <= x < 0x10000

  /** A data word of a streamer, lowest chunk first. */
  type Word = seq<Chunk>

  /** The escape code of both streamers. */
  const ESC: Chunk := 0xCAFE

  /** The control word that closes the last sub-frame. */
  const END_OF_FRAME: Chunk := 0x0BAD

  datatype Option<T> = None | Some(value: T)

  /** What the state machines exchange: a data chunk or an escaped control word. */
  datatype Symbol = Symbol(escape: bool, data: Chunk)

  // ----- the code -----

  function EncodeOne(s: Symbol): seq<Chunk> {
    if s.escape then [ESC, s.data] else if s.data == ESC then [ESC, 0] else [s.data]
  }

  function Encode(xs: seq<Symbol>): seq<Chunk> {
    if xs == [] then [] else Encode(xs[..|xs| - 1]) + EncodeOne(xs[|xs| - 1])
  }

  /** Detector output for one word: the new state and the decoded symbol, if any. */
  function DetectOne(check: bool, w: Chunk): (bool, Option<Symbol>) {
    if !check && w == ESC then (true, None)
    else if check && w == 0 then (false, Some(Symbol(false, ESC)))
    else (false, Some(Symbol(check, w)))
  }

  function Append<T>(xs: seq<T>, o: Option<T>): seq<T> {
    match o case None => xs case Some(v) => xs + [v]
  }

  /** Detector state and decoded symbols after a sequence of words. */
  function Decode(ws: seq<Chunk>): (bool, seq<Symbol>) {
    if ws == [] then (false, [])
    else
      var (check, xs) := Decode(ws[..|ws| - 1]);
      var (check', x) := DetectOne(check, ws[|ws| - 1]);
      (check', Append(xs, x))
  }

  lemma {:induction false} DecodeAppend(ws: seq<Chunk>, w: Chunk)
    ensures Decode(ws + [w]) == var d := Decode(ws); var o := DetectOne(d.0, w); (o.0, Append(d.1, o.1))
  {
    assert (ws + [w])[..|ws|] == ws;
  }

  predicate NoEscapedZero(xs: seq<Symbol>) {
    forall i | 0 <= i < |xs| :: xs[i].escape ==> xs[i].data != 0
  }

  /** What the detector makes of an encoded symbol. */
  function Reread(s: Symbol): Symbol {
    if s.escape && s.data == 0 then Symbol(false, ESC) else s
  }

  lemma {:induction false} DecodeEncodeOne(ws: seq<Chunk>, x: Symbol)
    requires !Decode(ws).0
    ensures Decode(ws + EncodeOne(x)) == (false, Decode(ws).1 + [Reread(x)])
  {
    if x.escape || x.data == ESC {
      var second := if x.escape then x.data else 0;
      DecodeAppend(ws, ESC);
      DecodeAppend(ws + [ESC], second);
      hide Decode;
      assert Decode(ws + [ESC]) == (true, Decode(ws).1);
      assert ws + EncodeOne(x) == ws + [ESC] + [second];
    } else {
      DecodeAppend(ws, x.data);
    }
  }

  lemma {:induction false} DecodeEncodeAt(xs: seq<Symbol>)
    ensures var d := Decode(Encode(xs));
      !d.0 && |d.1| == |xs| && forall i | 0 <= i < |xs| :: d.1[i] == Reread(xs[i])
  {
    hide Decode, EncodeOne, Reread;
    if xs != [] {
      var before, x := xs[..|xs| - 1], xs[|xs| - 1];
      DecodeEncodeAt(before);
      DecodeEncodeOne(Encode(before), x);
      assert Encode(xs) == Encode(before) + EncodeOne(x);
      assert Decode(Encode(xs)) == (false, Decode(Encode(before)).1 + [Reread(x)]);
    } else {
      DecodeNothing(Encode(xs));
    }
  }

  lemma {:induction false} DecodeNothing(ws: seq<Chunk>)
    requires ws == []
    ensures Decode(ws) == (false, [])
  {}

  /** The code is read back without loss exactly when no escaped word is zero; data words equal to
      the escape code are no exception. */
  lemma {:induction false} RoundTrip(xs: seq<Symbol>)
    ensures Decode(Encode(xs)) == (false, xs) <==> NoEscapedZero(xs)
  {
    DecodeEncodeAt(xs);
    var d := Decode(Encode(xs));
    if NoEscapedZero(xs) {
      assert d.1 == xs;
    } else {
      var i :| 0 <= i < |xs| && xs[i].escape && xs[i].data == 0;
      assert d.1[i] != xs[i];
    }
  }

  lemma {:induction false} EncodeAppend(xs: seq<Symbol>, x: Symbol)
    ensures Encode(xs + [x]) == Encode(xs) + EncodeOne(x)
  {
    assert (xs + [x])[..|xs|] == xs;
  }

  lemma {:induction false} CodeIsNotShorter(xs: seq<Symbol>)
    ensures |Encode(xs)| >= |xs|
  {
    if xs != [] { CodeIsNotShorter(xs[..|xs| - 1]); }
  }

  // ----- the inserter, cycle by cycle -----

  datatype InserterIn = InserterIn(d: Chunk, escape: bool, valid: bool, enable: bool, req: bool)

  datatype Inserter = Inserter(inserting: bool, prev: Chunk, reqPrev: bool)

  const INSERTER_RESET := Inserter(false, 0, false)

  /** An input that takes two words on the output. */
  predicate OpensPair(i: InserterIn) {
    i.valid && (i.escape || i.d == ESC)
  }

  function InserterReqOut(i: InserterIn): bool {
    i.req && !OpensPair(i)
  }

  /** The word on d_o when d_valid_o is high. */
  function InserterOut(s: Inserter, i: InserterIn): Option<Chunk> {
    if s.inserting then (if s.reqPrev then Some(s.prev) else None)
    else if !i.valid then None
    else if i.escape then Some(ESC) else Some(i.d)
  }

  function InserterNext(s: Inserter, i: InserterIn): Inserter {
    if !i.enable then Inserter(false, s.prev, false)
    else if s.inserting then Inserter(!s.reqPrev, s.prev, i.req)
    else if OpensPair(i) then Inserter(true, if i.escape then i.d else 0, i.req)
    else Inserter(false, s.prev, i.req)
  }

  function InserterRun(ins: seq<InserterIn>): Inserter {
    if ins == [] then INSERTER_RESET
    else InserterNext(InserterRun(ins[..|ins| - 1]), ins[|ins| - 1])
  }

  function InserterWords(ins: seq<InserterIn>): seq<Chunk> {
    if ins == [] then []
    else
      var before := ins[..|ins| - 1];
      Append(InserterWords(before), InserterOut(InserterRun(before), ins[|ins| - 1]))
  }

  /** Everything the source presented. */
  function Presented(ins: seq<InserterIn>): seq<Symbol> {
    if ins == [] then []
    else
      var i := ins[|ins| - 1];
      Append(Presented(ins[..|ins| - 1]), if i.valid then Some(Symbol(i.escape, i.d)) else None)
  }

  /** What it presented while the inserter was still busy with an escape pair. */
  function Ignored(ins: seq<InserterIn>): nat {
    if ins == [] then 0
    else
      var before, i := ins[..|ins| - 1], ins[|ins| - 1];
      Ignored(before) + if i.valid && InserterRun(before).inserting then 1 else 0
  }

  function Accepted(ins: seq<InserterIn>): seq<Symbol> {
    if ins == [] then []
    else
      var before, i := ins[..|ins| - 1], ins[|ins| - 1];
      Append(Accepted(before), if i.valid && !InserterRun(before).inserting then Some(Symbol(i.escape, i.d)) else None)
  }

  function Owed(s: Inserter): seq<Chunk> {
    if s.inserting then [s.prev] else []
  }

  ghost predicate Enabled(ins: seq<InserterIn>) {
    forall k | 0 <= k < |ins| :: ins[k].enable
  }

  lemma InserterStep(w: seq<Chunk>, s: Inserter, i: InserterIn)
    requires i.enable
    ensures Append(w, InserterOut(s, i)) + Owed(InserterNext(s, i))
         == if i.valid && !s.inserting then w + Owed(s) + EncodeOne(Symbol(i.escape, i.d)) else w + Owed(s)
  {}

  lemma {:induction false} InserterEncodesAccepted(ins: seq<InserterIn>)
    requires Enabled(ins)
    ensures InserterWords(ins) + Owed(InserterRun(ins)) == Encode(Accepted(ins))
  {
    if ins != [] {
      hide InserterOut, InserterNext, Owed, EncodeOne, Encode, InserterRun;
      var before, i := ins[..|ins| - 1], ins[|ins| - 1];
      InserterEncodesAccepted(before);
      AcceptedStep(before, i);
      assert before + [i] == ins;
    } else {
      assert Encode(Accepted(ins)) == [];
    }
  }

  lemma {:induction false} AcceptedStep(before: seq<InserterIn>, i: InserterIn)
    requires InserterWords(before) + Owed(InserterRun(before)) == Encode(Accepted(before))
    requires i.enable
    ensures InserterWords(before + [i]) + Owed(InserterRun(before + [i])) == Encode(Accepted(before + [i]))
  {
    var s, ins := InserterRun(before), before + [i];
    assert ins[..|ins| - 1] == before;
    InserterStep(InserterWords(before), s, i);
    EncodeAppend(Accepted(before), Symbol(i.escape, i.d));
    hide InserterOut, InserterNext, Owed, EncodeOne, Encode;
  }

  lemma {:induction false} AcceptedOrIgnored(ins: seq<InserterIn>)
    ensures |Presented(ins)| == |Accepted(ins)| + Ignored(ins)
    ensures Ignored(ins) == 0 ==> Presented(ins) == Accepted(ins)
  {
    if ins != [] { AcceptedOrIgnored(ins[..|ins| - 1]); }
  }

  lemma {:induction false} EncodeInjective(xs: seq<Symbol>, ys: seq<Symbol>)
    requires Encode(xs) == Encode(ys)
    ensures |xs| == |ys|
  {
    DecodeEncodeAt(xs);
    DecodeEncodeAt(ys);
  }

  /** For any back-pressure and any idle cycles, the inserter emits the code of everything it was
      given exactly when nothing was given while it was busy. */
  lemma {:induction false} InserterIsExact(ins: seq<InserterIn>)
    requires Enabled(ins)
    ensures InserterWords(ins) + Owed(InserterRun(ins)) == Encode(Presented(ins)) <==> Ignored(ins) == 0
  {
    InserterEncodesAccepted(ins);
    AcceptedOrIgnored(ins);
    if InserterWords(ins) + Owed(InserterRun(ins)) == Encode(Presented(ins)) {
      EncodeInjective(Accepted(ins), Presented(ins));
    }
  }

  /** The handshake: a word is presented only in the cycle after d_req_o. */
  ghost predicate ObeysRequest(ins: seq<InserterIn>) {
    forall k | 0 < k < |ins| :: ins[k].valid ==> InserterReqOut(ins[k - 1])
  }

  ghost predicate ReadyWhenPairOpens(ins: seq<InserterIn>) {
    forall k | 0 <= k < |ins| :: OpensPair(ins[k]) ==> ins[k].req
  }

  lemma {:induction false} HandshakeSuffices(ins: seq<InserterIn>)
    requires ObeysRequest(ins) && ReadyWhenPairOpens(ins)
    ensures Ignored(ins) == 0
    ensures ins != [] && InserterRun(ins).inserting ==> OpensPair(ins[|ins| - 1]) && InserterRun(ins).reqPrev
  {
    if ins != [] {
      var n := |ins| - 1;
      var before, i := ins[..n], ins[n];
      HandshakeSuffices(before);
      if n > 0 {
        assert before[n - 1] == ins[n - 1];
        assert i.valid ==> InserterReqOut(ins[n - 1]);
        assert InserterRun(before).inserting ==> !i.valid && InserterRun(before).reqPrev;
      }
      assert InserterRun(ins) == InserterNext(InserterRun(before), i);
      assert OpensPair(i) ==> i.req;
    }
  }

  /** The handshake alone does not: when the sink is not ready as a pair opens, the inserter asks for
      data one cycle too early and loses it. */
  lemma HandshakeAloneLosesData()
    ensures exists ins :: Enabled(ins) && ObeysRequest(ins) && Ignored(ins) > 0
  {
    var ins := [InserterIn(1, true, true, true, false), InserterIn(0, false, false, true, true),
      InserterIn(7, false, true, true, true)];
    var a, b := ins[..1], ins[..2];
    assert a[..0] == [] && b[..1] == a;
    assert InserterRun(a) == Inserter(true, 1, false);
    assert InserterRun(b) == Inserter(true, 1, true);
    assert Ignored(ins) > 0;
  }

  /** A pair opens in cycle m with the sink not ready, which it is again in cycle r at the earliest, and a
      word comes in the cycle after that. */
  ghost predicate ComesEarly(ins: seq<InserterIn>, m: nat, r: nat) {
    && m < r && r + 1 < |ins| && OpensPair(ins[m]) && (forall j | m <= j < r :: !ins[j].req)
    && ins[r].req && ins[r + 1].valid
  }

  /** The pair that keeps the inserter busy, and what the sink has been like since. */
  lemma {:induction false} BusySince(ins: seq<InserterIn>) returns (m: nat)
    requires Enabled(ins) && InserterRun(ins).inserting
    ensures m < |ins| && OpensPair(ins[m]) && forall j | m <= j < |ins| - 1 :: !ins[j].req
    ensures InserterRun(ins).reqPrev == ins[|ins| - 1].req
  {
    assert ins != [];
    var n := |ins| - 1;
    if InserterRun(ins[..n]).inserting {
      m := BusySince(ins[..n]);
    } else {
      m := n;
    }
  }

  lemma {:induction false} BusyUntil(ins: seq<InserterIn>, m: nat)
    requires Enabled(ins) && m < |ins| && OpensPair(ins[m]) && !InserterRun(ins[..m]).inserting
    requires forall j | m <= j < |ins| - 1 :: !ins[j].req
    ensures InserterRun(ins).inserting && InserterRun(ins).reqPrev == ins[|ins| - 1].req
  {
    var n := |ins| - 1;
    if m < n {
      assert ins[..n][..m] == ins[..m];
      BusyUntil(ins[..n], m);
    }
  }

  lemma {:induction false} IgnoredGrows(ins: seq<InserterIn>, n: nat)
    requires n <= |ins|
    ensures Ignored(ins[..n]) <= Ignored(ins)
  {
    if n < |ins| {
      IgnoredGrows(ins[..|ins| - 1], n);
      assert ins[..|ins| - 1][..n] == ins[..n];
    } else {
      assert ins[..n] == ins;
    }
  }

  lemma {:induction false} IgnoredComesEarly(ins: seq<InserterIn>) returns (m: nat, r: nat)
    requires Enabled(ins) && ObeysRequest(ins) && Ignored(ins) > 0
    ensures ComesEarly(ins, m, r)
  {
    var n := |ins| - 1;
    var before := ins[..n];
    if Ignored(before) > 0 {
      m, r := IgnoredComesEarly(before);
    } else {
      m := BusySince(before);
      r := n - 1;
      assert InserterReqOut(ins[n - 1]);
    }
  }

  lemma {:induction false} EarlyIsIgnored(ins: seq<InserterIn>, m: nat, r: nat)
    requires Enabled(ins) && ComesEarly(ins, m, r)
    ensures Ignored(ins) > 0
  {
    if InserterRun(ins[..m]).inserting {
      assert ins[..m + 1][..m] == ins[..m];
      IgnoredGrows(ins, m + 1);
    } else {
      assert ins[..r + 1][..m] == ins[..m];
      BusyUntil(ins[..r + 1], m);
      assert ins[..r + 2][..r + 1] == ins[..r + 1];
      IgnoredGrows(ins, r + 2);
    }
  }

  /** Under the handshake, exactly what loses a word: a pair that opened while the sink was not ready, and a
      word in the cycle after the sink was ready again. */
  lemma {:induction false} HandshakeLosesExactly(ins: seq<InserterIn>)
    requires Enabled(ins) && ObeysRequest(ins)
    ensures InserterWords(ins) + Owed(InserterRun(ins)) == Encode(Presented(ins))
      <==> !exists m: nat, r: nat :: ComesEarly(ins, m, r)
  {
    InserterIsExact(ins);
    hide Enabled, ObeysRequest, ComesEarly, Ignored, Encode, InserterWords, InserterRun, Presented, Owed;
    if Ignored(ins) > 0 {
      var m, r := IgnoredComesEarly(ins);
    } else {
      forall m: nat, r: nat ensures !ComesEarly(ins, m, r) {
        if ComesEarly(ins, m, r) { EarlyIsIgnored(ins, m, r); }
      }
    }
  }

  // ----- the detector, cycle by cycle -----

  /** The symbol on the detector's output in one cycle: `word` is what the fabric delivers. */
  function DetectorOut(check: bool, word: Option<Chunk>, enable: bool): Option<Symbol> {
    if word.None? then None
    else if enable && !check && word.value == ESC then None
    else if check && word.value == 0 then Some(Symbol(false, ESC))
    else Some(Symbol(check, word.value))
  }

  function DetectorNext(check: bool, word: Option<Chunk>, enable: bool): bool {
    if !enable then false
    else if word.None? then check
    else !check && word.value == ESC
  }

  lemma DetectorIsDecoder(check: bool, w: Chunk)
    ensures DetectOne(check, w) == (DetectorNext(check, Some(w), true), DetectorOut(check, Some(w), true))
  {}

  function Words(ws: seq<Option<Chunk>>): seq<Chunk> {
    if ws == [] then [] else Append(Words(ws[..|ws| - 1]), ws[|ws| - 1])
  }

  function DetectorRun(ws: seq<Option<Chunk>>): bool {
    if ws == [] then false else DetectorNext(DetectorRun(ws[..|ws| - 1]), ws[|ws| - 1], true)
  }

  function DetectorSymbols(ws: seq<Option<Chunk>>): seq<Symbol> {
    if ws == [] then []
    else
      var before := ws[..|ws| - 1];
      Append(DetectorSymbols(before), DetectorOut(DetectorRun(before), ws[|ws| - 1], true))
  }

  lemma {:induction false} DetectorDecodes(ws: seq<Option<Chunk>>)
    ensures Decode(Words(ws)) == (DetectorRun(ws), DetectorSymbols(ws))
  {
    if ws != [] {
      var before, w := ws[..|ws| - 1], ws[|ws| - 1];
      DetectorDecodes(before);
      if w.Some? {
        DecodeAppend(Words(before), w.value);
        DetectorIsDecoder(DetectorRun(before), w.value);
      }
    }
  }

  /** Inserter, link with arbitrary gaps, detector: what was presented comes out. */
  lemma {:induction false} LinkRoundTrip(ins: seq<InserterIn>, ws: seq<Option<Chunk>>)
    requires Enabled(ins) && ObeysRequest(ins) && NoEscapedZero(Presented(ins))
    requires forall m: nat, r: nat :: !ComesEarly(ins, m, r)
    requires Words(ws) == InserterWords(ins) && !InserterRun(ins).inserting
    ensures DetectorSymbols(ws) == Presented(ins) && !DetectorRun(ws)
  {
    HandshakeLosesExactly(ins);
    RoundTrip(Presented(ins));
    DetectorDecodes(ws);
    assert InserterWords(ins) + [] == InserterWords(ins);
  }

  // ----- the registers, clocked in place -----

  lemma {:induction false} InserterHistory(before: seq<InserterIn>, i: InserterIn)
    ensures InserterRun(before + [i]) == InserterNext(InserterRun(before), i)
    ensures InserterWords(before + [i]) == Append(InserterWords(before), InserterOut(InserterRun(before), i))
  {
    assert (before + [i])[..|before|] == before;
  }

  class EscapeInserter {
    var inserting: bool
    var prev: Chunk
    var reqPrev: bool
    ghost var history: seq<InserterIn>

    ghost function Registers(): Inserter
      reads this
    {
      Inserter(inserting, prev, reqPrev)
    }

    ghost predicate Valid()
      reads this
    {
      Registers() == InserterRun(history)
    }

    constructor ()
      ensures Valid() && history == []
    {
      inserting, prev, reqPrev := false, 0, false;
      history := [];
    }

    /** The outputs during one cycle, and the rising edge that ends it.  As long as insertion is
        enabled, what was emitted and what is still owed is the code of what was accepted. */
    method Clock(i: InserterIn) returns (word: Option<Chunk>, req: bool)
      requires Valid()
      modifies this
      ensures Valid() && history == old(history) + [i]
      ensures Registers() == InserterNext(old(Registers()), i) && word == InserterOut(old(Registers()), i)
      ensures InserterWords(history) == Append(InserterWords(old(history)), word)
      ensures req == InserterReqOut(i)
      ensures Enabled(history) ==> InserterWords(history) + Owed(Registers()) == Encode(Accepted(history))
    {
      req := i.req && !(i.valid && (i.escape || i.d == ESC));
      if inserting {
        word := if reqPrev then Some(prev) else None;
      } else {
        word := if i.valid then Some(if i.escape then ESC else i.d) else None;
      }
      ClockFsm(i);
      history := history + [i];
      InserterHistory(old(history), i);
      if Enabled(history) { InserterEncodesAccepted(history); }
      hide Append, Encode, InserterWords, Accepted, Owed;
    }

    method ClockFsm(i: InserterIn)
      modifies this`inserting, this`prev, this`reqPrev
      ensures Registers() == InserterNext(old(Registers()), i)
    {
      if !i.enable {
        inserting, reqPrev := false, false;
      } else {
        if !inserting {
          if i.d == ESC && i.valid && !i.escape {
            inserting, prev := true, 0;
          } else if i.escape && i.valid {
            inserting, prev := true, i.d;
          }
        } else if reqPrev {
          inserting := false;
        }
        reqPrev := i.req;
      }
    }
  }

  class EscapeDetector {
    var check: bool

    constructor ()
      ensures !check
    {
      check := false;
    }

    method Clock(word: Option<Chunk>, enable: bool) returns (symbol: Option<Symbol>)
      modifies this
      ensures symbol == DetectorOut(old(check), word, enable) && check == DetectorNext(old(check), word, enable)
    {
      var isEscapeCode := enable && !check && word.Some? && word.value == ESC;
      symbol := None;
      if word.Some? && !isEscapeCode {
        symbol := Some(if check && word.value == 0 then Symbol(false, ESC) else Symbol(check, word.value));
      }
      if !enable {
        check := false;
      } else if word.Some? {
        check := !check && word.value == ESC;
      }
    }
  }
}
