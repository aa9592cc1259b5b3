// The receive FIFO with commit and roll-back (dropping_buffer): a ring of |mem| slots, |mem| being
// the power of two at which the pointers wrap.
module DroppingBuffer {
  import opened EscapeCode

  datatype Input<T> = Input(d: T, valid: bool, drop: bool, accept: bool, req: bool)

  /** The registers and the memory. */
  datatype Ring<T> = Ring(mem: seq<T>, wr: nat, rd: nat, boundary: nat, emptyReg: bool)

  function Inc(p: nat, n: nat): nat {
    if p + 1 == n then 0 else p + 1
  }

  predicate InBounds<T>(r: Ring<T>) {
    r.wr < |r.mem| && r.rd < |r.mem| && r.boundary < |r.mem|
  }

  predicate Full<T>(r: Ring<T>) {
    Inc(r.wr, |r.mem|) == r.rd
  }

  predicate Pops<T>(r: Ring<T>, i: Input<T>) {
    i.req && !r.emptyReg && r.boundary != r.rd
  }

  /** One rising edge.  The memory is written whenever data is valid, full or not, dropped or not. */
  function RingNext<T>(r: Ring<T>, i: Input<T>): (t: Ring<T>)
    requires InBounds(r)
    ensures InBounds(t) && |t.mem| == |r.mem|
  {
    var n := |r.mem|;
    Ring(
      if i.valid then r.mem[r.wr := i.d] else r.mem,
      if i.drop then r.boundary else if i.valid && !Full(r) then Inc(r.wr, n) else r.wr,
      if Pops(r, i) then Inc(r.rd, n) else r.rd,
      if i.accept then r.wr else r.boundary,
      r.boundary == r.rd)
  }

  /** What d_o shows after the edge when d_valid_o is high. */
  function Out<T>(r: Ring<T>, i: Input<T>): Option<T>
    requires InBounds(r)
  {
    if Pops(r, i) then Some(r.mem[r.rd]) else None
  }

  // ----- the abstract buffer: two queues -----

  datatype Queues<T> = Queues(committed: seq<T>, tentative: seq<T>)

  function Distance(a: nat, b: nat, n: nat): nat
    requires a < n && b < n
  {
    if a <= b then b - a else b + n - a
  }

  function At(p: nat, k: nat, n: nat): nat
    requires p < n && k < n
  {
    if p + k < n then p + k else p + k - n
  }

  function Slots<T>(mem: seq<T>, from: nat, count: nat): (s: seq<T>)
    requires from < |mem| && count < |mem|
    ensures |s| == count
  {
    seq(count, k requires 0 <= k < count => mem[At(from, k, |mem|)])
  }

  /** The pointers are in order: reader, boundary, writer. */
  predicate Valid<T>(r: Ring<T>) {
    InBounds(r) && Distance(r.rd, r.boundary, |r.mem|) <= Distance(r.rd, r.wr, |r.mem|)
  }

  function Contents<T>(r: Ring<T>): Queues<T>
    requires InBounds(r)
  {
    Queues(Slots(r.mem, r.rd, Distance(r.rd, r.boundary, |r.mem|)),
           Slots(r.mem, r.boundary, Distance(r.boundary, r.wr, |r.mem|)))
  }

  /** Accept and drop in the same cycle, with something to accept. */
  predicate Collides<T>(r: Ring<T>, i: Input<T>)
    requires InBounds(r)
  {
    i.accept && i.drop && r.wr != r.boundary
  }

  function After<T>(q: Queues<T>, i: Input<T>, full: bool, pops: bool): Queues<T>
    requires pops ==> q.committed != []
  {
    var kept := if i.accept then q.committed + q.tentative else q.committed;
    var open := if i.accept then [] else q.tentative;
    Queues(if pops then kept[1..] else kept,
           if i.drop then [] else if i.valid && !full then open + [i.d] else open)
  }

  lemma SlotsUnchanged<T>(mem: seq<T>, w: nat, d: T, from: nat, count: nat)
    requires from < |mem| && count < |mem| && w < |mem|
    requires count <= Distance(from, w, |mem|)
    ensures Slots(mem[w := d], from, count) == Slots(mem, from, count)
  {}

  lemma SlotsSplit<T>(mem: seq<T>, a: nat, b: nat, c: nat)
    requires a < |mem| && b < |mem| && c < |mem|
    requires Distance(a, b, |mem|) <= Distance(a, c, |mem|)
    ensures var n := |mem|;
      Slots(mem, a, Distance(a, c, n)) == Slots(mem, a, Distance(a, b, n)) + Slots(mem, b, Distance(b, c, n))
  {}

  lemma SlotsPop<T>(mem: seq<T>, a: nat, b: nat)
    requires a < |mem| && b < |mem| && a != b
    ensures var n, s := |mem|, Slots(mem, a, Distance(a, b, |mem|));
      Slots(mem, Inc(a, n), Distance(Inc(a, n), b, n)) == s[1..] && s[0] == mem[a]
  {}

  lemma SlotsPush<T>(mem: seq<T>, a: nat, w: nat, d: T)
    requires a < |mem| && w < |mem| && Distance(a, w, |mem|) + 1 < |mem|
    ensures var n := |mem|;
      Slots(mem[w := d], a, Distance(a, Inc(w, n), n)) == Slots(mem, a, Distance(a, w, n)) + [d]
  {}

  lemma FullMeansNoRoom<T>(r: Ring<T>)
    requires Valid(r)
    ensures Full(r) <==> |Contents(r).committed| + |Contents(r).tentative| == |r.mem| - 1
  {}

  lemma TentativeStep<T>(r: Ring<T>, i: Input<T>)
    requires Valid(r) && !Collides(r, i)
    ensures var t := RingNext(r, i);
      Slots(t.mem, t.boundary, Distance(t.boundary, t.wr, |t.mem|))
      == After(Contents(r), i, Full(r), Pops(r, i)).tentative
  {
    var n, base := |r.mem|, if i.accept then r.wr else r.boundary;
    hide Slots;
    if !i.drop && i.valid && !Full(r) {
      SlotsPush(r.mem, base, r.wr, i.d);
    } else if i.valid && !i.drop {
      SlotsUnchanged(r.mem, r.wr, i.d, base, Distance(base, r.wr, n));
    }
    EmptySlots(RingNext(r, i).mem, RingNext(r, i).boundary);
    EmptySlots(r.mem, base);
  }

  lemma EmptySlots<T>(mem: seq<T>, from: nat)
    requires from < |mem|
    ensures Slots(mem, from, 0) == []
  {}

  lemma CommittedStep<T>(r: Ring<T>, i: Input<T>)
    requires Valid(r) && !Collides(r, i)
    ensures var t := RingNext(r, i);
      && Distance(t.rd, t.boundary, |t.mem|) <= Distance(t.rd, t.wr, |t.mem|)
      && Slots(t.mem, t.rd, Distance(t.rd, t.boundary, |t.mem|))
        == After(Contents(r), i, Full(r), Pops(r, i)).committed
  {
    var n, t := |r.mem|, RingNext(r, i);
    hide Slots;
    SlotsSplit(r.mem, r.rd, r.boundary, r.wr);
    if i.valid {
      SlotsUnchanged(r.mem, r.wr, i.d, r.rd, Distance(r.rd, t.boundary, n));
    }
    if Pops(r, i) {
      SlotsPop(t.mem, r.rd, t.boundary);
    }
  }

  /** The ring behaves as the two queues in every cycle in which accept and drop do not collide; a
      collision leaves the pointers out of order. */
  lemma RefinesQueues<T>(r: Ring<T>, i: Input<T>)
    requires Valid(r)
    ensures !Collides(r, i) ==>
      && Valid(RingNext(r, i))
      && Contents(RingNext(r, i)) == After(Contents(r), i, Full(r), Pops(r, i))
      && Out(r, i) == if Pops(r, i) then Some(Contents(r).committed[0]) else None
    ensures Collides(r, i) ==> !Valid(RingNext(r, i))
  {
    if !Collides(r, i) {
      TentativeStep(r, i);
      CommittedStep(r, i);
      if Pops(r, i) { SlotsPop(r.mem, r.rd, r.boundary); }
    }
  }

  /** Only a write can fill the buffer. */
  lemma StaysWritable<T>(r: Ring<T>, i: Input<T>)
    requires Valid(r) && !Collides(r, i) && !Full(r) && (i.valid ==> i.drop)
    ensures !Full(RingNext(r, i))
  {
    RefinesQueues(r, i);
    FullMeansNoRoom(r);
    FullMeansNoRoom(RingNext(r, i));
    hide Contents, RingNext, Full, Valid, Collides, Pops;
  }

  /** A word comes out exactly when it is asked for and there has been something to read since the cycle before;
      it is the oldest one. */
  lemma ReadsExactly<T>(r: Ring<T>, j: Input<T>, i: Input<T>)
    requires Valid(r) && !Collides(r, j)
    ensures var q, t := Contents(r).committed, RingNext(r, j);
      && Valid(t)
      && (Out(t, i).Some? <==> i.req && q != [] && Contents(t).committed != [])
      && (Out(t, i).Some? ==> Out(t, i).value == Contents(t).committed[0])
  {
    RefinesQueues(r, j);
    var t := RingNext(r, j);
    SomethingToRead(r);
    SomethingToRead(t);
    assert t.emptyReg == (r.boundary == r.rd);
    if Pops(t, i) { SlotsPop(t.mem, t.rd, t.boundary); }
    hide RingNext, After, Collides, Slots;
  }

  lemma SomethingToRead<T>(r: Ring<T>)
    requires InBounds(r)
    ensures Contents(r).committed != [] <==> r.boundary != r.rd
  {}

  lemma NothingTentative<T>(r: Ring<T>)
    requires Valid(r)
    ensures Contents(r).tentative == [] <==> r.wr == r.boundary
  {}

  // ----- the registers and the memory, clocked in place -----

  class RingBuffer<T> {
    const mem: array<T>
    var wr: nat
    var rd: nat
    var boundary: nat
    var emptyReg: bool

    ghost function Registers(): Ring<T>
      reads this, mem
    {
      Ring(mem[..], wr, rd, boundary, emptyReg)
    }

    constructor (mem: array<T>)
      requires mem.Length > 0
      ensures this.mem == mem && InBounds(Registers()) && Valid(Registers())
      ensures Contents(Registers()) == Queues([], [])
    {
      this.mem := mem;
      wr, rd, boundary, emptyReg := 0, 0, 0, true;
    }

    method Clock(i: Input<T>) returns (out: Option<T>)
      requires InBounds(Registers())
      modifies this`wr, this`rd, this`boundary, this`emptyReg, mem
      ensures Registers() == RingNext(old(Registers()), i) && out == Out(old(Registers()), i)
      ensures old(Valid(Registers()) && !Collides(Registers(), i)) ==>
        && Valid(Registers())
        && Contents(Registers())
          == After(old(Contents(Registers())), i, old(Full(Registers())), old(Pops(Registers(), i)))
    {
      hide Contents, After, Valid, Slots, At;
      ghost var before := Registers();
      var n := mem.Length;
      var full, emptyComb := (if wr + 1 == n then 0 else wr + 1) == rd, boundary == rd;
      var writeAt := wr;
      out := None;
      if i.req && !emptyReg && !emptyComb {
        out := Some(mem[rd]);
      }
      if i.drop {
        wr := boundary;
      } else if i.valid && !full {
        wr := if wr + 1 == n then 0 else wr + 1;
      }
      if i.accept {
        boundary := writeAt;
      }
      if out.Some? {
        rd := if rd + 1 == n then 0 else rd + 1;
      }
      emptyReg := emptyComb;
      if i.valid {
        mem[writeAt] := i.d;
      }
      if Valid(before) { RefinesQueues(before, i); }
    }
  }
}
