/** Byte-addressed persistent memory: what may survive a crash.  A store reaches the medium at any time; a
    flushed value is on the medium, or overtaken by a later one, once the flush has been drained. */
module Pmem {
  type Byte = bv8

  /** One byte: the values it may have on the medium, oldest first and the cached one last, and the index
      of the value that the next drain makes the oldest. */
  datatype Cell = Cell(hist: seq<Byte>, flushed: nat)

  type Memory = seq<Cell>

  datatype Op = Store(addr: nat, v: Byte) | Flush(lo: nat, hi: nat) | Drain

  predicate Sane(c: Cell) { c.flushed < |c.hist| }

  predicate AllSane(m: Memory) { forall a :: 0 <= a < |m| ==> Sane(m[a]) }

  function Cached(c: Cell): Byte
    requires Sane(c)
  {
    c.hist[|c.hist| - 1]
  }

  function FlushCell(c: Cell): Cell
    requires Sane(c)
  {
    c.(flushed := |c.hist| - 1)
  }

  function DrainCell(c: Cell): Cell
    requires Sane(c)
  {
    Cell(c.hist[c.flushed..], 0)
  }

  /** The effect of one operation on the byte at address `a`. */
  function CellStep(a: nat, c: Cell, op: Op): (c': Cell)
    requires Sane(c)
    ensures Sane(c')
  {
    match op
    case Store(addr, v) => if addr == a then Cell(c.hist + [v], c.flushed) else c
    case Flush(lo, hi) => if lo <= a < hi then FlushCell(c) else c
    case Drain => DrainCell(c)
  }

  function CellRun(a: nat, c: Cell, ops: seq<Op>): (c': Cell)
    requires Sane(c)
    ensures Sane(c')
  {
    if ops == [] then c else CellStep(a, CellRun(a, c, ops[..|ops| - 1]), ops[|ops| - 1])
  }

  function Run(m: Memory, ops: seq<Op>): (m': Memory)
    requires AllSane(m)
    ensures |m'| == |m| && AllSane(m') && forall a :: 0 <= a < |m| ==> m'[a] == CellRun(a, m[a], ops)
  {
    seq(|m|, a requires 0 <= a < |m| => CellRun(a, m[a], ops))
  }

  /** What recovery may find after a crash: every byte on its own holds one of its possible values. */
  ghost predicate Image(m: Memory, img: seq<Byte>) {
    |img| == |m| && forall a :: 0 <= a < |m| ==> img[a] in m[a].hist
  }

  /** All bytes are known to be on the medium. */
  predicate Solid(m: Memory, content: seq<Byte>) {
    |m| == |content| && forall a :: 0 <= a < |m| ==> m[a] == Cell([content[a]], 0)
  }

  predicate StoresTo(ops: seq<Op>, a: nat) {
    exists i :: 0 <= i < |ops| && ops[i].Store? && ops[i].addr == a
  }

  predicate StoresValue(ops: seq<Op>, a: nat, v: Byte) {
    exists i :: 0 <= i < |ops| && ops[i] == Store(a, v)
  }

  predicate Covers(ops: seq<Op>, a: nat) {
    exists i :: 0 <= i < |ops| && ops[i].Flush? && ops[i].lo <= a < ops[i].hi
  }

  predicate OnlyStores(ops: seq<Op>) { forall i :: 0 <= i < |ops| ==> ops[i].Store? }
  predicate OnlyFlushes(ops: seq<Op>) { forall i :: 0 <= i < |ops| ==> ops[i].Flush? }

  lemma {:induction false} CellRunConcat(a: nat, c: Cell, p: seq<Op>, q: seq<Op>)
    requires Sane(c)
    ensures CellRun(a, c, p + q) == CellRun(a, CellRun(a, c, p), q)
  {
    hide CellStep;
    if q == [] {
      assert p + q == p;
    } else {
      CellRunConcat(a, c, p, q[..|q| - 1]);
      assert (p + q)[..|p + q| - 1] == p + q[..|q| - 1];
    }
  }

  /** A byte on the medium that is not stored to stays as it is, whatever is flushed and drained. */
  lemma {:induction false} UntouchedStays(a: nat, v: Byte, ops: seq<Op>)
    requires !StoresTo(ops, a)
    ensures CellRun(a, Cell([v], 0), ops) == Cell([v], 0)
  {
    if ops != [] {
      var ops' := ops[..|ops| - 1];
      assert forall i :: 0 <= i < |ops'| ==> ops'[i] == ops[i];
      UntouchedStays(a, v, ops');
      assert ops[|ops| - 1].Store? ==> ops[|ops| - 1].addr != a;
    }
  }

  /** A byte can only hold a value it had or one that was stored to it. */
  lemma {:induction false} ValuesKnown(a: nat, c: Cell, ops: seq<Op>, v: Byte)
    requires Sane(c) && v in CellRun(a, c, ops).hist
    ensures v in c.hist || StoresValue(ops, a, v)
  {
    if ops != [] {
      var n := |ops| - 1;
      var ops', c' := ops[..n], CellRun(a, c, ops[..n]);
      if v in c'.hist {
        ValuesKnown(a, c, ops', v);
        if StoresValue(ops', a, v) {
          var i :| 0 <= i < |ops'| && ops'[i] == Store(a, v);
          assert ops[i] == Store(a, v);
        }
      } else {
        assert ops[n] == Store(a, v);
      }
    }
  }

  /** The content after a list of stores. */
  function Written(content: seq<Byte>, ops: seq<Op>): (r: seq<Byte>)
    ensures |r| == |content|
  {
    if ops == [] then content
    else var r := Written(content, ops[..|ops| - 1]);
         var op := ops[|ops| - 1];
         if op.Store? && op.addr < |r| then r[op.addr := op.v] else r
  }

  lemma {:induction false} WrittenConcat(content: seq<Byte>, p: seq<Op>, q: seq<Op>)
    ensures Written(content, p + q) == Written(Written(content, p), q)
  {
    if q == [] {
      assert p + q == p;
    } else {
      WrittenConcat(content, p, q[..|q| - 1]);
      assert (p + q)[..|p + q| - 1] == p + q[..|q| - 1];
    }
  }

  lemma {:induction false} WrittenFlushes(content: seq<Byte>, ops: seq<Op>)
    requires OnlyFlushes(ops)
    ensures Written(content, ops) == content
  {
    if ops != [] {
      WrittenFlushes(content, ops[..|ops| - 1]);
    }
  }

  predicate NoDrains(ops: seq<Op>) { forall i :: 0 <= i < |ops| ==> !ops[i].Drain? }

  lemma {:induction false} CachedIsWritten(a: nat, content: seq<Byte>, c: Cell, ops: seq<Op>)
    requires a < |content| && Sane(c) && Cached(c) == content[a] && NoDrains(ops)
    ensures Cached(CellRun(a, c, ops)) == Written(content, ops)[a]
  {
    if ops != [] {
      CachedIsWritten(a, content, c, ops[..|ops| - 1]);
    }
  }

  /** Nothing is stored to the byte after its last flush. */
  ghost predicate Clean(ops: seq<Op>, a: nat) {
    !StoresTo(ops, a) || exists i :: 0 <= i < |ops| && FlushedFrom(ops, a, i)
  }

  predicate FlushedFrom(ops: seq<Op>, a: nat, i: nat)
    requires i < |ops|
  {
    ops[i].Flush? && ops[i].lo <= a < ops[i].hi && !StoresTo(ops[i + 1..], a)
  }

  lemma {:induction false} StaysMarked(a: nat, c: Cell, ops: seq<Op>)
    requires Sane(c) && c.flushed == |c.hist| - 1 && NoDrains(ops) && !StoresTo(ops, a)
    ensures CellRun(a, c, ops) == c
  {
    if ops != [] {
      var ops' := ops[..|ops| - 1];
      assert forall i :: 0 <= i < |ops'| ==> ops'[i] == ops[i];
      StaysMarked(a, c, ops');
      assert ops[|ops| - 1].Store? ==> ops[|ops| - 1].addr != a;
    }
  }

  lemma CleanIsMarked(a: nat, v: Byte, ops: seq<Op>)
    requires NoDrains(ops) && Clean(ops, a)
    ensures var c := CellRun(a, Cell([v], 0), ops); c.flushed == |c.hist| - 1
  {
    if !StoresTo(ops, a) {
      UntouchedStays(a, v, ops);
    } else {
      var i :| 0 <= i < |ops| && FlushedFrom(ops, a, i);
      var c := CellRun(a, Cell([v], 0), ops[..i + 1]);
      assert ops[..i + 1][..i] == ops[..i];
      assert ops == ops[..i + 1] + ops[i + 1..];
      CellRunConcat(a, Cell([v], 0), ops[..i + 1], ops[i + 1..]);
      StaysMarked(a, c, ops[i + 1..]);
    }
  }

  /** Stores and flushes that leave every byte clean, and a drain, put the written content on the medium. */
  lemma CommitClean(m: Memory, content: seq<Byte>, ops: seq<Op>)
    requires Solid(m, content) && NoDrains(ops) && forall a :: 0 <= a < |m| ==> Clean(ops, a)
    ensures AllSane(m) && Solid(Run(m, ops + [Drain]), Written(content, ops))
  {
    forall a | 0 <= a < |m|
      ensures CellRun(a, m[a], ops + [Drain]) == Cell([Written(content, ops)[a]], 0)
    {
      CachedIsWritten(a, content, m[a], ops);
      CleanIsMarked(a, content[a], ops);
      assert (ops + [Drain])[..|ops|] == ops;
    }
  }

  lemma StoresThenFlushesClean(stores: seq<Op>, flushes: seq<Op>, a: nat)
    requires OnlyStores(stores) && OnlyFlushes(flushes) && (StoresTo(stores, a) ==> Covers(flushes, a))
    ensures Clean(stores + flushes, a)
  {
    var ops := stores + flushes;
    if StoresTo(ops, a) {
      var j :| 0 <= j < |ops| && ops[j].Store? && ops[j].addr == a;
      assert j < |stores| && stores[j] == ops[j];
      var i :| 0 <= i < |flushes| && flushes[i].Flush? && flushes[i].lo <= a < flushes[i].hi;
      var k := |stores| + i;
      assert ops[k] == flushes[i] && ops[k + 1..] == flushes[i + 1..];
      assert FlushedFrom(ops, a, k);
    }
  }

  /** Stores, flushes that cover them, and a drain. */
  lemma CommitSolid(m: Memory, content: seq<Byte>, stores: seq<Op>, flushes: seq<Op>)
    requires Solid(m, content) && OnlyStores(stores) && OnlyFlushes(flushes)
    requires forall a :: 0 <= a < |m| && StoresTo(stores, a) ==> Covers(flushes, a)
    ensures AllSane(m) && Solid(Run(m, stores + flushes + [Drain]), Written(content, stores))
  {
    forall a | 0 <= a < |m|
      ensures Clean(stores + flushes, a)
    {
      StoresThenFlushesClean(stores, flushes, a);
    }
    CommitClean(m, content, stores + flushes);
    WrittenConcat(content, stores, flushes);
    WrittenFlushes(Written(content, stores), flushes);
  }

  // ---- Ranges ----

  /** The stores of a copy of `s` to address `lo`. */
  function CopyOps(lo: nat, s: seq<Byte>): (ops: seq<Op>)
    ensures |ops| == |s| && OnlyStores(ops)
  {
    seq(|s|, i requires 0 <= i < |s| => Store(lo + i, s[i]))
  }

  lemma {:induction false} WrittenCopy(content: seq<Byte>, lo: nat, s: seq<Byte>)
    requires lo + |s| <= |content|
    ensures Written(content, CopyOps(lo, s)) == content[..lo] + s + content[lo + |s|..]
  {
    if s == [] {
      assert CopyOps(lo, s) == [];
    } else {
      var n := |s| - 1;
      WrittenCopy(content, lo, s[..n]);
      assert CopyOps(lo, s)[..n] == CopyOps(lo, s[..n]);
    }
  }

  // ---- Cleanliness of concatenations ----

  lemma StoresConcat(p: seq<Op>, q: seq<Op>, a: nat)
    ensures StoresTo(p + q, a) <==> StoresTo(p, a) || StoresTo(q, a)
  {
    if StoresTo(p, a) {
      var i :| 0 <= i < |p| && p[i].Store? && p[i].addr == a;
      assert (p + q)[i] == p[i];
    }
    if StoresTo(q, a) {
      var i :| 0 <= i < |q| && q[i].Store? && q[i].addr == a;
      assert (p + q)[|p| + i] == q[i];
    }
  }

  lemma CleanThenQuiet(p: seq<Op>, q: seq<Op>, a: nat)
    requires Clean(p, a) && !StoresTo(q, a)
    ensures Clean(p + q, a)
  {
    StoresConcat(p, q, a);
    if StoresTo(p, a) {
      var i :| 0 <= i < |p| && FlushedFrom(p, a, i);
      assert (p + q)[i + 1..] == p[i + 1..] + q;
      StoresConcat(p[i + 1..], q, a);
      assert FlushedFrom(p + q, a, i);
    }
  }

  lemma QuietThenClean(p: seq<Op>, q: seq<Op>, a: nat)
    requires Clean(q, a) && (!StoresTo(p, a) || StoresTo(q, a))
    ensures Clean(p + q, a)
  {
    StoresConcat(p, q, a);
    if StoresTo(q, a) {
      var i :| 0 <= i < |q| && FlushedFrom(q, a, i);
      assert (p + q)[|p| + i + 1..] == q[i + 1..];
      assert FlushedFrom(p + q, a, |p| + i);
    }
  }

  lemma FlushedLast(p: seq<Op>, lo: nat, hi: nat, a: nat)
    requires lo <= a < hi
    ensures Clean(p + [Flush(lo, hi)], a)
  {
    var q := p + [Flush(lo, hi)];
    assert q[|p| + 1..] == [];
    assert FlushedFrom(q, a, |p|);
  }

  lemma CopyStoresTo(lo: nat, s: seq<Byte>, a: nat)
    ensures StoresTo(CopyOps(lo, s), a) <==> lo <= a < lo + |s|
  {
    if lo <= a < lo + |s| {
      assert CopyOps(lo, s)[a - lo].addr == a;
    }
  }
}
