/** Power-of-two table sizes and the masking of hash values. */
module Pow {
  function Pow2(n: nat): (p: nat)
    ensures p >= 1
  {
    if n == 0 then 1 else 2 * Pow2(n - 1)
  }

  /** `hv & (size - 1)` for a power-of-two `size`. */
  function Mask(hv: nat, size: nat): (b: nat)
    requires size >= 1
    ensures b < size
  {
    hv % size
  }

  lemma ModUnique(h: nat, n: nat, q: nat, r: nat)
    requires n >= 1 && r < n && h == n * q + r
    ensures Mask(h, n) == r
  {
    var d := h / n - q;
    assert n * d == r - h % n;
  }

  lemma DivMod(h: nat, n: nat) returns (q: nat)
    requires n >= 1
    ensures h == n * q + Mask(h, n)
  {
    q := h / n;
  }

  lemma MaskSmall(h: nat, n: nat)
    requires h < n
    ensures Mask(h, n) == h
  {
  }

  lemma Distribute(n: int, q: int)
    ensures (2 * n) * q == n * (2 * q)
    ensures n * (2 * q + 1) == (2 * n) * q + n
  {
  }

  /** A bucket of the doubled table lies over one bucket of the table it replaces. */
  lemma MaskDouble(h: nat, n: nat)
    requires n >= 1
    ensures Mask(Mask(h, 2 * n), n) == Mask(h, n)
    ensures Mask(h, 2 * n) == Mask(h, n) || Mask(h, 2 * n) == Mask(h, n) + n
  {
    hide Mask;
    var q := DivMod(h, 2 * n);
    var r := Mask(h, 2 * n);
    Distribute(n, q);
    if r < n {
      ModUnique(h, n, 2 * q, r);
      ModUnique(r, n, 0, r);
    } else {
      ModUnique(h, n, 2 * q + 1, r - n);
      ModUnique(r, n, 1, r - n);
    }
  }

  /** Hash values with equal low bits under a wide mask are equal under every narrower one. */
  lemma {:induction false} MaskCoarser(h: nat, k: nat, l: nat, p: nat)
    requires l <= p && Mask(h, Pow2(p)) == Mask(k, Pow2(p))
    ensures Mask(h, Pow2(l)) == Mask(k, Pow2(l))
    decreases p - l
  {
    hide Mask;
    if l < p {
      MaskDouble(h, Pow2(p - 1));
      MaskDouble(k, Pow2(p - 1));
      MaskCoarser(h, k, l, p - 1);
    }
  }
}

/** The incrementally expanding hash table of assoc.c: during an expansion the old table and the doubled
    primary table, split at the migration cursor, together represent one map from keys to items. */
module Assoc {
  import opened Common
  import opened Pow

  type Key = seq<bv8>

  // An item is known to the table by its address and its key.
  datatype Item = Item(addr: nat, key: Key)
  type Chain = seq<Item>

  const HASHPOWER_MAX := 32

  datatype Table = Table(power: nat, primary: seq<Chain>, prior: seq<Chain>, expanding: bool, cursor: nat)

  predicate Shape(t: Table) {
    && |t.primary| == Pow2(t.power)
    && (t.expanding ==> t.power >= 1 && |t.prior| == Pow2(t.power - 1) && t.cursor <= |t.prior|)
  }

  /** Whether a hash value is still served by the old table. */
  predicate InOld(t: Table, hv: nat)
    requires Shape(t)
  {
    t.expanding && Mask(hv, |t.prior|) >= t.cursor
  }

  /** A chain of the table: a bucket of the old or of the primary array. */
  datatype Loc = Loc(inOld: bool, bucket: nat)

  predicate ValidLoc(t: Table, l: Loc)
    requires Shape(t)
  {
    if l.inOld then t.expanding && l.bucket < |t.prior| else l.bucket < |t.primary|
  }

  /** The chain a hash value is routed to. */
  function LocOf(t: Table, hv: nat): (l: Loc)
    requires Shape(t)
    ensures ValidLoc(t, l)
  {
    if InOld(t, hv) then Loc(true, Mask(hv, |t.prior|)) else Loc(false, Mask(hv, |t.primary|))
  }

  function ChainAt(t: Table, l: Loc): Chain
    requires Shape(t) && ValidLoc(t, l)
  {
    if l.inOld then t.prior[l.bucket] else t.primary[l.bucket]
  }

  function UpdateAt(t: Table, l: Loc, c: Chain): Table
    requires Shape(t) && ValidLoc(t, l)
  {
    if l.inOld then t.(prior := t.prior[l.bucket := c]) else t.(primary := t.primary[l.bucket := c])
  }

  predicate Distinct(c: Chain) {
    forall i, j :: 0 <= i < j < |c| ==> c[i] != c[j]
  }

  /** A chain holds only items of `m` whose hash value is routed to it, each once. */
  ghost predicate ChainOk(t: Table, hash: Key -> nat, m: map<Key, Item>, l: Loc, c: Chain)
    requires Shape(t)
  {
    && (forall it :: it in c ==> Placed(t, hash, m, l, it))
    && Distinct(c)
  }

  ghost predicate Placed(t: Table, hash: Key -> nat, m: map<Key, Item>, l: Loc, it: Item)
    requires Shape(t)
  {
    it.key in m && m[it.key] == it && LocOf(t, hash(it.key)) == l
  }

  ghost predicate Reachable(t: Table, hash: Key -> nat, m: map<Key, Item>, k: Key)
    requires Shape(t) && k in m
  {
    m[k].key == k && m[k] in ChainAt(t, LocOf(t, hash(k)))
  }

  /** The two tables hold exactly the items of `m`, each once, in the chain its hash value is routed to. */
  ghost predicate Represents(t: Table, hash: Key -> nat, m: map<Key, Item>) {
    && Shape(t)
    && (forall k :: k in m ==> Reachable(t, hash, m, k))
    && (forall l :: ValidLoc(t, l) ==> ChainOk(t, hash, m, l, ChainAt(t, l)))
  }

  // ---- The frame of a single-chain update ----

  lemma UpdateFrame(t: Table, l: Loc, c: Chain)
    requires Shape(t) && ValidLoc(t, l)
    ensures var t' := UpdateAt(t, l, c);
            && Shape(t')
            && (forall h: nat :: LocOf(t', h) == LocOf(t, h))
            && (forall l' :: ValidLoc(t', l') == ValidLoc(t, l'))
            && (forall l' :: ValidLoc(t, l') ==> ChainAt(t', l') == if l' == l then c else ChainAt(t, l'))
  {
    hide Pow2, Mask;
  }

  lemma InsertRepresents(t: Table, hash: Key -> nat, m: map<Key, Item>, it: Item)
    requires Represents(t, hash, m) && it.key !in m
    ensures var l := LocOf(t, hash(it.key));
            Represents(UpdateAt(t, l, [it] + ChainAt(t, l)), hash, m[it.key := it])
  {
    hide Shape, ValidLoc, LocOf, ChainAt, UpdateAt;
    var l := LocOf(t, hash(it.key));
    var c := [it] + ChainAt(t, l);
    var t', m' := UpdateAt(t, l, c), m[it.key := it];
    UpdateFrame(t, l, c);
    assert it in ChainAt(t, l) ==> Placed(t, hash, m, l, it);
    forall k | k in m'
      ensures Reachable(t', hash, m', k)
    {
      assert k == it.key || Reachable(t, hash, m, k);
    }
    forall l' | ValidLoc(t', l')
      ensures ChainOk(t', hash, m', l', ChainAt(t', l'))
    {
      assert ChainOk(t, hash, m, l', ChainAt(t, l'));
      forall x | x in ChainAt(t', l')
        ensures Placed(t', hash, m', l', x)
      {
        assert x == it || Placed(t, hash, m, l', x);
      }
    }
  }

  function RemoveAt(c: Chain, i: nat): Chain
    requires i < |c|
  {
    c[..i] + c[i + 1..]
  }

  lemma RemoveMembers(c: Chain, i: nat)
    requires i < |c| && Distinct(c)
    ensures Distinct(RemoveAt(c, i))
    ensures forall it :: it in RemoveAt(c, i) <==> it in c && it != c[i]
  {
    forall it | it in c && it != c[i]
      ensures it in RemoveAt(c, i)
    {
      var j :| 0 <= j < |c| && c[j] == it;
      assert RemoveAt(c, i)[if j < i then j else j - 1] == it;
    }
  }

  lemma DeleteRepresents(t: Table, hash: Key -> nat, m: map<Key, Item>, l: Loc, i: nat)
    requires Represents(t, hash, m) && ValidLoc(t, l) && i < |ChainAt(t, l)|
    ensures var c := ChainAt(t, l);
            Represents(UpdateAt(t, l, RemoveAt(c, i)), hash, m - {c[i].key})
  {
    hide Shape, ValidLoc, LocOf, ChainAt, UpdateAt, RemoveAt;
    var c := ChainAt(t, l);
    var c' := RemoveAt(c, i);
    var t', m' := UpdateAt(t, l, c'), m - {c[i].key};
    UpdateFrame(t, l, c');
    assert ChainOk(t, hash, m, l, c);
    RemoveMembers(c, i);
    assert Placed(t, hash, m, l, c[i]);
    hide Distinct;
    forall k | k in m'
      ensures Reachable(t', hash, m', k)
    {
      assert Reachable(t, hash, m, k);
    }
    forall l' | ValidLoc(t', l')
      ensures ChainOk(t', hash, m', l', ChainAt(t', l'))
    {
      assert ChainOk(t, hash, m, l', ChainAt(t, l'));
    }
  }

  /** The routed chain answers every lookup as the map does. */
  lemma LookupAgrees(t: Table, hash: Key -> nat, m: map<Key, Item>, k: Key)
    requires Represents(t, hash, m)
    ensures var c := ChainAt(t, LocOf(t, hash(k)));
            && (forall it :: it in c && it.key == k ==> k in m && m[k] == it)
            && (k in m ==> m[k].key == k && m[k] in c)
  {
    hide Shape, ValidLoc, LocOf, ChainAt;
    assert k in m ==> Reachable(t, hash, m, k);
    var l := LocOf(t, hash(k));
    assert ChainOk(t, hash, m, l, ChainAt(t, l));
  }

  // ---- Expansion ----

  lemma LocInPrimary(t: Table, h: nat, b: nat)
    requires Shape(t) && t.expanding && LocOf(t, h) == Loc(false, b)
    ensures |t.primary| == 2 * |t.prior| && (b < t.cursor || |t.prior| <= b < |t.prior| + t.cursor)
  {
    hide Mask;
    MaskDouble(h, |t.prior|);
  }

  /** Old buckets below the cursor are empty, and so are both images of a bucket not yet migrated. */
  lemma CursorSplit(t: Table, hash: Key -> nat, m: map<Key, Item>, b: nat)
    requires Represents(t, hash, m) && t.expanding && b < |t.prior|
    ensures b < t.cursor ==> t.prior[b] == []
    ensures b >= t.cursor ==> |t.primary| == 2 * |t.prior| && t.primary[b] == [] && t.primary[b + |t.prior|] == []
  {
    hide Mask, Pow2;
    var l := Loc(true, b);
    assert ValidLoc(t, l) && ChainOk(t, hash, m, l, ChainAt(t, l));
    assert t.prior[b] != [] ==> Placed(t, hash, m, l, t.prior[b][0]);
    if b >= t.cursor {
      SizesDouble(t);
      NoneAbove(t, hash, m, b);
      NoneAbove(t, hash, m, b + |t.prior|);
    }
  }

  lemma SizesDouble(t: Table)
    requires Shape(t) && t.expanding
    ensures |t.primary| == 2 * |t.prior|
  {
  }

  lemma NoneAbove(t: Table, hash: Key -> nat, m: map<Key, Item>, b: nat)
    requires Represents(t, hash, m) && t.expanding && b < |t.primary|
    requires t.cursor <= b < |t.prior| || t.cursor + |t.prior| <= b
    ensures t.primary[b] == []
  {
    hide Shape, LocOf;
    var l := Loc(false, b);
    assert ChainOk(t, hash, m, l, ChainAt(t, l));
    if t.primary[b] != [] {
      assert Placed(t, hash, m, l, t.primary[b][0]);
      LocInPrimary(t, hash(t.primary[b][0].key), b);
    }
  }

  /** A fresh doubled table with the cursor at zero leaves everything in the old one. */
  lemma ExpandRepresents(t: Table, hash: Key -> nat, m: map<Key, Item>, blank: seq<Chain>)
    requires Represents(t, hash, m) && !t.expanding
    requires |blank| == Pow2(t.power + 1) && forall b :: 0 <= b < |blank| ==> blank[b] == []
    ensures Represents(Table(t.power + 1, blank, t.primary, true, 0), hash, m)
  {
    hide Shape, LocOf, ChainAt, ValidLoc;
    var t' := Table(t.power + 1, blank, t.primary, true, 0);
    ExpandFrame(t, blank);
    forall k | k in m
      ensures Reachable(t', hash, m, k)
    {
      assert Reachable(t, hash, m, k);
    }
    forall l | ValidLoc(t', l)
      ensures ChainOk(t', hash, m, l, ChainAt(t', l))
    {
      if l.inOld {
        var l' := Loc(false, l.bucket);
        assert ValidLoc(t, l') && ChainOk(t, hash, m, l', ChainAt(t, l'));
      }
    }
  }

  lemma ExpandFrame(t: Table, blank: seq<Chain>)
    requires Shape(t) && !t.expanding
    requires |blank| == Pow2(t.power + 1) && forall b :: 0 <= b < |blank| ==> blank[b] == []
    ensures var t' := Table(t.power + 1, blank, t.primary, true, 0);
            && Shape(t')
            && (forall h: nat :: LocOf(t', h) == Loc(true, LocOf(t, h).bucket) && !LocOf(t, h).inOld)
            && (forall l :: ValidLoc(t', l) && l.inOld
                  ==> ValidLoc(t, Loc(false, l.bucket)) && ChainAt(t', l) == ChainAt(t, Loc(false, l.bucket)))
            && (forall l :: ValidLoc(t', l) && !l.inOld ==> ChainAt(t', l) == [])
  {
    hide Mask;
  }

  // ---- Migration of the bucket at the cursor ----

  /** The table after the bucket at the cursor has been taken off and the cursor moved past it. */
  function Detach(t: Table): Table
    requires Shape(t) && t.expanding && t.cursor < |t.prior|
  {
    t.(prior := t.prior[t.cursor := []], cursor := t.cursor + 1)
  }

  function KeysOf(c: Chain): set<Key> {
    set it | it in c :: it.key
  }

  lemma DetachFrame(t: Table)
    requires Shape(t) && t.expanding && t.cursor < |t.prior|
    ensures var t' := Detach(t);
            && Shape(t')
            && (forall h: nat :: Mask(h, |t.prior|) == t.cursor ==>
                 LocOf(t, h) == Loc(true, t.cursor) && LocOf(t', h) == Loc(false, Mask(h, |t.primary|)))
            && (forall h: nat :: Mask(h, |t.prior|) != t.cursor ==> LocOf(t', h) == LocOf(t, h) != Loc(true, t.cursor))
            && (forall l :: ValidLoc(t', l) == ValidLoc(t, l))
            && (forall l :: ValidLoc(t, l) ==> ChainAt(t', l) == if l == Loc(true, t.cursor) then [] else ChainAt(t, l))
  {
    hide Mask, Pow2;
  }

  /** Without the items of the detached bucket, the rest is represented under the new routing. */
  lemma DetachRepresents(t: Table, hash: Key -> nat, m: map<Key, Item>)
    requires Represents(t, hash, m) && t.expanding && t.cursor < |t.prior|
    ensures Represents(Detach(t), hash, m - KeysOf(t.prior[t.cursor]))
    ensures ChainOk(t, hash, m, Loc(true, t.cursor), t.prior[t.cursor])
    ensures forall it :: it in t.prior[t.cursor] ==>
              LocOf(Detach(t), hash(it.key)) == Loc(false, Mask(hash(it.key), |t.primary|))
  {
    var l0 := Loc(true, t.cursor);
    var c := t.prior[t.cursor];
    assert ValidLoc(t, l0) && ChainAt(t, l0) == c;
    DetachFrame(t);
    hide Shape, LocOf, ChainAt, ValidLoc, Detach, Mask;
    assert ChainOk(t, hash, m, l0, c);
    var t', m' := Detach(t), m - KeysOf(c);
    forall it | it in c
      ensures LocOf(t', hash(it.key)) == Loc(false, Mask(hash(it.key), |t.primary|))
    {
      assert Placed(t, hash, m, l0, it);
    }
    forall k | k in m'
      ensures Reachable(t', hash, m', k)
    {
      assert Reachable(t, hash, m, k) && m[k] !in c;
    }
    forall l | ValidLoc(t', l)
      ensures ChainOk(t', hash, m', l, ChainAt(t', l))
    {
      assert ChainOk(t, hash, m, l, ChainAt(t, l));
      forall x | x in ChainAt(t', l)
        ensures Placed(t', hash, m', l, x)
      {
        assert Placed(t, hash, m, l, x);
      }
    }
  }

  /** With the cursor at the end, the primary table alone holds everything. */
  lemma FinishRepresents(t: Table, hash: Key -> nat, m: map<Key, Item>)
    requires Represents(t, hash, m) && t.expanding && t.cursor == |t.prior|
    ensures Represents(t.(expanding := false, prior := []), hash, m)
  {
    var t' := t.(expanding := false, prior := []);
    assert Shape(t');
    assert forall h: nat :: LocOf(t', h) == LocOf(t, h);
    assert forall l :: ValidLoc(t', l) ==> ValidLoc(t, l) && ChainAt(t', l) == ChainAt(t, l);
    hide Shape, LocOf, ChainAt, ValidLoc;
    forall k | k in m
      ensures Reachable(t', hash, m, k)
    {
      assert Reachable(t, hash, m, k);
    }
    forall l | ValidLoc(t', l)
      ensures ChainOk(t', hash, m, l, ChainAt(t', l))
    {
      assert ChainOk(t, hash, m, l, ChainAt(t, l));
      forall x | x in ChainAt(t', l)
        ensures Placed(t', hash, m, l, x)
      {
        assert Placed(t, hash, m, l, x);
      }
    }
  }

  /** Putting the first detached item at the head of its primary bucket. */
  lemma MoveRepresents(t: Table, hash: Key -> nat, m: map<Key, Item>, rest: Chain)
    requires rest != [] && Represents(t, hash, m - KeysOf(rest)) && Distinct(rest)
    requires forall it :: it in rest ==> it.key in m && m[it.key] == it
    ensures var l := LocOf(t, hash(rest[0].key));
            Represents(UpdateAt(t, l, [rest[0]] + ChainAt(t, l)), hash, m - KeysOf(rest[1..]))
  {
    hide LocOf, ChainAt, UpdateAt, Represents;
    var it := rest[0];
    InsertRepresents(t, hash, m - KeysOf(rest), it);
    assert KeysOf(rest) == KeysOf(rest[1..]) + {it.key};
    assert it.key !in KeysOf(rest[1..]);
    assert (m - KeysOf(rest))[it.key := it] == m - KeysOf(rest[1..]);
  }

  // ---- The table itself ----

  class HashTable {
    const hash: Key -> nat
    var hashpower: nat
    var primary: array<Chain>
    var prior: array<Chain>
    var expanding: bool
    var startedExpanding: bool
    var expandBucket: nat
    var hashItems: nat
    ghost var contents: map<Key, Item>

    ghost function State(): Table
      reads this, primary, prior
    {
      Table(hashpower, primary[..], if expanding then prior[..] else [], expanding, expandBucket)
    }

    ghost predicate Valid()
      reads this, primary, prior
    {
      && Represents(State(), hash, contents)
      && hashItems == |contents|
      && (expanding ==> primary != prior && expandBucket < prior.Length)
    }

    constructor (hash: Key -> nat, power: nat)
      ensures Valid() && contents == map[] && !expanding && hashpower == power && this.hash == hash
      ensures fresh(primary) && fresh(prior)
    {
      this.hash := hash;
      hashpower := power;
      var p := new Chain[Pow2(power)](_ => []);
      primary := p;
      prior := p;
      expanding, startedExpanding, expandBucket, hashItems := false, false, 0, 0;
      contents := map[];
    }

    /** The bucket that a hash value is routed to, and its chain. */
    method Route(hv: nat) returns (l: Loc, c: Chain)
      requires Shape(State())
      ensures l == LocOf(State(), hv) && c == ChainAt(State(), l)
    {
      hide Mask, Pow2;
      if expanding && Mask(hv, prior.Length) >= expandBucket {
        l := Loc(true, Mask(hv, prior.Length));
        c := prior[l.bucket];
      } else {
        l := Loc(false, Mask(hv, primary.Length));
        c := primary[l.bucket];
      }
    }

    /** The chain of one bucket is replaced. */
    method SetChain(l: Loc, c: Chain)
      requires Shape(State()) && ValidLoc(State(), l) && (expanding ==> primary != prior)
      modifies primary, prior
      ensures State() == UpdateAt(old(State()), l, c)
    {
      hide Pow2;
      if l.inOld {
        prior[l.bucket] := c;
      } else {
        primary[l.bucket] := c;
      }
    }

    /** assoc_find: the routed chain is walked to the first item with the key. */
    method Find(key: Key, hv: nat) returns (ret: Option<Item>)
      requires Valid() && hv == hash(key)
      ensures ret == if key in contents then Some(contents[key]) else None
    {
      hide Represents, Mask;
      RepresentsShape(State(), hash, contents);
      LookupAgrees(State(), hash, contents, key);
      var l, c := Route(hv);
      var i := 0;
      while i < |c|
        invariant 0 <= i <= |c| && forall j :: 0 <= j < i ==> c[j].key != key
      {
        if c[i].key == key {
          return Some(c[i]);
        }
        i := i + 1;
      }
      return None;
    }

    /** assoc_insert.  The key must not be in the table yet. */
    method Insert(it: Item, hv: nat)
      requires Valid() && hv == hash(it.key) && it.key !in contents
      modifies this, primary, prior
      ensures Valid() && contents == old(contents)[it.key := it]
      ensures hashItems == old(hashItems) + 1
      ensures unchanged(`hashpower) && unchanged(`expanding) && unchanged(`expandBucket) && unchanged(`primary)
      ensures unchanged(`prior)
      ensures startedExpanding == (old(startedExpanding) ||
                (!expanding && hashItems > Pow2(hashpower) * 3 / 2 && hashpower < HASHPOWER_MAX))
    {
      hide Represents, Shape, LocOf, ChainAt, UpdateAt, ValidLoc;
      RepresentsShape(State(), hash, contents);
      InsertRepresents(State(), hash, contents, it);
      var l, c := Route(hv);
      SetChain(l, [it] + c);
      contents := contents[it.key := it];
      hashItems := hashItems + 1;
      if !expanding && hashItems > Pow2(hashpower) * 3 / 2 && hashpower < HASHPOWER_MAX {
        startedExpanding := true;
      }
    }

    /** _hashitem_before: the place of the key in its chain. */
    static method Position(c: Chain, key: Key) returns (i: nat)
      ensures i <= |c| && (i < |c| ==> c[i].key == key) && forall j :: 0 <= j < i ==> c[j].key != key
    {
      i := 0;
      while i < |c| && c[i].key != key
        invariant 0 <= i <= |c| && forall j :: 0 <= j < i ==> c[j].key != key
      {
        i := i + 1;
      }
    }

    /** assoc_delete.  Callers only delete what they have found. */
    method Delete(key: Key, hv: nat)
      requires Valid() && hv == hash(key) && key in contents
      modifies this, primary, prior
      ensures Valid() && contents == old(contents) - {key}
      ensures unchanged(`hashpower) && unchanged(`expanding) && unchanged(`expandBucket) && unchanged(`primary)
      ensures unchanged(`prior)
      ensures unchanged(`startedExpanding)
    {
      hide Represents, Shape, LocOf, ChainAt, UpdateAt, ValidLoc, RemoveAt;
      RepresentsShape(State(), hash, contents);
      LookupAgrees(State(), hash, contents, key);
      var l, c := Route(hv);
      var i := Position(c, key);
      assert i < |c|;
      DeleteRepresents(State(), hash, contents, l, i);
      hashItems := hashItems - 1;
      SetChain(l, RemoveAt(c, i));
      OneFewer(contents, key);
      contents := contents - {key};
    }

    /** assoc_expand, run with all workers paused; `gotMemory` says whether the new array could be had. */
    method Expand(gotMemory: bool)
      requires Valid() && !expanding
      modifies this
      ensures Valid() && contents == old(contents) && unchanged(`hashItems) && unchanged(`startedExpanding)
      ensures gotMemory ==>
                && expanding
                && expandBucket == 0
                && hashpower == old(hashpower) + 1
                && prior == old(primary)
                && fresh(primary)
      ensures !gotMemory ==> !expanding && hashpower == old(hashpower) && primary == old(primary)
    {
      hide Represents, Pow2;
      RepresentsShape(State(), hash, contents);
      ghost var t := State();
      prior := primary;
      if gotMemory {
        primary := new Chain[Pow2(hashpower + 1)](_ => []);
        hashpower := hashpower + 1;
        expanding := true;
        expandBucket := 0;
        ExpandRepresents(t, hash, contents, primary[..]);
        assert State() == Table(t.power + 1, primary[..], t.primary, true, 0);
      } else {
        primary := prior;
      }
    }

    /** The first of the detached items becomes the head of its primary bucket. */
    method MoveToPrimary(ghost d: Table, rest: Chain)
      requires rest != [] && Distinct(rest) && forall it :: it in rest ==> it.key in contents && contents[it.key] == it
      requires primary.Length >= 1 && Represents(d.(primary := primary[..]), hash, contents - KeysOf(rest))
      requires LocOf(d.(primary := primary[..]), hash(rest[0].key)) == Loc(false,
                 Mask(hash(rest[0].key), primary.Length))
      modifies primary
      ensures Represents(d.(primary := primary[..]), hash, contents - KeysOf(rest[1..]))
    {
      hide Represents, Mask, Distinct, KeysOf;
      ghost var s := d.(primary := primary[..]);
      MoveRepresents(s, hash, contents, rest);
      RepresentsShape(s, hash, contents - KeysOf(rest));
      var it := rest[0];
      var bucket := Mask(hash(it.key), primary.Length);
      primary[bucket] := [it] + primary[bucket];
      assert d.(primary := primary[..]) == UpdateAt(s, Loc(false, bucket), [it] + ChainAt(s, Loc(false, bucket)));
    }

    /** The walk over the detached bucket. */
    method MoveChain(chain: Chain, ghost d: Table)
      requires Shape(d) && primary.Length == |d.primary| && Distinct(chain)
      requires forall it :: it in chain ==> it.key in contents && contents[it.key] == it
      requires forall it :: it in chain ==> LocOf(d, hash(it.key)) == Loc(false, Mask(hash(it.key), primary.Length))
      requires Represents(d.(primary := primary[..]), hash, contents - KeysOf(chain))
      modifies primary
      ensures Represents(d.(primary := primary[..]), hash, contents)
    {
      hide Represents, Mask, LocOf, Shape;
      var rest := chain;
      while rest != []
        invariant |rest| <= |chain| && rest == chain[|chain| - |rest|..]
        invariant Represents(d.(primary := primary[..]), hash, contents - KeysOf(rest))
        decreases |rest|
      {
        assert rest[0] in chain && forall it :: it in rest ==> it in chain;
        SameRouting(d, primary[..], hash(rest[0].key));
        MoveToPrimary(d, rest);
        rest := rest[1..];
      }
      assert contents - KeysOf([]) == contents;
    }

    /** One pass of the maintenance loop with the lock of the bucket held. */
    method MigrateBucket()
      requires Valid() && expanding
      modifies this, primary, prior
      ensures Valid() && contents == old(contents)
      ensures expandBucket == old(expandBucket) + 1 && expanding == (expandBucket < prior.Length)
      ensures unchanged(`hashItems) && unchanged(`hashpower) && unchanged(`primary) && unchanged(`prior)
      ensures unchanged(`startedExpanding)
    {
      hide Represents, Mask, LocOf, Pow2;
      RepresentsShape(State(), hash, contents);
      ghost var t := State();
      DetachRepresents(t, hash, contents);
      ghost var d := Detach(t);
      var chain := prior[expandBucket];
      AllPlaced(t, hash, contents, Loc(true, t.cursor), chain);
      assert d.(primary := primary[..]) == d;
      MoveChain(chain, d);
      prior[expandBucket] := [];
      expandBucket := expandBucket + 1;
      assert State() == d.(primary := primary[..]);
      if expandBucket == prior.Length {
        FinishRepresents(State(), hash, contents);
        expanding := false;
      }
    }
  }

  lemma OneFewer(m: map<Key, Item>, k: Key)
    requires k in m
    ensures |m - {k}| == |m| - 1
  {
    assert m.Keys == (m - {k}).Keys + {k};
  }

  lemma RepresentsShape(t: Table, hash: Key -> nat, m: map<Key, Item>)
    requires Represents(t, hash, m)
    ensures Shape(t)
  {
  }

  lemma AllPlaced(t: Table, hash: Key -> nat, m: map<Key, Item>, l: Loc, c: Chain)
    requires Shape(t) && ChainOk(t, hash, m, l, c)
    ensures Distinct(c) && forall it :: it in c ==> it.key in m && m[it.key] == it
  {
    assert forall it :: it in c ==> Placed(t, hash, m, l, it);
  }

  lemma SameRouting(d: Table, p: seq<Chain>, hv: nat)
    requires Shape(d) && |p| == |d.primary|
    ensures Shape(d.(primary := p)) && LocOf(d.(primary := p), hv) == LocOf(d, hv)
  {
  }
}
