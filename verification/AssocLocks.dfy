/** The hash table under its striped item locks: workers that hold the lock of a hash value, and the one
    maintenance thread that holds the lock of the bucket it migrates, interleaved step by step. */
module AssocLocks {
  import opened Pow
  import opened Assoc

  /** Where a worker is between item_lock and item_unlock.  The `expanding` flag and the cursor are read
      in two separate steps. */
  datatype Worker = Idle | Locked(hv: nat) | SawFlag(hv: nat, flag: bool) | Routed(hv: nat, loc: Loc)

  /** Where the maintenance thread is in a pass over one bucket. */
  datatype Maint = Resting | Moving(rest: Chain) | Cleared | Advanced

  datatype State = State(t: Table, m: map<Key, Item>, workers: seq<Worker>, maint: Maint, maintHv: nat, lockPower: nat)

  datatype Action =
    | Lock(w: nat, hv: nat)
    | ReadFlag(w: nat)
    | ReadCursor(w: nat)
    | Insert(w: nat, it: Item)
    | Delete(w: nat, i: nat)
    | Unlock(w: nat)
    | MaintLock
    | MaintMove(junk: Chain)
    | MaintClear
    | MaintAdvance
    | MaintFinish
    | MaintUnlock
    | Expand(blank: seq<Chain>)

  function Stripe(s: State, hv: nat): nat { Mask(hv, Pow2(s.lockPower)) }

  /** The lock is held by some thread other than worker `except`. */
  predicate Taken(s: State, hv: nat, except: int) {
    || (exists v :: 0 <= v < |s.workers| && v != except && !s.workers[v].Idle? && Stripe(s,
      s.workers[v].hv) == Stripe(s, hv))
    || (!s.maint.Resting? && Stripe(s, s.maintHv) == Stripe(s, hv))
  }

  /** The routing choice as the code computes it from an earlier read of the flag. */
  function RouteRead(t: Table, hv: nat, flag: bool): Loc
    requires flag ==> t.power >= 1
    requires |t.primary| >= 1
  {
    if flag && Mask(hv, Pow2(t.power - 1)) >= t.cursor then Loc(true, Mask(hv, Pow2(t.power - 1)))
    else Loc(false, Mask(hv, |t.primary|))
  }

  predicate AllIdle(s: State) {
    forall v :: 0 <= v < |s.workers| ==> s.workers[v].Idle?
  }

  /** One atomic step of one thread. */
  ghost predicate Next(hash: Key -> nat, s: State, a: Action, s': State) {
    match a
    case Lock(w, hv) =>
      w < |s.workers| && s.workers[w].Idle? && !Taken(s, hv, w) && s' == s.(workers := s.workers[w := Locked(hv)])
    case ReadFlag(w) =>
      w < |s.workers| && s.workers[w].Locked? && s' == s.(workers := s.workers[w := SawFlag(s.workers[w].hv,
        s.t.expanding)])
    case ReadCursor(w) =>
      w < |s.workers| && s.workers[w].SawFlag? && |s.t.primary| >= 1 && (s.workers[w].flag ==> s.t.power >= 1) &&
      s' == s.(workers := s.workers[w := Routed(s.workers[w].hv, RouteRead(s.t, s.workers[w].hv, s.workers[w].flag))])
    case Insert(w, it) =>
      w < |s.workers| && s.workers[w].Routed? && hash(it.key) == s.workers[w].hv && it.key !in s.m &&
      Shape(s.t) && ValidLoc(s.t, s.workers[w].loc) &&
      s' == s.(t := UpdateAt(s.t, s.workers[w].loc, [it] + ChainAt(s.t, s.workers[w].loc)), m := s.m[it.key := it])
    case Delete(w, i) =>
      w < |s.workers| && s.workers[w].Routed? && Shape(s.t) && ValidLoc(s.t, s.workers[w].loc) &&
      i < |ChainAt(s.t, s.workers[w].loc)| && hash(ChainAt(s.t, s.workers[w].loc)[i].key) == s.workers[w].hv &&
      s' == s.(t := UpdateAt(s.t, s.workers[w].loc, RemoveAt(ChainAt(s.t, s.workers[w].loc), i)),
               m := s.m - {ChainAt(s.t, s.workers[w].loc)[i].key})
    case Unlock(w) =>
      w < |s.workers| && !s.workers[w].Idle? && s' == s.(workers := s.workers[w := Idle])
    case MaintLock =>
      s.maint.Resting? && s.t.expanding && s.t.cursor < |s.t.prior| && !Taken(s, s.t.cursor, -1) &&
      s' == s.(maint := Moving(s.t.prior[s.t.cursor]), maintHv := s.t.cursor)
    case MaintMove(junk) =>
      // The head pointer of the old bucket keeps pointing into a chain that is being taken apart.
      s.maint.Moving? && s.maint.rest != [] && s.t.cursor < |s.t.prior| && |s.t.primary| >= 1 &&
      var it := s.maint.rest[0];
      var b := Mask(hash(it.key), |s.t.primary|);
      s' == s.(t := s.t.(primary := s.t.primary[b := [it] + s.t.primary[b]], prior := s.t.prior[s.t.cursor := junk]),
               maint := Moving(s.maint.rest[1..]))
    case MaintClear =>
      s.maint.Moving? && s.maint.rest == [] && s.t.cursor < |s.t.prior| &&
      s' == s.(t := s.t.(prior := s.t.prior[s.t.cursor := []]), maint := Cleared)
    case MaintAdvance =>
      s.maint.Cleared? && s' == s.(t := s.t.(cursor := s.t.cursor + 1), maint := Advanced)
    case MaintFinish =>
      s.maint.Advanced? && s.t.expanding && s.t.cursor == |s.t.prior| &&
        s' == s.(t := s.t.(expanding := false, prior := []))
    case MaintUnlock =>
      s.maint.Advanced? && (s.t.expanding ==> s.t.cursor < |s.t.prior|) && s' == s.(maint := Resting)
    case Expand(blank) =>
      s.maint.Resting? && !s.t.expanding && AllIdle(s) &&
      |blank| == Pow2(s.t.power + 1) && (forall b :: 0 <= b < |blank| ==> blank[b] == []) &&
      s' == s.(t := Table(s.t.power + 1, blank, s.t.primary, true, 0))
  }

  // ---- The invariant ----

  /** The table as it will be once the bucket in the maintenance thread's hands has been taken off. */
  function View(s: State): Table
    requires Shape(s.t)
  {
    if (s.maint.Moving? || s.maint.Cleared?) && s.t.expanding && s.t.cursor < |s.t.prior| then Detach(s.t) else s.t
  }

  function InHand(s: State): Chain { if s.maint.Moving? then s.maint.rest else [] }

  ghost predicate MaintOk(hash: Key -> nat, s: State)
    requires Shape(s.t)
  {
    match s.maint
    case Resting => s.t.expanding ==> s.t.cursor < |s.t.prior|
    case Moving(rest) => s.t.expanding && s.t.cursor < |s.t.prior| && s.maintHv == s.t.cursor &&
      Distinct(rest) && forall it :: it in rest ==>
        it.key in s.m && s.m[it.key] == it && Mask(hash(it.key), |s.t.prior|) == s.t.cursor
    case Cleared => s.t.expanding && s.t.cursor < |s.t.prior| && s.maintHv == s.t.cursor && s.t.prior[s.t.cursor] == []
    case Advanced => true
  }

  ghost predicate WorkerOk(s: State, w: Worker)
    requires Shape(s.t)
  {
    match w
    case Idle => true
    case Locked(_) => true
    case SawFlag(_, flag) => if flag then s.t.power >= 1 &&
           (s.t.expanding || s.t.cursor == Pow2(s.t.power - 1)) else !s.t.expanding
    case Routed(hv, loc) => loc == LocOf(s.t, hv)
  }

  /** Every lock has one holder. */
  predicate Exclusive(s: State) {
    && (forall v, w :: 0 <= v < w < |s.workers| && !s.workers[v].Idle? && !s.workers[w].Idle? ==>
          Stripe(s, s.workers[v].hv) != Stripe(s, s.workers[w].hv))
    && (forall v :: 0 <= v < |s.workers| && !s.workers[v].Idle? && !s.maint.Resting? ==>
          Stripe(s, s.workers[v].hv) != Stripe(s, s.maintHv))
  }

  ghost predicate Inv(hash: Key -> nat, s: State) {
    && Shape(s.t)
    && s.lockPower < s.t.power
    && Represents(View(s), hash, s.m - KeysOf(InHand(s)))
    && MaintOk(hash, s)
    && (forall w :: 0 <= w < |s.workers| ==> WorkerOk(s, s.workers[w]))
    && Exclusive(s)
  }

  ghost predicate Init(hash: Key -> nat, s: State) {
    && Represents(s.t, hash, s.m) && !s.t.expanding && s.maint.Resting? && AllIdle(s)
    && s.lockPower < s.t.power
  }

  // ---- What one lock covers ----

  /** The stripe of a bucket of the old table covers every hash value that falls into it. */
  lemma StripeCovers(s: State, hv: nat, b: nat)
    requires s.lockPower < s.t.power && b == Mask(hv, Pow2(s.t.power - 1))
    ensures Stripe(s, hv) == Stripe(s, b)
  {
    hide Mask;
    MaskSmall(b, Pow2(s.t.power - 1));
    MaskCoarser(hv, b, s.lockPower, s.t.power - 1);
  }

  /** No worker that holds a lock has its hash value in the bucket being migrated. */
  lemma OutsideBucket(hash: Key -> nat, s: State, w: nat)
    requires Inv(hash, s) && w < |s.workers| && !s.workers[w].Idle?
    requires s.maint.Moving? || s.maint.Cleared?
    ensures Mask(s.workers[w].hv, |s.t.prior|) != s.t.cursor
  {
    hide Mask, Represents;
    if Mask(s.workers[w].hv, |s.t.prior|) == s.t.cursor {
      StripeCovers(s, s.workers[w].hv, s.t.cursor);
    }
  }

  /** A routed worker's chain is its own chain in the view, and has the same content there. */
  lemma RoutedInView(hash: Key -> nat, s: State, w: nat)
    requires Inv(hash, s) && w < |s.workers| && s.workers[w].Routed?
    ensures var l := s.workers[w].loc;
            && ValidLoc(s.t, l) && Shape(View(s)) && ValidLoc(View(s), l)
            && l == LocOf(s.t, s.workers[w].hv) == LocOf(View(s), s.workers[w].hv)
            && ChainAt(View(s), l) == ChainAt(s.t, l)
            && (s.maint.Moving? || s.maint.Cleared? ==> l != Loc(true, s.t.cursor))
  {
    hide Mask, Represents, Pow2;
    assert WorkerOk(s, s.workers[w]);
    if s.maint.Moving? || s.maint.Cleared? {
      OutsideBucket(hash, s, w);
      DetachFrame(s.t);
    }
  }

  lemma RouteReadIsLoc(s: State, hv: nat, flag: bool)
    requires Shape(s.t) && WorkerOk(s, SawFlag(hv, flag))
    ensures RouteRead(s.t, hv, flag) == LocOf(s.t, hv)
  {
    hide Mask;
  }

  // ---- Each step keeps the invariant ----

  lemma LockStep(hash: Key -> nat, s: State, a: Action, s': State)
    requires Inv(hash, s) && Next(hash, s, a, s') && (a.Lock? || a.Unlock?)
    ensures Inv(hash, s')
  {
    hide Represents, Mask, Pow2, LocOf;
    forall v | 0 <= v < |s'.workers|
      ensures WorkerOk(s', s'.workers[v])
    {
      assert WorkerOk(s, s.workers[v]);
    }
  }

  lemma ReadStep(hash: Key -> nat, s: State, a: Action, s': State)
    requires Inv(hash, s) && Next(hash, s, a, s') && (a.ReadFlag? || a.ReadCursor?)
    ensures Inv(hash, s')
  {
    hide Represents, Mask, Pow2, LocOf, RouteRead, Taken;
    if a.ReadCursor? {
      RouteReadIsLoc(s, s.workers[a.w].hv, s.workers[a.w].flag);
    }
    forall v | 0 <= v < |s'.workers|
      ensures WorkerOk(s', s'.workers[v])
    {
      assert WorkerOk(s, s.workers[v]);
    }
  }

  lemma ViewUpdate(s: State, l: Loc, c: Chain)
    requires Shape(s.t) && ValidLoc(s.t, l) && Shape(View(s)) && ValidLoc(View(s), l)
    requires s.maint.Moving? || s.maint.Cleared? ==> l != Loc(true, s.t.cursor)
    ensures var s' := s.(t := UpdateAt(s.t, l, c));
            Shape(s'.t) && View(s') == UpdateAt(View(s), l, c)
  {
    hide Pow2;
  }

  /** Chain updates move nothing and change no routing. */
  lemma UpdateKeepsRest(hash: Key -> nat, s: State, l: Loc, c: Chain, m': map<Key, Item>)
    requires Inv(hash, s) && ValidLoc(s.t, l)
    requires s.maint.Moving? || s.maint.Cleared? ==> l != Loc(true, s.t.cursor)
    requires forall it :: it in InHand(s) ==> it.key in m' && m'[it.key] == it
    ensures var s' := s.(t := UpdateAt(s.t, l, c), m := m');
            && Shape(s'.t) && MaintOk(hash, s') && Exclusive(s') && s'.lockPower < s'.t.power
            && (forall w :: 0 <= w < |s'.workers| ==> WorkerOk(s', s'.workers[w]))
  {
    hide Represents, Mask, Pow2;
    UpdateFrame(s.t, l, c);
    var s' := s.(t := UpdateAt(s.t, l, c), m := m');
    assert |s'.t.prior| == |s.t.prior| && |s'.t.primary| == |s.t.primary|;
    hide LocOf;
    forall w | 0 <= w < |s'.workers|
      ensures WorkerOk(s', s'.workers[w])
    {
      assert WorkerOk(s, s.workers[w]);
    }
  }

  lemma InsertStep(hash: Key -> nat, s: State, a: Action, s': State)
    requires Inv(hash, s) && Next(hash, s, a, s') && a.Insert?
    ensures Inv(hash, s')
  {
    RoutedInView(hash, s, a.w);
    var l, it := s.workers[a.w].loc, a.it;
    var c := [it] + ChainAt(s.t, l);
    var k := KeysOf(InHand(s));
    assert forall x :: x in InHand(s) ==> x.key in s.m;
    hide Represents, Mask, Pow2, LocOf, ChainAt, UpdateAt, View, Shape, ValidLoc;
    UpdateKeepsRest(hash, s, l, c, s.m[it.key := it]);
    InsertRepresents(View(s), hash, s.m - k, it);
    assert (s.m - k)[it.key := it] == s.m[it.key := it] - k;
    ViewUpdate(s, l, c);
    assert View(s') == View(s.(t := UpdateAt(s.t, l, c))) by { SameView(s.(t := UpdateAt(s.t, l, c)), s'); }
  }

  lemma SameView(s: State, s': State)
    requires Shape(s.t) && s'.t == s.t && s'.maint == s.maint
    ensures View(s') == View(s)
  {
  }

  lemma DeleteStep(hash: Key -> nat, s: State, a: Action, s': State)
    requires Inv(hash, s) && Next(hash, s, a, s') && a.Delete?
    ensures Inv(hash, s')
  {
    hide Represents, Mask, Pow2, LocOf, ChainAt, UpdateAt, View, Shape, ValidLoc, RemoveAt, KeysOf, MaintOk, WorkerOk,
      Exclusive;
    RoutedInView(hash, s, a.w);
    var l := s.workers[a.w].loc;
    var c, k := ChainAt(s.t, l), KeysOf(InHand(s));
    var it, c' := c[a.i], RemoveAt(c, a.i);
    NotInHand(hash, s, l, it);
    UpdateKeepsRest(hash, s, l, c', s.m - {it.key});
    DeleteRepresents(View(s), hash, s.m - k, l, a.i);
    LessTwice(s.m, k, it.key);
    ViewUpdate(s, l, c');
    SameView(s.(t := UpdateAt(s.t, l, c')), s');
  }

  /** An item of a routed chain is not one of those the maintenance thread has in its hands. */
  lemma NotInHand(hash: Key -> nat, s: State, l: Loc, it: Item)
    requires Inv(hash, s) && Shape(View(s)) && ValidLoc(View(s), l) && it in ChainAt(View(s), l)
    ensures forall x :: x in InHand(s) ==> x.key in s.m - {it.key} && (s.m - {it.key})[x.key] == x
  {
    var k := KeysOf(InHand(s));
    assert ChainOk(View(s), hash, s.m - k, l, ChainAt(View(s), l));
    hide Represents, Mask, Pow2, LocOf, ChainAt, View, Shape, ValidLoc;
    assert Placed(View(s), hash, s.m - k, l, it);
    assert forall x :: x in InHand(s) ==> x.key in k;
  }

  lemma LessTwice(m: map<Key, Item>, k: set<Key>, key: Key)
    ensures (m - k) - {key} == (m - {key}) - k
  {
  }

  lemma MaintLockStep(hash: Key -> nat, s: State, a: Action, s': State)
    requires Inv(hash, s) && Next(hash, s, a, s') && a.MaintLock?
    ensures Inv(hash, s')
  {
    var c := s.t.prior[s.t.cursor];
    assert s.m - KeysOf([]) == s.m;
    DetachRepresents(s.t, hash, s.m);
    var l0 := Loc(true, s.t.cursor);
    forall it | it in c
      ensures it.key in s.m && s.m[it.key] == it && Mask(hash(it.key), |s.t.prior|) == s.t.cursor
    {
      assert Placed(s.t, hash, s.m, l0, it);
    }
    assert Distinct(c);
    hide Represents, Mask, Pow2, LocOf, ChainAt, Distinct, KeysOf;
    forall v | 0 <= v < |s'.workers|
      ensures WorkerOk(s', s'.workers[v])
    {
      assert WorkerOk(s, s.workers[v]);
    }
  }

  lemma MoveFrame(t: Table, it: Item, b: nat, junk: Chain)
    requires Shape(t) && t.expanding && t.cursor < |t.prior| && b < |t.primary|
    ensures var t' := t.(primary := t.primary[b := [it] + t.primary[b]], prior := t.prior[t.cursor := junk]);
            var d, l := Detach(t), Loc(false, b);
            && Shape(t') && Shape(d) && ValidLoc(d, l)
            && (forall h: nat :: LocOf(t', h) == LocOf(t, h))
            && Detach(t') == UpdateAt(d, l, [it] + ChainAt(d, l))
  {
    hide Mask, Pow2;
  }

  lemma MaintMoveStep(hash: Key -> nat, s: State, a: Action, s': State)
    requires Inv(hash, s) && Next(hash, s, a, s') && a.MaintMove?
    ensures Inv(hash, s')
  {
    var rest := s.maint.rest;
    var it := rest[0];
    var b := Mask(hash(it.key), |s.t.primary|);
    assert s' == s.(t := s.t.(primary := s.t.primary[b := [it] + s.t.primary[b]],
             prior := s.t.prior[s.t.cursor := a.junk]), maint := Moving(rest[1..]));
    hide Inv, Next, Mask;
    MoveKeeps(hash, s, s', it, b, a.junk, rest);
  }

  lemma MoveKeeps(hash: Key -> nat, s: State, s': State, it: Item, b: nat, junk: Chain, rest: Chain)
    requires Inv(hash, s) && s.maint == Moving(rest) && rest != [] && it == rest[0] && s.t.cursor < |s.t.prior|
    requires 1 <= |s.t.primary| && b == Mask(hash(it.key), |s.t.primary|)
    requires s' == s.(t := s.t.(primary := s.t.primary[b := [it] + s.t.primary[b]],
               prior := s.t.prior[s.t.cursor := junk]), maint := Moving(rest[1..]))
    ensures Inv(hash, s')
  {
    hide Represents, Mask, LocOf, ChainAt, KeysOf, UpdateAt, Detach, WorkerOk, Distinct, Shape, Exclusive;
    MovedView(hash, s.t, s'.t, s.m, it, b, junk, rest);
    MovedMaint(hash, s, s', rest);
    MovedWorkers(s, s', it, b, junk);
    hide MaintOk;
    SameLocks(s, s');
  }

  lemma MovedMaint(hash: Key -> nat, s: State, s': State, rest: Chain)
    requires Shape(s.t) && MaintOk(hash, s) && s.maint == Moving(rest) && rest != [] && s.t.cursor < |s.t.prior|
    requires Shape(s'.t)
    requires s'.t.expanding == s.t.expanding && s'.t.cursor == s.t.cursor && |s'.t.prior| == |s.t.prior|
    requires s'.maintHv == s.maintHv && s'.m == s.m && s'.maint == Moving(rest[1..])
    ensures MaintOk(hash, s')
  {
    hide Mask, Shape;
    assert forall x :: x in rest[1..] ==> x in rest;
  }

  lemma SameLocks(s: State, s': State)
    requires Exclusive(s) && s'.workers == s.workers && s'.lockPower == s.lockPower && s'.maintHv == s.maintHv
    requires (s.maint.Resting? ==> s'.maint.Resting?)
    ensures Exclusive(s')
  {
    hide Mask, Pow2;
  }

  lemma MovedWorkers(s: State, s': State, it: Item, b: nat, junk: Chain)
    requires Shape(s.t) && s.t.expanding && s.t.cursor < |s.t.prior| && b < |s.t.primary| && s'.workers == s.workers
    requires s'.t == s.t.(primary := s.t.primary[b := [it] + s.t.primary[b]], prior := s.t.prior[s.t.cursor := junk])
    requires forall v :: 0 <= v < |s.workers| ==> WorkerOk(s, s.workers[v])
    ensures Shape(s'.t) && forall v :: 0 <= v < |s'.workers| ==> WorkerOk(s', s'.workers[v])
  {
    hide LocOf, Pow2;
    MoveFrame(s.t, it, b, junk);
    forall v | 0 <= v < |s'.workers|
      ensures WorkerOk(s', s'.workers[v])
    {
      assert WorkerOk(s, s.workers[v]);
    }
  }

  lemma MovedView(hash: Key -> nat, t: Table, t': Table, m: map<Key, Item>, it: Item, b: nat, junk: Chain, rest: Chain)
    requires Shape(t) && t.expanding && t.cursor < |t.prior| && rest != [] && it == rest[0] && Distinct(rest)
    requires 1 <= |t.primary| && b == Mask(hash(it.key), |t.primary|)
    requires forall x :: x in rest ==> x.key in m && m[x.key] == x && Mask(hash(x.key), |t.prior|) == t.cursor
    requires Represents(Detach(t), hash, m - KeysOf(rest))
    requires t' == t.(primary := t.primary[b := [it] + t.primary[b]], prior := t.prior[t.cursor := junk])
    ensures Shape(t') && Represents(Detach(t'), hash, m - KeysOf(rest[1..]))
  {
    hide Represents, Mask, Pow2, LocOf, ChainAt, KeysOf, UpdateAt, Detach;
    assert it in rest;
    MoveFrame(t, it, b, junk);
    DetachFrame(t);
    MoveRepresents(Detach(t), hash, m, rest);
  }

  lemma MaintClearStep(hash: Key -> nat, s: State, a: Action, s': State)
    requires Inv(hash, s) && Next(hash, s, a, s') && a.MaintClear?
    ensures Inv(hash, s')
  {
    hide Represents, Mask, Pow2;
    assert forall h: nat :: LocOf(s'.t, h) == LocOf(s.t, h);
    assert Detach(s'.t) == Detach(s.t);
    hide LocOf;
    forall v | 0 <= v < |s'.workers|
      ensures WorkerOk(s', s'.workers[v])
    {
      assert WorkerOk(s, s.workers[v]);
    }
  }

  lemma MaintAdvanceStep(hash: Key -> nat, s: State, a: Action, s': State)
    requires Inv(hash, s) && Next(hash, s, a, s') && a.MaintAdvance?
    ensures Inv(hash, s')
  {
    assert Detach(s.t) == s'.t;
    DetachFrame(s.t);
    hide Represents, Mask, Pow2, LocOf;
    forall v | 0 <= v < |s'.workers|
      ensures WorkerOk(s', s'.workers[v])
    {
      assert WorkerOk(s, s.workers[v]);
      if !s.workers[v].Idle? {
        OutsideBucket(hash, s, v);
      }
    }
  }

  lemma MaintFinishStep(hash: Key -> nat, s: State, a: Action, s': State)
    requires Inv(hash, s) && Next(hash, s, a, s') && (a.MaintFinish? || a.MaintUnlock?)
    ensures Inv(hash, s')
  {
    hide Represents, Mask, Pow2;
    assert s.m - KeysOf([]) == s.m;
    if a.MaintFinish? {
      FinishRepresents(s.t, hash, s.m);
    }
    assert forall h: nat :: LocOf(s'.t, h) == LocOf(s.t, h);
    hide LocOf;
    forall v | 0 <= v < |s'.workers|
      ensures WorkerOk(s', s'.workers[v])
    {
      assert WorkerOk(s, s.workers[v]);
    }
  }

  lemma ExpandStep(hash: Key -> nat, s: State, a: Action, s': State)
    requires Inv(hash, s) && Next(hash, s, a, s') && a.Expand?
    ensures Inv(hash, s')
  {
    hide Represents, Mask, LocOf, Pow2;
    assert s.m - KeysOf([]) == s.m;
    ExpandRepresents(s.t, hash, s.m, a.blank);
    RepresentsShape(s'.t, hash, s.m);
  }

  // ---- Whole runs ----

  lemma StepKeeps(hash: Key -> nat, s: State, a: Action, s': State)
    requires Inv(hash, s) && Next(hash, s, a, s')
    ensures Inv(hash, s')
  {
    hide *;
    match a
    case Lock(_, _) => LockStep(hash, s, a, s');
    case ReadFlag(_) => ReadStep(hash, s, a, s');
    case ReadCursor(_) => ReadStep(hash, s, a, s');
    case Insert(_, _) => InsertStep(hash, s, a, s');
    case Delete(_, _) => DeleteStep(hash, s, a, s');
    case Unlock(_) => LockStep(hash, s, a, s');
    case MaintLock => MaintLockStep(hash, s, a, s');
    case MaintMove(_) => MaintMoveStep(hash, s, a, s');
    case MaintClear => MaintClearStep(hash, s, a, s');
    case MaintAdvance => MaintAdvanceStep(hash, s, a, s');
    case MaintFinish => MaintFinishStep(hash, s, a, s');
    case MaintUnlock => MaintFinishStep(hash, s, a, s');
    case Expand(_) => ExpandStep(hash, s, a, s');
  }

  ghost predicate Run(hash: Key -> nat, states: seq<State>, actions: seq<Action>) {
    && |states| == |actions| + 1 && Init(hash, states[0])
    && forall i :: 0 <= i < |actions| ==> Next(hash, states[i], actions[i], states[i + 1])
  }

  /** Every state of every interleaving satisfies the invariant. */
  lemma {:induction false} RunKeeps(hash: Key -> nat, states: seq<State>, actions: seq<Action>, i: nat)
    requires Run(hash, states, actions) && i < |states|
    ensures Inv(hash, states[i])
  {
    if i == 0 {
      assert states[0].m - KeysOf([]) == states[0].m;
    } else {
      RunKeeps(hash, states, actions, i - 1);
      hide Inv;
      StepKeeps(hash, states[i - 1], actions[i - 1], states[i]);
    }
  }

  /** In every interleaving the routing choice of a worker that holds its lock stays the right one, and
      the chain it chose answers lookups of its keys as the map does. */
  lemma RoutingStable(hash: Key -> nat, states: seq<State>, actions: seq<Action>, i: nat, w: nat)
    requires Run(hash, states, actions) && i < |states| && w < |states[i].workers| && states[i].workers[w].Routed?
    ensures var s := states[i];
            Shape(s.t) && s.workers[w].loc == LocOf(s.t, s.workers[w].hv) && ValidLoc(s.t, s.workers[w].loc)
    ensures var s := states[i];
            forall k :: hash(k) == s.workers[w].hv ==>
              && (forall it :: it in ChainAt(s.t, s.workers[w].loc) && it.key == k ==> k in s.m && s.m[k] == it)
              && (k in s.m ==> s.m[k] in ChainAt(s.t, s.workers[w].loc))
  {
    var s := states[i];
    RunKeeps(hash, states, actions, i);
    RoutedInView(hash, s, w);
    var held := KeysOf(InHand(s));
    forall k | hash(k) == s.workers[w].hv
      ensures forall it :: it in ChainAt(s.t, s.workers[w].loc) && it.key == k ==> k in s.m && s.m[k] == it
      ensures k in s.m ==> s.m[k] in ChainAt(s.t, s.workers[w].loc)
    {
      LookupAgrees(View(s), hash, s.m - held, k);
      if k in held {
        OutsideBucket(hash, s, w);
      }
    }
  }

  /** Two threads never work on the same chain at the same time: not two workers, and not a worker and the
      migration, whose one lock covers the old bucket and both primary buckets it feeds. */
  lemma NoSharedChains(hash: Key -> nat, states: seq<State>, actions: seq<Action>, i: nat, v: nat, w: nat)
    requires Run(hash, states, actions) && i < |states|
    requires v < |states[i].workers| && w < |states[i].workers| && states[i].workers[v].Routed?
    ensures var s := states[i]; v != w && s.workers[w].Routed? ==> s.workers[v].loc != s.workers[w].loc
    ensures var s := states[i];
            s.maint.Moving? || s.maint.Cleared? ==>
              s.workers[v].loc !in {Loc(true, s.t.cursor), Loc(false, s.t.cursor), Loc(false, s.t.cursor + |s.t.prior|)}
  {
    hide Represents, Mask;
    var s := states[i];
    RunKeeps(hash, states, actions, i);
    assert WorkerOk(s, s.workers[v]) && WorkerOk(s, s.workers[w]);
    if v != w && s.workers[w].Routed? && s.workers[v].loc == s.workers[w].loc {
      SameChainSameStripe(s, s.workers[v].hv, s.workers[w].hv);
    }
    if s.maint.Moving? || s.maint.Cleared? {
      OutsideBucket(hash, s, v);
      MaskDouble(s.workers[v].hv, |s.t.prior|);
    }
  }

  lemma SameChainSameStripe(s: State, h: nat, k: nat)
    requires Shape(s.t) && s.lockPower < s.t.power && LocOf(s.t, h) == LocOf(s.t, k)
    ensures Stripe(s, h) == Stripe(s, k)
  {
    hide Mask;
    if LocOf(s.t, h).inOld {
      MaskCoarser(h, k, s.lockPower, s.t.power - 1);
    } else {
      MaskCoarser(h, k, s.lockPower, s.t.power);
    }
  }

  /** While a worker holds a lock, no other thread changes the mapping of a key under it, so a lookup
      followed by an insert or a delete acts on the map at once. */
  lemma HeldKeysStable(hash: Key -> nat, s: State, a: Action, s': State, w: nat, k: Key)
    requires Inv(hash, s) && Next(hash, s, a, s') && w < |s.workers| && !s.workers[w].Idle?
    requires Stripe(s, hash(k)) == Stripe(s, s.workers[w].hv)
    requires (a.Insert? || a.Delete?) ==> a.w != w
    ensures k in s'.m <==> k in s.m
    ensures k in s.m ==> s'.m[k] == s.m[k]
  {
    hide Represents, Mask, Pow2, UpdateAt, ChainAt, Shape, ValidLoc, LocOf;
  }

  /** The lock table has to be smaller than the hash table: hash values of one bucket share a stripe
      exactly when it is no larger than the table the bucket belongs to. */
  lemma StripesNeedSmallerTable(l: nat, p: nat)
    ensures l <= p <==> forall h: nat, k: nat :: Mask(h, Pow2(p)) == Mask(k, Pow2(p)) ==>
              Mask(h, Pow2(l)) == Mask(k, Pow2(l))
  {
    hide Mask;
    if l <= p {
      forall h: nat, k: nat | Mask(h, Pow2(p)) == Mask(k, Pow2(p))
        ensures Mask(h, Pow2(l)) == Mask(k, Pow2(l))
      {
        MaskCoarser(h, k, l, p);
      }
    } else {
      var n := Pow2(p);
      ModUnique(n, n, 1, 0);
      MaskSmall(0, n);
      Pow2Grows(p, l);
      MaskSmall(n, Pow2(l));
      MaskSmall(0, Pow2(l));
    }
  }

  lemma {:induction false} Pow2Grows(p: nat, l: nat)
    requires p < l
    ensures Pow2(p) < Pow2(l)
    decreases l
  {
    if p < l - 1 {
      Pow2Grows(p, l - 1);
    }
  }

  datatype StartUp = Refused | Started(lockPower: nat)

  /** memcached_thread_init: the lock table grows with the number of worker threads, and the server does not start
      with one that is not smaller than the hash table. */
  function StartUpLocks(threads: nat, hashPower: nat): StartUp {
    var power := if threads < 3 then 10 else if threads < 4 then 11 else if threads < 5 then 12
      else if threads <= 10 then 13 else if threads <= 20 then 14 else 15;
    if power >= hashPower then Refused else Started(power)
  }

  /** Every server that starts, starts in a state from which the locks work; a hash power of 16 or more, the
      default, always starts. */
  lemma StartUpIsInit(hash: Key -> nat, s: State, threads: nat, hashPower: nat)
    requires StartUpLocks(threads, hashPower) == Started(s.lockPower) && s.t.power == hashPower
    requires Represents(s.t, hash, s.m) && !s.t.expanding && s.maint.Resting? && AllIdle(s)
    ensures Init(hash, s) && Inv(hash, s)
    ensures forall n :: 16 <= n ==> StartUpLocks(threads, n).Started?
  {
    assert View(s) == s.t && InHand(s) == [] && s.m - KeysOf([]) == s.m;
  }
}
