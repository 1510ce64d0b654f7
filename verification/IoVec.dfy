/** The output of a connection: buffers are collected in one vector that messages point into, cut into datagrams on UDP,
    and sent piecemeal. */
module IoVec {
  import opened Common

  type Byte = x: int | 0 <= x < 256
  type Bytes = seq<Byte>

  const UDP_MAX_PAYLOAD: nat := 1400
  const UDP_HEADER: nat := 8
  const IOV_MAX: nat := 1024

  // A message: where its buffers begin in the vector, and how many there are.
  datatype Msg = Msg(start: nat, len: nat)

  function BytesOf(bufs: seq<Bytes>): Bytes {
    if bufs == [] then [] else bufs[0] + BytesOf(bufs[1..])
  }

  function Flat(groups: seq<seq<Bytes>>): seq<Bytes> {
    if groups == [] then [] else groups[0] + Flat(groups[1..])
  }

  lemma {:induction false} BytesConcat(a: seq<Bytes>, b: seq<Bytes>)
    ensures BytesOf(a + b) == BytesOf(a) + BytesOf(b)
  {
    if a == [] {
      assert a + b == b;
    } else {
      BytesConcat(a[1..], b);
      assert (a + b)[1..] == a[1..] + b;
      Associative(a[0], BytesOf(a[1..]), BytesOf(b));
    }
  }

  lemma BytesMore(a: seq<Bytes>, b: Bytes)
    ensures BytesOf(a + [b]) == BytesOf(a) + b
  {
    BytesConcat(a, [b]);
    assert BytesOf([b]) == b;
  }

  lemma {:induction false} FlatConcat(a: seq<seq<Bytes>>, b: seq<seq<Bytes>>)
    ensures Flat(a + b) == Flat(a) + Flat(b)
  {
    if a == [] {
      assert a + b == b;
    } else {
      FlatConcat(a[1..], b);
      assert (a + b)[1..] == a[1..] + b;
      Associative(a[0], Flat(a[1..]), Flat(b));
    }
  }

  lemma FlatOne(g: seq<Bytes>)
    ensures Flat([g]) == g
  {
    assert [g][1..] == [];
  }

  /** Each message points at its buffers: its start is the number of buffers before it. */
  ghost predicate Layout(iov: seq<Bytes>, msgs: seq<Msg>, groups: seq<seq<Bytes>>) {
    && iov == Flat(groups) && |msgs| == |groups|
    && (forall i :: 0 <= i < |msgs| ==> msgs[i] == Msg(|Flat(groups[..i])|, |groups[i]|))
  }

  lemma LayoutAdd(iov: seq<Bytes>, msgs: seq<Msg>, groups: seq<seq<Bytes>>)
    requires Layout(iov, msgs, groups)
    ensures Layout(iov, msgs + [Msg(|iov|, 0)], groups + [[]])
  {
    var groups', msgs' := groups + [[]], msgs + [Msg(|iov|, 0)];
    FlatConcat(groups, [[]]);
    FlatOne([]);
    assert iov + [] == iov;
    forall i | 0 <= i < |msgs'|
      ensures msgs'[i] == Msg(|Flat(groups'[..i])|, |groups'[i]|)
    {
      assert groups'[..i] == if i < |groups| then groups[..i] else groups;
    }
  }

  lemma LayoutExtend(iov: seq<Bytes>, msgs: seq<Msg>, groups: seq<seq<Bytes>>, b: Bytes)
    requires Layout(iov, msgs, groups) && msgs != []
    ensures var n := |msgs| - 1;
            && msgs[n].start + msgs[n].len == |iov|
            && Layout(iov + [b], msgs[n := Msg(msgs[n].start, msgs[n].len + 1)], groups[n := groups[n] + [b]])
  {
    var n := |msgs| - 1;
    var groups', msgs' := groups[n := groups[n] + [b]], msgs[n := Msg(msgs[n].start, msgs[n].len + 1)];
    assert groups == groups[..n] + [groups[n]] && groups' == groups[..n] + [groups[n] + [b]];
    FlatConcat(groups[..n], [groups[n]]);
    FlatConcat(groups[..n], [groups[n] + [b]]);
    FlatOne(groups[n]);
    FlatOne(groups[n] + [b]);
    Associative(Flat(groups[..n]), groups[n], [b]);
    forall i | 0 <= i < |msgs'|
      ensures msgs'[i] == Msg(|Flat(groups'[..i])|, |groups'[i]|)
    {
      assert groups'[..i] == groups[..i];
    }
  }

  /** What a group carries for the reader: on UDP its first buffer is the datagram's header. */
  function Payload(udp: bool, g: seq<Bytes>): Bytes {
    if udp && g != [] then BytesOf(g[1..]) else if udp then [] else BytesOf(g)
  }

  function Content(udp: bool, groups: seq<seq<Bytes>>): Bytes {
    if groups == [] then [] else Payload(udp, groups[0]) + Content(udp, groups[1..])
  }

  lemma {:induction false} ContentConcat(udp: bool, a: seq<seq<Bytes>>, b: seq<seq<Bytes>>)
    ensures Content(udp, a + b) == Content(udp, a) + Content(udp, b)
  {
    hide Payload;
    if a == [] {
      assert a + b == b;
    } else {
      ContentConcat(udp, a[1..], b);
      assert (a + b)[1..] == a[1..] + b;
      Associative(Payload(udp, a[0]), Content(udp, a[1..]), Content(udp, b));
    }
  }

  lemma PayloadExtend(udp: bool, g: seq<Bytes>, b: Bytes)
    requires udp ==> g != []
    ensures Payload(udp, g + [b]) == Payload(udp, g) + b
  {
    assert BytesOf([b]) == b;
    if udp {
      assert (g + [b])[1..] == g[1..] + [b];
      BytesConcat(g[1..], [b]);
    } else {
      BytesConcat(g, [b]);
    }
  }

  lemma ContentExtend(udp: bool, groups: seq<seq<Bytes>>, b: Bytes)
    requires groups != [] && (udp ==> groups[|groups| - 1] != [])
    ensures var n := |groups| - 1; Content(udp, groups[n := groups[n] + [b]]) == Content(udp, groups) + b
  {
    var n := |groups| - 1;
    assert groups == groups[..n] + [groups[n]] && groups[n := groups[n] + [b]] == groups[..n] + [groups[n] + [b]];
    ContentConcat(udp, groups[..n], [groups[n]]);
    ContentConcat(udp, groups[..n], [groups[n] + [b]]);
    assert Content(udp, [groups[n]]) == Payload(udp, groups[n]);
    assert Content(udp, [groups[n] + [b]]) == Payload(udp, groups[n] + [b]);
    PayloadExtend(udp, groups[n], b);
    Associative(Content(udp, groups[..n]), Payload(udp, groups[n]), b);
  }

  /** A datagram: at most the payload limit, a header first, and no more buffers than one call may send. */
  predicate GroupOk(udp: bool, g: seq<Bytes>) {
    |g| <= IOV_MAX && (udp ==> g != [] && |g[0]| == UDP_HEADER && |BytesOf(g)| <= UDP_MAX_PAYLOAD)
  }

  lemma {:induction false} PrefixLength(msgs: seq<Msg>, groups: seq<seq<Bytes>>, iov: seq<Bytes>, i: nat)
    requires Layout(iov, msgs, groups) && i < |msgs|
    ensures |Flat(groups[..i + 1])| == |Flat(groups[..i])| + msgs[i].len
  {
    assert groups[..i + 1] == groups[..i] + [groups[i]];
    FlatConcat(groups[..i], [groups[i]]);
    FlatOne(groups[i]);
  }

  function Zeros(n: nat): (r: Bytes)
    ensures |r| == n
  {
    seq(n, _ => 0)
  }

  class Conn {
    const udp: bool
    // The vector and the message list, with the sizes their memory is allocated for.
    var iov: seq<Bytes>
    var iovSize: nat
    var msgs: seq<Msg>
    var msgSize: nat
    var msgBytes: nat
    // The buffers of each message.
    ghost var groups: seq<seq<Bytes>>

    ghost predicate Fits()
      reads this
    {
      && Layout(iov, msgs, groups) && |iov| <= iovSize && 0 < iovSize && |msgs| <= msgSize && 0 < msgSize
      && (groups != [] ==> msgBytes == |BytesOf(groups[|groups| - 1])|)
    }

    ghost predicate Valid()
      reads this
    {
      Fits() && forall i :: 0 <= i < |groups| ==> GroupOk(udp, groups[i])
    }

    constructor (udp: bool, iovSize: nat, msgSize: nat)
      requires 0 < iovSize && 0 < msgSize
      ensures Valid() && groups == []
    {
      this.udp, this.iovSize, this.msgSize := udp, iovSize, msgSize;
      iov, msgs, msgBytes, groups := [], [], 0, [];
    }

    /** ensure_iov_space: when the vector moves to larger memory every message is pointed at its buffers again. */
    method EnsureIovSpace()
      requires Fits()
      modifies this`iovSize, this`msgs
      ensures Fits() && |iov| < iovSize && msgs == old(msgs)
    {
      if |iov| >= iovSize {
        iovSize := iovSize * 2;
        var iovnum := 0;
        for i := 0 to |msgs|
          invariant msgs == old(msgs) && iovnum == |Flat(groups[..i])| && |iov| < iovSize
        {
          msgs := msgs[i := Msg(iovnum, msgs[i].len)];
          PrefixLength(msgs, groups, iov, i);
          iovnum := iovnum + msgs[i].len;
        }
      }
    }

    /** The buffer goes behind the last one of the last message. */
    method Store(b: Bytes)
      requires Fits() && msgs != []
      modifies this
      ensures Fits() && |groups| == |old(groups)|
      ensures groups == old(groups)[|groups| - 1 := old(groups)[|groups| - 1] + [b]]
    {
      hide Layout, BytesOf;
      EnsureIovSpace();
      var n := |msgs| - 1;
      LayoutLength(iov, msgs, groups);
      LayoutExtend(iov, msgs, groups, b);
      assert msgs[n].start + msgs[n].len == |iov|;
      BytesMore(groups[n], b);
      iov := iov + [b];
      msgs := msgs[n := Msg(msgs[n].start, msgs[n].len + 1)];
      msgBytes := msgBytes + |b|;
      groups := groups[n := groups[n] + [b]];
    }

    /** add_msghdr: a new message, on UDP with room for the header of the datagram. */
    method AddMsghdr()
      requires Valid()
      modifies this
      ensures Valid() && Content(udp, groups) == Content(udp, old(groups))
      ensures groups == old(groups) + [FirstBuffers(udp)]
    {
      hide BytesOf, Content, GroupOk, Layout, FirstBuffers;
      OpenMessage();
      if udp {
        Store(Zeros(UDP_HEADER));
        FirstIs();
        assert groups == old(groups) + [FirstBuffers(udp)];
      } else {
        FirstIs();
      }
      NewGroup(udp, old(groups));
    }

    /** A message without buffers yet. */
    method OpenMessage()
      requires Fits()
      modifies this`msgs, this`msgSize, this`msgBytes, this`groups
      ensures Fits() && groups == old(groups) + [[]] && msgs != []
    {
      hide BytesOf, Layout;
      if msgSize == |msgs| {
        msgSize := msgSize * 2;
      }
      LayoutAdd(iov, msgs, groups);
      NoBytes();
      msgs := msgs + [Msg(|iov|, 0)];
      groups := groups + [[]];
      msgBytes := 0;
    }

    /** A buffer that the last message has room for. */
    method Put(b: Bytes)
      requires Valid() && msgs != [] && msgs[|msgs| - 1].len < IOV_MAX && (udp ==> msgBytes + |b| <= UDP_MAX_PAYLOAD)
      modifies this
      ensures Valid() && Content(udp, groups) == Content(udp, old(groups)) + b && |groups| == |old(groups)|
      ensures |msgs| == |old(msgs)|
      ensures msgBytes == old(msgBytes) + |b|
    {
      hide BytesOf, Content;
      ghost var n := |groups| - 1;
      assert GroupOk(udp, groups[n]);
      ContentExtend(udp, groups, b);
      Grown(groups[n], b);
      Store(b);
    }

    /** add_iov: the buffer is added whole on TCP, and cut at the end of each datagram on UDP. */
    method AddIov(buf: Bytes)
      requires Valid() && msgs != []
      modifies this
      ensures Valid() && msgs != [] && Content(udp, groups) == Content(udp, old(groups)) + buf
    {
      hide BytesOf, Content, Layout;
      if udp {
        var rest := buf;
        var first := true;
        assert buf[..0] == [] && Content(udp, groups) + [] == Content(udp, groups);
        while first || rest != []
          invariant Valid() && msgs != [] && |rest| <= |buf| && rest == buf[|buf| - |rest|..]
          invariant Content(udp, groups) == Content(udp, old(groups)) + buf[..|buf| - |rest|]
          decreases |rest|, first
        {
          first := false;
          LastLength();
          if msgs[|msgs| - 1].len == IOV_MAX || msgBytes >= UDP_MAX_PAYLOAD {
            AddMsghdr();
            FreshMessage();
          }
          var len := if |rest| + msgBytes > UDP_MAX_PAYLOAD then UDP_MAX_PAYLOAD - msgBytes else |rest|;
          ghost var at := |buf| - |rest|;
          assert buf[..at + len] == buf[..at] + rest[..len];
          Associative(Content(udp, old(groups)), buf[..at], rest[..len]);
          Put(rest[..len]);
          rest := rest[len..];
        }
        assert buf[..|buf|] == buf;
      } else {
        LastLength();
        if msgs[|msgs| - 1].len == IOV_MAX {
          AddMsghdr();
          FreshMessage();
        }
        Put(buf);
      }
    }

    lemma LastLength()
      requires Valid() && msgs != []
      ensures msgs[|msgs| - 1].len <= IOV_MAX
    {
      assert GroupOk(udp, groups[|groups| - 1]);
    }

    lemma FreshMessage()
      requires Valid() && groups != [] && groups[|groups| - 1] == FirstBuffers(udp)
      ensures msgs != [] && msgs[|msgs| - 1].len < IOV_MAX && (udp ==> msgBytes == UDP_HEADER)
    {
      assert udp ==> BytesOf([Zeros(UDP_HEADER)]) == Zeros(UDP_HEADER) + BytesOf([Zeros(UDP_HEADER)][1..]);
    }

    /** build_udp_headers: each datagram gets the request, its number and how many there are. */
    method BuildUdpHeaders(request: nat)
      requires Valid() && udp
      modifies this`iov, this`groups
      ensures Valid() && |groups| == |old(groups)|
      ensures forall i :: 0 <= i < |groups|
                 ==> old(groups)[i] != [] && groups[i] == old(groups)[i][0 := Header(request, i, |groups|)]
      ensures Numbered(groups, request) && Content(true, groups) == Content(true, old(groups))
    {
      hide BytesOf, Header, Layout;
      ghost var g0 := groups;
      LayoutLength(iov, msgs, groups);
      for i := 0 to |msgs|
        invariant Valid() && |groups| == |g0| == |msgs|
        invariant forall j :: 0 <= j < i ==> g0[j] != [] && groups[j] == g0[j][0 := Header(request, j, |g0|)]
        invariant forall j :: i <= j < |groups| ==> groups[j] == g0[j]
      {
        assert GroupOk(udp, groups[i]);
        LayoutSet(iov, msgs, groups, i, Header(request, i, |msgs|));
        SameSize(groups[i], Header(request, i, |msgs|));
        iov := iov[msgs[i].start := Header(request, i, |msgs|)];
        groups := groups[i := groups[i][0 := Header(request, i, |msgs|)]];
      }
      SameContent(g0, groups);
    }
  }

  /** What a new message starts with. */
  function FirstBuffers(udp: bool): seq<Bytes> { if udp then [Zeros(UDP_HEADER)] else [] }

  lemma FirstIs()
    ensures FirstBuffers(false) == [] && FirstBuffers(true) == [] + [Zeros(UDP_HEADER)]
  {
  }

  lemma LayoutLength(iov: seq<Bytes>, msgs: seq<Msg>, groups: seq<seq<Bytes>>)
    requires Layout(iov, msgs, groups)
    ensures |msgs| == |groups|
  {
  }

  lemma NewGroup(udp: bool, groups: seq<seq<Bytes>>)
    ensures Content(udp, groups + [FirstBuffers(udp)]) == Content(udp, groups) && GroupOk(udp, FirstBuffers(udp))
  {
    ContentConcat(udp, groups, [FirstBuffers(udp)]);
    assert [FirstBuffers(udp)][1..] == [];
    assert FirstBuffers(true)[1..] == [];
    assert BytesOf([Zeros(UDP_HEADER)]) == Zeros(UDP_HEADER) + BytesOf([Zeros(UDP_HEADER)][1..]);
    assert Content(udp, groups) + [] == Content(udp, groups);
  }

  lemma NoBytes()
    ensures BytesOf([]) == []
  {
  }

  lemma Grown(g: seq<Bytes>, b: Bytes)
    ensures |BytesOf(g + [b])| == |BytesOf(g)| + |b|
  {
    BytesConcat(g, [b]);
    assert BytesOf([b]) == b;
  }

  // ---- Datagrams ----

  // The low eight bits.
  function Low(x: nat): Byte { x % 256 }

  function Header(request: nat, i: nat, n: nat): (r: Bytes)
    ensures |r| == UDP_HEADER
  {
    [Low(request / 256), Low(request), Low(i / 256), Low(i), Low(n / 256), Low(n), 0, 0]
  }

  function Number(d: Bytes): nat
    requires |d| >= 4
  {
    (d[2] as int) * 256 + d[3]
  }

  lemma NumberOf(request: nat, i: nat, n: nat)
    requires i < 65536
    ensures Number(Header(request, i, n)) == i
  {
    assert i == i / 256 * 256 + i % 256 && i / 256 < 256;
  }

  lemma SameSize(g: seq<Bytes>, h: Bytes)
    requires g != [] && |h| == |g[0]|
    ensures |BytesOf(g[0 := h])| == |BytesOf(g)|
  {
    assert g[0 := h][1..] == g[1..];
  }

  lemma SetInside(a: seq<Bytes>, g: seq<Bytes>, c: seq<Bytes>, h: Bytes)
    requires g != []
    ensures |a| < |a + (g + c)| && (a + (g + c))[|a|] == g[0] && a + (g[0 := h] + c) == (a + (g + c))[|a| := h]
  {
  }

  lemma FlatSet(groups: seq<seq<Bytes>>, i: nat, h: Bytes)
    requires i < |groups| && groups[i] != []
    ensures |Flat(groups[..i])| < |Flat(groups)| && Flat(groups)[|Flat(groups[..i])|] == groups[i][0]
    ensures Flat(groups[i := groups[i][0 := h]]) == Flat(groups)[|Flat(groups[..i])| := h]
  {
    var g := groups[i][0 := h];
    assert groups == groups[..i] + ([groups[i]] + groups[i + 1..]) &&
             groups[i := g] == groups[..i] + ([g] + groups[i + 1..]);
    hide Flat;
    FlatConcat(groups[..i], [groups[i]] + groups[i + 1..]);
    FlatConcat(groups[..i], [g] + groups[i + 1..]);
    FlatConcat([groups[i]], groups[i + 1..]);
    FlatConcat([g], groups[i + 1..]);
    FlatOne(groups[i]);
    FlatOne(g);
    SetInside(Flat(groups[..i]), groups[i], Flat(groups[i + 1..]), h);
  }

  lemma LayoutSet(iov: seq<Bytes>, msgs: seq<Msg>, groups: seq<seq<Bytes>>, i: nat, h: Bytes)
    requires Layout(iov, msgs, groups) && i < |msgs| && groups[i] != []
    ensures msgs[i].start < |iov| && iov[msgs[i].start] == groups[i][0]
    ensures Layout(iov[msgs[i].start := h], msgs, groups[i := groups[i][0 := h]])
  {
    hide Flat;
    var g := groups[i][0 := h];
    var groups' := groups[i := g];
    FlatSet(groups, i, h);
    forall j | 0 <= j < |msgs|
      ensures msgs[j] == Msg(|Flat(groups'[..j])|, |groups'[j]|)
    {
      if j <= i {
        assert groups'[..j] == groups[..j];
      } else {
        SetLength(groups, i, g, j);
      }
    }
  }

  lemma SetLength(groups: seq<seq<Bytes>>, i: nat, g: seq<Bytes>, j: nat)
    requires i < j <= |groups| && |g| == |groups[i]|
    ensures |Flat(groups[i := g][..j])| == |Flat(groups[..j])|
  {
    assert groups[..j] == groups[..i] + ([groups[i]] + groups[i + 1..j]) &&
             groups[i := g][..j] == groups[..i] + ([g] + groups[i + 1..j]);
    FlatConcat(groups[..i], [groups[i]] + groups[i + 1..j]);
    FlatConcat(groups[..i], [g] + groups[i + 1..j]);
    FlatConcat([groups[i]], groups[i + 1..j]);
    FlatConcat([g], groups[i + 1..j]);
    FlatOne(groups[i]);
    FlatOne(g);
  }

  lemma {:induction false} SameContent(a: seq<seq<Bytes>>, b: seq<seq<Bytes>>)
    requires |a| == |b| && forall i :: 0 <= i < |a| ==> a[i] != [] && b[i] != [] && a[i][1..] == b[i][1..]
    ensures Content(true, a) == Content(true, b)
  {
    if a != [] {
      SameContent(a[1..], b[1..]);
    }
  }

  /** The first datagram received that has number `i`. */
  function Find(arrived: seq<Bytes>, i: nat): Bytes
    requires forall d :: d in arrived ==> |d| >= UDP_HEADER
  {
    if arrived == [] then [] else if Number(arrived[0]) == i then arrived[0][UDP_HEADER..] else Find(arrived[1..], i)
  }

  /** A client puts the first `n` datagrams together by their numbers. */
  function Reassemble(arrived: seq<Bytes>, n: nat): Bytes
    requires forall d :: d in arrived ==> |d| >= UDP_HEADER
  {
    if n == 0 then [] else Reassemble(arrived, n - 1) + Find(arrived, n - 1)
  }

  ghost predicate Numbered(groups: seq<seq<Bytes>>, request: nat) {
    forall i :: 0 <= i < |groups| ==> groups[i] != [] && groups[i][0] == Header(request, i, |groups|)
  }

  lemma Datagram(groups: seq<seq<Bytes>>, request: nat, i: nat)
    requires Numbered(groups, request) && i < |groups| <= 65536
    ensures |BytesOf(groups[i])| >= UDP_HEADER && Number(BytesOf(groups[i])) == i
    ensures BytesOf(groups[i])[UDP_HEADER..] == Payload(true, groups[i])
  {
    NumberOf(request, i, |groups|);
    hide Header;
    var d := BytesOf(groups[i]);
    assert d == Header(request, i, |groups|) + BytesOf(groups[i][1..]);
    assert d[2] == Header(request, i, |groups|)[2] && d[3] == Header(request, i, |groups|)[3];
  }

  ghost predicate OneOf(groups: seq<seq<Bytes>>, d: Bytes) {
    |d| >= UDP_HEADER && exists j :: 0 <= j < |groups| && d == BytesOf(groups[j])
  }

  lemma {:induction false} FindIs(groups: seq<seq<Bytes>>, request: nat, arrived: seq<Bytes>, i: nat)
    requires Numbered(groups, request) && i < |groups| <= 65536 && BytesOf(groups[i]) in arrived
    requires forall d :: d in arrived ==> |d| >= UDP_HEADER && OneOf(groups, d)
    ensures Find(arrived, i) == Payload(true, groups[i])
  {
    var d := arrived[0];
    assert OneOf(groups, d);
    var j :| 0 <= j < |groups| && d == BytesOf(groups[j]);
    Datagram(groups, request, j);
    Datagram(groups, request, i);
    hide BytesOf, Numbered, OneOf, Payload, Number, Header;
    if j != i {
      assert arrived == [d] + arrived[1..];
      FindIs(groups, request, arrived[1..], i);
    }
  }

  /** However the datagrams of a response are reordered or repeated on the way, their numbers give back the bytes
      that were added. */
  lemma {:induction false} AnyOrder(groups: seq<seq<Bytes>>, request: nat, arrived: seq<Bytes>, n: nat)
    requires Numbered(groups, request) && n <= |groups| <= 65536
    requires forall i :: 0 <= i < |groups| ==> BytesOf(groups[i]) in arrived
    requires forall d :: d in arrived ==> |d| >= UDP_HEADER && OneOf(groups, d)
    ensures Reassemble(arrived, n) == Content(true, groups[..n])
  {
    hide BytesOf, Numbered, OneOf, Payload, Number, Find;
    if n == 0 {
      assert groups[..0] == [];
    } else {
      AnyOrder(groups, request, arrived, n - 1);
      FindIs(groups, request, arrived, n - 1);
      assert groups[..n] == groups[..n - 1] + [groups[n - 1]];
      ContentConcat(true, groups[..n - 1], [groups[n - 1]]);
      assert Content(true, [groups[n - 1]]) == Payload(true, groups[n - 1]) + Content(true, [groups[n - 1]][1..]);
    }
  }

  // ---- Sending ----

  datatype Sent = Complete | Incomplete | SoftError | HardError

  /** The messages from `curr` on take up stretches of the vector, one after the other. */
  predicate Ordered(iov: seq<Bytes>, msgs: seq<Msg>, curr: nat) {
    && (forall i :: curr <= i < |msgs| ==> msgs[i].start + msgs[i].len <= |iov|)
    && (forall i, j :: curr <= i < j < |msgs| ==> msgs[i].start + msgs[i].len <= msgs[j].start)
  }

  function Buffers(iov: seq<Bytes>, m: Msg): Bytes
    requires m.start + m.len <= |iov|
  {
    BytesOf(iov[m.start..m.start + m.len])
  }

  /** The bytes that have not been sent yet. */
  function Pending(iov: seq<Bytes>, msgs: seq<Msg>, curr: nat): Bytes
    requires Ordered(iov, msgs, curr)
    decreases |msgs| - curr
  {
    if curr >= |msgs| then [] else Buffers(iov, msgs[curr]) + Pending(iov, msgs, curr + 1)
  }

  /** The later messages do not see what happens to the current one. */
  lemma {:induction false} LaterPending(iov: seq<Bytes>, iov': seq<Bytes>, msgs: seq<Msg>, msgs': seq<Msg>,
      curr: nat, at: nat)
    requires Ordered(iov, msgs, curr) && Ordered(iov', msgs', curr) && |iov'| == |iov| && |msgs'| == |msgs|
    requires forall i :: curr <= i < |msgs| ==> msgs'[i] == msgs[i] && at < msgs[i].start
    requires forall k :: 0 <= k < |iov| && k > at ==> iov'[k] == iov[k]
    ensures Pending(iov', msgs', curr) == Pending(iov, msgs, curr)
    decreases |msgs| - curr
  {
    if curr < |msgs| {
      var m := msgs[curr];
      assert iov'[m.start..m.start + m.len] == iov[m.start..m.start + m.len];
      LaterPending(iov, iov', msgs, msgs', curr + 1, at);
    }
  }

  lemma FirstBuffer(iov: seq<Bytes>, m: Msg)
    requires m.start + m.len <= |iov| && 0 < m.len
    ensures Buffers(iov, m) == iov[m.start] + Buffers(iov, Msg(m.start + 1, m.len - 1))
  {
    var s := iov[m.start..m.start + m.len];
    assert s[0] == iov[m.start] && s[1..] == iov[m.start + 1..m.start + m.len];
  }

  /** A connection whose output is being sent. */
  class Sender {
    var iov: seq<Bytes>
    var msgs: seq<Msg>
    var curr: nat
    // What was collected, and what sendmsg has taken of it.
    ghost const payload: Bytes
    ghost var accepted: Bytes

    /** What was taken and what is left are, in this order, all that was collected. */
    ghost predicate Valid()
      reads this
    {
      Ordered(iov, msgs, curr) && accepted + Pending(iov, msgs, curr) == payload
    }

    /** The output that a connection has collected. */
    constructor (iov: seq<Bytes>, msgs: seq<Msg>, ghost groups: seq<seq<Bytes>>)
      requires Layout(iov, msgs, groups)
      ensures Valid() && payload == BytesOf(iov) && accepted == []
    {
      this.iov, this.msgs, curr := iov, msgs, 0;
      payload, accepted := BytesOf(iov), [];
      new;
      ReadyToSend(iov, msgs, groups);
    }

    ghost function Left(): Bytes
      requires Ordered(iov, msgs, curr)
      reads this
    {
      Pending(iov, msgs, curr)
    }

    /** The message that the next call sends. */
    function Next(): nat
      reads this
    {
      if curr < |msgs| && msgs[curr].len == 0 then curr + 1 else curr
    }

    /** transmit; `res` is what sendmsg says of the message it is given, at most all its bytes. The bytes it took
        are gone from the front of what is left, and no others. */
    method Transmit(res: int, wouldBlock: bool) returns (r: Sent)
      requires Valid() && -1 <= res && (Next() < |msgs| ==> res <= |Buffers(iov, msgs[Next()])|)
      modifies this
      ensures Valid()
      ensures r.Complete? <==> old(Next()) >= |old(msgs)|
      ensures r.Complete? ==> Left() == [] == old(Left()) && accepted == payload
      ensures r.Incomplete? ==>
                && 0 < res <= |old(Left())| && Left() == old(Left())[res..]
                && accepted == old(accepted) + old(Left())[..res]
      ensures !r.Incomplete? ==> Left() == old(Left()) && accepted == old(accepted)
      ensures r.SoftError? || r.HardError? ==> res <= 0
      ensures r.SoftError? <==> old(Next()) < |old(msgs)| && res == -1 && wouldBlock
    {
      hide Ordered;
      if curr < |msgs| && msgs[curr].len == 0 {
        SkipDone(iov, msgs, curr);
        curr := curr + 1;
      }
      assert Left() == old(Left());
      if curr < |msgs| {
        if res > 0 {
          ghost var left := Left();
          Consume(res);
          Taken(accepted, left, res);
          accepted := accepted + left[..res];
          return Incomplete;
        }
        return if res == -1 && wouldBlock then SoftError else HardError;
      }
      return Complete;
    }

    /** Any number of calls, each of which takes as much of the message it is given as there is room for: nothing is
        lost, doubled or reordered on the way. */
    method Send(rooms: seq<nat>) returns (r: Sent)
      requires Valid()
      modifies this
      ensures Valid() && old(accepted) <= accepted <= payload && accepted + Left() == payload
      ensures r.Complete? ==> accepted == payload
    {
      hide Pending;
      r := Incomplete;
      for i := 0 to |rooms|
        invariant Valid() && old(accepted) <= accepted
        invariant r.Complete? ==> accepted == payload
      {
        var size := if Next() < |msgs| then |Buffers(iov, msgs[Next()])| else 0;
        var res := if rooms[i] < size then rooms[i] else size;
        r := Transmit(if res == 0 then -1 else res, true);
      }
    }

    /** The buffers that were sent whole are dropped, and the one that was sent in part is cut. */
    method Consume(sent: nat)
      requires Ordered(iov, msgs, curr) && curr < |msgs| && sent <= |Buffers(iov, msgs[curr])|
      modifies this`iov, this`msgs
      ensures Ordered(iov, msgs, curr) && sent <= |old(Left())| && Left() == old(Left())[sent..]
    {
      hide Buffers, Pending;
      var res := sent;
      ghost var later := Pending(iov, msgs, curr + 1);
      ghost var all := Buffers(iov, msgs[curr]);
      assert all[0..] == all;
      while msgs[curr].len > 0 && res >= |iov[msgs[curr].start]|
        invariant Ordered(iov, msgs, curr) && curr < |msgs| && iov == old(iov) && 0 <= res <= sent
        invariant Pending(iov, msgs, curr + 1) == later
        invariant res <= |Buffers(iov, msgs[curr])| && Buffers(iov, msgs[curr])[res..] == all[sent..]
        decreases msgs[curr].len
      {
        var m := msgs[curr];
        FirstBuffer(iov, m);
        DropMore(iov[m.start], Buffers(iov, Msg(m.start + 1, m.len - 1)), res);
        ghost var before := msgs;
        res := res - |iov[m.start]|;
        msgs := msgs[curr := Msg(m.start + 1, m.len - 1)];
        LaterSame(iov, iov, before, msgs, curr, m.start);
      }
      if res > 0 {
        var m := msgs[curr];
        NoBuffers(iov, m);
        FirstBuffer(iov, m);
        DropFront(iov[m.start], Buffers(iov, Msg(m.start + 1, m.len - 1)), res);
        ghost var before := iov;
        iov := iov[m.start := iov[m.start][res..]];
        FirstBuffer(iov, m);
        RestSame(before, iov, m);
        LaterSame(before, iov, msgs, msgs, curr, m.start);
      } else {
        assert Buffers(iov, msgs[curr])[0..] == Buffers(iov, msgs[curr]);
      }
      PendingIs(iov, msgs, curr);
      PendingIs(old(iov), old(msgs), curr);
      DropFront(all, later, sent);
    }
  }

  lemma SkipDone(iov: seq<Bytes>, msgs: seq<Msg>, curr: nat)
    requires Ordered(iov, msgs, curr) && curr < |msgs| && msgs[curr].len == 0
    ensures Ordered(iov, msgs, curr + 1) && Pending(iov, msgs, curr + 1) == Pending(iov, msgs, curr)
  {
    assert Buffers(iov, msgs[curr]) == [];
  }

  lemma Taken(a: Bytes, b: Bytes, n: nat)
    requires n <= |b|
    ensures (a + b[..n]) + b[n..] == a + b
  {
  }

  lemma DropMore(a: Bytes, b: Bytes, n: nat)
    requires |a| <= n <= |a| + |b|
    ensures (a + b)[n..] == b[n - |a|..]
  {
  }

  lemma DropFront(a: Bytes, b: Bytes, n: nat)
    requires n <= |a|
    ensures (a + b)[n..] == a[n..] + b
  {
  }

  lemma PendingIs(iov: seq<Bytes>, msgs: seq<Msg>, curr: nat)
    requires Ordered(iov, msgs, curr) && curr < |msgs|
    ensures Pending(iov, msgs, curr) == Buffers(iov, msgs[curr]) + Pending(iov, msgs, curr + 1)
  {
  }

  lemma NoBuffers(iov: seq<Bytes>, m: Msg)
    requires m.start + m.len <= |iov| && 0 < |Buffers(iov, m)|
    ensures 0 < m.len
  {
  }

  lemma RestSame(iov: seq<Bytes>, iov': seq<Bytes>, m: Msg)
    requires m.start + m.len <= |iov| == |iov'| && 0 < m.len && forall k :: m.start < k < |iov| ==> iov'[k] == iov[k]
    ensures Buffers(iov', Msg(m.start + 1, m.len - 1)) == Buffers(iov, Msg(m.start + 1, m.len - 1))
  {
    assert iov'[m.start + 1..m.start + m.len] == iov[m.start + 1..m.start + m.len];
  }

  lemma LaterSame(iov: seq<Bytes>, iov': seq<Bytes>, msgs: seq<Msg>, msgs': seq<Msg>, curr: nat, at: nat)
    requires curr < |msgs| && Ordered(iov, msgs, curr) && msgs[curr].start == at && 0 < msgs[curr].len
    requires |iov'| == |iov| && |msgs'| == |msgs|
    requires forall k :: 0 <= k < |iov| && k > at ==> iov'[k] == iov[k]
    requires forall i :: curr < i < |msgs| ==> msgs'[i] == msgs[i]
    requires msgs'[curr] == msgs[curr] || msgs'[curr] == Msg(at + 1, msgs[curr].len - 1)
    ensures Ordered(iov', msgs', curr) && Pending(iov', msgs', curr + 1) == Pending(iov, msgs, curr + 1)
  {
    hide Pending;
    StillOrdered(iov, iov', msgs, msgs', curr);
    hide Ordered;
    LaterStarts(iov, msgs, curr);
    LaterPending(iov, iov', msgs, msgs', curr + 1, at);
  }

  lemma LaterStarts(iov: seq<Bytes>, msgs: seq<Msg>, curr: nat)
    requires curr < |msgs| && Ordered(iov, msgs, curr) && 0 < msgs[curr].len
    ensures forall i :: curr < i < |msgs| ==> msgs[curr].start < msgs[i].start
  {
  }

  lemma StillOrdered(iov: seq<Bytes>, iov': seq<Bytes>, msgs: seq<Msg>, msgs': seq<Msg>, curr: nat)
    requires |iov| == |iov'| && curr < |msgs| == |msgs'| && Ordered(iov, msgs, curr) && 0 < msgs[curr].len
    requires forall i :: curr < i < |msgs| ==> msgs'[i] == msgs[i]
    requires msgs'[curr] == msgs[curr] || msgs'[curr] == Msg(msgs[curr].start + 1, msgs[curr].len - 1)
    ensures Ordered(iov', msgs', curr) && Ordered(iov, msgs, curr + 1) && Ordered(iov', msgs', curr + 1)
  {
    forall i | curr <= i < |msgs'|
      ensures msgs'[i].start + msgs'[i].len == msgs[i].start + msgs[i].len && msgs'[i].start >= msgs[i].start
    {
    }
  }

  /** A connection that has collected its output is ready to send it, all of it and in order. */
  lemma ReadyToSend(iov: seq<Bytes>, msgs: seq<Msg>, groups: seq<seq<Bytes>>)
    requires Layout(iov, msgs, groups)
    ensures Ordered(iov, msgs, 0) && Pending(iov, msgs, 0) == BytesOf(iov)
  {
    forall i, j | 0 <= i < j < |msgs|
      ensures msgs[i].start + msgs[i].len <= msgs[j].start
    {
      Before(groups, i, j);
    }
    forall i | 0 <= i < |msgs|
      ensures msgs[i].start + msgs[i].len <= |iov|
    {
      Before(groups, i, |groups|);
      assert groups[..|groups|] == groups;
    }
    PendingFrom(iov, msgs, groups, 0);
    assert groups[..0] == [] && iov[0..] == iov;
  }

  lemma Before(groups: seq<seq<Bytes>>, i: nat, j: nat)
    requires i < j <= |groups|
    ensures |Flat(groups[..i])| + |groups[i]| <= |Flat(groups[..j])|
    ensures |Flat(groups[..j])| <= |Flat(groups)|
    ensures Flat(groups)[|Flat(groups[..i])|..|Flat(groups[..i])| + |groups[i]|] == groups[i]
  {
    hide Flat;
    assert groups[..j] == groups[..i] + ([groups[i]] + groups[i + 1..j]);
    FlatConcat(groups[..i], [groups[i]] + groups[i + 1..j]);
    FlatConcat([groups[i]], groups[i + 1..j]);
    FlatOne(groups[i]);
    assert groups == groups[..j] + groups[j..];
    FlatConcat(groups[..j], groups[j..]);
  }

  lemma {:induction false} PendingFrom(iov: seq<Bytes>, msgs: seq<Msg>, groups: seq<seq<Bytes>>, k: nat)
    requires Layout(iov, msgs, groups) && Ordered(iov, msgs, k) && k <= |msgs|
    ensures |Flat(groups[..k])| <= |iov| && Pending(iov, msgs, k) == BytesOf(iov[|Flat(groups[..k])|..])
    decreases |msgs| - k
  {
    hide Flat, BytesOf;
    NoBytes();
    if k < |msgs| {
      Before(groups, k, k + 1);
      PrefixLength(msgs, groups, iov, k);
      PendingFrom(iov, msgs, groups, k + 1);
      var a, n := msgs[k].start, msgs[k].len;
      assert iov[a..] == iov[a..a + n] + iov[a + n..];
      BytesConcat(iov[a..a + n], iov[a + n..]);
    } else {
      assert groups[..k] == groups;
      assert iov[|iov|..] == [];
    }
  }
}
