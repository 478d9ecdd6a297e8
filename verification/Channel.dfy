/** The contents of a channel: the circular buffer of src/channel.c:35-74, the unbounded mailbox of
    src/message.c:19-39, and what the operations of src/channel.c:101-252 do with the values they are
    given.  Every operation runs under the channel's lock, so one action is one operation. */
module Channel {
  import opened Common

  /* ---- The circular buffer ---- */

  class RingBuffer<T(0)> {
    const buf: array<T>
    const bufsize: nat
    var nbuf: nat
    var recvx: nat
    var sendx: nat

    ghost predicate Valid()
      reads this
    {
      buf.Length == bufsize && 0 < bufsize && nbuf <= bufsize && recvx < bufsize &&
      sendx == Wrap(recvx + nbuf, bufsize)
    }

    /** The buffered values, oldest first. */
    ghost function Contents(): (q: seq<T>)
      requires Valid()
      reads this, buf
      ensures |q| == nbuf
    {
      seq(nbuf, k requires 0 <= k < nbuf && Valid() reads this, buf => buf[Wrap(recvx + k, bufsize)])
    }

    constructor (size: nat)
      requires size > 0
      ensures Valid() && bufsize == size && Contents() == [] && fresh(buf)
    {
      buf := new T[size];
      bufsize, nbuf, recvx, sendx := size, 0, 0, 0;
    }

    /** __coroc_copy_to_buff */
    method CopyTo(x: T) returns (ok: bool)
      requires Valid()
      modifies this, buf
      ensures Valid() && ok == (|old(Contents())| < bufsize)
      ensures Contents() == if ok then old(Contents()) + [x] else old(Contents())
    {
      ok := nbuf < bufsize;
      if ok {
        ghost var before := Contents();
        SmallMod(sendx + 1, bufsize);
        buf[sendx] := x;
        sendx := (sendx + 1) % bufsize;
        nbuf := nbuf + 1;
        forall k | 0 <= k < nbuf ensures Contents()[k] == (before + [x])[k] {
          assert k < nbuf - 1 ==> before[k] == old(buf[Wrap(recvx + k, bufsize)]);
        }
      }
    }

    /** __coroc_copy_from_buff */
    method CopyFrom() returns (x: Option<T>)
      requires Valid()
      modifies this
      ensures Valid() && (x.None? <==> old(Contents()) == [])
      ensures x.Some? ==> old(Contents()) == [x.value] + Contents()
      ensures x.None? ==> Contents() == []
    {
      if nbuf > 0 {
        ghost var before := Contents();
        x := Some(buf[recvx]);
        SmallMod(recvx + 1, bufsize);
        recvx := (recvx + 1) % bufsize;
        nbuf := nbuf - 1;
        forall k | 0 <= k < |before| ensures before[k] == ([x.value] + Contents())[k] {
          assert before[k] == buf[Wrap(old(recvx) + k, bufsize)];
          assert k > 0 ==> Contents()[k - 1] == buf[Wrap(recvx + (k - 1), bufsize)];
        }
        assert before == [x.value] + Contents();
      } else {
        x := None;
      }
    }

    /** __coroc_clean_buff: drop one reference of each buffered object, oldest first. */
    method Clean() returns (dropped: seq<T>)
      requires Valid()
      modifies this
      ensures Valid() && Contents() == [] && dropped == old(Contents())
    {
      dropped := [];
      while nbuf > 0
        invariant Valid() && dropped + Contents() == old(Contents())
        decreases nbuf
      {
        var x := CopyFrom();
        dropped := dropped + [x.value];
      }
    }
  }

  /** Indices never pass the end of the buffer by more than one lap. */
  function Wrap(a: nat, n: nat): nat {
    if a < n then a else a - n
  }

  lemma SmallMod(a: nat, n: nat)
    requires a < 2 * n
    ensures a % n == Wrap(a, n)
  {
    var q, r := a / n, a % n;
    assert a == n * q + r;
    if q >= 2 { Scale(n, q); }
  }

  lemma Scale(n: nat, q: nat)
    requires q >= 2
    ensures n * q >= 2 * n
  {
    assert n * q == n * 2 + n * (q - 2);
  }

  /* ---- Channel operations ---- */

  datatype Kind = Unbuffered | Bounded(size: nat) | Mailbox

  /** A value on its way: who sends it, and its ticket, the number of send calls before it. */
  datatype Msg = Msg(sender: nat, ticket: nat, val: int)

  /** What a queued sender brings. */
  datatype Load = Load(ticket: nat, val: int)

  /** A queued sender or receiver.  A select quantum goes dead when its selector is taken through
      another channel. */
  datatype Quantum<T> = Quantum(co: nat, load: T, select: bool, live: bool)

  function MsgOf(q: Quantum<Load>): Msg { Msg(q.co, q.load.ticket, q.load.val) }

  function Offer(m: Msg, select: bool): Quantum<Load> { Quantum(m.sender, Load(m.ticket, m.val), select, true) }

  /** `issued`, `accepted`, `refused`, `received` and `dropped` are history: all messages in the order
      of the send calls; those whose send returns SUCCESS or AWAKEN; those whose send returns BUSY or
      CLOSED or is withdrawn by select; those copied to a receiver, in order; and those released by
      close or by the end of the mailbox's owner. */
  datatype Chan = Chan(kind: Kind, isref: bool, closed: bool, buf: seq<Msg>, recvQ: seq<Quantum<()>>, sendQ: seq<Quantum<Load>>,
                       issued: seq<Msg>, accepted: seq<Msg>, refused: seq<Msg>, received: seq<Msg>, dropped: seq<Msg>)

  /** How an operation that cannot succeed at once behaves.  `OnSelect` is a case of a blocking select:
      it enqueues even on a closed channel. */
  datatype Mode = Nonblocking | Blocking | OnSelect

  datatype Action =
    | Send(co: nat, val: int, mode: Mode)
    | Recv(co: nat, mode: Mode)
    | CloseChan
    | EndMailbox                  // coroc_async_chan_fini
    | Kill(co: nat)               // the selector's tag is taken through another channel
    | Extract(co: nat)            // the selector removes its quantum

  /** The index of the first live entry, or the length of the queue. */
  function FirstLive<T>(q: seq<Quantum<T>>): (k: nat)
    ensures k <= |q| && (k < |q| ==> q[k].live) && forall j :: 0 <= j < k ==> !q[j].live
  {
    if q == [] then 0 else if q[0].live then 0 else 1 + FirstLive(q[1..])
  }

  predicate HasRoom(s: Chan) {
    match s.kind
    case Unbuffered => false
    case Bounded(size) => |s.buf| < size
    case Mailbox => true
  }

  /** The messages of the senders that can still be completed. */
  function Pending(q: seq<Quantum<Load>>): seq<Msg> {
    if q == [] then [] else (if q[0].live then [MsgOf(q[0])] else []) + Pending(q[1..])
  }

  predicate Queued(s: Chan, co: nat) {
    (exists j :: 0 <= j < |s.sendQ| && s.sendQ[j].co == co) ||
    (exists j :: 0 <= j < |s.recvQ| && s.recvQ[j].co == co)
  }

  predicate SelectorOf<T>(x: Quantum<T>, co: nat) { x.select && x.co == co }

  /** A suspended coroutine does nothing; a dead quantum is extracted before its owner goes on. */
  predicate Enabled(s: Chan, a: Action) {
    match a
    case Send(co, _, _) => !Queued(s, co)
    case Recv(co, _) => !Queued(s, co)
    case CloseChan => true
    case EndMailbox => s.kind.Mailbox?
    case Kill(_) => true
    case Extract(co) =>
      (forall j :: 0 <= j < |s.sendQ| && s.sendQ[j].co == co ==> s.sendQ[j].select && !s.sendQ[j].live) &&
      (forall j :: 0 <= j < |s.recvQ| && s.recvQ[j].co == co ==> s.recvQ[j].select && !s.recvQ[j].live)
  }

  /** __coroc_chan_send */
  function DoSend(s: Chan, co: nat, val: int, mode: Mode): Chan {
    var m := Msg(co, |s.issued|, val);
    var k := FirstLive(s.recvQ);
    var s1 := s.(issued := s.issued + [m]);
    if k < |s.recvQ| then
      s1.(recvQ := s.recvQ[k + 1..], accepted := s.accepted + [m], received := s.received + [m])
    else
      var s2 := s1.(recvQ := []);
      if !s.closed && HasRoom(s) then s2.(buf := s.buf + [m], accepted := s.accepted + [m])
      else if mode.OnSelect? || (mode.Blocking? && !s.closed) then
        s2.(sendQ := s.sendQ + [Offer(m, mode.OnSelect?)])
      else s2.(refused := s.refused + [m])
  }

  /** __coroc_chan_recv: the buffer first, then a blocked sender; the freed buffer slot is not
      refilled from the senders. */
  function DoRecv(s: Chan, co: nat, mode: Mode): Chan {
    if s.buf != [] then s.(buf := s.buf[1..], received := s.received + [s.buf[0]])
    else
      var k := FirstLive(s.sendQ);
      if k < |s.sendQ| then
        var m := MsgOf(s.sendQ[k]);
        s.(sendQ := s.sendQ[k + 1..], accepted := s.accepted + [m], received := s.received + [m])
      else
        var s1 := s.(sendQ := []);
        if mode.OnSelect? || (mode.Blocking? && !s.closed) then
          s1.(recvQ := s.recvQ + [Quantum(co, (), mode.OnSelect?, true)])
        else s1
  }

  /** coroc_chan_close */
  function DoClose(s: Chan): Chan {
    if s.closed then s
    else
      var s1 := s.(closed := true, sendQ := [], recvQ := [], refused := s.refused + Pending(s.sendQ));
      if s.isref then s1.(buf := [], dropped := s.dropped + s.buf) else s1
  }

  /** The messages of co's live select quanta, withdrawn when it is taken elsewhere. */
  function Withdrawn(q: seq<Quantum<Load>>, co: nat): seq<Msg> {
    if q == [] then []
    else (if q[0].live && SelectorOf(q[0], co) then [MsgOf(q[0])] else []) + Withdrawn(q[1..], co)
  }

  /** The queue after co's select quanta in it went dead. */
  function Killed<T>(q: seq<Quantum<T>>, co: nat): (r: seq<Quantum<T>>)
    ensures |r| == |q| && forall j :: 0 <= j < |q| ==>
      r[j] == Quantum(q[j].co, q[j].load, q[j].select, q[j].live && !SelectorOf(q[j], co))
  {
    if q == [] then [] else [q[0].(live := q[0].live && !SelectorOf(q[0], co))] + Killed(q[1..], co)
  }

  /** The queue without co's quanta. */
  function Without<T(!new)>(q: seq<Quantum<T>>, co: nat): (r: seq<Quantum<T>>)
    ensures |r| <= |q| && forall x :: x in r <==> x in q && x.co != co
  {
    if q == [] then [] else (if q[0].co == co then [] else [q[0]]) + Without(q[1..], co)
  }

  function Step(s: Chan, a: Action): Chan
    requires Enabled(s, a)
  {
    match a
    case Send(co, val, mode) => DoSend(s, co, val, mode)
    case Recv(co, mode) => DoRecv(s, co, mode)
    case CloseChan => DoClose(s)
    case EndMailbox => s.(closed := true, buf := [], dropped := s.dropped + s.buf)
    case Kill(co) =>
      s.(sendQ := Killed(s.sendQ, co), recvQ := Killed(s.recvQ, co), refused := s.refused + Withdrawn(s.sendQ, co))
    case Extract(co) => s.(sendQ := Without(s.sendQ, co), recvQ := Without(s.recvQ, co))
  }

  predicate Init(s: Chan) {
    !s.closed && s.buf == [] && s.recvQ == [] && s.sendQ == [] && (s.kind.Bounded? ==> s.kind.size > 0) &&
    s.issued == [] && s.accepted == [] && s.refused == [] && s.received == [] && s.dropped == [] &&
    (s.isref ==> s.kind.Bounded?)
  }

  /* ---- What every operation keeps ---- */

  /** Everything that was or can still be received, in the order in which it would be. */
  function Line(s: Chan): seq<Msg> { s.received + s.buf + Pending(s.sendQ) }

  predicate ShapeOk(s: Chan) {
    (s.recvQ != [] ==> s.buf == [] && s.sendQ == []) &&
    (s.kind.Unbuffered? ==> s.buf == []) &&
    (s.kind.Bounded? ==> |s.buf| <= s.kind.size) &&
    (s.kind.Mailbox? && s.sendQ != [] ==> s.closed)
  }

  predicate TicketsOk(s: Chan) {
    forall t :: 0 <= t < |s.issued| ==> s.issued[t].ticket == t
  }

  /** Tickets ascend: all of them, or those of each sender. */
  predicate Ordered(l: seq<Msg>, total: bool) {
    forall i, j :: 0 <= i < j < |l| && (total || l[i].sender == l[j].sender) ==> l[i].ticket < l[j].ticket
  }

  predicate Before(l: seq<Msg>, t: nat) {
    forall i :: 0 <= i < |l| ==> l[i].ticket < t
  }

  predicate InLine(s: Chan, total: bool) {
    Before(Line(s), |s.issued|) && Ordered(Line(s), total)
  }

  predicate LineOk(s: Chan) { InLine(s, !s.kind.Bounded?) }

  /** Every send is accounted for once, and every accepted message is received, buffered or dropped. */
  predicate Conserves(s: Chan, m: Msg) {
    Times(s.issued, m) == Times(s.accepted, m) + Times(s.refused, m) + Times(Pending(s.sendQ), m) &&
    Times(s.accepted, m) == Times(s.received, m) + Times(s.buf, m) + Times(s.dropped, m)
  }

  /** How often m occurs. */
  function Times(l: seq<Msg>, m: Msg): nat {
    if l == [] then 0 else (if l[0] == m then 1 else 0) + Times(l[1..], m)
  }

  lemma {:induction false} TimesConcat(a: seq<Msg>, b: seq<Msg>, m: Msg)
    ensures Times(a + b, m) == Times(a, m) + Times(b, m)
  {
    if a == [] {
      assert a + b == b;
    } else {
      assert (a + b)[1..] == a[1..] + b;
      TimesConcat(a[1..], b, m);
    }
  }

  lemma {:induction false} TimesPositive(l: seq<Msg>, m: Msg)
    ensures Times(l, m) > 0 <==> m in l
  {
    if l != [] { TimesPositive(l[1..], m); }
  }

  ghost predicate Conserved(s: Chan) { forall m :: Conserves(s, m) }

  ghost predicate Inv(s: Chan) {
    ShapeOk(s) && TicketsOk(s) && LineOk(s) && Conserved(s)
  }

  /* ---- Order ---- */

  /** A line stays in order when a stretch of it goes. */
  lemma Cut(l: seq<Msg>, i: nat, j: nat, t: nat, total: bool)
    requires i <= j <= |l| && Before(l, t) && Ordered(l, total)
    ensures Before(l[..i] + l[j..], t) && Ordered(l[..i] + l[j..], total)
  {
    var l' := l[..i] + l[j..];
    assert forall x :: 0 <= x < |l'| ==> l'[x] == l[if x < i then x else x - i + j];
  }

  /** A new message may go last, or before waiting ones of other senders. */
  lemma Insert(l: seq<Msg>, i: nat, m: Msg, total: bool)
    requires i <= |l| && Before(l, m.ticket) && Ordered(l, total)
    requires forall j :: i <= j < |l| ==> !total && l[j].sender != m.sender
    ensures Before(l[..i] + [m] + l[i..], m.ticket + 1) && Ordered(l[..i] + [m] + l[i..], total)
  {
    var l' := l[..i] + [m] + l[i..];
    assert forall x :: 0 <= x < |l'| && x != i ==> l'[x] == l[if x < i then x else x - 1];
  }

  /** Where DoSend puts the new message in the line, if anywhere. */
  function Place(s: Chan): nat {
    if FirstLive(s.recvQ) == |s.recvQ| && !s.closed && HasRoom(s) then |s.received| + |s.buf| else |Line(s)|
  }

  lemma EnqueueLine(s: Chan, m: Msg, select: bool)
    ensures Line(s.(sendQ := s.sendQ + [Offer(m, select)])) == Line(s) + [m]
  {
    PendingAppend(s.sendQ, Offer(m, select));
  }

  lemma BufferLine(s: Chan, m: Msg)
    ensures var (l, i) := (Line(s), |s.received| + |s.buf|);
            Line(s.(buf := s.buf + [m])) == l[..i] + [m] + l[i..]
  {
    var q := Pending(s.sendQ);
    assert Line(s)[|s.received| + |s.buf|..] == q && Line(s)[..|s.received| + |s.buf|] == s.received + s.buf;
  }

  lemma HandOverLine(s: Chan, co: nat, val: int, mode: Mode)
    requires ShapeOk(s) && FirstLive(s.recvQ) < |s.recvQ|
    ensures Line(DoSend(s, co, val, mode)) == Line(s) + [Msg(co, |s.issued|, val)]
  {
    assert s.buf == [] && s.sendQ == [] && Pending([]) == [];
  }

  /** DoSend puts the new message in its place in the line, or leaves it out. */
  lemma SendLine(s: Chan, co: nat, val: int, mode: Mode)
    requires ShapeOk(s)
    ensures var (l, l', i) := (Line(s), Line(DoSend(s, co, val, mode)), Place(s));
            i <= |l| && (l' == l || l' == l[..i] + [Msg(co, |s.issued|, val)] + l[i..])
  {
    var (l, m) := (Line(s), Msg(co, |s.issued|, val));
    assert l[..|l|] + [m] + l[|l|..] == l + [m];
    if FirstLive(s.recvQ) < |s.recvQ| {
      HandOverLine(s, co, val, mode);
    } else if !s.closed && HasRoom(s) {
      BufferLine(s, m);
    } else {
      EnqueueLine(s, m, mode.OnSelect?);
    }
  }

  /** A pending message has its sender in the queue. */
  lemma {:induction false} PendingIsQueued(q: seq<Quantum<Load>>, x: nat)
    requires x < |Pending(q)|
    ensures exists j :: 0 <= j < |q| && MsgOf(q[j]) == Pending(q)[x]
  {
    if q[0].live && x == 0 {
      assert MsgOf(q[0]) == Pending(q)[x];
    } else {
      var y := if q[0].live then x - 1 else x;
      PendingIsQueued(q[1..], y);
      var j :| 0 <= j < |q[1..]| && MsgOf(q[1..][j]) == Pending(q[1..])[y];
      assert MsgOf(q[j + 1]) == Pending(q)[x];
    }
  }

  lemma PlaceIsFree(s: Chan, co: nat, j: nat)
    requires ShapeOk(s) && !Queued(s, co) && Place(s) <= j < |Line(s)|
    ensures s.kind.Bounded? && Line(s)[j].sender != co
  {
    var x := j - Place(s);
    assert Line(s)[j] == Pending(s.sendQ)[x];
    PendingIsQueued(s.sendQ, x);
  }

  lemma InsertStep(s: Chan, s': Chan, i: nat, m: Msg)
    requires LineOk(s) && i <= |Line(s)| && m.ticket == |s.issued| && |s'.issued| == |s.issued| + 1 && s'.kind == s.kind
    requires forall j :: i <= j < |Line(s)| ==> s.kind.Bounded? && Line(s)[j].sender != m.sender
    requires Line(s') == Line(s) || Line(s') == Line(s)[..i] + [m] + Line(s)[i..]
    ensures LineOk(s')
  {
    Insert(Line(s), i, m, !s.kind.Bounded?);
  }

  lemma SendOrder(s: Chan, co: nat, val: int, mode: Mode)
    requires ShapeOk(s) && LineOk(s) && !Queued(s, co)
    ensures LineOk(DoSend(s, co, val, mode))
  {
    SendLine(s, co, val, mode);
    forall j | Place(s) <= j < |Line(s)| ensures s.kind.Bounded? && Line(s)[j].sender != co {
      PlaceIsFree(s, co, j);
    }
    InsertStep(s, DoSend(s, co, val, mode), Place(s), Msg(co, |s.issued|, val));
  }

  lemma CutStep(s: Chan, s': Chan, i: nat, j: nat, total: bool)
    requires InLine(s, total) && i <= j <= |Line(s)| && |s'.issued| == |s.issued|
    requires Line(s') == Line(s)[..i] + Line(s)[j..]
    ensures InLine(s', total)
  {
    Cut(Line(s), i, j, |s.issued|, total);
  }

  /** The first message that can be received moves to the received ones. */
  lemma BufferFront(r: seq<Msg>, buf: seq<Msg>, rest: seq<Msg>)
    requires buf != []
    ensures r + [buf[0]] + buf[1..] + rest == r + buf + rest
  {
    assert buf == [buf[0]] + buf[1..];
  }

  lemma QueueFront(r: seq<Msg>, x: Msg, rest: seq<Msg>)
    ensures r + [x] + [] + rest == r + [] + ([x] + rest)
  {
    assert r + [x] + [] == r + [x] && r + [] == r;
  }

  lemma RecvQueueLine(s: Chan, co: nat, mode: Mode, k: nat, waiting: seq<Msg>)
    requires s.buf == [] && k == FirstLive(s.sendQ) && waiting == Pending(s.sendQ)
    requires waiting == if k < |s.sendQ| then [MsgOf(s.sendQ[k])] + Pending(s.sendQ[k + 1..]) else []
    ensures Line(DoRecv(s, co, mode)) == s.received + [] + waiting
  {
    if k < |s.sendQ| { QueueFront(s.received, MsgOf(s.sendQ[k]), Pending(s.sendQ[k + 1..])); }
  }

  /** A receive takes the front of what is not received yet: the line stays as it is. */
  lemma RecvLine(s: Chan, co: nat, mode: Mode)
    ensures Line(DoRecv(s, co, mode)) == Line(s)
  {
    if s.buf != [] {
      BufferFront(s.received, s.buf, Pending(s.sendQ));
    } else {
      PendingFirst(s.sendQ);
      RecvQueueLine(s, co, mode, FirstLive(s.sendQ), Pending(s.sendQ));
    }
  }

  lemma RecvOrder(s: Chan, co: nat, mode: Mode, total: bool)
    requires InLine(s, total)
    ensures InLine(DoRecv(s, co, mode), total)
  {
    RecvLine(s, co, mode);
  }

  lemma CloseOrder(s: Chan, total: bool)
    requires InLine(s, total)
    ensures InLine(DoClose(s), total)
  {
    var l := Line(s);
    if !s.closed {
      var i := |s.received| + if s.isref then 0 else |s.buf|;
      assert Line(DoClose(s)) == l[..i] + l[|l|..];
      CutStep(s, DoClose(s), i, |l|, total);
    }
  }

  lemma EndOrder(s: Chan, total: bool)
    requires InLine(s, total) && Enabled(s, EndMailbox)
    ensures InLine(Step(s, EndMailbox), total)
  {
    var l, i := Line(s), |s.received|;
    assert Line(Step(s, EndMailbox)) == l[..i] + l[i + |s.buf|..];
    CutStep(s, Step(s, EndMailbox), i, i + |s.buf|, total);
  }

  lemma PendingKillHead(q: seq<Quantum<Load>>, co: nat)
    requires q != []
    ensures var rest := Pending(Killed(q[1..], co));
            Pending(Killed(q, co)) == if q[0].live && !SelectorOf(q[0], co) then [MsgOf(q[0])] + rest else rest
  {
    var r := Killed(q, co);
    assert r[1..] == Killed(q[1..], co);
    assert Pending(r) == (if r[0].live then [MsgOf(r[0])] else []) + Pending(r[1..]);
  }

  /** The first pending message can be counted with what is before it, or dropped. */
  lemma ShiftHead(p: seq<Msg>, x: Msg, rest: seq<Msg>)
    ensures p + ([x] + rest) == (p + [x]) + rest
    ensures var l := p + ([x] + rest); l[..|p|] + l[|p| + 1..] == p + rest
  {}

  lemma {:induction false} KillOrder(p: seq<Msg>, q: seq<Quantum<Load>>, co: nat, t: nat, total: bool)
    requires Before(p + Pending(q), t) && Ordered(p + Pending(q), total)
    ensures Before(p + Pending(Killed(q, co)), t) && Ordered(p + Pending(Killed(q, co)), total)
    decreases |q|
  {
    if q != [] {
      PendingKillHead(q, co);
      var rest := Pending(q[1..]);
      if !q[0].live {
        assert Pending(q) == rest;
        KillOrder(p, q[1..], co, t, total);
      } else {
        assert Pending(q) == [MsgOf(q[0])] + rest;
        ShiftHead(p, MsgOf(q[0]), rest);
        if SelectorOf(q[0], co) {
          Cut(p + Pending(q), |p|, |p| + 1, t, total);
          KillOrder(p, q[1..], co, t, total);
        } else {
          KillOrder(p + [MsgOf(q[0])], q[1..], co, t, total);
          ShiftHead(p, MsgOf(q[0]), Pending(Killed(q[1..], co)));
        }
      }
    }
  }

  lemma OrderStep(s: Chan, a: Action, total: bool)
    requires InLine(s, total) && Enabled(s, a) && !a.Send?
    ensures InLine(Step(s, a), total)
  {
    match a {
      case Recv(co, mode) => RecvOrder(s, co, mode, total);
      case CloseChan => CloseOrder(s, total);
      case EndMailbox => EndOrder(s, total);
      case Kill(co) => KillOrder(s.received + s.buf, s.sendQ, co, |s.issued|, total);
      case Extract(co) => PendingExtract(s.sendQ, co);
    }
  }

  /* ---- Conservation ---- */

  lemma ShapeStep(s: Chan, a: Action)
    requires ShapeOk(s) && Enabled(s, a)
    ensures ShapeOk(Step(s, a))
  {
    match a {
      case Kill(co) => assert |Killed(s.recvQ, co)| == |s.recvQ| && |Killed(s.sendQ, co)| == |s.sendQ|;
      case Extract(co) => assert |Without(s.recvQ, co)| <= |s.recvQ| && |Without(s.sendQ, co)| <= |s.sendQ|;
      case _ =>
    }
  }

  lemma {:induction false} PendingFirst(q: seq<Quantum<Load>>)
    ensures var k := FirstLive(q);
            Pending(q) == if k < |q| then [MsgOf(q[k])] + Pending(q[k + 1..]) else []
  {
    if q != [] && !q[0].live {
      PendingFirst(q[1..]);
      assert FirstLive(q) < |q| ==> q[1..][FirstLive(q[1..]) + 1..] == q[FirstLive(q) + 1..];
    }
  }

  lemma {:induction false} PendingAppend(q: seq<Quantum<Load>>, x: Quantum<Load>)
    requires x.live
    ensures Pending(q + [x]) == Pending(q) + [MsgOf(x)]
  {
    if q == [] {
      assert [] + [x] == [x] && [x][1..] == [];
    } else {
      PendingAppend(q[1..], x);
      assert (q + [x])[1..] == q[1..] + [x];
    }
  }

  lemma {:induction false} PendingKill(q: seq<Quantum<Load>>, co: nat, m: Msg)
    ensures Times(Pending(q), m) == Times(Withdrawn(q, co), m) + Times(Pending(Killed(q, co)), m)
  {
    if q != [] {
      var r := Killed(q, co);
      PendingKill(q[1..], co, m);
      assert r[1..] == Killed(q[1..], co);
      TimesConcat(if q[0].live then [MsgOf(q[0])] else [], Pending(q[1..]), m);
      TimesConcat(if r[0].live then [MsgOf(r[0])] else [], Pending(r[1..]), m);
      TimesConcat(if q[0].live && SelectorOf(q[0], co) then [MsgOf(q[0])] else [], Withdrawn(q[1..], co), m);
    }
  }

  lemma {:induction false} PendingExtract(q: seq<Quantum<Load>>, co: nat)
    requires forall j :: 0 <= j < |q| && q[j].co == co ==> !q[j].live
    ensures Pending(Without(q, co)) == Pending(q)
  {
    if q != [] {
      PendingExtract(q[1..], co);
      if q[0].co == co {
        assert Without(q, co) == Without(q[1..], co);
      } else {
        assert Without(q, co)[0] == q[0] && Without(q, co)[1..] == Without(q[1..], co);
      }
    }
  }

  lemma SendConserves(s: Chan, co: nat, val: int, mode: Mode, m: Msg)
    requires Conserves(s, m)
    ensures Conserves(DoSend(s, co, val, mode), m)
  {
    var x, s' := Msg(co, |s.issued|, val), DoSend(s, co, val, mode);
    TimesConcat(s.issued, [x], m);
    if FirstLive(s.recvQ) < |s.recvQ| {
      TimesConcat(s.accepted, [x], m);
      TimesConcat(s.received, [x], m);
    } else if !s.closed && HasRoom(s) {
      TimesConcat(s.accepted, [x], m);
      TimesConcat(s.buf, [x], m);
    } else if mode.OnSelect? || (mode.Blocking? && !s.closed) {
      PendingAppend(s.sendQ, Offer(x, mode.OnSelect?));
      TimesConcat(Pending(s.sendQ), [x], m);
    } else {
      TimesConcat(s.refused, [x], m);
    }
  }

  lemma TimesAppend(l: seq<Msg>, x: Msg, m: Msg)
    ensures Times(l + [x], m) == Times(l, m) + One(x == m)
  {
    TimesConcat(l, [x], m);
  }

  lemma TimesPrepend(x: Msg, l: seq<Msg>, m: Msg)
    ensures Times([x] + l, m) == One(x == m) + Times(l, m)
  {
    TimesConcat([x], l, m);
  }

  lemma BufferConserves(s: Chan, co: nat, mode: Mode, m: Msg)
    requires Conserves(s, m) && s.buf != []
    ensures Conserves(DoRecv(s, co, mode), m)
  {
    assert s.buf == [s.buf[0]] + s.buf[1..];
    TimesPrepend(s.buf[0], s.buf[1..], m);
    TimesAppend(s.received, s.buf[0], m);
  }

  /** A message that a receiver takes from its sender is accepted and received at once. */
  lemma HandOverConserves(s: Chan, s': Chan, x: Msg, rest: seq<Msg>, m: Msg)
    requires Conserves(s, m) && Pending(s.sendQ) == [x] + rest && Pending(s'.sendQ) == rest
    requires s'.issued == s.issued && s'.refused == s.refused && s'.buf == s.buf && s'.dropped == s.dropped
    requires s'.accepted == s.accepted + [x] && s'.received == s.received + [x]
    ensures Conserves(s', m)
  {
    TimesPrepend(x, rest, m);
    TimesAppend(s.received, x, m);
    TimesAppend(s.accepted, x, m);
  }

  lemma SenderConserves(s: Chan, co: nat, mode: Mode, m: Msg, k: nat)
    requires Conserves(s, m) && s.buf == [] && k == FirstLive(s.sendQ) < |s.sendQ|
    requires Pending(s.sendQ) == [MsgOf(s.sendQ[k])] + Pending(s.sendQ[k + 1..])
    ensures Conserves(DoRecv(s, co, mode), m)
  {
    var s' := DoRecv(s, co, mode);
    assert s'.sendQ == s.sendQ[k + 1..] && s'.buf == [];
    HandOverConserves(s, s', MsgOf(s.sendQ[k]), Pending(s.sendQ[k + 1..]), m);
  }

  lemma SameConserves(s: Chan, s': Chan, m: Msg)
    requires Conserves(s, m) && Pending(s'.sendQ) == Pending(s.sendQ) && s'.issued == s.issued && s'.refused == s.refused
    requires s'.accepted == s.accepted && s'.received == s.received && s'.buf == s.buf && s'.dropped == s.dropped
    ensures Conserves(s', m)
  {}

  /** A receive that finds nothing. */
  lemma RecvFindsNothing(s: Chan, co: nat, mode: Mode)
    requires s.buf == [] && FirstLive(s.sendQ) == |s.sendQ|
    ensures var s' := DoRecv(s, co, mode);
            && s'.sendQ == [] && s'.buf == [] && s'.issued == s.issued && s'.refused == s.refused && s'.dropped == s.dropped
            && s'.accepted == s.accepted && s'.received == s.received
            && s'.recvQ == if mode.OnSelect? || (mode.Blocking? && !s.closed)
                           then s.recvQ + [Quantum(co, (), mode.OnSelect?, true)] else s.recvQ
  {}

  lemma NobodyConserves(s: Chan, co: nat, mode: Mode, m: Msg)
    requires Conserves(s, m) && s.buf == [] && FirstLive(s.sendQ) == |s.sendQ| && Pending(s.sendQ) == []
    ensures Conserves(DoRecv(s, co, mode), m)
  {
    RecvFindsNothing(s, co, mode);
    assert Pending([]) == [];
    SameConserves(s, DoRecv(s, co, mode), m);
  }

  lemma RecvConserves(s: Chan, co: nat, mode: Mode, m: Msg)
    requires Conserves(s, m)
    ensures Conserves(DoRecv(s, co, mode), m)
  {
    if s.buf != [] {
      BufferConserves(s, co, mode, m);
    } else {
      PendingFirst(s.sendQ);
      if FirstLive(s.sendQ) < |s.sendQ| {
        SenderConserves(s, co, mode, m, FirstLive(s.sendQ));
      } else {
        NobodyConserves(s, co, mode, m);
      }
    }
  }

  lemma CloseConserves(s: Chan, m: Msg)
    requires Conserves(s, m)
    ensures Conserves(DoClose(s), m)
  {
    TimesConcat(s.refused, Pending(s.sendQ), m);
    TimesConcat(s.dropped, s.buf, m);
  }

  lemma ConserveStep(s: Chan, a: Action, m: Msg)
    requires Conserves(s, m) && Enabled(s, a)
    ensures Conserves(Step(s, a), m)
  {
    match a {
      case Send(co, val, mode) => SendConserves(s, co, val, mode, m);
      case Recv(co, mode) => RecvConserves(s, co, mode, m);
      case CloseChan => CloseConserves(s, m);
      case EndMailbox => TimesConcat(s.dropped, s.buf, m);
      case Kill(co) =>
        PendingKill(s.sendQ, co, m);
        TimesConcat(s.refused, Withdrawn(s.sendQ, co), m);
      case Extract(co) => PendingExtract(s.sendQ, co);
    }
  }

  lemma TicketStep(s: Chan, a: Action)
    requires TicketsOk(s) && Enabled(s, a)
    ensures TicketsOk(Step(s, a)) && Step(s, a).kind == s.kind
  {}

  lemma StepKeepsInv(s: Chan, a: Action)
    requires Inv(s) && Enabled(s, a)
    ensures Inv(Step(s, a)) && Step(s, a).kind == s.kind
  {
    ShapeStep(s, a);
    TicketStep(s, a);
    if a.Send? { SendOrder(s, a.co, a.val, a.mode); } else { OrderStep(s, a, !s.kind.Bounded?); }
    forall m ensures Conserves(Step(s, a), m) {
      assert Conserves(s, m);
      ConserveStep(s, a, m);
    }
  }

  /* ---- Whole runs ---- */

  ghost predicate IsRun(trace: seq<Chan>, actions: seq<Action>) {
    |trace| == |actions| + 1 && Init(trace[0]) &&
    forall n :: 0 <= n < |actions| ==>
      Enabled(trace[n], actions[n]) && trace[n + 1] == Step(trace[n], actions[n])
  }

  /** The receive queue is non-empty only over an empty buffer and send queue; every send is accepted,
      refused or pending, once; and what is accepted is received, buffered or dropped, once. */
  lemma {:induction false} RunsAreSafe(trace: seq<Chan>, actions: seq<Action>, n: nat)
    requires IsRun(trace, actions) && n < |trace|
    ensures Inv(trace[n]) && trace[n].kind == trace[0].kind
  {
    if n > 0 {
      RunsAreSafe(trace, actions, n - 1);
      StepKeepsInv(trace[n - 1], actions[n - 1]);
    }
  }

  /** No message is received twice, and none whose send was refused or is still pending is received. */
  lemma ReceivedOnce(trace: seq<Chan>, actions: seq<Action>, n: nat, m: Msg)
    requires IsRun(trace, actions) && n < |trace|
    ensures Times(trace[n].received, m) <= 1
    ensures m in trace[n].received ==> m in trace[n].accepted && m !in trace[n].refused && m !in Pending(trace[n].sendQ)
    ensures m in trace[n].accepted ==> Times(trace[n].received, m) + Times(trace[n].buf, m) + Times(trace[n].dropped, m) == 1
  {
    var s := trace[n];
    RunsAreSafe(trace, actions, n);
    IssuedOnce(s.issued, m);
    assert Conserves(s, m);
    TimesPositive(s.received, m);
    TimesPositive(s.accepted, m);
    TimesPositive(s.refused, m);
    TimesPositive(Pending(s.sendQ), m);
  }

  lemma {:induction false} IssuedOnce(issued: seq<Msg>, m: Msg)
    requires forall t :: 0 <= t < |issued| ==> issued[t].ticket == t
    ensures Times(issued, m) <= 1
    ensures m.ticket >= |issued| ==> Times(issued, m) == 0
  {
    var n := |issued| - 1;
    if n >= 0 {
      IssuedOnce(issued[..n], m);
      assert issued == issued[..n] + [issued[n]];
      TimesConcat(issued[..n], [issued[n]], m);
    }
  }

  /** Each sender's messages are received in the order it sent them, on every channel; on unbuffered
      channels and mailboxes the whole channel is first come, first served. */
  lemma ReceiveOrder(trace: seq<Chan>, actions: seq<Action>, n: nat, i: nat, j: nat)
    requires IsRun(trace, actions) && n < |trace| && i < j < |trace[n].received|
    ensures var r := trace[n].received;
            r[i].sender == r[j].sender || !trace[0].kind.Bounded? ==> r[i].ticket < r[j].ticket
  {
    RunsAreSafe(trace, actions, n);
    assert trace[n].received[i] == Line(trace[n])[i] && trace[n].received[j] == Line(trace[n])[j];
  }

  /* ---- What each operation comes to ---- */

  /** There is something to receive. */
  predicate Servable(s: Chan) { |s.received| < |Line(s)| }

  /** A receive gets the next message in line exactly if there is one; otherwise it waits if it may, behind
      the others, and else nothing happens.  It never turns anybody else away. */
  lemma RecvServes(s: Chan, co: nat, mode: Mode)
    ensures var s' := DoRecv(s, co, mode);
            && Line(s') == Line(s) && s'.issued == s.issued && s'.refused == s.refused && s'.dropped == s.dropped
            && (Servable(s) ==> s'.received == Line(s)[..|s.received| + 1] && s'.recvQ == s.recvQ)
            && (!Servable(s) ==>
                  && s'.received == s.received && s'.accepted == s.accepted && s'.buf == s.buf
                  && s'.recvQ == if mode.OnSelect? || (mode.Blocking? && !s.closed)
                                 then s.recvQ + [Quantum(co, (), mode.OnSelect?, true)] else s.recvQ)
  {
    RecvLine(s, co, mode);
    PendingFirst(s.sendQ);
    if Servable(s) { RecvTakes(s, co, mode); } else { RecvFindsNothing(s, co, mode); }
  }

  lemma RecvTakes(s: Chan, co: nat, mode: Mode)
    requires s.buf != [] || FirstLive(s.sendQ) < |s.sendQ|
    ensures var s' := DoRecv(s, co, mode);
            && s'.issued == s.issued && s'.refused == s.refused && s'.dropped == s.dropped && s'.recvQ == s.recvQ
            && |s'.received| == |s.received| + 1 && s'.received == Line(s')[..|s.received| + 1]
  {
    var s' := DoRecv(s, co, mode);
    assert Line(s') == s'.received + (s'.buf + Pending(s'.sendQ));
  }

  /** A receiver waits. */
  predicate Awaited(s: Chan) { FirstLive(s.recvQ) < |s.recvQ| }

  /** A send is accepted exactly if a receiver waits, and then it is the first one that gets the message, or
      the channel is open and has room; otherwise the sender waits if it may, behind the others, and else it
      is refused. */
  lemma SendServes(s: Chan, co: nat, val: int, mode: Mode)
    ensures var (s', m) := (DoSend(s, co, val, mode), Msg(co, |s.issued|, val));
            && s'.issued == s.issued + [m] && s'.closed == s.closed && s'.dropped == s.dropped
            && s'.accepted == s.accepted + (if Awaited(s) || (!s.closed && HasRoom(s)) then [m] else [])
            && s'.received == s.received + (if Awaited(s) then [m] else [])
            && s'.buf == s.buf + (if !Awaited(s) && !s.closed && HasRoom(s) then [m] else [])
            && s'.recvQ == (if Awaited(s) then s.recvQ[FirstLive(s.recvQ) + 1..] else [])
            && (Awaited(s) || (!s.closed && HasRoom(s)) ==> s'.sendQ == s.sendQ && s'.refused == s.refused)
            && (!Awaited(s) && (s.closed || !HasRoom(s)) ==>
                  if mode.OnSelect? || (mode.Blocking? && !s.closed)
                  then s'.sendQ == s.sendQ + [Offer(m, mode.OnSelect?)] && s'.refused == s.refused
                  else s'.sendQ == s.sendQ && s'.refused == s.refused + [m])
  {}

  /** Close turns everybody away: nobody is left in a queue, senders are refused in order, and a channel of
      references drops what it holds. */
  lemma CloseReleases(s: Chan)
    requires !s.closed
    ensures var s' := Step(s, CloseChan);
            && s'.closed && (forall co :: !Queued(s', co))
            && s'.refused == s.refused + Pending(s.sendQ) && s'.received == s.received && s'.accepted == s.accepted
            && (if s.isref then s'.buf == [] && s'.dropped == s.dropped + s.buf else s'.buf == s.buf && s'.dropped == s.dropped)
  {}

  /** A second close changes nothing. */
  lemma CloseTwice(s: Chan)
    ensures Step(Step(s, CloseChan), CloseChan) == Step(s, CloseChan)
  {}

  /** The end of a mailbox's owner closes it and releases what it holds. */
  lemma EndedMailbox(s: Chan)
    requires Enabled(s, EndMailbox)
    ensures var s' := Step(s, EndMailbox); s'.closed && s'.buf == [] && s'.dropped == s.dropped + s.buf
  {}

  /** A selector that is taken elsewhere cannot be completed here any more, its message counts as refused,
      and once it has extracted its quanta, the queues do not have it. */
  lemma TakenElsewhere(s: Chan, co: nat)
    requires forall j :: 0 <= j < |s.sendQ| && s.sendQ[j].co == co ==> s.sendQ[j].select
    requires forall j :: 0 <= j < |s.recvQ| && s.recvQ[j].co == co ==> s.recvQ[j].select
    ensures var s' := Step(s, Kill(co));
            && (forall m :: m in Pending(s'.sendQ) <==> m in Pending(s.sendQ) && m.sender != co)
            && (forall m :: m in Pending(s.sendQ) && m.sender == co ==> m in s'.refused)
            && (forall j :: 0 <= j < |s'.recvQ| && s'.recvQ[j].live ==> s'.recvQ[j].co != co)
            && Enabled(s', Extract(co)) && !Queued(Step(s', Extract(co)), co)
  {
    PendingKilled(s.sendQ, co);
  }

  lemma {:induction false} PendingKilled(q: seq<Quantum<Load>>, co: nat)
    requires forall j :: 0 <= j < |q| && q[j].co == co ==> q[j].select
    ensures forall m :: m in Pending(Killed(q, co)) <==> m in Pending(q) && m.sender != co
    ensures forall m :: m in Pending(q) && m.sender == co ==> m in Withdrawn(q, co)
  {
    if q != [] { PendingKilled(q[1..], co); }
  }

  /** A selector that is taken elsewhere, and later removes its quanta, takes nobody else out of line. */
  lemma OthersStayQueued(s: Chan, a: Action, co: nat)
    requires Enabled(s, a) && (a.Kill? || a.Extract?) && a.co != co && Queued(s, co)
    ensures Queued(Step(s, a), co)
  {
    var s' := Step(s, a);
    if j :| 0 <= j < |s.sendQ| && s.sendQ[j].co == co {
      assert a.Kill? ==> s'.sendQ[j].co == co;
      assert a.Extract? ==> s.sendQ[j] in s'.sendQ;
    } else {
      var j :| 0 <= j < |s.recvQ| && s.recvQ[j].co == co;
      assert a.Kill? ==> s'.recvQ[j].co == co;
      assert a.Extract? ==> s.recvQ[j] in s'.recvQ;
    }
  }

  /** Only select quanta: what the queues of a closed channel can hold. */
  predicate OnlySelectors(s: Chan) {
    (forall j :: 0 <= j < |s.sendQ| ==> s.sendQ[j].select) && (forall j :: 0 <= j < |s.recvQ| ==> s.recvQ[j].select)
  }

  lemma ClosedStep(s: Chan, a: Action)
    requires Enabled(s, a) && !a.EndMailbox? && (s.closed ==> OnlySelectors(s))
    ensures Step(s, a).closed ==> OnlySelectors(Step(s, a))
  {
    match a
    case Send(co, val, mode) => SendServes(s, co, val, mode);
    case Recv(co, mode) => RecvQueues(s, co, mode);
    case Extract(co) => ExtractSelectors(s, co);
    case _ =>
  }

  lemma RecvQueues(s: Chan, co: nat, mode: Mode)
    requires s.closed ==> OnlySelectors(s)
    ensures DoRecv(s, co, mode).closed ==> OnlySelectors(DoRecv(s, co, mode))
  {}

  lemma ExtractSelectors(s: Chan, co: nat)
    requires Enabled(s, Extract(co)) && (s.closed ==> OnlySelectors(s))
    ensures s.closed ==> OnlySelectors(Step(s, Extract(co)))
  {
    var s' := Step(s, Extract(co));
    if s.closed {
      forall j | 0 <= j < |s'.sendQ| ensures s'.sendQ[j].select { assert s'.sendQ[j] in s.sendQ; }
      forall j | 0 <= j < |s'.recvQ| ensures s'.recvQ[j].select { assert s'.recvQ[j] in s.recvQ; }
    }
  }

  /** In every state of a run, nobody but selectors waits on a closed channel that is not a mailbox. */
  lemma {:induction false} ClosedMeansReleased(trace: seq<Chan>, actions: seq<Action>, n: nat)
    requires IsRun(trace, actions) && n < |trace| && !trace[0].kind.Mailbox?
    ensures trace[n].closed ==> OnlySelectors(trace[n])
  {
    if n > 0 {
      ClosedMeansReleased(trace, actions, n - 1);
      RunsAreSafe(trace, actions, n - 1);
      ClosedStep(trace[n - 1], actions[n - 1]);
    }
  }

  /* ---- When senders overtake each other ---- */

  /** The send goes into the buffer while others still wait to send. */
  predicate Overtakes(s: Chan, a: Action) {
    a.Send? && FirstLive(s.recvQ) == |s.recvQ| && !s.closed && HasRoom(s) && Pending(s.sendQ) != []
  }

  /** From a line in total order, an operation leaves it in total order unless it overtakes. */
  lemma OvertakingBreaksOrder(s: Chan, a: Action)
    requires ShapeOk(s) && LineOk(s) && Ordered(Line(s), true) && Enabled(s, a)
    ensures Ordered(Line(Step(s, a)), true) <==> !Overtakes(s, a)
  {
    var l, s' := Line(s), Step(s, a);
    if a.Send? {
      var m, i := Msg(a.co, |s.issued|, a.val), Place(s);
      SendLine(s, a.co, a.val, a.mode);
      if Overtakes(s, a) {
        var l' := l[..i] + [m] + l[i..];
        assert Line(s') == l' by { assert s'.buf == s.buf + [m]; }
        assert l'[i] == m && l'[i + 1] == l[i];
      } else {
        Insert(l, |l|, m, true);
        assert Place(s) < |l| ==> Pending(s.sendQ) != [];
      }
    } else {
      OrderStep(s, a, true);
    }
  }

  /** A run in which no send overtakes is received in the order of the send calls, on any channel. */
  lemma {:induction false} NoOvertakingKeepsOrder(trace: seq<Chan>, actions: seq<Action>, n: nat)
    requires IsRun(trace, actions) && n < |trace| && forall i :: 0 <= i < n ==> !Overtakes(trace[i], actions[i])
    ensures Ordered(Line(trace[n]), true) && Ordered(trace[n].received, true)
  {
    if n > 0 {
      NoOvertakingKeepsOrder(trace, actions, n - 1);
      RunsAreSafe(trace, actions, n - 1);
      OvertakingBreaksOrder(trace[n - 1], actions[n - 1]);
    }
    var (r, l) := (trace[n].received, Line(trace[n]));
    assert forall i :: 0 <= i < |r| ==> r[i] == l[i];
  }

  /** Overtaking does happen: on a channel with one slot, sender 1 blocks behind sender 0's value, a
      receive frees the slot, sender 2 takes it, and is served before sender 1. */
  lemma BoundedChannelsOvertake() returns (trace: seq<Chan>, actions: seq<Action>)
    ensures IsRun(trace, actions) && |trace| == 7 && trace[0].kind == Bounded(1)
    ensures trace[6].received == [Msg(0, 0, 7), Msg(2, 2, 9), Msg(1, 1, 8)]
  {
    trace := seq(7, n requires 0 <= n < 7 => OvertakeState(n));
    actions := seq(6, n requires 0 <= n < 6 => OvertakeAction(n));
    forall n | 0 <= n < 6 ensures Enabled(trace[n], actions[n]) && trace[n + 1] == Step(trace[n], actions[n]) {
      if n < 3 { OvertakeEarly(n); } else { OvertakeLate(n); }
    }
  }

  function OvertakeAction(n: nat): Action {
    if n == 0 then Send(0, 7, Blocking) else if n == 1 then Send(1, 8, Blocking)
    else if n == 3 then Send(2, 9, Blocking) else Recv(9, Blocking)
  }

  function OvertakeState(n: nat): Chan {
    var (m0, m1, m2) := (Msg(0, 0, 7), Msg(1, 1, 8), Msg(2, 2, 9));
    var (buf, sendQ, issued) :=
      (if n == 1 || n == 2 then [m0] else if n == 4 then [m2] else [],
       if 2 <= n <= 5 then [Offer(m1, false)] else [],
       if n == 0 then [] else if n == 1 then [m0] else if n <= 3 then [m0, m1] else [m0, m1, m2]);
    Chan(Bounded(1), false, false, buf, [], sendQ, issued,
         if n == 0 then [] else if n <= 3 then [m0] else if n <= 5 then [m0, m2] else [m0, m2, m1], [],
         if n <= 2 then [] else if n <= 4 then [m0] else if n == 5 then [m0, m2] else [m0, m2, m1], [])
  }

  lemma OvertakeEarly(n: nat)
    requires n < 3
    ensures Enabled(OvertakeState(n), OvertakeAction(n))
    ensures Step(OvertakeState(n), OvertakeAction(n)) == OvertakeState(n + 1)
  {}

  lemma OvertakeLate(n: nat)
    requires 3 <= n < 6
    ensures Enabled(OvertakeState(n), OvertakeAction(n))
    ensures Step(OvertakeState(n), OvertakeAction(n)) == OvertakeState(n + 1)
  {}
}
