/** The snapshot broker of src/components/security/SecureViewerShell.tsx:
    callers ask for a camera snapshot, requests wait in a FIFO queue, at
    most one of them is handed to the camera at a time, and each snapshot
    the camera delivers settles the request in the active slot.

    A request's promise is identified by a ticket (its position in the
    order of requests); settling it appends a `Resolution` for that ticket.
    `BrokerState` holds the broker's state as a value and the functions
    below are its operations; the class `SnapshotBroker` performs them on
    its fields. */
module Snapshots {
  import opened Common
  import opened SecurityTypes

  datatype SnapshotReason = PresenceShot | ViolationShot

  datatype SnapshotDirective = SnapshotDirective(id: string, reason: SnapshotReason, metadata: Option<Context>)

  /** What a settled request receives. The directive is whatever the camera
      handed back with the photo, which may be nothing. */
  datatype SnapshotResult = SnapshotResult(photo: Option<string>, frameHash: string, directive: Option<SnapshotDirective>)

  datatype Pending = Pending(directive: SnapshotDirective, ticket: nat)

  datatype Resolution = Resolution(ticket: nat, result: SnapshotResult)

  /** `directive` is `snapshotDirectiveRef`, `resolver` is
      `activeResolverRef`; `submitted` lists every directive ever requested,
      indexed by ticket. */
  datatype BrokerState = BrokerState(
    queue: seq<Pending>,
    directive: Option<SnapshotDirective>,
    resolver: Option<nat>,
    resolved: seq<Resolution>,
    submitted: seq<SnapshotDirective>)

  const Empty: BrokerState := BrokerState([], None, None, [], [])

  function QueueTickets(q: seq<Pending>): (r: seq<nat>)
    ensures |r| == |q| && forall i :: 0 <= i < |q| ==> r[i] == q[i].ticket
  {
    if q == [] then [] else [q[0].ticket] + QueueTickets(q[1..])
  }

  function ResolvedTickets(rs: seq<Resolution>): (r: seq<nat>)
    ensures |r| == |rs| && forall i :: 0 <= i < |rs| ==> r[i] == rs[i].ticket
  {
    if rs == [] then [] else [rs[0].ticket] + ResolvedTickets(rs[1..])
  }

  function ActiveTickets(st: BrokerState): seq<nat> {
    if st.resolver.Some? then [st.resolver.value] else []
  }

  /** Every ticket in the order settled, active, waiting. */
  function Order(st: BrokerState): seq<nat> {
    ResolvedTickets(st.resolved) + ActiveTickets(st) + QueueTickets(st.queue)
  }

  /** The tickets `0 .. n-1` in order. */
  function Range(n: nat): (r: seq<nat>)
    ensures |r| == n && forall i :: 0 <= i < n ==> r[i] == i
  {
    if n == 0 then [] else Range(n - 1) + [n - 1]
  }

  /** The broker's invariant: the two slots are set and cleared together,
      the active slot holds the directive its ticket was requested with,
      every waiting request keeps its own directive, nothing waits while the
      slot is free, and the requests are settled, served and queued in
      exactly the order they were made. */
  ghost predicate Fifo(st: BrokerState) {
    && (st.directive.Some? <==> st.resolver.Some?)
    && (st.resolver.Some? ==> st.resolver.value < |st.submitted| && st.submitted[st.resolver.value] == st.directive.value)
    && (forall i :: 0 <= i < |st.queue| ==>
          st.queue[i].ticket < |st.submitted| && st.submitted[st.queue[i].ticket] == st.queue[i].directive)
    && (st.queue != [] ==> st.directive.Some?)
    && Order(st) == Range(|st.submitted|)
  }

  /** `pumpSnapshotQueue` */
  function PumpStep(st: BrokerState): BrokerState {
    if st.directive.Some? || st.queue == [] then st
    else
      var next := st.queue[0];
      st.(queue := st.queue[1..], directive := Some(next.directive), resolver := Some(next.ticket))
  }

  /** `requestSnapshot`: enqueue first, then pump. Gives the new state and
      the ticket of the request. */
  function RequestStep(st: BrokerState, reason: SnapshotReason, metadata: Option<Context>, id: string): (BrokerState, nat) {
    var directive := SnapshotDirective(id, reason, metadata);
    var ticket := |st.submitted|;
    var s1 := st.(queue := st.queue + [Pending(directive, ticket)], submitted := st.submitted + [directive]);
    (PumpStep(s1), ticket)
  }

  /** `handleSnapshot`: settle the active request, if any, free the slot,
      pump the next one. */
  function HandleSnapshotStep(st: BrokerState, photo: Option<string>, frameHash: string,
                          directive: Option<SnapshotDirective>): BrokerState {
    var s1 := if st.resolver.Some?
              then st.(resolved := st.resolved + [Resolution(st.resolver.value, SnapshotResult(photo, frameHash, directive))])
              else st;
    PumpStep(s1.(resolver := None, directive := None))
  }

  lemma QueueTicketsAppend(q: seq<Pending>, p: Pending)
    ensures QueueTickets(q + [p]) == QueueTickets(q) + [p.ticket]
  {
  }

  lemma ResolvedTicketsAppend(rs: seq<Resolution>, r: Resolution)
    ensures ResolvedTickets(rs + [r]) == ResolvedTickets(rs) + [r.ticket]
  {
  }

  lemma EmptyFifo()
    ensures Fifo(Empty)
  {
  }

  /** Pumping does nothing while a directive is active or nothing waits. */
  lemma PumpIdle(st: BrokerState)
    requires st.directive.Some? || st.queue == []
    ensures PumpStep(st) == st
  {
  }

  /** Pumping keeps the order of tickets; it moves the oldest waiting
      request into the free slot. */
  lemma PumpKeepsOrder(st: BrokerState)
    requires st.directive.Some? <==> st.resolver.Some?
    ensures Order(PumpStep(st)) == Order(st)
    ensures st.directive.None? && st.queue != [] ==>
      PumpStep(st).resolver == Some(st.queue[0].ticket) && PumpStep(st).directive == Some(st.queue[0].directive)
  {
    if st.directive.None? && st.queue != [] {
      var r := PumpStep(st);
      assert QueueTickets(st.queue) == [st.queue[0].ticket] + QueueTickets(st.queue[1..]);
      assert Order(r) == ResolvedTickets(st.resolved) + [st.queue[0].ticket] + QueueTickets(st.queue[1..]);
    }
  }

  /** A request keeps the broker's invariant. */
  lemma RequestPreservesFifo(st: BrokerState, reason: SnapshotReason, metadata: Option<Context>, id: string)
    requires Fifo(st)
    ensures Fifo(RequestStep(st, reason, metadata, id).0)
  {
    var directive := SnapshotDirective(id, reason, metadata);
    var ticket := |st.submitted|;
    var p := Pending(directive, ticket);
    var s1 := st.(queue := st.queue + [p], submitted := st.submitted + [directive]);
    assert Range(|s1.submitted|) == Range(|st.submitted|) + [ticket];
    if st.directive.Some? {
      PumpIdle(s1);
      QueueTicketsAppend(st.queue, p);
      assert Order(s1) == Order(st) + [ticket];
      forall i | 0 <= i < |s1.queue|
        ensures s1.queue[i].ticket < |s1.submitted| && s1.submitted[s1.queue[i].ticket] == s1.queue[i].directive
      {
        if i < |st.queue| {
          assert s1.queue[i] == st.queue[i];
        }
      }
    } else {
      assert st.queue == [];
      var r := PumpStep(s1);
      assert r == st.(directive := Some(directive), resolver := Some(ticket), submitted := s1.submitted);
      assert Order(st) == ResolvedTickets(st.resolved);
      assert Order(r) == ResolvedTickets(st.resolved) + [ticket];
    }
  }

  /** A request is never dropped: after the call it is either active or
      waiting at the back of the queue, and the invariant still holds. */
  lemma RequestKeepsFifo(st: BrokerState, reason: SnapshotReason, metadata: Option<Context>, id: string)
    requires Fifo(st)
    ensures var (r, ticket) := RequestStep(st, reason, metadata, id);
      && Fifo(r)
      && ticket == |st.submitted|
      && r.submitted == st.submitted + [SnapshotDirective(id, reason, metadata)]
      && r.resolved == st.resolved
      && ((r.resolver == Some(ticket) && st.resolver.None?)
          || (r.resolver == st.resolver && r.queue == st.queue + [Pending(SnapshotDirective(id, reason, metadata), ticket)]))
  {
    RequestPreservesFifo(st, reason, metadata, id);
    if st.directive.None? {
      assert st.queue == [];
    }
  }

  /** `handleSnapshot` settles exactly the active request, with the photo,
      hash and directive it was given, and then serves the oldest waiting
      request. */
  lemma HandleSnapshotKeepsFifo(st: BrokerState, photo: Option<string>, frameHash: string,
                                directive: Option<SnapshotDirective>)
    requires Fifo(st)
    ensures var r := HandleSnapshotStep(st, photo, frameHash, directive);
      && Fifo(r)
      && r.submitted == st.submitted
      && (st.resolver.Some? ==>
            r.resolved == st.resolved + [Resolution(st.resolver.value, SnapshotResult(photo, frameHash, directive))])
      && (st.resolver.None? ==> r == st)
      && (st.queue != [] ==> r.resolver == Some(st.queue[0].ticket) && r.queue == st.queue[1..])
  {
    if st.resolver.Some? {
      var res := Resolution(st.resolver.value, SnapshotResult(photo, frameHash, directive));
      var s1 := st.(resolved := st.resolved + [res]);
      ResolvedTicketsAppend(st.resolved, res);
      var s2 := s1.(resolver := None, directive := None);
      assert Order(s2) == Order(st);
      PumpKeepsOrder(s2);
      if st.queue != [] {
        var r := PumpStep(s2);
        assert r.queue == st.queue[1..];
        forall i | 0 <= i < |r.queue|
          ensures r.queue[i].ticket < |r.submitted| && r.submitted[r.queue[i].ticket] == r.queue[i].directive
        {
          assert r.queue[i] == st.queue[i + 1];
        }
      }
    }
  }

  /** The k-th settlement always goes to the k-th request: requests are
      served strictly first come, first served. */
  lemma ResolvedInRequestOrder(st: BrokerState)
    requires Fifo(st)
    ensures forall k :: 0 <= k < |st.resolved| ==> st.resolved[k].ticket == k
    ensures st.resolver.Some? ==> st.resolver.value == |st.resolved|
    ensures forall i :: 0 <= i < |st.queue| ==> st.queue[i].ticket == |st.resolved| + |ActiveTickets(st)| + i
  {
    var o := Order(st);
    var a := ResolvedTickets(st.resolved);
    var b := ActiveTickets(st);
    var c := QueueTickets(st.queue);
    assert o == a + b + c;
    forall k | 0 <= k < |st.resolved| ensures st.resolved[k].ticket == k {
      assert o[k] == a[k];
    }
    if st.resolver.Some? {
      assert o[|a|] == st.resolver.value;
    }
    forall i | 0 <= i < |st.queue| ensures st.queue[i].ticket == |st.resolved| + |b| + i {
      assert o[|a| + |b| + i] == c[i];
    }
  }

  datatype BrokerOp =
    | RequestOp(reason: SnapshotReason, metadata: Option<Context>, id: string)
    | SnapshotOp(photo: Option<string>, frameHash: string, directive: Option<SnapshotDirective>)

  function BrokerStep(st: BrokerState, op: BrokerOp): BrokerState {
    match op
    case RequestOp(reason, metadata, id) => RequestStep(st, reason, metadata, id).0
    case SnapshotOp(photo, frameHash, directive) => HandleSnapshotStep(st, photo, frameHash, directive)
  }

  function BrokerRun(st: BrokerState, ops: seq<BrokerOp>): BrokerState
    decreases |ops|
  {
    if ops == [] then st else BrokerRun(BrokerStep(st, ops[0]), ops[1..])
  }

  /** From an empty broker, after any interleaving of requests and
      snapshots, the invariant holds: settlements follow request order and at
      most one request is in flight. */
  lemma {:induction false} BrokerRunKeepsFifo(st: BrokerState, ops: seq<BrokerOp>)
    requires Fifo(st)
    ensures Fifo(BrokerRun(st, ops))
    ensures |BrokerRun(st, ops).submitted| >= |st.submitted|
    decreases |ops|
  {
    if ops != [] {
      match ops[0] {
        case RequestOp(reason, metadata, id) => RequestKeepsFifo(st, reason, metadata, id);
        case SnapshotOp(photo, frameHash, directive) => HandleSnapshotKeepsFifo(st, photo, frameHash, directive);
      }
      BrokerRunKeepsFifo(BrokerStep(st, ops[0]), ops[1..]);
    }
  }

  class SnapshotBroker {
    var snapshotQueue: seq<Pending>
    var directiveSlot: Option<SnapshotDirective>
    var resolverSlot: Option<nat>
    var resolved: seq<Resolution>
    var submitted: seq<SnapshotDirective>

    function State(): BrokerState
      reads this
    {
      BrokerState(snapshotQueue, directiveSlot, resolverSlot, resolved, submitted)
    }

    ghost predicate Valid()
      reads this
    {
      Fifo(State())
    }

    constructor()
      ensures State() == Empty && Valid()
    {
      snapshotQueue := [];
      directiveSlot := None;
      resolverSlot := None;
      resolved := [];
      submitted := [];
    }

    method Pump()
      modifies this
      ensures State() == PumpStep(old(State()))
    {
      if directiveSlot.Some? || |snapshotQueue| == 0 {
        return;
      }
      var next := snapshotQueue[0];
      snapshotQueue := snapshotQueue[1..];
      directiveSlot := Some(next.directive);
      resolverSlot := Some(next.ticket);
    }

    method RequestSnapshot(reason: SnapshotReason, metadata: Option<Context>, id: string) returns (ticket: nat)
      modifies this
      requires Valid()
      ensures Valid()
      ensures (State(), ticket) == RequestStep(old(State()), reason, metadata, id)
    {
      RequestKeepsFifo(State(), reason, metadata, id);
      var directive := SnapshotDirective(id, reason, metadata);
      ticket := |submitted|;
      snapshotQueue := snapshotQueue + [Pending(directive, ticket)];
      submitted := submitted + [directive];
      Pump();
    }

    method HandleSnapshot(photo: Option<string>, frameHash: string, directive: Option<SnapshotDirective>)
      modifies this
      requires Valid()
      ensures Valid()
      ensures State() == HandleSnapshotStep(old(State()), photo, frameHash, directive)
    {
      HandleSnapshotKeepsFifo(State(), photo, frameHash, directive);
      if resolverSlot.Some? {
        resolved := resolved + [Resolution(resolverSlot.value, SnapshotResult(photo, frameHash, directive))];
      }
      resolverSlot := None;
      directiveSlot := None;
      Pump();
    }
  }
}
