/**
 * The socket handle table (src/runtime/transport.rs). Each runtime owns a table;
 * all runtimes draw their handles from one process-wide counter. What the
 * operating system answers is a parameter.
 */
module Sockets {
  import opened Wrappers
  import opened Ast
  import opened Values

  const CAPACITY: nat := 1024
  const MAX_ID: nat := 0xffff_ffff_ffff_ffff
  const DEFAULT_TIMEOUT: nat := 5000

  datatype Socket = Stream | ConnectedUdp | UnconnectedUdp | Listener(timeout: nat)

  type Table = map<nat, Socket>

  /** A request and how the operating system would answer it. */
  datatype Request =
    | ListenTcp(bound: bool)
    | AcceptOn(listener: Value, arrived: bool)
    | BindUdpTo(bound: bool)
    | ConnectTo(transport: Transport, protocol: bool, attempts: seq<bool>)
    | CloseOf(connection: Value)
    | SetTimeoutOf(connection: Value, milliseconds: nat, applied: bool)
    | Use(connection: Value)

  datatype Refusal =
    | CapacityReached | IdsExhausted | NotAHandle | ClosedOrForeign | NotAListener
    | ProtocolUnsupported | SystemError | TimeoutOutOfRange

  datatype Answer = Opened(id: nat) | Done | Denied(refusal: Refusal)

  datatype Served = Served(next: nat, table: Table, answer: Answer)

  // ----- specification of one operation -----

  function LookUpSocket(table: Table, connection: Value): Result<Socket, Refusal> {
    if !connection.Connection? then Err(NotAHandle)
    else if connection.handle !in table then Err(ClosedOrForeign)
    else Ok(table[connection.handle])
  }

  function InsertSocket(next: nat, table: Table, socket: Socket): Served {
    if next >= MAX_ID then Served(next, table, Denied(IdsExhausted))
    else Served(next + 1, table[next := socket], Opened(next))
  }

  function Opening(next: nat, table: Table, socket: Socket, ready: bool): Served {
    if |table| >= CAPACITY then Served(next, table, Denied(CapacityReached))
    else if !ready then Served(next, table, Denied(SystemError))
    else InsertSocket(next, table, socket)
  }

  function Serve(next: nat, table: Table, request: Request): Served {
    match request
    case ListenTcp(bound) => Opening(next, table, Listener(DEFAULT_TIMEOUT), bound)
    case BindUdpTo(bound) => Opening(next, table, UnconnectedUdp, bound)
    case AcceptOn(listener, arrived) =>
      if |table| >= CAPACITY then Served(next, table, Denied(CapacityReached))
      else
        (match LookUpSocket(table, listener)
         case Err(refusal) => Served(next, table, Denied(refusal))
         case Ok(socket) =>
           if !socket.Listener? then Served(next, table, Denied(NotAListener))
           else Opening(next, table, Stream, arrived))
    case ConnectTo(transport, protocol, attempts) =>
      if protocol then Served(next, table, Denied(ProtocolUnsupported))
      else Opening(next, table, if transport.Tcp? then Stream else ConnectedUdp, true in attempts)
    case CloseOf(connection) =>
      (match LookUpSocket(table, connection)
       case Err(refusal) => Served(next, table, Denied(refusal))
       case Ok(_) => Served(next, table - {connection.handle}, Done))
    case SetTimeoutOf(connection, milliseconds, applied) =>
      if !(1 <= milliseconds <= 86_400_000) then Served(next, table, Denied(TimeoutOutOfRange))
      else
        (match LookUpSocket(table, connection)
         case Err(refusal) => Served(next, table, Denied(refusal))
         case Ok(socket) =>
           if socket.Listener? then Served(next, table[connection.handle := Listener(milliseconds)], Done)
           else Served(next, table, if applied then Done else Denied(SystemError)))
    case Use(connection) =>
      (match LookUpSocket(table, connection)
       case Err(refusal) => Served(next, table, Denied(refusal))
       case Ok(_) => Served(next, table, Done))
  }

  // ----- the code -----

  /** The process-wide counter; `Fresh` is its atomic checked increment. */
  class IdSource {
    var next: nat

    constructor ()
      ensures next == 1
    {
      next := 1;
    }

    method Draw() returns (id: Option<nat>)
      modifies this
      ensures id == if old(next) >= MAX_ID then None else Some(old(next))
      ensures next == if id.Some? then old(next) + 1 else old(next)
    {
      if next >= MAX_ID {
        return None;
      }
      id := Some(next);
      next := next + 1;
    }
  }

  class TransportRuntime {
    var sockets: Table
    const ids: IdSource

    ghost predicate Valid()
      reads this
    {
      |sockets| <= CAPACITY
    }

    /** A runtime, forked or not, starts with an empty table. */
    constructor (ids: IdSource)
      ensures Valid() && this.ids == ids && sockets == map[]
    {
      this.ids := ids;
      sockets := map[];
    }

    method Insert(socket: Socket) returns (answer: Answer)
      modifies this, ids
      ensures Served(ids.next, sockets, answer) == InsertSocket(old(ids.next), old(sockets), socket)
    {
      var id := ids.Draw();
      if id.None? {
        return Denied(IdsExhausted);
      }
      sockets := sockets[id.value := socket];
      return Opened(id.value);
    }

    /** Capacity first, then the operating system, then the table. */
    method Open(socket: Socket, ready: bool) returns (answer: Answer)
      requires Valid()
      modifies this, ids
      ensures Valid() && Served(ids.next, sockets, answer) == Opening(old(ids.next), old(sockets), socket, ready)
    {
      if |sockets| >= CAPACITY {
        return Denied(CapacityReached);
      }
      if !ready {
        return Denied(SystemError);
      }
      answer := Insert(socket);
    }

    method SocketOf(connection: Value) returns (r: Result<Socket, Refusal>)
      ensures r == LookUpSocket(sockets, connection)
    {
      if !connection.Connection? {
        return Err(NotAHandle);
      }
      if connection.handle !in sockets {
        return Err(ClosedOrForeign);
      }
      return Ok(sockets[connection.handle]);
    }

    method Accept(listener: Value, arrived: bool) returns (answer: Answer)
      requires Valid()
      modifies this, ids
      ensures Valid() && Served(ids.next, sockets, answer) == Serve(old(ids.next), old(sockets), AcceptOn(listener, arrived))
    {
      if |sockets| >= CAPACITY {
        return Denied(CapacityReached);
      }
      var socket := SocketOf(listener);
      if socket.Err? {
        return Denied(socket.error);
      }
      if !socket.value.Listener? {
        return Denied(NotAListener);
      }
      answer := Open(Stream, arrived);
    }

    /** The first address that connects wins. */
    method Connect(transport: Transport, protocol: bool, attempts: seq<bool>) returns (answer: Answer)
      requires Valid()
      modifies this, ids
      ensures Valid() && Served(ids.next, sockets, answer) == Serve(old(ids.next), old(sockets), ConnectTo(transport, protocol, attempts))
    {
      if protocol {
        return Denied(ProtocolUnsupported);
      }
      if |sockets| >= CAPACITY {
        return Denied(CapacityReached);
      }
      for i := 0 to |attempts|
        invariant Valid() && true !in attempts[..i] && sockets == old(sockets) && ids.next == old(ids.next)
      {
        if attempts[i] {
          answer := Open(if transport.Tcp? then Stream else ConnectedUdp, true);
          return;
        }
      }
      return Denied(SystemError);
    }

    method Close(connection: Value) returns (answer: Answer)
      requires Valid()
      modifies this`sockets
      ensures Valid() && Served(ids.next, sockets, answer) == Serve(old(ids.next), old(sockets), CloseOf(connection))
    {
      hide Opening;
      var socket := SocketOf(connection);
      if socket.Err? {
        return Denied(socket.error);
      }
      SmallerTable(sockets, connection.handle);
      sockets := sockets - {connection.handle};
      return Done;
    }

    method SetTimeout(connection: Value, milliseconds: nat, applied: bool) returns (answer: Answer)
      requires Valid()
      modifies this`sockets
      ensures Valid() && Served(ids.next, sockets, answer) == Serve(old(ids.next), old(sockets), SetTimeoutOf(connection, milliseconds, applied))
    {
      if !(1 <= milliseconds <= 86_400_000) {
        return Denied(TimeoutOutOfRange);
      }
      var socket := SocketOf(connection);
      if socket.Err? {
        return Denied(socket.error);
      }
      if socket.value.Listener? {
        sockets := sockets[connection.handle := Listener(milliseconds)];
        return Done;
      }
      return if applied then Done else Denied(SystemError);
    }
  }

  lemma SmallerTable(table: Table, id: nat)
    requires id in table
    ensures |table - {id}| <= |table|
  {
    assert (table - {id}).Keys == table.Keys - {id};
  }

  // ----- any run of several runtimes -----

  datatype Event = Fork | On(runtime: nat, request: Request)

  /** `owners` remembers which runtime issued each handle, in order of issue, and `closed` every handle ever closed. */
  datatype Process = Process(next: nat, tables: seq<Table>, owners: seq<nat>, closed: set<nat>)

  const START: Process := Process(1, [map[]], [], {})

  function Happen(p: Process, event: Event): Process {
    match event
    case Fork => p.(tables := p.tables + [map[]])
    case On(runtime, request) =>
      if runtime >= |p.tables| then p
      else
        var s := Serve(p.next, p.tables[runtime], request);
        Process(s.next, p.tables[runtime := s.table],
                if s.answer.Opened? then p.owners + [runtime] else p.owners,
                if request.CloseOf? && s.answer.Done? && request.connection.Connection?
                then p.closed + {request.connection.handle} else p.closed)
  }

  function History(events: seq<Event>): Process {
    if events == [] then START else Happen(History(events[..|events| - 1]), events[|events| - 1])
  }

  ghost predicate TableOk(p: Process, i: nat)
    requires i < |p.tables|
  {
    && |p.tables[i]| <= CAPACITY
    && forall id | id in p.tables[i] :: 1 <= id < p.next && id - 1 < |p.owners| && p.owners[id - 1] == i && id !in p.closed
  }

  /** Handles `1 .. next` have been issued, one after the other, each to one runtime. */
  ghost predicate Sound(p: Process) {
    && 1 <= p.next <= MAX_ID
    && |p.owners| == p.next - 1
    && (forall id | id in p.closed :: 1 <= id < p.next)
    && (forall i | 0 <= i < |p.tables| :: TableOk(p, i))
  }

  /** Nothing is issued or closed. */
  predicate Kept(next: nat, table: Table, s: Served) {
    !s.answer.Opened? && s.next == next && s.table.Keys == table.Keys
  }

  /** The next handle is issued. */
  predicate Added(next: nat, table: Table, s: Served) {
    s.answer == Opened(next) && next < MAX_ID && s.next == next + 1 && |table| < CAPACITY && s.table.Keys == table.Keys + {next}
  }

  /** One handle is closed. */
  predicate Removed(next: nat, table: Table, connection: Value, s: Served) {
    && s.answer == Done && connection.Connection? && s.next == next
    && connection.handle in table && s.table.Keys == table.Keys - {connection.handle}
  }

  lemma OpeningEffect(next: nat, table: Table, socket: Socket, ready: bool)
    ensures var s := Opening(next, table, socket, ready); Kept(next, table, s) || Added(next, table, s)
  {
  }

  lemma AcceptEffect(next: nat, table: Table, listener: Value, arrived: bool)
    ensures var s := Serve(next, table, AcceptOn(listener, arrived)); Kept(next, table, s) || Added(next, table, s)
  {
    OpeningEffect(next, table, Stream, arrived);
    hide Opening, LookUpSocket, Added;
  }

  lemma CloseEffect(next: nat, table: Table, connection: Value)
    ensures var s := Serve(next, table, CloseOf(connection));
            Removed(next, table, connection, s) || (Kept(next, table, s) && s.answer.Denied?)
  {
    hide Opening;
    if connection.Connection? && connection.handle in table {
      assert (table - {connection.handle}).Keys == table.Keys - {connection.handle};
    }
  }

  lemma SetTimeoutEffect(next: nat, table: Table, connection: Value, milliseconds: nat, applied: bool)
    ensures Kept(next, table, Serve(next, table, SetTimeoutOf(connection, milliseconds, applied)))
  {
    hide Opening;
    if connection.Connection? && connection.handle in table {
      assert table[connection.handle := Listener(milliseconds)].Keys == table.Keys;
    }
  }

  lemma UseEffect(next: nat, table: Table, connection: Value)
    ensures Kept(next, table, Serve(next, table, Use(connection)))
  {
    hide Opening;
  }

  /** Every operation other than a successful close keeps the handles of its table or adds the next one. */
  lemma ServeEffect(next: nat, table: Table, request: Request)
    ensures var s := Serve(next, table, request);
            if request.CloseOf? then Removed(next, table, request.connection, s) || (Kept(next, table, s) && s.answer.Denied?)
            else Kept(next, table, s) || Added(next, table, s)
  {
    match request
    case AcceptOn(listener, arrived) => AcceptEffect(next, table, listener, arrived);
    case CloseOf(connection) => CloseEffect(next, table, connection);
    case SetTimeoutOf(connection, milliseconds, applied) => SetTimeoutEffect(next, table, connection, milliseconds, applied);
    case Use(connection) => UseEffect(next, table, connection);
    case ListenTcp(bound) =>
      OpeningEffect(next, table, Listener(DEFAULT_TIMEOUT), bound);
      hide Opening, Kept, Added;
    case BindUdpTo(bound) =>
      OpeningEffect(next, table, UnconnectedUdp, bound);
      hide Opening, Kept, Added;
    case ConnectTo(transport, protocol, attempts) =>
      OpeningEffect(next, table, if transport.Tcp? then Stream else ConnectedUdp, true in attempts);
      hide Opening, Added;
  }

  lemma KeysCount(table: Table)
    ensures |table| == |table.Keys|
  {
  }

  lemma KeptSound(p: Process, runtime: nat, s: Served)
    requires Sound(p) && runtime < |p.tables| && Kept(p.next, p.tables[runtime], s)
    ensures Sound(Process(s.next, p.tables[runtime := s.table], p.owners, p.closed))
  {
    var q := Process(s.next, p.tables[runtime := s.table], p.owners, p.closed);
    KeysCount(p.tables[runtime]);
    KeysCount(s.table);
    forall i | 0 <= i < |q.tables|
      ensures TableOk(q, i)
    {
      assert TableOk(p, i);
    }
  }

  lemma AddedSound(p: Process, runtime: nat, s: Served)
    requires Sound(p) && runtime < |p.tables| && Added(p.next, p.tables[runtime], s)
    ensures Sound(Process(s.next, p.tables[runtime := s.table], p.owners + [runtime], p.closed))
  {
    var q := Process(s.next, p.tables[runtime := s.table], p.owners + [runtime], p.closed);
    KeysCount(p.tables[runtime]);
    KeysCount(s.table);
    forall i | 0 <= i < |q.tables|
      ensures TableOk(q, i)
    {
      assert TableOk(p, i);
    }
  }

  lemma RemovedSound(p: Process, runtime: nat, connection: Value, s: Served)
    requires Sound(p) && runtime < |p.tables| && Removed(p.next, p.tables[runtime], connection, s)
    ensures Sound(Process(s.next, p.tables[runtime := s.table], p.owners, p.closed + {connection.handle}))
  {
    var q := Process(s.next, p.tables[runtime := s.table], p.owners, p.closed + {connection.handle});
    KeysCount(p.tables[runtime]);
    KeysCount(s.table);
    assert TableOk(p, runtime);
    forall i | 0 <= i < |q.tables|
      ensures TableOk(q, i)
    {
      assert TableOk(p, i);
    }
  }

  lemma ServeKeepsSound(p: Process, runtime: nat, request: Request)
    requires Sound(p) && runtime < |p.tables|
    ensures Sound(Happen(p, On(runtime, request)))
  {
    var table := p.tables[runtime];
    var s := Serve(p.next, table, request);
    ServeEffect(p.next, table, request);
    hide Serve, Sound, TableOk;
    if Kept(p.next, table, s) && !(request.CloseOf? && s.answer.Done?) {
      KeptSound(p, runtime, s);
    } else if request.CloseOf? {
      RemovedSound(p, runtime, request.connection, s);
    } else {
      AddedSound(p, runtime, s);
    }
  }

  lemma {:induction false} EveryHistoryIsSound(events: seq<Event>)
    ensures Sound(History(events))
  {
    if events != [] {
      var before := History(events[..|events| - 1]);
      EveryHistoryIsSound(events[..|events| - 1]);
      match events[|events| - 1]
      case Fork =>
        var after := History(events);
        forall i | 0 <= i < |after.tables|
          ensures TableOk(after, i)
        {
          if i < |before.tables| {
            assert TableOk(before, i);
          }
        }
      case On(runtime, request) =>
        if runtime < |before.tables| {
          ServeKeepsSound(before, runtime, request);
        }
    }
  }

  /** No table outgrows its capacity and no handle is valid in two runtimes. */
  lemma HandlesAreExclusive(events: seq<Event>, i: nat, j: nat, id: nat)
    requires i < |History(events).tables| && j < |History(events).tables|
    ensures |History(events).tables[i]| <= CAPACITY
    ensures id in History(events).tables[i] && id in History(events).tables[j] ==> i == j
  {
    EveryHistoryIsSound(events);
    assert TableOk(History(events), i) && TableOk(History(events), j);
  }

  lemma HappenGrows(p: Process, event: Event)
    ensures p.closed <= Happen(p, event).closed && p.next <= Happen(p, event).next
  {
    hide Serve;
    if event.On? && event.runtime < |p.tables| {
      ServeEffect(p.next, p.tables[event.runtime], event.request);
    }
  }

  lemma OneMore(events: seq<Event>, event: Event)
    ensures History(events + [event]) == Happen(History(events), event)
  {
    hide Happen;
    assert (events + [event])[..|events|] == events;
  }

  lemma {:induction false} ClosedGrows(events: seq<Event>, more: seq<Event>)
    ensures History(events).closed <= History(events + more).closed
    ensures History(events).next <= History(events + more).next
    decreases |more|
  {
    hide Happen, History;
    if more == [] {
      assert events + more == events;
    } else {
      var last := |more| - 1;
      var before := events + more[..last];
      ClosedGrows(events, more[..last]);
      OneMore(before, more[last]);
      HappenGrows(History(before), more[last]);
      assert before + [more[last]] == events + more;
    }
  }

  /** Once closed, a handle is refused by every runtime forever after. */
  lemma ClosedStaysClosed(events: seq<Event>, more: seq<Event>, id: nat, runtime: nat, request: Request)
    requires id in History(events).closed && runtime < |History(events + more).tables|
    requires request == Use(Connection(id)) || request == CloseOf(Connection(id))
    ensures var p := History(events + more);
            Serve(p.next, p.tables[runtime], request).answer == Denied(ClosedOrForeign)
  {
    ClosedGrows(events, more);
    EveryHistoryIsSound(events + more);
    assert TableOk(History(events + more), runtime);
  }

  /** Closing succeeds once: it records the handle as closed. */
  lemma CloseRecords(events: seq<Event>, runtime: nat, id: nat)
    requires runtime < |History(events).tables| && id in History(events).tables[runtime]
    ensures id in History(events + [On(runtime, CloseOf(Connection(id)))]).closed
  {
    var longer := events + [On(runtime, CloseOf(Connection(id)))];
    assert longer[..|longer| - 1] == events;
  }

  /** A handle issued later is larger than every handle issued before, whichever runtimes they belong to. */
  lemma HandlesIncrease(events: seq<Event>, runtime: nat, request: Request)
    requires runtime < |History(events).tables|
    ensures var p := History(events);
            var answer := Serve(p.next, p.tables[runtime], request).answer;
            && (answer.Opened? ==>
                  && answer.id == p.next == |p.owners| + 1
                  && (forall i, id | 0 <= i < |p.tables| && id in p.tables[i] :: id < answer.id)
                  && (forall id | id in p.closed :: id < answer.id))
            && (answer == Denied(IdsExhausted) ==> p.next == MAX_ID)
  {
    EveryHistoryIsSound(events);
    var p := History(events);
    forall i, id | 0 <= i < |p.tables| && id in p.tables[i]
      ensures id < p.next
    {
      assert TableOk(p, i);
    }
  }

  // ----- what opening asks for -----

  /** The socket a request opens, if it is one that opens sockets and it gets as far as that. */
  function Wanted(table: Table, request: Request): Option<Socket> {
    match request
    case ListenTcp(_) => Some(Listener(5000))
    case BindUdpTo(_) => Some(UnconnectedUdp)
    case ConnectTo(Tcp, false, _) => Some(Stream)
    case ConnectTo(Udp, false, _) => Some(ConnectedUdp)
    case AcceptOn(Connection(id), _) => if id in table && table[id].Listener? then Some(Stream) else None
    case _ => None
  }

  predicate Succeeds(request: Request) {
    match request
    case ListenTcp(bound) => bound
    case BindUdpTo(bound) => bound
    case AcceptOn(_, arrived) => arrived
    case ConnectTo(_, _, attempts) => exists i :: 0 <= i < |attempts| && attempts[i]
    case _ => false
  }

  /** Capacity is reached with 1024 sockets in the table, not before, and only opening looks at it. */
  lemma RefusedForCapacityIff(next: nat, table: Table, request: Request)
    ensures Serve(next, table, request).answer == Denied(CapacityReached) <==>
            |table| >= 1024 && (request.AcceptOn? || Wanted(table, request).Some?)
  {
  }

  /** A request for a socket is granted exactly when there is room, an id is left and the system agrees. */
  lemma OpenedIff(next: nat, table: Table, request: Request)
    ensures Serve(next, table, request).answer.Opened? <==>
            Wanted(table, request).Some? && |table| < 1024 && next < 0xffff_ffff_ffff_ffff && Succeeds(request)
  {
  }

  /** The socket that was asked for is added under the next id, and a refusal changes nothing. */
  lemma OpensWhatWasAsked(next: nat, table: Table, request: Request)
    requires Wanted(table, request).Some?
    ensures var s := Serve(next, table, request);
            if s.answer.Opened? then s == Served(next + 1, table[next := Wanted(table, request).value], Opened(next))
            else s.next == next && s.table == table
  {
  }

  /** A handle is refused exactly when it is none, or not one of this table. */
  lemma UsableIff(next: nat, table: Table, connection: Value)
    ensures Serve(next, table, Use(connection)) ==
            Served(next, table,
                   if !connection.Connection? then Denied(NotAHandle)
                   else if connection.handle !in table then Denied(ClosedOrForeign) else Done)
  {
  }

  /** Timeouts run from a millisecond to a day; a listener keeps its own, the system those of the other sockets. */
  lemma TimeoutsExact(next: nat, table: Table, id: nat, milliseconds: nat, applied: bool)
    requires id in table
    ensures Serve(next, table, SetTimeoutOf(Connection(id), milliseconds, applied)) ==
            if milliseconds == 0 || milliseconds > 24 * 60 * 60 * 1000 then Served(next, table, Denied(TimeoutOutOfRange))
            else if table[id].Listener? then Served(next, table[id := Listener(milliseconds)], Done)
            else Served(next, table, if applied then Done else Denied(SystemError))
  {
  }

  /** Closing takes the handle, and no other, out of the table. */
  lemma CloseRemoves(next: nat, table: Table, id: nat)
    requires id in table
    ensures var s := Serve(next, table, CloseOf(Connection(id)));
            && s.answer == Done && s.next == next && id !in s.table
            && forall other | other in table && other != id :: other in s.table && s.table[other] == table[other]
  {
  }
}
