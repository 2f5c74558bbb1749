/** The shared key/value store of the application and the real-time channel
    that announces new calls. Every screen reads the store directly; the store
    is the only state shared between sessions. */
module Store {
  import opened Base
  import opened Seqs
  import opened Types
  import opened Constants

  /** The JSON values the application writes under its keys. */
  datatype Value =
    | Null
    | RoomList(rooms: seq<Room>)
    | UserList(users: seq<User>)
    | CallList(calls: seq<PatientCall>)
    | PatientList(patients: seq<WaitingPatient>)
    | CallRecord(call: PatientCall)
    | UserRecord(user: User)

  /** The text held under a key, up to JSON encoding: the encoding of a value,
      the empty string, or text that does not parse. */
  datatype Stored = Text(value: Value) | EmptyText | Garbage

  type Entries = map<Key, Stored>

  /** Why a read or handler stops: `JSON.parse` threw, the text decoded to
      the wrong kind of value, or a property of `undefined` was read. */
  datatype Fault = ParseFailure(key: Key) | ShapeMismatch(key: Key) | UndefinedUser

  /** Whether a state-changing step ran to its end or stopped on a fault. */
  datatype Outcome = Pass | Fail(fault: Fault)

  /** The history keeps the last 100 calls. */
  const HistoryLimit: nat := 100

  const NewCallEvent := "new_call"

  const InitialRooms: seq<Room> := [
    Room("r1", "01", "Dr. Lucas Silva", "Cardiologia", true),
    Room("r2", "02", "Dra. Ana Maria", "Clínica Geral", true)
  ]

  const InitialUsers: seq<User> := [
    User("u1", "admin", Admin, "Administrador", true, None),
    User("u2", "recepcao", Reception, "Recepção Central", true, None),
    User("u3", "consultorio1", Clinic, "Atendimento R01", true, Some("r1"))
  ]

  // ---------------------------------------------------------------------------
  // Reads

  /** `getStorage(key, initial)`: a missing key or an empty string gives the
      caller's default, any other text is parsed, and text that does not parse
      is a fault; there is no fallback for it. */
  function GetStorage(entries: Entries, key: Key, initial: Value): (r: Result<Value, Fault>)
    ensures key !in entries || entries[key] == EmptyText ==> r == Success(initial)
    ensures key in entries && entries[key].Text? ==> r == Success(entries[key].value)
    ensures r.Failure? <==> key in entries && entries[key] == Garbage
    ensures r.Failure? ==> r.error == ParseFailure(key)
  {
    if key !in entries then Success(initial)
    else match entries[key]
      case EmptyText => Success(initial)
      case Garbage => Failure(ParseFailure(key))
      case Text(v) => Success(v)
  }

  /** `getRooms()`: the stored rooms, or the two seed rooms when none are stored. */
  function GetRooms(entries: Entries): (r: Result<seq<Room>, Fault>)
    ensures Rooms !in entries || entries[Rooms] == EmptyText ==> r == Success(InitialRooms)
    ensures r.Success? <==> (Rooms !in entries || entries[Rooms] == EmptyText
                             || (entries[Rooms].Text? && entries[Rooms].value.RoomList?))
    ensures r.Success? && Rooms in entries && entries[Rooms].Text? ==> r.value == entries[Rooms].value.rooms
  {
    match GetStorage(entries, Rooms, RoomList(InitialRooms))
    case Success(RoomList(rooms)) => Success(rooms)
    case Success(_) => Failure(ShapeMismatch(Rooms))
    case Failure(e) => Failure(e)
  }

  /** `getUsers()`: the stored users, or the three seed accounts. */
  function GetUsers(entries: Entries): (r: Result<seq<User>, Fault>)
    ensures Users !in entries || entries[Users] == EmptyText ==> r == Success(InitialUsers)
    ensures r.Success? <==> (Users !in entries || entries[Users] == EmptyText
                             || (entries[Users].Text? && entries[Users].value.UserList?))
    ensures r.Success? && Users in entries && entries[Users].Text? ==> r.value == entries[Users].value.users
  {
    match GetStorage(entries, Users, UserList(InitialUsers))
    case Success(UserList(users)) => Success(users)
    case Success(_) => Failure(ShapeMismatch(Users))
    case Failure(e) => Failure(e)
  }

  /** `getHistory()`: the stored calls, newest first, or none. */
  function GetHistory(entries: Entries): (r: Result<seq<PatientCall>, Fault>)
    ensures History !in entries || entries[History] == EmptyText ==> r == Success([])
    ensures r.Success? <==> (History !in entries || entries[History] == EmptyText
                             || (entries[History].Text? && entries[History].value.CallList?))
    ensures r.Success? && History in entries && entries[History].Text? ==> r.value == entries[History].value.calls
  {
    match GetStorage(entries, History, CallList([]))
    case Success(CallList(calls)) => Success(calls)
    case Success(_) => Failure(ShapeMismatch(History))
    case Failure(e) => Failure(e)
  }

  /** `getLatestCall()`: the stored call, or `null`. */
  function GetLatestCall(entries: Entries): (r: Result<Option<PatientCall>, Fault>)
    ensures LatestCall !in entries || entries[LatestCall] == EmptyText ==> r == Success(None)
    ensures LatestCall in entries && entries[LatestCall] == Text(Null) ==> r == Success(None)
    ensures r.Success? <==> (LatestCall !in entries || entries[LatestCall] == EmptyText
                             || (entries[LatestCall].Text?
                                 && (entries[LatestCall].value.Null? || entries[LatestCall].value.CallRecord?)))
    ensures r.Failure? && entries[LatestCall] == Garbage ==> r.error == ParseFailure(LatestCall)
    ensures (r.Success? && r.value.Some?) <==>
              (LatestCall in entries && entries[LatestCall].Text? && entries[LatestCall].value.CallRecord?)
    ensures r.Success? && r.value.Some? ==> r.value.value == entries[LatestCall].value.call
  {
    match GetStorage(entries, LatestCall, Null)
    case Success(Null) => Success(None)
    case Success(CallRecord(c)) => Success(Some(c))
    case Success(_) => Failure(ShapeMismatch(LatestCall))
    case Failure(e) => Failure(e)
  }

  /** The waiting list. Its reader is not defined in store.ts; it is ASSUMED to
      read the WAITING_LIST key with an empty default, like the other readers. */
  function GetWaitingList(entries: Entries): (r: Result<seq<WaitingPatient>, Fault>)
    ensures WaitingList !in entries || entries[WaitingList] == EmptyText ==> r == Success([])
    ensures r.Success? <==> (WaitingList !in entries || entries[WaitingList] == EmptyText
                             || (entries[WaitingList].Text? && entries[WaitingList].value.PatientList?))
    ensures r.Success? && WaitingList in entries && entries[WaitingList].Text? ==>
              r.value == entries[WaitingList].value.patients
  {
    match GetStorage(entries, WaitingList, PatientList([]))
    case Success(PatientList(ps)) => Success(ps)
    case Success(_) => Failure(ShapeMismatch(WaitingList))
    case Failure(e) => Failure(e)
  }

  // ---------------------------------------------------------------------------
  // Writes, as functions of the whole store

  /** `a` and `b` hold the same text under every key outside `changed`. */
  ghost predicate AgreeExcept(a: Entries, b: Entries, changed: set<Key>)
  {
    forall k :: k !in changed ==> (k in a <==> k in b) && (k in a ==> a[k] == b[k])
  }

  /** `setStorage(key, v)`: a full overwrite of one key; reading it back gives
      `v` whatever the default, and every other key is untouched. */
  function Put(entries: Entries, key: Key, v: Value): (r: Entries)
    ensures forall d :: GetStorage(r, key, d) == Success(v)
    ensures AgreeExcept(entries, r, {key})
  {
    entries[key := Text(v)]
  }

  /** The history after recording `call`: it goes in front and only the
      oldest entries beyond the limit are dropped. */
  function RecordCall(call: PatientCall, history: seq<PatientCall>): (r: seq<PatientCall>)
    ensures |r| == Min(|history| + 1, HistoryLimit)
    ensures r[0] == call
    ensures r[1..] == history[..Min(|history|, HistoryLimit - 1)]
  {
    PushBounded(call, history, HistoryLimit)
  }

  /** The store after `saveCall(call)`, or the fault reading the history
      raised. Only HISTORY and LATEST_CALL change. */
  function SaveCallEntries(entries: Entries, call: PatientCall): (r: Result<Entries, Fault>)
    ensures r.Failure? <==> GetHistory(entries).Failure?
    ensures r.Failure? ==> r.error == GetHistory(entries).error
    ensures r.Success? ==> GetHistory(r.value) == Success(RecordCall(call, GetHistory(entries).value))
    ensures r.Success? ==> GetLatestCall(r.value) == Success(Some(call))
    ensures r.Success? ==> AgreeExcept(entries, r.value, {History, LatestCall})
  {
    match GetHistory(entries)
    case Failure(e) => Failure(e)
    case Success(h) =>
      Success(Put(Put(entries, History, CallList(RecordCall(call, h))), LatestCall, CallRecord(call)))
  }

  /** The calls recorded by saving `calls` in order, one after another. */
  function Replay(history: seq<PatientCall>, calls: seq<PatientCall>): seq<PatientCall>
    decreases |calls|
  {
    if calls == [] then history else Replay(RecordCall(calls[0], history), calls[1..])
  }

  /** Saving a run of calls leaves them newest first in front of the old
      history, limited to the last 100 calls. */
  lemma {:induction false} ReplayNewestFirst(history: seq<PatientCall>, calls: seq<PatientCall>)
    requires |history| <= HistoryLimit
    ensures Replay(history, calls) == Take(Reverse(calls) + history, HistoryLimit)
    decreases |calls|
  {
    if calls == [] {
      assert Reverse(calls) + history == history;
    } else {
      var c, rest := calls[0], calls[1..];
      var h1 := RecordCall(c, history);
      assert h1 == Take([c] + history, HistoryLimit);
      ReplayNewestFirst(h1, rest);
      TakeOfTake(Reverse(rest), [c] + history, HistoryLimit);
      assert Reverse(rest) + ([c] + history) == (Reverse(rest) + [c]) + history;
      calc {
        Replay(history, calls);
        Replay(h1, rest);
        Take(Reverse(rest) + h1, HistoryLimit);
        Take(Reverse(rest) + ([c] + history), HistoryLimit);
        Take((Reverse(rest) + [c]) + history, HistoryLimit);
        { assert Reverse(calls) == Reverse(rest) + [c]; }
        Take(Reverse(calls) + history, HistoryLimit);
      }
    }
  }

  /** A 101st call evicts exactly the oldest one, and the latest-call
      pointer is the new call. */
  lemma SaveEvictsOldest(entries: Entries, call: PatientCall)
    requires GetHistory(entries).Success? && |GetHistory(entries).value| == HistoryLimit
    ensures SaveCallEntries(entries, call).Success?
    ensures var h := GetHistory(entries).value;
            var after := GetHistory(SaveCallEntries(entries, call).value).value;
            after == [call] + h[..HistoryLimit - 1]
    ensures GetLatestCall(SaveCallEntries(entries, call).value) == Success(Some(call))
  {
    var after := GetHistory(SaveCallEntries(entries, call).value).value;
    assert after == [after[0]] + after[1..];
  }

  /** `removeFromQueue(id)` is not defined in store.ts. It is ASSUMED to be a
      remove-by-id: every entry with that id goes, the rest keep their order. */
  function WithoutPatient(queue: seq<WaitingPatient>, id: string): (r: seq<WaitingPatient>)
    ensures forall p :: p in r ==> p in queue && p.id != id
    ensures forall p :: p in queue && p.id != id ==> p in r
  {
    Filter(queue, OtherThan(id))
  }

  function OtherThan(id: string): WaitingPatient -> bool
  {
    (p: WaitingPatient) => p.id != id
  }

  /** Removal keeps the queue's order: it works part by part. */
  lemma {:induction false} WithoutPatientKeepsOrder(a: seq<WaitingPatient>, b: seq<WaitingPatient>, id: string)
    ensures WithoutPatient(a + b, id) == WithoutPatient(a, id) + WithoutPatient(b, id)
  {
    FilterAppend(a, b, OtherThan(id));
  }

  /** Removing the patient at the head of the queue leaves the rest of the
      queue exactly, when no one else shares that id. */
  lemma RemoveHead(p: WaitingPatient, rest: seq<WaitingPatient>)
    requires forall q :: q in rest ==> q.id != p.id
    ensures WithoutPatient([p] + rest, p.id) == rest
  {
    WithoutPatientKeepsOrder([p], rest, p.id);
    assert [p][1..] == [];
    FilterKeepsAll(rest, OtherThan(p.id));
  }

  // ---------------------------------------------------------------------------
  // The real-time channel

  /** The envelope posted on the channel. */
  datatype Message = Message(event: string, data: Value)

  /** One `on(event, callback)` registration; callbacks are named by a number. */
  datatype Listener = Listener(event: string, handler: nat)

  /** One callback run, with the payload it is given. */
  datatype Invocation = Invocation(handler: nat, data: Value)

  /** The callbacks a message runs in a session with these registrations: each
      listener checks the event name and passes `data` on unchanged. */
  function Dispatch(listeners: seq<Listener>, msg: Message): (r: seq<Invocation>)
    ensures |r| <= |listeners|
    ensures forall inv :: inv in r ==> inv.data == msg.data && Listener(msg.event, inv.handler) in listeners
    ensures forall l :: l in listeners && l.event == msg.event ==> Invocation(l.handler, msg.data) in r
  {
    if listeners == [] then []
    else
      (if listeners[0].event == msg.event then [Invocation(listeners[0].handler, msg.data)] else [])
      + Dispatch(listeners[1..], msg)
  }

  /** Callbacks run in registration order: a later registration only adds
      runs after the earlier ones. */
  lemma {:induction false} DispatchInOrder(earlier: seq<Listener>, later: seq<Listener>, msg: Message)
    ensures Dispatch(earlier + later, msg) == Dispatch(earlier, msg) + Dispatch(later, msg)
  {
    if earlier == [] {
      assert earlier + later == later;
    } else {
      var l := earlier[0];
      var head := if l.event == msg.event then [Invocation(l.handler, msg.data)] else [];
      assert (earlier + later)[0] == l && (earlier + later)[1..] == earlier[1..] + later;
      DispatchInOrder(earlier[1..], later, msg);
      calc {
        Dispatch(earlier + later, msg);
        head + Dispatch(earlier[1..] + later, msg);
        head + (Dispatch(earlier[1..], msg) + Dispatch(later, msg));
        (head + Dispatch(earlier[1..], msg)) + Dispatch(later, msg);
      }
    }
  }

  /** One session's `realTime` object: its registrations and what it has
      posted. Posting does not run this object's own listeners; another
      session receives the posted message through `Receive`. */
  class RealTimeEmitter {
    var listeners: seq<Listener>
    var posted: seq<Message>

    constructor ()
      ensures listeners == [] && posted == []
    {
      listeners, posted := [], [];
    }

    /** `emit(event, data)`. */
    method Emit(event: string, data: Value)
      modifies this
      ensures posted == old(posted) + [Message(event, data)]
      ensures listeners == old(listeners)
    {
      posted := posted + [Message(event, data)];
    }

    /** `on(event, callback)`. */
    method On(event: string, handler: nat)
      modifies this
      ensures listeners == old(listeners) + [Listener(event, handler)]
      ensures posted == old(posted)
    {
      listeners := listeners + [Listener(event, handler)];
    }

    /** The callbacks that a message posted by another session runs here. */
    /** The callbacks a message posted by another session runs here: every
        registration for its event, and nothing when there is none. */
    function Receive(msg: Message): (r: seq<Invocation>)
      reads this
      ensures forall l :: l in listeners && l.event == msg.event ==> Invocation(l.handler, msg.data) in r
      ensures (forall l :: l in listeners ==> l.event != msg.event) ==> r == []
    {
      var runs := Dispatch(listeners, msg);
      assert runs == [] || runs[0] in runs;
      runs
    }
  }

  // ---------------------------------------------------------------------------
  // The store as state

  /** The browser's local storage, shared by all sessions. `writes` records the
      keys written, in order. */
  class Storage {
    var entries: Entries
    ghost var writes: seq<Key>

    constructor (initial: Entries)
      ensures entries == initial && writes == []
    {
      entries := initial;
      writes := [];
    }

    /** `localStorage.setItem(key, text)`. */
    method SetItem(key: Key, text: Stored)
      modifies this
      ensures entries == old(entries)[key := text]
      ensures writes == old(writes) + [key]
    {
      entries := entries[key := text];
      writes := writes + [key];
    }

    /** `localStorage.removeItem(key)`. */
    method RemoveItem(key: Key)
      modifies this
      ensures entries == old(entries) - {key}
      ensures writes == old(writes) + [key]
    {
      entries := entries - {key};
      writes := writes + [key];
    }

    /** `setStorage(key, data)`. */
    method SetStorage(key: Key, data: Value)
      modifies this
      ensures entries == Put(old(entries), key, data)
      ensures writes == old(writes) + [key]
    {
      SetItem(key, Text(data));
    }

    /** `setUsers(users)`. */
    method SetUsers(users: seq<User>)
      modifies this
      ensures entries == Put(old(entries), Users, UserList(users))
      ensures GetUsers(entries) == Success(users)
      ensures writes == old(writes) + [Users]
    {
      SetStorage(Users, UserList(users));
    }
  }

  /** `saveCall(call)`: read the history, write it back with the call in
      front, point LATEST_CALL at the call, and post one `new_call` message
      carrying it. A history that cannot be read stops it before any write. */
  method SaveCall(store: Storage, realTime: RealTimeEmitter, call: PatientCall) returns (outcome: Outcome)
    modifies store, realTime
    ensures realTime.listeners == old(realTime.listeners)
    ensures SaveCallEntries(old(store.entries), call).Failure? ==>
              outcome == Fail(SaveCallEntries(old(store.entries), call).error)
              && store.entries == old(store.entries) && store.writes == old(store.writes)
              && realTime.posted == old(realTime.posted)
    ensures SaveCallEntries(old(store.entries), call).Success? ==>
              outcome == Pass
              && store.entries == SaveCallEntries(old(store.entries), call).value
              && store.writes == old(store.writes) + [History, LatestCall]
              && realTime.posted == old(realTime.posted) + [Message(NewCallEvent, CallRecord(call))]
  {
    var history := GetHistory(store.entries);
    if history.Failure? {
      return Fail(history.error);
    }
    var newHistory := RecordCall(call, history.value);
    store.SetStorage(History, CallList(newHistory));
    store.SetStorage(LatestCall, CallRecord(call));
    realTime.Emit(NewCallEvent, CallRecord(call));
    outcome := Pass;
  }

  /** The assumed `removeFromQueue(id)`: rewrite WAITING_LIST without the entry. */
  method RemoveFromQueue(store: Storage, id: string) returns (outcome: Outcome)
    modifies store
    ensures GetWaitingList(old(store.entries)).Failure? ==>
              outcome == Fail(GetWaitingList(old(store.entries)).error)
              && store.entries == old(store.entries) && store.writes == old(store.writes)
    ensures GetWaitingList(old(store.entries)).Success? ==>
              outcome == Pass
              && store.entries == Put(old(store.entries), WaitingList,
                                      PatientList(WithoutPatient(GetWaitingList(old(store.entries)).value, id)))
              && store.writes == old(store.writes) + [WaitingList]
  {
    var queue := GetWaitingList(store.entries);
    if queue.Failure? {
      return Fail(queue.error);
    }
    store.SetStorage(WaitingList, PatientList(WithoutPatient(queue.value, id)));
    outcome := Pass;
  }
}
