/** The physician's screen: which room it serves, that room's queue and
    recent calls, and the "call next" and "recall" actions. */
module ClinicPage {
  import opened Base
  import opened Seqs
  import opened Types
  import opened Constants
  import opened Store

  /** The room a physician account serves; an absent or empty `roomId` means "r1". */
  function RoomIdOf(user: User): (id: string)
    ensures user.roomId.Some? && user.roomId.value != "" ==> id == user.roomId.value
    ensures user.roomId.None? || user.roomId.value == "" ==> id == "r1"
  {
    if user.roomId.Some? && user.roomId.value != "" then user.roomId.value else "r1"
  }

  /** The room shown: the first with the wanted id, else the first room at
      all, else none. */
  function ResolveRoom(allRooms: seq<Room>, roomId: string): (r: Option<Room>)
    ensures RoomWithId(allRooms, roomId).Some? ==> r == RoomWithId(allRooms, roomId) && r.value.id == roomId
    ensures RoomWithId(allRooms, roomId).None? && allRooms != [] ==> r == Some(allRooms[0])
    ensures r.None? <==> allRooms == []
  {
    match RoomWithId(allRooms, roomId)
    case Some(room) => Some(room)
    case None => if allRooms != [] then Some(allRooms[0]) else None
  }

  function TargetsRoom(roomId: string): WaitingPatient -> bool
  {
    (p: WaitingPatient) => p.targetRoomId == roomId
  }

  function MadeTo(roomId: string): PatientCall -> bool
  {
    (c: PatientCall) => c.roomId == roomId
  }

  /** The waiting-list entries for one room, in arrival order. */
  function QueueFor(queue: seq<WaitingPatient>, roomId: string): (r: seq<WaitingPatient>)
    ensures forall p :: p in r ==> p in queue && p.targetRoomId == roomId
    ensures forall p :: p in queue && p.targetRoomId == roomId ==> p in r
  {
    Filter(queue, TargetsRoom(roomId))
  }

  /** The calls made to one room, newest first. */
  function CallsFor(history: seq<PatientCall>, roomId: string): (r: seq<PatientCall>)
    ensures forall c :: c in r ==> c in history && c.roomId == roomId
    ensures forall c :: c in history && c.roomId == roomId ==> c in r
  {
    Filter(history, MadeTo(roomId))
  }

  /** The room's calls keep the history's newest-first order: a call to the
      room sits between the room's calls in the newer and in the older part. */
  lemma CallsKeepNewestFirst(newer: seq<PatientCall>, c: PatientCall,
                             older: seq<PatientCall>, roomId: string)
    requires c.roomId == roomId
    ensures CallsFor(newer + [c] + older, roomId) == CallsFor(newer, roomId) + [c] + CallsFor(older, roomId)
  {
    var keep := MadeTo(roomId);
    FilterAppend(newer + [c], older, keep);
    FilterAppend(newer, [c], keep);
    FilterKeepsOne(c, keep);
  }

  /** `myHistory`: the room's ten newest calls, newest first. */
  function HistoryFor(history: seq<PatientCall>, roomId: string): (r: seq<PatientCall>)
    ensures |r| <= 10
    ensures forall c :: c in r ==> c in history && c.roomId == roomId
    ensures |r| == Min(10, |CallsFor(history, roomId)|)
    ensures forall i :: 0 <= i < |r| ==> r[i] == CallsFor(history, roomId)[i]
  {
    Take(CallsFor(history, roomId), 10)
  }

  /** A call just saved heads its room's list on the physician's screen, and
      the room's earlier calls follow it. */
  lemma NewCallHeadsRoomHistory(c: PatientCall, history: seq<PatientCall>)
    ensures HistoryFor(RecordCall(c, history), c.roomId)[0] == c
    ensures CallsFor(RecordCall(c, history), c.roomId)
            == [c] + CallsFor(RecordCall(c, history)[1..], c.roomId)
  {
    var h := RecordCall(c, history);
    assert h == [] + [c] + h[1..];
    CallsKeepNewestFirst([], c, h[1..], c.roomId);
  }

  /** `lastCall`: the room's newest call, or none. */
  function LastCallFor(history: seq<PatientCall>, roomId: string): (r: Option<PatientCall>)
    ensures r.None? <==> forall c :: c in history ==> c.roomId != roomId
    ensures r.Some? ==> r.value in history && r.value.roomId == roomId
  {
    var mine := CallsFor(history, roomId);
    if mine == [] then None else Some(mine[0])
  }

  /** The last call is the newest call to the room in the whole history, and
      it heads the room's list. */
  lemma LastCallIsNewest(history: seq<PatientCall>, roomId: string)
    ensures LastCallFor(history, roomId) == Find(history, MadeTo(roomId))
    ensures LastCallFor(history, roomId).Some? ==> LastCallFor(history, roomId).value == HistoryFor(history, roomId)[0]
  {
    FindIsFirstKept(history, MadeTo(roomId));
  }

  /** The room's queue keeps arrival order and ignores priority: a patient for
      the room that arrives after `before` and before `after` sits between
      their entries. */
  lemma QueueKeepsArrivalOrder(before: seq<WaitingPatient>, p: WaitingPatient,
                               after: seq<WaitingPatient>, roomId: string)
    requires p.targetRoomId == roomId
    ensures QueueFor(before + [p] + after, roomId) == QueueFor(before, roomId) + [p] + QueueFor(after, roomId)
  {
    var keep := TargetsRoom(roomId);
    FilterAppend(before + [p], after, keep);
    FilterAppend(before, [p], keep);
    FilterKeepsOne(p, keep);
  }

  /** The patient called next is the earliest arrival for the room, whatever
      the priorities of those queued behind. */
  lemma NextIsEarliestArrival(before: seq<WaitingPatient>, p: WaitingPatient,
                              after: seq<WaitingPatient>, roomId: string)
    requires p.targetRoomId == roomId
    requires forall q :: q in before ==> q.targetRoomId != roomId
    ensures QueueFor(before + [p] + after, roomId)[0] == p
  {
    QueueKeepsArrivalOrder(before, p, after, roomId);
    var mine := QueueFor(before, roomId);
    if mine != [] {
      assert mine[0] in mine;
    }
  }

  /** The call announced for a queued patient: the patient's name and ticket,
      the shown room's id, number and physician. */
  function CallFromQueue(patient: WaitingPatient, room: Room, id: string, timestamp: string): (c: PatientCall)
    ensures c.patientName == patient.name && c.ticketNumber == Some(patient.ticketNumber)
    ensures c.roomId == room.id && c.roomName == room.number && c.doctorName == room.doctorName
    ensures c.id == id && c.timestamp == timestamp
  {
    PatientCall(id, patient.name, Some(patient.ticketNumber), room.id, timestamp, room.number, room.doctorName)
  }

  /** A recall: the same announcement under a new id and time. */
  function Recall(call: PatientCall, id: string, timestamp: string): (r: PatientCall)
    ensures r.id == id && r.timestamp == timestamp
    ensures r.patientName == call.patientName && r.ticketNumber == call.ticketNumber && r.roomId == call.roomId
    ensures r.roomName == call.roomName && r.doctorName == call.doctorName
    ensures r == call <==> id == call.id && timestamp == call.timestamp
  {
    call.(id := id, timestamp := timestamp)
  }

  /** When the account's room is missing and the screen falls back to another
      room, calls made from it go to the fallback room and never show up
      in the physician's own list. */
  lemma FallbackRoomCallsElsewhere(user: User, allRooms: seq<Room>, patient: WaitingPatient,
                                   history: seq<PatientCall>, id: string, timestamp: string)
    requires RoomWithId(allRooms, RoomIdOf(user)).None? && allRooms != []
    ensures var room := ResolveRoom(allRooms, RoomIdOf(user)).value;
            var c := CallFromQueue(patient, room, id, timestamp);
            c.roomId != RoomIdOf(user) && c !in CallsFor(RecordCall(c, history), RoomIdOf(user))
  {
    assert allRooms[0] in allRooms;
  }

  class ClinicDashboard {
    const user: User
    var room: Option<Room>
    var myQueue: seq<WaitingPatient>
    var myHistory: seq<PatientCall>
    var lastCall: Option<PatientCall>

    constructor (user: User)
      ensures this.user == user
      ensures room == None && myQueue == [] && myHistory == [] && lastCall == None
    {
      this.user := user;
      room, myQueue, myHistory, lastCall := None, [], [], None;
    }

    /** `loadData()`: read rooms, waiting list and history, in that order,
        and set the derived view. A read that faults stops it there. */
    method LoadData(store: Storage) returns (outcome: Outcome)
      modifies this
      ensures GetRooms(store.entries).Failure? ==>
                outcome == Fail(GetRooms(store.entries).error) && unchanged(this)
      ensures GetRooms(store.entries).Success? ==>
                room == ResolveRoom(GetRooms(store.entries).value, RoomIdOf(user))
      ensures GetRooms(store.entries).Success? && GetWaitingList(store.entries).Failure? ==>
                outcome == Fail(GetWaitingList(store.entries).error)
                && myQueue == old(myQueue) && myHistory == old(myHistory) && lastCall == old(lastCall)
      ensures GetRooms(store.entries).Success? && GetWaitingList(store.entries).Success? ==>
                myQueue == QueueFor(GetWaitingList(store.entries).value, RoomIdOf(user))
      ensures GetRooms(store.entries).Success? && GetWaitingList(store.entries).Success?
              && GetHistory(store.entries).Failure? ==>
                outcome == Fail(GetHistory(store.entries).error)
                && myHistory == old(myHistory) && lastCall == old(lastCall)
      ensures GetRooms(store.entries).Success? && GetWaitingList(store.entries).Success?
              && GetHistory(store.entries).Success? ==>
                outcome == Pass
                && myHistory == HistoryFor(GetHistory(store.entries).value, RoomIdOf(user))
                && lastCall == LastCallFor(GetHistory(store.entries).value, RoomIdOf(user))
    {
      var allRooms := GetRooms(store.entries);
      if allRooms.Failure? {
        return Fail(allRooms.error);
      }
      var roomId := RoomIdOf(user);
      room := ResolveRoom(allRooms.value, roomId);
      var fullQueue := GetWaitingList(store.entries);
      if fullQueue.Failure? {
        return Fail(fullQueue.error);
      }
      myQueue := QueueFor(fullQueue.value, roomId);
      var fullHistory := GetHistory(store.entries);
      if fullHistory.Failure? {
        return Fail(fullHistory.error);
      }
      myHistory := HistoryFor(fullHistory.value, roomId);
      lastCall := LastCallFor(fullHistory.value, roomId);
      outcome := Pass;
    }

    /** `handleCallNext()`: announce the head of this screen's queue in the
        shown room, then remove that patient from the waiting list. The
        screen's own fields are not touched; they change only on the next
        `LoadData`. */
    method HandleCallNext(store: Storage, realTime: RealTimeEmitter, id: string, timestamp: string)
      returns (outcome: Outcome)
      modifies store, realTime
      ensures realTime.listeners == old(realTime.listeners)
      ensures myQueue == [] || room.None? ==>
                outcome == Pass && store.entries == old(store.entries) && store.writes == old(store.writes)
                && realTime.posted == old(realTime.posted)
      ensures myQueue != [] && room.Some? ==>
                var call := CallFromQueue(myQueue[0], room.value, id, timestamp);
                var saved := SaveCallEntries(old(store.entries), call);
                (saved.Failure? ==>
                   outcome == Fail(saved.error) && store.entries == old(store.entries)
                   && store.writes == old(store.writes) && realTime.posted == old(realTime.posted))
                && (saved.Success? ==>
                   realTime.posted == old(realTime.posted) + [Message(NewCallEvent, CallRecord(call))]
                   && (GetWaitingList(saved.value).Failure? ==>
                         outcome == Fail(GetWaitingList(saved.value).error)
                         && store.entries == saved.value
                         && store.writes == old(store.writes) + [History, LatestCall])
                   && (GetWaitingList(saved.value).Success? ==>
                         outcome == Pass
                         && store.entries == Put(saved.value, WaitingList,
                                                 PatientList(WithoutPatient(GetWaitingList(saved.value).value, myQueue[0].id)))
                         && store.writes == old(store.writes) + [History, LatestCall, WaitingList]))
    {
      if myQueue == [] || room.None? {
        return Pass;
      }
      var nextPatient := myQueue[0];
      var newCall := CallFromQueue(nextPatient, room.value, id, timestamp);
      outcome := SaveCall(store, realTime, newCall);
      if outcome.Fail? {
        return;
      }
      outcome := RemoveFromQueue(store, nextPatient.id);
    }

    /** `handleRecall(call)`: announce `call` again under a new id and time;
        the waiting list is not touched. */
    method HandleRecall(store: Storage, realTime: RealTimeEmitter, call: PatientCall, id: string, timestamp: string)
      returns (outcome: Outcome)
      modifies store, realTime
      ensures realTime.listeners == old(realTime.listeners)
      ensures var saved := SaveCallEntries(old(store.entries), Recall(call, id, timestamp));
              (saved.Failure? ==> outcome.Fail? && store.entries == old(store.entries)
                                  && realTime.posted == old(realTime.posted))
              && (saved.Success? ==>
                    outcome == Pass && store.entries == saved.value
                    && realTime.posted == old(realTime.posted)
                                          + [Message(NewCallEvent, CallRecord(Recall(call, id, timestamp)))])
      ensures AgreeExcept(old(store.entries), store.entries, {History, LatestCall})
    {
      outcome := SaveCall(store, realTime, Recall(call, id, timestamp));
    }
  }

  /** Two "call next" clicks on one screen with no reload in between: the
      screen's queue is not refreshed by its own writes (the channel does not
      deliver to the session that posts), so both announce the same patient. */
  method CallNextTwice(dash: ClinicDashboard, store: Storage, realTime: RealTimeEmitter,
                       id1: string, ts1: string, id2: string, ts2: string)
    requires dash.myQueue != [] && dash.room.Some?
    requires GetHistory(store.entries).Success? && GetWaitingList(store.entries).Success?
    modifies store, realTime
    ensures |realTime.posted| == |old(realTime.posted)| + 2
    ensures realTime.posted[|realTime.posted| - 2].data == CallRecord(CallFromQueue(dash.myQueue[0], dash.room.value, id1, ts1))
    ensures realTime.posted[|realTime.posted| - 1].data == CallRecord(CallFromQueue(dash.myQueue[0], dash.room.value, id2, ts2))
  {
    var first := dash.HandleCallNext(store, realTime, id1, ts1);
    assert GetHistory(store.entries).Success?;
    var second := dash.HandleCallNext(store, realTime, id2, ts2);
  }
}
