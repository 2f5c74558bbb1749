/** The reception desk: a form that announces a patient in a chosen room,
    and the desk's own list of its recent calls. */
module ReceptionPage {
  import opened Base
  import opened Seqs
  import opened Types
  import opened Store

  const UnknownRoom := "?"
  const UnknownDoctor := "Desconhecido"
  const RecentLimit: nat := 5

  const IsActive: Room -> bool := (r: Room) => r.active

  /** The rooms the form offers: exactly the active ones, in stored order. */
  function SelectableRooms(allRooms: seq<Room>): (r: seq<Room>)
    ensures forall room :: room in r <==> room in allRooms && room.active
  {
    Filter(allRooms, IsActive)
  }

  /** The call the form builds. An empty ticket is no ticket; a room that is
      not among the offered ones, or that has an empty number or physician,
      shows the placeholders, while the call still goes to the chosen id. */
  function BuildCall(patientName: string, ticketNumber: string, selectedRoomId: string,
                     rooms: seq<Room>, id: string, timestamp: string): (c: PatientCall)
    ensures c.patientName == patientName && c.roomId == selectedRoomId
    ensures c.id == id && c.timestamp == timestamp
    ensures c.ticketNumber.None? <==> ticketNumber == ""
    ensures c.ticketNumber.Some? ==> c.ticketNumber.value == ticketNumber
    ensures (forall room :: room in rooms ==> room.id != selectedRoomId) ==>
              c.roomName == UnknownRoom && c.doctorName == UnknownDoctor
    ensures RoomWithId(rooms, selectedRoomId).Some? ==>
              var room := RoomWithId(rooms, selectedRoomId).value;
              c.roomName == (if room.number == "" then UnknownRoom else room.number)
              && c.doctorName == (if room.doctorName == "" then UnknownDoctor else room.doctorName)
  {
    var room := RoomWithId(rooms, selectedRoomId);
    PatientCall(
      id,
      patientName,
      if ticketNumber == "" then None else Some(ticketNumber),
      selectedRoomId,
      timestamp,
      if room.Some? && room.value.number != "" then room.value.number else UnknownRoom,
      if room.Some? && room.value.doctorName != "" then room.value.doctorName else UnknownDoctor)
  }

  /** The desk's list after a call: the call in front, at most five kept. */
  function RecentAfter(call: PatientCall, recent: seq<PatientCall>): (r: seq<PatientCall>)
    ensures |r| == Min(|recent| + 1, RecentLimit) && r[0] == call
    ensures r[1..] == Take(recent, RecentLimit - 1)
  {
    PushBounded(call, recent, RecentLimit)
  }

  /** While this desk is the only one calling, its list stays the first five
      entries of the stored history. */
  lemma RecentMirrorsHistory(call: PatientCall, history: seq<PatientCall>)
    ensures RecentAfter(call, Take(history, RecentLimit)) == Take(RecordCall(call, history), RecentLimit)
  {
    var a, b := RecentAfter(call, Take(history, RecentLimit)), Take(RecordCall(call, history), RecentLimit);
    var h := RecordCall(call, history);
    assert |a| == |b|;
    forall i | 0 <= i < |a| ensures a[i] == b[i] {
      if i > 0 {
        assert a[i] == a[1..][i - 1] == history[i - 1];
        assert b[i] == h[i] == h[1..][i - 1] == history[i - 1];
      }
    }
  }

  class ReceptionDashboard {
    var patientName: string
    var ticketNumber: string
    var selectedRoomId: string
    var rooms: seq<Room>
    var recentCalls: seq<PatientCall>
    var loading: bool
    /** Calls built by submissions whose 500 ms timer has not fired yet, oldest first. */
    var pending: seq<PatientCall>

    constructor ()
      ensures patientName == "" && ticketNumber == "" && selectedRoomId == ""
      ensures rooms == [] && recentCalls == [] && !loading && pending == []
    {
      patientName, ticketNumber, selectedRoomId := "", "", "";
      rooms, recentCalls, loading, pending := [], [], false, [];
    }

    /** The submit button is disabled while a call is pending or a required
        field is blank. */
    predicate SubmitDisabled()
      reads this
      ensures !SubmitDisabled() ==> !loading && patientName != "" && selectedRoomId != ""
    {
      loading || patientName == "" || selectedRoomId == ""
    }

    /** The mount effect: offer the active rooms and show the first five
        stored calls. A read that faults stops it there. */
    method Mount(store: Storage) returns (outcome: Outcome)
      modifies this
      ensures patientName == old(patientName) && ticketNumber == old(ticketNumber)
      ensures selectedRoomId == old(selectedRoomId) && loading == old(loading) && pending == old(pending)
      ensures GetRooms(store.entries).Failure? ==>
                outcome == Fail(GetRooms(store.entries).error) && rooms == old(rooms) && recentCalls == old(recentCalls)
      ensures GetRooms(store.entries).Success? ==> rooms == SelectableRooms(GetRooms(store.entries).value)
      ensures GetRooms(store.entries).Success? && GetHistory(store.entries).Failure? ==>
                outcome == Fail(GetHistory(store.entries).error) && recentCalls == old(recentCalls)
      ensures GetRooms(store.entries).Success? && GetHistory(store.entries).Success? ==>
                outcome == Pass && recentCalls == Take(GetHistory(store.entries).value, RecentLimit)
    {
      var allRooms := GetRooms(store.entries);
      if allRooms.Failure? {
        return Fail(allRooms.error);
      }
      rooms := SelectableRooms(allRooms.value);
      var history := GetHistory(store.entries);
      if history.Failure? {
        return Fail(history.error);
      }
      recentCalls := Take(history.value, RecentLimit);
      outcome := Pass;
    }

    /** `handleCall`: with a name and a room chosen, build the call now, turn
        `loading` on and leave the save to the timer; otherwise do nothing. */
    method HandleCall(id: string, timestamp: string)
      modifies this
      ensures patientName == old(patientName) && ticketNumber == old(ticketNumber)
      ensures selectedRoomId == old(selectedRoomId) && rooms == old(rooms) && recentCalls == old(recentCalls)
      ensures old(patientName) == "" || old(selectedRoomId) == "" ==>
                loading == old(loading) && pending == old(pending)
      ensures old(patientName) != "" && old(selectedRoomId) != "" ==>
                loading && SubmitDisabled()
                && pending == old(pending) + [BuildCall(patientName, ticketNumber, selectedRoomId, rooms, id, timestamp)]
    {
      if patientName == "" || selectedRoomId == "" {
        return;
      }
      loading := true;
      var newCall := BuildCall(patientName, ticketNumber, selectedRoomId, rooms, id, timestamp);
      pending := pending + [newCall];
    }

    /** The timer of the oldest pending submission firing, as one step: save
        the call, put it in front of the desk's list, clear the name and
        ticket and turn `loading` off. If the save faults, the rest of the
        step does not run. */
    method FinishCall(store: Storage, realTime: RealTimeEmitter) returns (outcome: Outcome)
      requires pending != []
      modifies this, store, realTime
      ensures pending == old(pending)[1..]
      ensures selectedRoomId == old(selectedRoomId) && rooms == old(rooms)
      ensures realTime.listeners == old(realTime.listeners)
      ensures SaveCallEntries(old(store.entries), old(pending)[0]).Failure? ==>
                outcome.Fail? && store.entries == old(store.entries) && realTime.posted == old(realTime.posted)
                && patientName == old(patientName) && ticketNumber == old(ticketNumber)
                && recentCalls == old(recentCalls) && loading == old(loading)
      ensures SaveCallEntries(old(store.entries), old(pending)[0]).Success? ==>
                outcome == Pass
                && store.entries == SaveCallEntries(old(store.entries), old(pending)[0]).value
                && realTime.posted == old(realTime.posted) + [Message(NewCallEvent, CallRecord(old(pending)[0]))]
                && recentCalls == RecentAfter(old(pending)[0], old(recentCalls))
                && patientName == "" && ticketNumber == "" && !loading && SubmitDisabled()
    {
      var newCall := pending[0];
      pending := pending[1..];
      outcome := SaveCall(store, realTime, newCall);
      if outcome.Fail? {
        return;
      }
      recentCalls := RecentAfter(newCall, recentCalls);
      patientName := "";
      ticketNumber := "";
      loading := false;
    }
  }
}
