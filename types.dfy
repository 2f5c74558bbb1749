/** The records shared by every screen and by the store. */
module Types {
  import opened Base
  import opened Seqs

  datatype UserRole = Admin | Reception | Clinic

  /** Descriptive only: nothing orders the queue by it. */
  datatype PatientPriority = Normal | Preferential

  datatype User = User(
    id: string,
    username: string,
    role: UserRole,
    name: string,
    active: bool,
    roomId: Option<string>)  // set only for physician accounts

  datatype Room = Room(
    id: string,
    number: string,
    doctorName: string,
    specialty: string,
    active: bool)

  /** An entry of the waiting list. */
  datatype WaitingPatient = WaitingPatient(
    id: string,
    name: string,
    ticketNumber: string,
    priority: PatientPriority,
    targetRoomId: string,
    createdAt: string)

  /** One announcement; the unit of the call history. */
  datatype PatientCall = PatientCall(
    id: string,
    patientName: string,
    ticketNumber: Option<string>,
    roomId: string,
    timestamp: string,
    roomName: string,      // the room's number as displayed
    doctorName: string)

  /** `rooms.find(r => r.id === id)`, shared by the physician and reception screens. */
  function RoomWithId(rooms: seq<Room>, id: string): (r: Option<Room>)
    ensures r.Some? ==> r.value in rooms && r.value.id == id
    ensures r.Some? ==> exists i :: 0 <= i < |rooms| && rooms[i] == r.value && forall j :: 0 <= j < i ==> rooms[j].id != id
    ensures r.None? <==> forall room :: room in rooms ==> room.id != id
  {
    FindHasFirstIndex(rooms, HasId(id));
    Find(rooms, HasId(id))
  }

  function HasId(id: string): Room -> bool
  {
    (room: Room) => room.id == id
  }
}
