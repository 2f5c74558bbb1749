/** The local-storage keys of the application configuration. */
module Constants {

  datatype Key = Auth | Rooms | Users | History | LatestCall | WaitingList

  /** The string each key is stored under. */
  function KeyName(k: Key): (name: string)
    ensures |name| > 8 && name[..8] == "medcall_"
  {
    match k
    case Auth => "medcall_auth"
    case Rooms => "medcall_rooms"
    case Users => "medcall_users"
    case History => "medcall_history"
    case LatestCall => "medcall_latest"
    case WaitingList => "medcall_waiting"
  }

  /** No two keys share a storage slot, so writing one never clobbers another. */
  lemma KeyNamesDistinct(k1: Key, k2: Key)
    ensures KeyName(k1) == KeyName(k2) ==> k1 == k2
  {
  }
}
