/**
 * The session record and the browser storage that holds it. The web client
 * keeps at most one record, JSON-encoded under the key "user"; the model
 * takes encoding followed by decoding to be the identity.
 */
module UserStore {
  import opened Wrappers

  /**
   * A user record. Fields a record does not carry are `None`: the signup page
   * writes `id`, `fullName`, `email` and `role`, never `password`.
   */
  datatype UserRecord = UserRecord(
    id: Option<int>,
    fullName: Option<string>,
    email: Option<string>,
    role: Option<string>,
    password: Option<string>)

  /** The one storage key the client uses. */
  const UserKey := "user"

  /** `localStorage`, holding decoded records. */
  class Storage {
    var items: map<string, UserRecord>

    constructor (items: map<string, UserRecord>)
      ensures this.items == items
    {
      this.items := items;
    }

    /** `getItem`: the record under `key`, or nothing. */
    method GetItem(key: string) returns (r: Option<UserRecord>)
      ensures key in items ==> r == Some(items[key])
      ensures key !in items ==> r == None
    {
      r := if key in items then Some(items[key]) else None;
    }

    /** `setItem`: stores `value` under `key`, replacing what was there. */
    method SetItem(key: string, value: UserRecord)
      modifies this
      ensures items == old(items)[key := value]
    {
      items := items[key := value];
    }

    /** `removeItem`: drops `key`, if present. */
    method RemoveItem(key: string)
      modifies this
      ensures items == old(items) - {key}
    {
      items := items - {key};
    }
  }
}
