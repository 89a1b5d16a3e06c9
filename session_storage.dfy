/** The durable key-value store, reduced to the one key the consultation
    uses, `'chatSession'`, which holds a snapshot or nothing. Serialisation
    is left out: a snapshot is stored as a value. */
module SessionStorage {
  import opened Optional
  import opened ChatLog

  class SessionStore {
    /** The value under `'chatSession'`; None when the key is absent. */
    var slot: Option<Snapshot>

    constructor (initial: Option<Snapshot>)
      ensures slot == initial
    {
      slot := initial;
    }

    /** `setItem('chatSession', …)`: overwrites whatever was there. */
    method Save(s: Snapshot)
      modifies this
      ensures slot == Some(s)
    {
      slot := Some(s);
    }

    /** `getItem('chatSession')`: the last snapshot saved, if any. */
    method Load() returns (r: Option<Snapshot>)
      ensures r == slot
    {
      r := slot;
    }

    /** `removeItem('chatSession')` */
    method Clear()
      modifies this
      ensures slot == None
    {
      slot := None;
    }
  }
}
