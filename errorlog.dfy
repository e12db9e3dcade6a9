/** The `errors` list a caller hands to a validator: validators only ever append to it. */
module ErrorLog {

  class Errors {
    var entries: seq<string>

    constructor()
      ensures entries == []
    {
      entries := [];
    }

    /** errors.append(msg). */
    method Append(msg: string)
      modifies this
      ensures entries == old(entries) + [msg]
    {
      entries := entries + [msg];
    }

    /** A call that appends the messages `msgs`, in order. */
    method Extend(msgs: seq<string>)
      modifies this
      ensures entries == old(entries) + msgs
    {
      entries := entries + msgs;
    }
  }
}
