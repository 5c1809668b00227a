/** The host's transaction context: the key-value world state and the
    event log. The host decides whether each call succeeds; its answer is
    passed in as a `fails` flag. */
module WorldState {
  import opened Results
  import opened Codec

  /** A notification: its name and its payload, a string-to-string object. */
  datatype Event = Event(name: string, payload: map<string, string>)

  class Stub {
    /** Every key the world state holds, with its stored document. */
    var state: map<string, Document>
    /** The events emitted so far, oldest first. */
    var events: seq<Event>

    /** An empty world state with no events. */
    constructor ()
      ensures state == map[] && events == []
    {
      state := map[];
      events := [];
    }

    /** Reads a key: nothing for a key never written, an error when the
        host refuses the read. */
    method GetState(key: string, fails: bool) returns (r: Result<Option<Document>>)
      ensures fails ==> r == Err(ReadError)
      ensures !fails ==> r.Ok? && (r.value.Some? <==> key in state)
      ensures !fails && key in state ==> r.value.value == state[key]
    {
      if fails {
        r := Err(ReadError);
      } else if key in state {
        r := Ok(Some(state[key]));
      } else {
        r := Ok(None);
      }
    }

    /** Writes a key, replacing any value it held, unless the host refuses. */
    method PutState(key: string, value: Document, fails: bool) returns (r: Outcome)
      modifies this
      ensures r == (if fails then Fail(WriteError) else Pass)
      ensures state == if fails then old(state) else old(state)[key := value]
      ensures events == old(events)
    {
      if fails {
        r := Fail(WriteError);
      } else {
        state := state[key := value];
        r := Pass;
      }
    }

    /** Emits an event, unless the host refuses. */
    method SetEvent(name: string, payload: map<string, string>, fails: bool) returns (r: Outcome)
      modifies this
      ensures r == (if fails then Fail(EventError) else Pass)
      ensures events == if fails then old(events) else old(events) + [Event(name, payload)]
      ensures state == old(state)
    {
      if fails {
        r := Fail(EventError);
      } else {
        events := events + [Event(name, payload)];
        r := Pass;
      }
    }
  }
}
