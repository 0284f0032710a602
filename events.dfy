/** The events the provider posts, and the sink that collects them. */
module Events {
  import opened Config

  datatype Event =
    | TemporaryFileCreatedEvent(container: Container, path: string)
    | TemporaryDirectoryCreatedEvent(container: Container, path: string)

  /** An append-only log of posted events. */
  class TaskEventSink {
    var events: seq<Event>

    constructor()
      ensures events == []
    {
      events := [];
    }

    method PostEvent(event: Event)
      modifies this
      ensures events == old(events) + [event]
    {
      events := events + [event];
    }
  }
}
