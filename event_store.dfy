/** store/eventStore.ts: the process-wide state container. Each action
    replaces some of the store's fields; its `modifies` clause names those
    fields, so every other field keeps its value. */
module Store {
  import opened Wrappers
  import opened Types
  import opened Seqs

  /** `events.map(e => e.id === id ? { ...e, ...patch } : e)`. */
  function UpdateMatching(events: seq<Event>, id: string, patch: EventPatch): (r: seq<Event>)
    ensures |r| == |events|
    ensures forall i :: 0 <= i < |events| && events[i].id == id ==> r[i] == Merge(events[i], patch)
    ensures forall i :: 0 <= i < |events| && events[i].id != id ==> r[i] == events[i]
  {
    if |events| == 0 then []
    else [if events[0].id == id then Merge(events[0], patch) else events[0]]
         + UpdateMatching(events[1..], id, patch)
  }

  /** `events.filter(e => e.id !== id)`. */
  function WithoutId(events: seq<Event>, id: string): (r: seq<Event>)
  {
    Filter((e: Event) => e.id != id, events)
  }

  /** The uploads that belong to the event `eventId`, in their order. */
  function UploadsOf(uploads: seq<Upload>, eventId: string): (r: seq<Upload>)
  {
    Filter((u: Upload) => u.eventId == eventId, uploads)
  }

  /** `eventUploads` is exactly the current event's share of `uploads`.
      The store does not maintain this; callers have to. */
  predicate InSync(uploads: seq<Upload>, eventUploads: seq<Upload>, currentEvent: Option<Event>)
  {
    currentEvent.Some? && eventUploads == UploadsOf(uploads, currentEvent.value.id)
  }

  /** After `deleteEvent(id)` no event has that id and every other event is
      still there. */
  lemma DeleteRemovesExactly(events: seq<Event>, id: string)
    ensures forall e :: e in WithoutId(events, id) <==> e in events && e.id != id
    ensures |WithoutId(events, id)| <= |events|
  {
  }

  /** `deleteEvent` keeps the survivors in order: deleting from a
      concatenation deletes from each part. */
  lemma DeleteKeepsOrder(front: seq<Event>, back: seq<Event>, id: string)
    ensures WithoutId(front + back, id) == WithoutId(front, id) + WithoutId(back, id)
  {
    FilterAppend((e: Event) => e.id != id, front, back);
  }

  /** Deleting an id no event has changes nothing. */
  lemma DeleteAbsentId(events: seq<Event>, id: string)
    requires forall i :: 0 <= i < |events| ==> events[i].id != id
    ensures WithoutId(events, id) == events
  {
    FilterAllKept((e: Event) => e.id != id, events);
  }

  /** `addUpload` appends the upload to both lists whatever its event, so it
      keeps a synchronised store synchronised exactly when the upload
      belongs to the current event. */
  lemma AddUploadKeepsSync(uploads: seq<Upload>, eventUploads: seq<Upload>,
                           currentEvent: Option<Event>, upload: Upload)
    requires InSync(uploads, eventUploads, currentEvent)
    ensures InSync(uploads + [upload], eventUploads + [upload], currentEvent)
            <==> upload.eventId == currentEvent.value.id
  {
    FilterSnoc((u: Upload) => u.eventId == currentEvent.value.id, uploads, upload);
    if upload.eventId != currentEvent.value.id {
      assert |eventUploads + [upload]| != |eventUploads|;
    }
  }

  /** `setEventUploads` can break the relation: replacing the view of a
      synchronised store with an empty list while the current event has an
      upload. */
  lemma SetEventUploadsCanBreakSync(e: Event, u: Upload)
    requires u.eventId == e.id
    ensures InSync([u], [u], Some(e))
    ensures !InSync([u], [], Some(e))
  {
    assert UploadsOf([u], e.id) == [u];
  }

  /** `addEvent` can break the relation: the new current event has no
      uploads, yet the view still lists the old event's. */
  lemma AddEventCanBreakSync(old_: Event, new_: Event, u: Upload)
    requires u.eventId == old_.id && new_.id != old_.id
    ensures InSync([u], [u], Some(old_))
    ensures !InSync([u], [u], Some(new_))
  {
    assert UploadsOf([u], old_.id) == [u];
    assert UploadsOf([u], new_.id) == [];
  }

  class EventStore {
    var currentEvent: Option<Event>
    var adminSession: Option<AdminSession>
    var events: seq<Event>
    var uploads: seq<Upload>
    var guestSession: Option<GuestSession>
    var eventUploads: seq<Upload>   // uploads for the current event
    var isLoading: bool
    var error: Option<string>

    /** The initial state. */
    constructor()
      ensures currentEvent == None && adminSession == None && guestSession == None
      ensures events == [] && uploads == [] && eventUploads == []
      ensures !isLoading && error == None
    {
      currentEvent, adminSession, guestSession := None, None, None;
      events, uploads, eventUploads := [], [], [];
      isLoading, error := false, None;
    }

    method SetCurrentEvent(event: Option<Event>)
      modifies this`currentEvent
      ensures currentEvent == event
    {
      currentEvent := event;
    }

    method SetAdminSession(session: Option<AdminSession>)
      modifies this`adminSession
      ensures adminSession == session
    {
      adminSession := session;
    }

    /** Appends the event and makes it current; no check for a duplicate id. */
    method AddEvent(event: Event)
      modifies this`events, this`currentEvent
      ensures events == old(events) + [event]
      ensures currentEvent == Some(event)
    {
      events := events + [event];
      currentEvent := Some(event);
    }

    /** Merges the patch into every event with the id, and into the current
      event only when its id is `id`. */
    method UpdateEvent(id: string, patch: EventPatch)
      modifies this`events, this`currentEvent
      ensures events == UpdateMatching(old(events), id, patch)
      ensures old(currentEvent).Some? && old(currentEvent).value.id == id
              ==> currentEvent == Some(Merge(old(currentEvent).value, patch))
      ensures old(currentEvent).None? || old(currentEvent).value.id != id
              ==> currentEvent == old(currentEvent)
    {
      events := UpdateMatching(events, id, patch);
      if currentEvent.Some? && currentEvent.value.id == id {
        currentEvent := Some(Merge(currentEvent.value, patch));
      }
    }

    /** Removes every event with the id and forgets the current event when
      it has that id. The event's uploads stay. */
    method DeleteEvent(id: string)
      modifies this`events, this`currentEvent
      ensures events == WithoutId(old(events), id)
      ensures currentEvent == if old(currentEvent).Some? && old(currentEvent).value.id == id
                              then None else old(currentEvent)
    {
      events := WithoutId(events, id);
      if currentEvent.Some? && currentEvent.value.id == id {
        currentEvent := None;
      }
    }

    method SetGuestSession(session: Option<GuestSession>)
      modifies this`guestSession
      ensures guestSession == session
    {
      guestSession := session;
    }

    /** Appends the upload to both lists, whatever event it belongs to. */
    method AddUpload(upload: Upload)
      modifies this`uploads, this`eventUploads
      ensures uploads == old(uploads) + [upload]
      ensures eventUploads == old(eventUploads) + [upload]
      ensures InSync(old(uploads), old(eventUploads), currentEvent)
              ==> (InSync(uploads, eventUploads, currentEvent)
                   <==> upload.eventId == currentEvent.value.id)
    {
      if InSync(uploads, eventUploads, currentEvent) {
        AddUploadKeepsSync(uploads, eventUploads, currentEvent, upload);
      }
      uploads := uploads + [upload];
      eventUploads := eventUploads + [upload];
    }

    /** Replaces the view alone. */
    method SetEventUploads(list: seq<Upload>)
      modifies this`eventUploads
      ensures eventUploads == list
    {
      eventUploads := list;
    }

    method SetIsLoading(loading: bool)
      modifies this`isLoading
      ensures isLoading == loading
    {
      isLoading := loading;
    }

    method SetError(message: Option<string>)
      modifies this`error
      ensures error == message
    {
      error := message;
    }

    /** Back to the initial state, except that `isLoading` is kept. */
    method ClearStore()
      modifies this`currentEvent, this`adminSession, this`events, this`uploads,
               this`guestSession, this`eventUploads, this`error
      ensures Cleared()
    {
      currentEvent, adminSession, guestSession := None, None, None;
      events, uploads, eventUploads := [], [], [];
      error := None;
    }

    /** Every collection empty and nothing selected. */
    predicate Cleared()
      reads this
    {
      currentEvent == None && adminSession == None && guestSession == None
      && events == [] && uploads == [] && eventUploads == [] && error == None
    }
  }

  /** Clearing twice leaves the store exactly as clearing once. */
  method ClearStoreTwice(store: EventStore)
    modifies store
    ensures store.Cleared() && store.isLoading == old(store.isLoading)
  {
    store.ClearStore();
    ghost var once := (store.events, store.uploads, store.eventUploads, store.currentEvent,
                       store.adminSession, store.guestSession, store.error, store.isLoading);
    store.ClearStore();
    assert once == (store.events, store.uploads, store.eventUploads, store.currentEvent,
                    store.adminSession, store.guestSession, store.error, store.isLoading);
  }
}
