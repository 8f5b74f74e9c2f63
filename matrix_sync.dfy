/** The per-room message synchronisation of `useMatrixSync` (src/hooks/useMatrixSync.ts).

    The hook's effect loads the room's history asynchronously, subscribes a handler to live
    messages and, on teardown, clears a `mounted` flag and unsubscribes. Every asynchronous
    completion and every live delivery is one discrete event here; they may arrive in any order.
    `SyncState`, `Apply` and `Run` describe the hook as values; `RoomSync` is the hook's state
    updated in place, and each of its methods is tied to `Apply`. */
module MatrixSync {
  import opened Common

  /** A chat message as delivered by the Matrix service. */
  datatype Message = Message(id: string, roomId: string, sender: string, content: string, timestamp: int)

  /** A value caught from the service: an `Error` object carrying a message, or anything else. */
  datatype Thrown = ErrorObject(message: string) | OtherValue

  const HistoryFallback: string := "Failed to load message history"
  const SyncFallback: string := "Failed to sync messages"

  /** `err instanceof Error ? err.message : fallback` */
  function ErrorText(err: Thrown, fallback: string): (r: string)
    ensures err.ErrorObject? ==> r == err.message
    ensures err.OtherValue? ==> r == fallback
  {
    match err
    case ErrorObject(message) => message
    case OtherValue => fallback
  }

  /** The order `Array.prototype.reverse` leaves a list in. */
  function Reversed(s: seq<Message>): (r: seq<Message>)
    ensures |r| == |s|
    ensures forall k :: 0 <= k < |s| ==> r[k] == s[|s| - 1 - k]
  {
    if s == [] then [] else [s[|s| - 1]] + Reversed(s[..|s| - 1])
  }

  /** Reversing neither loses nor invents a message. */
  lemma {:induction false} ReversedPermutes(s: seq<Message>)
    ensures multiset(Reversed(s)) == multiset(s)
  {
    if s != [] {
      var init := s[..|s| - 1];
      ReversedPermutes(init);
      assert s == init + [s[|s| - 1]];
    }
  }

  /** `historicalMessages.reverse()`: reverses the fetched page in place. */
  method ReverseInPlace(a: array<Message>)
    modifies a
    ensures a[..] == Reversed(old(a[..]))
  {
    var lo, hi := 0, a.Length;
    while lo + 1 < hi
      invariant 0 <= lo <= hi <= a.Length
      invariant lo + hi == a.Length
      invariant forall k :: 0 <= k < lo ==> a[k] == old(a[a.Length - 1 - k])
      invariant forall k :: hi <= k < a.Length ==> a[k] == old(a[a.Length - 1 - k])
      invariant forall k :: lo <= k < hi ==> a[k] == old(a[k])
    {
      a[lo], a[hi - 1] := a[hi - 1], a[lo];
      lo, hi := lo + 1, hi - 1;
    }
  }

  /** Everything the hook's effect knows about one room: the three React state values, the
      closure's `mounted` flag and whether `handleNewMessage` is subscribed. */
  datatype SyncState = SyncState(
    roomId: string,
    messages: seq<Message>,
    isLoading: bool,
    error: Option<string>,
    mounted: bool,
    subscribed: bool)

  /** The events that reach the hook after its effect has run. */
  datatype Event =
    | HistoryLoaded(page: seq<Message>)   // getHistoricalMessages resolved, newest first
    | HistoryFailed(err: Thrown)          // getHistoricalMessages rejected
    | Delivered(message: Message)         // the service called the subscribed handler
    | Unmounted                           // the effect's cleanup ran

  /** The state right after the first render's effect: initial state values, `mounted` set,
      the history load in flight, and the subscription made unless it threw. */
  function Mount(roomId: string, subscribeError: Option<Thrown>): (s: SyncState)
    ensures s.roomId == roomId && s.messages == [] && s.isLoading && s.mounted
    ensures s.subscribed <==> subscribeError.None?
    ensures subscribeError.None? ==> s.error == None
    ensures subscribeError.Some? ==> s.error == Some(ErrorText(subscribeError.value, SyncFallback))
  {
    SyncState(roomId, [], true,
      if subscribeError.Some? then Some(ErrorText(subscribeError.value, SyncFallback)) else None,
      true, subscribeError.None?)
  }

  /** The effect of one event on the hook's state. */
  function Apply(s: SyncState, e: Event): (r: SyncState)
    ensures r.roomId == s.roomId
    ensures r.isLoading ==> s.isLoading
    ensures !s.mounted && !s.subscribed ==> r == s
  {
    match e
    case HistoryLoaded(page) =>
      if s.mounted then s.(messages := Reversed(page), isLoading := false) else s
    case HistoryFailed(err) =>
      if s.mounted then s.(error := Some(ErrorText(err, HistoryFallback)), isLoading := false) else s
    case Delivered(m) =>
      if s.subscribed && m.roomId == s.roomId then s.(messages := s.messages + [m]) else s
    case Unmounted =>
      s.(mounted := false, subscribed := false)
  }

  /** The state after a sequence of events, in the order they arrive. */
  function Run(s: SyncState, events: seq<Event>): (r: SyncState)
    ensures r.roomId == s.roomId
    decreases |events|
  {
    if events == [] then s else Run(Apply(s, events[0]), events[1..])
  }

  /** Running two batches of events one after the other is running their concatenation. */
  lemma {:induction false} RunConcat(s: SyncState, a: seq<Event>, b: seq<Event>)
    ensures Run(s, a + b) == Run(Run(s, a), b)
    decreases |a|
  {
    if a != [] {
      assert (a + b)[0] == a[0] && (a + b)[1..] == a[1..] + b;
      RunConcat(Apply(s, a[0]), a[1..], b);
      assert Run(s, a + b) == Run(Apply(s, a[0]), a[1..] + b);
    } else {
      assert a + b == b;
    }
  }

  /** `isLoading` only ever moves from true to false. */
  lemma {:induction false} LoadingNeverRestarts(s: SyncState, events: seq<Event>)
    ensures Run(s, events).isLoading ==> s.isLoading
    decreases |events|
  {
    if events != [] {
      LoadingNeverRestarts(Apply(s, events[0]), events[1..]);
    }
  }

  /** After cleanup no event changes anything: late history results and late deliveries
      are both dropped. */
  lemma {:induction false} CleanupIsFinal(s: SyncState, events: seq<Event>)
    ensures Run(Apply(s, Unmounted), events) == Apply(s, Unmounted)
    decreases |events|
  {
    if events != [] {
      CleanupIsFinal(s, events[1..]);
    }
  }

  /** Whether a sequence of events contains no cleanup. */
  predicate NoCleanup(events: seq<Event>)
  {
    forall k :: 0 <= k < |events| ==> !events[k].Unmounted?
  }

  /** Whether a sequence of events holds only live deliveries and history failures. */
  predicate OnlyLive(events: seq<Event>)
  {
    forall k :: 0 <= k < |events| ==> events[k].Delivered? || events[k].HistoryFailed?
  }

  /** The messages of `events` that were delivered for `roomId`, in delivery order. */
  function DeliveredFor(roomId: string, events: seq<Event>): (ms: seq<Message>)
    ensures |ms| <= |events|
    ensures forall k :: 0 <= k < |ms| ==> ms[k].roomId == roomId
    decreases |events|
  {
    if events == [] then []
    else
      var here := if events[0].Delivered? && events[0].message.roomId == roomId
                  then [events[0].message] else [];
      here + DeliveredFor(roomId, events[1..])
  }

  /** While subscribed, live messages for this room are appended at the end in delivery order,
      with no de-duplication and no sorting; messages for other rooms are ignored. */
  lemma {:induction false} LiveMessagesAppend(s: SyncState, events: seq<Event>)
    requires s.subscribed
    requires OnlyLive(events)
    ensures Run(s, events).messages == s.messages + DeliveredFor(s.roomId, events)
    ensures Run(s, events).subscribed
    decreases |events|
  {
    if events != [] {
      var t := Apply(s, events[0]);
      assert OnlyLive(events[1..]) by {
        forall k | 0 <= k < |events| - 1 ensures events[1..][k].Delivered? || events[1..][k].HistoryFailed? {
          assert events[1..][k] == events[k + 1];
        }
      }
      LiveMessagesAppend(t, events[1..]);
      var here := if events[0].Delivered? && events[0].message.roomId == s.roomId
                  then [events[0].message] else [];
      assert t.messages == s.messages + here && t.subscribed && t.roomId == s.roomId;
      assert DeliveredFor(s.roomId, events) == here + DeliveredFor(s.roomId, events[1..]);
      assert Run(s, events) == Run(t, events[1..]);
    }
  }

  /** Delivering the same message twice for this room yields two entries. */
  lemma DuplicateDeliveryKept(s: SyncState, m: Message)
    requires s.subscribed && m.roomId == s.roomId
    ensures Run(s, [Delivered(m), Delivered(m)]).messages == s.messages + [m, m]
  {
    LiveMessagesAppend(s, [Delivered(m), Delivered(m)]);
  }

  /** Events before cleanup never clear `mounted`. */
  lemma {:induction false} MountedUntilCleanup(s: SyncState, events: seq<Event>)
    requires NoCleanup(events)
    ensures Run(s, events).mounted == s.mounted
    decreases |events|
  {
    if events != [] {
      assert NoCleanup(events[1..]) by {
        forall k | 0 <= k < |events| - 1 ensures !events[1..][k].Unmounted? {
          assert events[1..][k] == events[k + 1];
        }
      }
      MountedUntilCleanup(Apply(s, events[0]), events[1..]);
    }
  }

  /** A history result that arrives while mounted replaces the list with the reversed page,
      discarding whatever live messages were appended before it, and ends loading. */
  lemma HistoryOverwritesLive(s: SyncState, before: seq<Event>, page: seq<Message>)
    requires s.mounted
    requires NoCleanup(before)
    ensures Run(s, before + [HistoryLoaded(page)]).messages == Reversed(page)
    ensures !Run(s, before + [HistoryLoaded(page)]).isLoading
  {
    RunConcat(s, before, [HistoryLoaded(page)]);
    MountedUntilCleanup(s, before);
  }

  /** The state of one `useMatrixSync(roomId)` instance, updated in place. */
  class RoomSync {
    const roomId: string
    var messages: seq<Message>
    var isLoading: bool
    var error: Option<string>
    var mounted: bool
    var subscribed: bool

    /** The abstract value of this object. */
    function State(): (s: SyncState)
      reads this
    {
      SyncState(roomId, messages, isLoading, error, mounted, subscribed)
    }

    /** First render and its effect: `useState([])`, `useState(true)`, `useState(null)`,
        `mounted = true`, the history load started, then `subscribeToMessages`, whose failure
        is caught and recorded while mounted. */
    constructor (roomId: string, subscribeError: Option<Thrown>)
      ensures State() == Mount(roomId, subscribeError)
      ensures this.roomId == roomId && messages == [] && isLoading && mounted
      ensures subscribed <==> subscribeError.None?
      ensures error == if subscribeError.Some? then Some(ErrorText(subscribeError.value, SyncFallback)) else None
    {
      this.roomId := roomId;
      messages := [];
      isLoading := true;
      error := None;
      mounted := true;
      subscribed := false;
      new;
      if subscribeError.None? {
        subscribed := true;
      } else if mounted {
        error := Some(ErrorText(subscribeError.value, SyncFallback));
      }
    }

    /** `getHistoricalMessages` resolved with `page` (newest first). */
    method OnHistoryLoaded(page: array<Message>)
      modifies this, page
      ensures State() == Apply(old(State()), HistoryLoaded(old(page[..])))
      ensures old(mounted) ==> messages == Reversed(old(page[..])) && page[..] == messages && !isLoading
      ensures !old(mounted) ==> messages == old(messages) && isLoading == old(isLoading) && page[..] == old(page[..])
      ensures error == old(error) && mounted == old(mounted) && subscribed == old(subscribed)
    {
      if mounted {
        ReverseInPlace(page);
        messages := page[..];
      }
      if mounted {
        isLoading := false;
      }
    }

    /** `getHistoricalMessages` rejected with `err`. */
    method OnHistoryFailed(err: Thrown)
      modifies this
      ensures State() == Apply(old(State()), HistoryFailed(err))
      ensures old(mounted) ==> error == Some(ErrorText(err, HistoryFallback)) && !isLoading
      ensures !old(mounted) ==> error == old(error) && isLoading == old(isLoading)
      ensures messages == old(messages) && mounted == old(mounted) && subscribed == old(subscribed)
    {
      if mounted {
        error := Some(ErrorText(err, HistoryFallback));
      }
      if mounted {
        isLoading := false;
      }
    }

    /** `handleNewMessage(message)`, called by the service while the handler is subscribed. */
    method OnMessage(message: Message)
      modifies this
      ensures State() == Apply(old(State()), Delivered(message))
      ensures old(subscribed) && message.roomId == roomId ==> messages == old(messages) + [message]
      ensures !(old(subscribed) && message.roomId == roomId) ==> messages == old(messages)
      ensures isLoading == old(isLoading) && error == old(error)
      ensures mounted == old(mounted) && subscribed == old(subscribed)
    {
      if subscribed && message.roomId == roomId {
        messages := messages + [message];
      }
    }

    /** The effect's cleanup: `mounted = false` and `unsubscribeFromMessages(handleNewMessage)`. */
    method Cleanup()
      modifies this
      ensures State() == Apply(old(State()), Unmounted)
      ensures !mounted && !subscribed
      ensures messages == old(messages) && isLoading == old(isLoading) && error == old(error)
    {
      mounted := false;
      subscribed := false;
    }
  }
}
