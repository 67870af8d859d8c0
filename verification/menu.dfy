/** The menu scene: the entities spawned for the animated menu, the handling
    of the events the animation emits, and the despawning of the menu's
    entities when the application leaves the menu. */
module MenuSystems {
  import opened Prelude

  /** An event emitted by the menu animation, identified by its name. */
  datatype Event = Event(name: string)

  /** The event name that starts a game. */
  const ClickTrigger: string := "Click"

  /** Pending transition and the events that were only logged. */
  datatype MenuOutcome = MenuOutcome(next: Option<GameState>, unhandled: seq<Event>)

  predicate IsClick(e: Event) {
    e.name == ClickTrigger
  }

  predicate HasClick(events: seq<Event>) {
    exists i :: 0 <= i < |events| && IsClick(events[i])
  }

  /** The effect of one event on the pending transition. */
  function HandleEvent(next: Option<GameState>, e: Event): Option<GameState> {
    if IsClick(e) then Some(Pong) else next
  }

  /** The menu event system: reads the queued events in order; a click
      requests the Pong scene, any other event is logged and ignored.
      The pending transition ends up as Pong exactly when the queue holds a
      click, and is left as it was otherwise. */
  function MenuEvents(next: Option<GameState>, events: seq<Event>): (r: MenuOutcome)
    ensures HasClick(events) ==> r.next == Some(Pong)
    ensures !HasClick(events) ==> r.next == next
    ensures forall e :: e in r.unhandled <==> e in events && !IsClick(e)
    ensures |r.unhandled| <= |events|
    ensures events == [] ==> r == MenuOutcome(next, [])
    decreases |events|
  {
    if events == [] then MenuOutcome(next, [])
    else
      var e := events[0];
      var rest := MenuEvents(HandleEvent(next, e), events[1..]);
      assert HasClick(events) <==> IsClick(e) || HasClick(events[1..]) by {
        if HasClick(events[1..]) {
          var i :| 0 <= i < |events[1..]| && IsClick(events[1..][i]);
          assert IsClick(events[i + 1]);
        }
      }
      assert forall x :: x in events <==> x == e || x in events[1..];
      if IsClick(e) then rest
      else MenuOutcome(rest.next, [e] + rest.unhandled)
  }

  /** A single event: a click sets the pending transition to Pong and is not
      logged; any other event is logged once and changes nothing. Together
      with `UnhandledAppend` this fixes the order and multiplicity of the log. */
  lemma SingleEvent(next: Option<GameState>, e: Event)
    ensures IsClick(e) ==> MenuEvents(next, [e]) == MenuOutcome(Some(Pong), [])
    ensures !IsClick(e) ==> MenuEvents(next, [e]) == MenuOutcome(next, [e])
  {
  }

  /** Starting with nothing pending, the menu requests Pong if and only if
      a click is in the queue. */
  lemma StartsGameIffClicked(events: seq<Event>)
    ensures MenuEvents(None, events).next == Some(Pong) <==> HasClick(events)
  {
  }

  /** Events the menu does not recognise leave the pending transition
      unchanged and are all logged, in order. */
  lemma {:induction false} UnrecognisedEventsIgnored(next: Option<GameState>, events: seq<Event>)
    requires forall i :: 0 <= i < |events| ==> !IsClick(events[i])
    ensures MenuEvents(next, events) == MenuOutcome(next, events)
    decreases |events|
  {
    if events != [] {
      UnrecognisedEventsIgnored(next, events[1..]);
    }
  }

  /** A queue holds a click exactly when one of its two parts does. */
  lemma HasClickAppend(a: seq<Event>, b: seq<Event>)
    ensures HasClick(a + b) <==> HasClick(a) || HasClick(b)
  {
    if HasClick(a) {
      var i :| 0 <= i < |a| && IsClick(a[i]);
      assert (a + b)[i] == a[i];
    }
    if HasClick(b) {
      var i :| 0 <= i < |b| && IsClick(b[i]);
      assert (a + b)[|a| + i] == b[i];
    }
    if HasClick(a + b) {
      var i :| 0 <= i < |a + b| && IsClick((a + b)[i]);
      if i >= |a| {
        assert b[i - |a|] == (a + b)[i];
      } else {
        assert a[i] == (a + b)[i];
      }
    }
  }

  /** The events logged for a queue are those logged for its first part
      followed by those logged for its second part. */
  lemma {:induction false} UnhandledAppend(next: Option<GameState>, a: seq<Event>, b: seq<Event>)
    ensures MenuEvents(next, a + b).unhandled
         == MenuEvents(next, a).unhandled + MenuEvents(next, b).unhandled
    decreases |a|
  {
    if a == [] {
      assert a + b == b;
    } else {
      assert (a + b)[0] == a[0];
      assert (a + b)[1..] == a[1..] + b;
      var n := HandleEvent(next, a[0]);
      UnhandledAppend(n, a[1..], b);
      UnhandledIgnoresPending(next, n, b);
    }
  }

  /** Reading one batch of events and then another is the same as reading
      both batches as one queue. */
  lemma MenuEventsAppend(next: Option<GameState>, a: seq<Event>, b: seq<Event>)
    ensures MenuEvents(next, a + b)
         == MenuOutcome(MenuEvents(MenuEvents(next, a).next, b).next,
                        MenuEvents(next, a).unhandled + MenuEvents(next, b).unhandled)
  {
    HasClickAppend(a, b);
    UnhandledAppend(next, a, b);
  }

  /** Which events get logged does not depend on the pending transition. */
  lemma {:induction false} UnhandledIgnoresPending(n1: Option<GameState>, n2: Option<GameState>, events: seq<Event>)
    ensures MenuEvents(n1, events).unhandled == MenuEvents(n2, events).unhandled
    decreases |events|
  {
    if events != [] {
      UnhandledIgnoresPending(HandleEvent(n1, events[0]), HandleEvent(n2, events[0]), events[1..]);
    }
  }

  /** Clicking is idempotent: one click or several in a batch request the
      same transition, and reading the same queue twice changes nothing. */
  lemma ClickIdempotent(next: Option<GameState>, events: seq<Event>, n: nat)
    requires n >= 1
    ensures MenuEvents(next, seq(n, _ => Event(ClickTrigger))).next
         == MenuEvents(next, [Event(ClickTrigger)]).next
         == Some(Pong)
    ensures MenuEvents(MenuEvents(next, events).next, events).next == MenuEvents(next, events).next
  {
  }

  // ---------------------------------------------------------------------
  // Menu entities
  // ---------------------------------------------------------------------

  /** What an entity of the menu scene is. */
  datatype Kind = Camera | AnimationSprite | AnimationStateMachine

  /** An entity, with whether it carries the `Menu` marker. */
  datatype Entity = Entity(id: nat, kind: Kind, menu: bool)

  /** The entities spawned on entering the menu, with fresh ids from
      `firstId`: a camera that is not marked as part of the menu, and the
      animation's sprite and state machine, which are. */
  function SetupAnimation(firstId: nat): (es: set<Entity>)
    ensures |es| == 3
    ensures forall e :: e in es && !e.menu <==> e == Entity(firstId, Camera, false)
    ensures forall e :: e in es ==> (e.kind == Camera <==> !e.menu)
    ensures exists e :: e in es && e.kind == AnimationSprite
    ensures exists e :: e in es && e.kind == AnimationStateMachine
  {
    {Entity(firstId, Camera, false),
     Entity(firstId + 1, AnimationSprite, true),
     Entity(firstId + 2, AnimationStateMachine, true)}
  }

  /** `after` is `before` with exactly the menu-marked entities despawned. */
  ghost predicate MenuRemoved(before: set<Entity>, after: set<Entity>) {
    && after <= before
    && (forall e :: e in after ==> !e.menu)
    && (forall e :: e in before && !e.menu ==> e in after)
  }

  /** The menu teardown: despawns each entity that carries the `Menu`
      marker, one at a time, and nothing else. */
  method RemoveMenu(world: set<Entity>) returns (remaining: set<Entity>)
    ensures MenuRemoved(world, remaining)
  {
    var marked := set e | e in world && e.menu;
    var pending := marked;
    remaining := world;
    while pending != {}
      invariant pending <= marked
      invariant remaining == world - (marked - pending)
      decreases pending
    {
      var e :| e in pending;
      remaining := remaining - {e};
      pending := pending - {e};
    }
  }

  /** The teardown's outcome is determined by the world it starts from. */
  lemma MenuRemovedUnique(before: set<Entity>, a1: set<Entity>, a2: set<Entity>)
    requires MenuRemoved(before, a1) && MenuRemoved(before, a2)
    ensures a1 == a2
  {
  }

  /** Tearing down the freshly set-up menu leaves only its camera. */
  lemma TeardownKeepsCamera(firstId: nat, after: set<Entity>)
    requires MenuRemoved(SetupAnimation(firstId), after)
    ensures after == {Entity(firstId, Camera, false)}
  {
  }
}
