/**
 The two classes that raise the notification: NotificationTextBlock, a text
 block that owns at most one automation peer, and
 NotificationTextBlockAutomationPeer, which holds the cached provider handle
 and runs the gate. The static latch is a NotificationEventAvailability
 object that each instance is given at construction and that is meant to be
 shared by every instance. Platform calls are answered from a `Platform` value and logged.
 */
module NotificationControls {
  import opened NativeMethods
  import opened AutomationPeer

  /** The static `_notificationEventAvailable`: an object meant to be shared by every text block. */
  class NotificationEventAvailability {
    var available: bool

    /** The latch starts on: the event is assumed available until shown otherwise. */
    constructor ()
      ensures available
    {
      available := true;
    }
  }

  class NotificationTextBlock {
    /** The latch, meant to be the same object for every instance. */
    const events: NotificationEventAvailability
    var peer: NotificationTextBlockAutomationPeer?
    /** TextBlock.Text. */
    var text: string

    /** A peer, once created, belongs to this element. */
    ghost predicate Valid()
      reads this
    {
      peer != null ==> peer.owner == this
    }

    constructor (events: NotificationEventAvailability)
      ensures this.events == events && peer == null && text == "" && Valid()
    {
      this.events := events;
      peer := null;
      text := "";
    }

    /** The getter of the NotificationEventAvailable property. */
    function NotificationEventAvailable(): (b: bool)
      reads events
      // every instance holding the same latch object reads the same value
      ensures b == events.available
    {
      events.available
    }

    /** The setter of the NotificationEventAvailable property: it writes the shared latch. */
    method SetNotificationEventAvailable(value: bool)
      modifies events
      // every text block holding this latch object reads the new value
      ensures forall t: NotificationTextBlock :: t.events == events ==> t.NotificationEventAvailable() == value
    {
      events.available := value;
    }

    /** Creates the element's automation peer, with an empty provider cache, and keeps it. */
    method OnCreateAutomationPeer() returns (p: NotificationTextBlockAutomationPeer)
      modifies this`peer
      ensures fresh(p) && p.owner == this && p.reps == None
      ensures peer == p && Valid()
    {
      p := new NotificationTextBlockAutomationPeer(this);
      peer := p;
    }

    /** Without a peer nothing happens; otherwise the peer's gate runs with the same arguments. */
    method RaiseNotificationEvent(notificationText: string, notificationGuid: string, platform: Platform)
      returns (calls: seq<Call<NotificationTextBlock>>)
      requires Valid()
      modifies peer, events
      ensures peer == old(peer) && Valid()
      ensures old(peer) == null ==> calls == [] && unchanged(events)
      ensures old(peer) != null ==>
        var r := PeerRaise(this, old(events.available), old(peer.reps), notificationText, notificationGuid, platform);
        peer.reps == r.reps && events.available == r.available && calls == r.calls
    {
      calls := [];
      if peer != null {
        calls := peer.RaiseNotificationEvent(notificationText, notificationGuid, platform);
      }
    }
  }

  class NotificationTextBlockAutomationPeer {
    const owner: NotificationTextBlock
    /** `_reps`: the IRawElementProviderSimple of this peer, once obtained. */
    var reps: Option<Handle>

    constructor (owner: NotificationTextBlock)
      ensures this.owner == owner && reps == None
    {
      this.owner := owner;
      reps := None;
    }

    /** The gate: latch, listeners, lazy provider lookup, native call, latch off on a missing entry point. */
    method RaiseNotificationEvent(notificationText: string, notificationGuid: string, platform: Platform)
      returns (calls: seq<Call<NotificationTextBlock>>)
      modifies this`reps, owner.events
      ensures var r := PeerRaise(owner, old(owner.events.available), old(reps), notificationText, notificationGuid, platform);
        reps == r.reps && owner.events.available == r.available && calls == r.calls
    {
      calls := [];
      if owner.NotificationEventAvailable() {
        var listening := platform.clientsListening;
        calls := calls + [ClientsAreListening(listening)];
        if listening {
          if reps == None {
            var found := platform.fromElement;
            calls := calls + [FromElement(owner, found)];
            if found != None {
              var provider := platform.providerFromPeer;
              calls := calls + [ProviderFromPeer(found.value, provider)];
              reps := provider;
            }
          }
          if reps != None {
            var outcome := platform.raiseOutcome;
            calls := calls + [RaiseNotification(reps.value, NotificationKind, NotificationProcessing,
                                                notificationText, notificationGuid, outcome)];
            if outcome == EntryPointNotFound {
              owner.SetNotificationEventAvailable(false);
            }
          }
        }
      }
    }
  }
}
