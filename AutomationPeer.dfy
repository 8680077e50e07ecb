/**
 The decision NotificationTextBlockAutomationPeer.RaiseNotificationEvent makes
 on one request, as a function of the shared latch, the peer's cached provider
 handle and the platform's answers. The result is the new latch, the new cache
 and the log of platform calls made, in order.
 */
module AutomationPeer {
  import opened NativeMethods

  /** The state one request leaves behind, and what it asked the platform. */
  datatype PeerOutcome<E> = PeerOutcome(available: bool, reps: Option<Handle>, calls: seq<Call<E>>)

  /** The kind and processing values the gate passes to the native call. */
  const NotificationKind := ActionCompleted
  const NotificationProcessing := ImportantMostRecent

  /** The lazy lookup of the provider handle: the cache if it is filled,
      otherwise FromElement and, on a peer, ProviderFromPeer. */
  function ResolveProvider<E>(owner: E, reps: Option<Handle>, p: Platform): (r: (Option<Handle>, seq<Call<E>>))
    ensures reps.Some? ==> r == (reps, [])
    ensures reps.None? && p.fromElement.None? ==> r == (None, [FromElement(owner, None)])
    ensures reps.None? && p.fromElement.Some? ==>
      r == (p.providerFromPeer, [FromElement(owner, p.fromElement), ProviderFromPeer(p.fromElement.value, p.providerFromPeer)])
    ensures NoNativeCall(r.1) && FailedAttempts(r.1) == 0
  {
    if reps.Some? then (reps, [])
    else match p.fromElement
      case None => (None, [FromElement(owner, None)])
      case Some(peer) => (p.providerFromPeer, [FromElement(owner, Some(peer)), ProviderFromPeer(peer, p.providerFromPeer)])
  }

  /** The gate once the latch is on and a client listens: resolve the handle, then make the native call. */
  function RaiseToListeners<E>(owner: E, reps: Option<Handle>, text: string, guid: string, p: Platform): (r: PeerOutcome<E>)
    requires p.clientsListening
    ensures reps.Some? ==> r.reps == reps
    // the cache is what the lazy lookup gives, and the lookup's calls follow the listener probe
    ensures r.reps == ResolveProvider(owner, reps, p).0
    ensures 1 + |ResolveProvider(owner, reps, p).1| <= |r.calls| &&
      r.calls[..1 + |ResolveProvider(owner, reps, p).1|] == [ClientsAreListening(true)] + ResolveProvider(owner, reps, p).1
    ensures |r.calls| > 0 && r.calls[0] == ClientsAreListening(true)
    ensures forall i :: 0 <= i < |r.calls| && r.calls[i].FromElement? ==> r.calls[i].element == owner
    ensures forall i :: 0 <= i < |r.calls| && r.calls[i].RaiseNotification? ==>
      r.reps.Some? && r.calls[i] == RaiseNotification(r.reps.value, ActionCompleted, ImportantMostRecent, text, guid, p.raiseOutcome)
    ensures NoNativeCall(r.calls) <==> r.reps.None?
    ensures !NoNativeCall(r.calls) ==> r.calls[|r.calls| - 1].RaiseNotification? && NoNativeCall(r.calls[..|r.calls| - 1])
    ensures r.available == (NoNativeCall(r.calls) || p.raiseOutcome == Ok)
    ensures FailedAttempts(r.calls) == (if r.available then 0 else 1)
  {
    var (reps', lookups) := ResolveProvider(owner, reps, p);
    var asked := [ClientsAreListening(true)] + lookups;
    assert NoNativeCall(asked) by {
      forall i | 0 <= i < |asked| ensures !asked[i].RaiseNotification? {
        if i > 0 { assert asked[i] == lookups[i - 1]; }
      }
    }
    FailedAttemptsAppend([ClientsAreListening(true)], lookups);
    if reps'.None? then
      PeerOutcome(true, reps', asked)
    else
      var call := RaiseNotification(reps'.value, NotificationKind, NotificationProcessing, text, guid, p.raiseOutcome);
      assert (asked + [call])[..|asked|] == asked;
      assert (asked + [call])[|asked|] == call;
      FailedAttemptsAppend(asked, [call]);
      PeerOutcome(p.raiseOutcome != EntryPointNotFound, reps', asked + [call])
  }

  /** One call of RaiseNotificationEvent(text, guid) on the peer of `owner`. */
  function PeerRaise<E>(owner: E, available: bool, reps: Option<Handle>, text: string, guid: string, p: Platform): (r: PeerOutcome<E>)
    // the only write to the latch is `false`
    ensures r.available ==> available
    // a resolved handle is never replaced or dropped
    ensures reps.Some? ==> r.reps == reps
    // the element looked up is always the owner
    ensures forall i :: 0 <= i < |r.calls| && r.calls[i].FromElement? ==> r.calls[i].element == owner
    // every native call gets the cached handle, ActionCompleted (2), ImportantMostRecent (1), and text and guid unchanged
    ensures forall i :: 0 <= i < |r.calls| && r.calls[i].RaiseNotification? ==>
      r.reps.Some? && r.calls[i] == RaiseNotification(r.reps.value, ActionCompleted, ImportantMostRecent, text, guid, p.raiseOutcome)
      && KindValue(r.calls[i].kind) == 2 && ProcessingValue(r.calls[i].processing) == 1
    // with the latch on and a listener, the cache is what the lazy lookup gives, and the
    // lookup's calls follow the listener probe
    ensures available && p.clientsListening ==>
      r.reps == ResolveProvider(owner, reps, p).0 && 1 + |ResolveProvider(owner, reps, p).1| <= |r.calls| &&
      r.calls[..1 + |ResolveProvider(owner, reps, p).1|] == [ClientsAreListening(true)] + ResolveProvider(owner, reps, p).1
    // the native call is the last thing asked, and is made exactly when the chain gets that far
    ensures NoNativeCall(r.calls) <==> !(available && p.clientsListening && r.reps.Some?)
    ensures !NoNativeCall(r.calls) ==> r.calls[|r.calls| - 1].RaiseNotification? && NoNativeCall(r.calls[..|r.calls| - 1])
    // the latch flips exactly when a native call failed with EntryPointNotFound
    ensures r.available == (available && (NoNativeCall(r.calls) || p.raiseOutcome == Ok))
    ensures r.available == (available && FailedAttempts(r.calls) == 0)
    ensures FailedAttempts(r.calls) <= 1
  {
    if !available then
      PeerOutcome(available, reps, [])
    else if !p.clientsListening then
      PeerOutcome(available, reps, [ClientsAreListening(false)])
    else
      RaiseToListeners(owner, reps, text, guid, p)
  }

  /** A latch that is already off: nothing is asked and nothing changes. */
  lemma LatchOffIsInert<E>(owner: E, reps: Option<Handle>, text: string, guid: string, p: Platform)
    ensures PeerRaise(owner, false, reps, text, guid, p) == PeerOutcome(false, reps, [])
  {
  }

  /** No listening client: only the listener probe is made and nothing changes. */
  lemma NoListenersSkipsLookupAndCall<E>(owner: E, reps: Option<Handle>, text: string, guid: string, p: Platform)
    requires !p.clientsListening
    ensures PeerRaise(owner, true, reps, text, guid, p) == PeerOutcome(true, reps, [ClientsAreListening(false)])
  {
  }

  /** With the handle cached, neither FromElement nor ProviderFromPeer is consulted. */
  lemma CachedHandleIsReused<E>(owner: E, h: Handle, text: string, guid: string, p: Platform, available: bool)
    ensures var r := PeerRaise(owner, available, Some(h), text, guid, p);
      r.reps == Some(h) &&
      forall i :: 0 <= i < |r.calls| ==> !r.calls[i].FromElement? && !r.calls[i].ProviderFromPeer?
  {
  }

  /** An empty cache is filled by FromElement then ProviderFromPeer, and the native call,
      if one is made, gets exactly ProviderFromPeer's answer. */
  lemma EmptyCacheIsFilledByLookup<E>(owner: E, text: string, guid: string, p: Platform)
    requires p.clientsListening && p.fromElement.Some?
    ensures var r := PeerRaise(owner, true, None, text, guid, p);
      r.reps == p.providerFromPeer &&
      r.calls[..3] == [ClientsAreListening(true), FromElement(owner, p.fromElement), ProviderFromPeer(p.fromElement.value, p.providerFromPeer)] &&
      (p.providerFromPeer.Some? ==>
        r.calls == r.calls[..3] + [RaiseNotification(p.providerFromPeer.value, ActionCompleted, ImportantMostRecent, text, guid, p.raiseOutcome)])
  {
  }

  /** The element has no peer yet: the cache stays empty, the native call is
      skipped and the latch is not touched. */
  lemma MissingPeerIsTransient<E>(owner: E, text: string, guid: string, p: Platform)
    requires p.clientsListening && p.fromElement.None?
    ensures PeerRaise(owner, true, None, text, guid, p)
         == PeerOutcome(true, None, [ClientsAreListening(true), FromElement(owner, None)])
  {
  }

  /** A failed native call turns the latch off and is absorbed; a successful one leaves it on. */
  lemma NativeOutcomeDecidesLatch<E>(owner: E, reps: Option<Handle>, text: string, guid: string, p: Platform)
    requires p.clientsListening
    requires reps.Some? || (p.fromElement.Some? && p.providerFromPeer.Some?)
    ensures var r := PeerRaise(owner, true, reps, text, guid, p);
      !NoNativeCall(r.calls) && r.available == (p.raiseOutcome == Ok)
  {
  }
}
