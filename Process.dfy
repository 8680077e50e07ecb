/**
 A process holding several NotificationTextBlock elements that share the one
 static latch. Each element either has no automation peer yet or has one with
 its own provider cache. Events are the two operations of the element that
 touch this state: OnCreateAutomationPeer and RaiseNotificationEvent. A run
 folds the events over the state and concatenates the platform calls made,
 so that lemmas can speak about every later call on every instance.
 */
module Process {
  import opened NativeMethods
  import opened AutomationPeer

  /** The element's `_peer`: null, or a peer with its `_reps` cache. */
  datatype PeerSlot = NoPeer | HasPeer(reps: Option<Handle>)

  /** The static `_notificationEventAvailable` and every element's peer. */
  datatype World = World(available: bool, elements: seq<PeerSlot>)

  /** Elements are named by their index in `World.elements`. */
  datatype Event =
    | CreatePeer(element: nat)
    | Request(element: nat, text: string, guid: string, platform: Platform)

  datatype RunResult = RunResult(world: World, calls: seq<Call<nat>>)

  /** The start of the process: the latch is on and no element has a peer. */
  function Start(n: nat): (w: World)
    ensures w.available && |w.elements| == n
    ensures forall k :: 0 <= k < n ==> w.elements[k] == NoPeer
  {
    World(true, seq(n, _ => NoPeer))
  }

  predicate EventsFit(w: World, evs: seq<Event>)
  {
    forall i :: 0 <= i < |evs| ==> evs[i].element < |w.elements|
  }

  /** One event on the element it names. */
  function Step(w: World, e: Event): (r: RunResult)
    requires e.element < |w.elements|
    ensures |r.world.elements| == |w.elements|
    ensures forall j :: 0 <= j < |w.elements| && j != e.element ==> r.world.elements[j] == w.elements[j]
    // only a new peer creates or replaces the named element's peer, and it starts with an empty cache
    ensures e.CreatePeer? ==> r.world.elements[e.element] == HasPeer(None)
    ensures e.Request? ==> (r.world.elements[e.element].HasPeer? <==> w.elements[e.element].HasPeer?)
    ensures r.world.available == (w.available && FailedAttempts(r.calls) == 0)
    ensures r.world.available == (w.available && (NoNativeCall(r.calls) || (e.Request? && e.platform.raiseOutcome == Ok)))
    ensures !w.available ==> NoNativeCall(r.calls)
    ensures FailedAttempts(r.calls) <= 1
    ensures !NoNativeCall(r.calls) ==> r.calls[|r.calls| - 1].RaiseNotification? && NoNativeCall(r.calls[..|r.calls| - 1])
  {
    match e
    case CreatePeer(k) =>
      RunResult(w.(elements := w.elements[k := HasPeer(None)]), [])
    case Request(k, text, guid, p) =>
      match w.elements[k]
      case NoPeer => RunResult(w, [])
      case HasPeer(reps) =>
        var o := PeerRaise(k, w.available, reps, text, guid, p);
        RunResult(World(o.available, w.elements[k := HasPeer(o.reps)]), o.calls)
  }

  /** The events one after another, with the platform calls they made. */
  function Run(w: World, evs: seq<Event>): (r: RunResult)
    requires EventsFit(w, evs)
    ensures |r.world.elements| == |w.elements|
    decreases |evs|
  {
    if evs == [] then RunResult(w, [])
    else
      var first := Step(w, evs[0]);
      var rest := Run(first.world, evs[1..]);
      RunResult(rest.world, first.calls + rest.calls)
  }

  lemma NoNativeCallAppend<E>(a: seq<Call<E>>, b: seq<Call<E>>)
    ensures NoNativeCall(a + b) <==> NoNativeCall(a) && NoNativeCall(b)
  {
    if NoNativeCall(a) && NoNativeCall(b) {
      forall i | 0 <= i < |a + b| ensures !(a + b)[i].RaiseNotification? {
        if i >= |a| { assert (a + b)[i] == b[i - |a|]; }
      }
    }
    if NoNativeCall(a + b) {
      forall i | 0 <= i < |a| ensures !a[i].RaiseNotification? {
        assert (a + b)[i] == a[i];
      }
      forall i | 0 <= i < |b| ensures !b[i].RaiseNotification? {
        assert (a + b)[|a| + i] == b[i];
      }
    }
  }

  /** The latch never goes back on, whatever happens. */
  lemma {:induction false} LatchIsMonotone(w: World, evs: seq<Event>)
    requires EventsFit(w, evs)
    ensures Run(w, evs).world.available ==> w.available
    decreases |evs|
  {
    if evs != [] {
      var first := Step(w, evs[0]);
      LatchIsMonotone(first.world, evs[1..]);
    }
  }

  /** Once the latch is off, no later request on any element reaches the native call. */
  lemma {:induction false} NoNativeCallOnceLatched(w: World, evs: seq<Event>)
    requires EventsFit(w, evs)
    requires !w.available
    ensures NoNativeCall(Run(w, evs).calls)
    ensures !Run(w, evs).world.available
    decreases |evs|
  {
    if evs != [] {
      var first := Step(w, evs[0]);
      NoNativeCallOnceLatched(first.world, evs[1..]);
      NoNativeCallAppend(first.calls, Run(first.world, evs[1..]).calls);
    }
  }

  /** The unsupported native call is attempted at most once in the life of the
      process, and never if the latch was off to begin with. */
  lemma {:induction false} AtMostOneFailedAttempt(w: World, evs: seq<Event>)
    requires EventsFit(w, evs)
    ensures FailedAttempts(Run(w, evs).calls) <= (if w.available then 1 else 0)
    ensures Run(w, evs).world.available <==> w.available && FailedAttempts(Run(w, evs).calls) == 0
    decreases |evs|
  {
    if evs != [] {
      var first := Step(w, evs[0]);
      var rest := Run(first.world, evs[1..]);
      AtMostOneFailedAttempt(first.world, evs[1..]);
      FailedAttemptsAppend(first.calls, rest.calls);
    }
  }

  lemma OnlyNativeCallIsLast<E>(calls: seq<Call<E>>, i: nat)
    requires i < |calls| && calls[i].RaiseNotification?
    requires NoNativeCall(calls[..|calls| - 1])
    ensures i == |calls| - 1
  {
  }

  lemma {:induction false} FailedCallIsCounted<E>(calls: seq<Call<E>>, i: nat)
    requires i < |calls| && calls[i].RaiseNotification? && calls[i].outcome == EntryPointNotFound
    ensures FailedAttempts(calls) > 0
  {
    if i > 0 {
      FailedCallIsCounted(calls[1..], i - 1);
    }
  }

  /** After a native call that failed with EntryPointNotFound, the log holds no further native call. */
  lemma {:induction false} FailureIsFinal(w: World, evs: seq<Event>, i: nat)
    requires EventsFit(w, evs)
    requires i < |Run(w, evs).calls|
    requires Run(w, evs).calls[i].RaiseNotification? && Run(w, evs).calls[i].outcome == EntryPointNotFound
    ensures NoNativeCall(Run(w, evs).calls[i + 1..])
    decreases |evs|
  {
    var first := Step(w, evs[0]);
    var rest := Run(first.world, evs[1..]);
    var calls := first.calls + rest.calls;
    assert Run(w, evs).calls == calls;
    if i < |first.calls| {
      assert calls[i] == first.calls[i];
      OnlyNativeCallIsLast(first.calls, i);
      FailedCallIsCounted(first.calls, i);
      NoNativeCallOnceLatched(first.world, evs[1..]);
      assert calls[i + 1..] == rest.calls;
    } else {
      var j := i - |first.calls|;
      assert calls[i] == rest.calls[j];
      FailureIsFinal(first.world, evs[1..], j);
      assert calls[i + 1..] == rest.calls[j + 1..];
    }
  }

  predicate NoCreatePeerFor(evs: seq<Event>, k: nat)
  {
    forall i :: 0 <= i < |evs| ==> evs[i] != CreatePeer(k)
  }

  predicate NoLookupOf(calls: seq<Call<nat>>, k: nat)
  {
    forall i :: 0 <= i < |calls| ==> !(calls[i].FromElement? && calls[i].element == k)
  }

  /** One event other than a new peer for `k` keeps `k`'s handle and does not look `k` up. */
  lemma StepKeepsHandle(w: World, e: Event, k: nat, h: Handle)
    requires e.element < |w.elements|
    requires k < |w.elements| && w.elements[k] == HasPeer(Some(h))
    requires e != CreatePeer(k)
    ensures Step(w, e).world.elements[k] == HasPeer(Some(h))
    ensures NoLookupOf(Step(w, e).calls, k)
  {
    if e.Request? && e.element == k {
      CachedHandleIsReused(k, h, e.text, e.guid, e.platform, w.available);
    }
  }

  lemma NoLookupOfAppend(a: seq<Call<nat>>, b: seq<Call<nat>>, k: nat)
    requires NoLookupOf(a, k) && NoLookupOf(b, k)
    ensures NoLookupOf(a + b, k)
  {
    forall j | 0 <= j < |a + b| ensures !((a + b)[j].FromElement? && (a + b)[j].element == k) {
      if j >= |a| { assert (a + b)[j] == b[j - |a|]; }
    }
  }

  /** A resolved handle stays cached for the peer's lifetime, and the element is
      never looked up again. */
  lemma {:induction false} HandleIsMemoized(w: World, evs: seq<Event>, k: nat, h: Handle)
    requires EventsFit(w, evs)
    requires k < |w.elements| && w.elements[k] == HasPeer(Some(h))
    requires NoCreatePeerFor(evs, k)
    ensures Run(w, evs).world.elements[k] == HasPeer(Some(h))
    ensures NoLookupOf(Run(w, evs).calls, k)
    decreases |evs|
  {
    if evs != [] {
      var first := Step(w, evs[0]);
      StepKeepsHandle(w, evs[0], k, h);
      HandleIsMemoized(first.world, evs[1..], k, h);
      NoLookupOfAppend(first.calls, Run(first.world, evs[1..]).calls, k);
    }
  }

  /** A request for an element without a peer changes nothing and asks nothing. */
  lemma RequestWithoutPeerIsInert(w: World, k: nat, text: string, guid: string, p: Platform)
    requires k < |w.elements| && w.elements[k] == NoPeer
    ensures Step(w, Request(k, text, guid, p)) == RunResult(w, [])
  {
  }

  /** The example session: a listening client, a resolvable peer and a missing
      entry point. The first request makes one failed native call with the
      fixed kind and processing; the identical second request makes none. */
  lemma RepeatedRequestAfterMissingEntryPoint(text: string, guid: string, peer: Peer, h: Handle)
    ensures var p := Platform(true, Some(peer), Some(h), EntryPointNotFound);
      var r := Run(Start(1), [CreatePeer(0), Request(0, text, guid, p), Request(0, text, guid, p)]);
      !r.world.available && r.world.elements == [HasPeer(Some(h))] &&
      r.calls == [ClientsAreListening(true), FromElement(0, Some(peer)), ProviderFromPeer(peer, Some(h)),
                  RaiseNotification(h, ActionCompleted, ImportantMostRecent, text, guid, EntryPointNotFound)]
  {
    var p := Platform(true, Some(peer), Some(h), EntryPointNotFound);
    var evs := [CreatePeer(0), Request(0, text, guid, p), Request(0, text, guid, p)];
    var w1 := Step(Start(1), evs[0]).world;
    assert w1 == World(true, [HasPeer(None)]);
    var s2 := Step(w1, evs[1]);
    assert s2.world == World(false, [HasPeer(Some(h))]);
    assert s2.calls == [ClientsAreListening(true), FromElement(0, Some(peer)), ProviderFromPeer(peer, Some(h)),
                        RaiseNotification(h, ActionCompleted, ImportantMostRecent, text, guid, EntryPointNotFound)];
    var s3 := Step(s2.world, evs[2]);
    assert s3 == RunResult(s2.world, []);
    assert evs[1..][1..] == [evs[2]];
    assert evs[1..][1..][1..] == [];
    assert Run(s2.world, [evs[2]]) == RunResult(s2.world, []);
    assert Run(w1, evs[1..]) == RunResult(s2.world, s2.calls);
  }
}
