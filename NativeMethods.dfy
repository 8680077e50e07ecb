/**
 The platform boundary of the notification gate: the two UI Automation enums
 with their numeric values, opaque stand-ins for the automation peer and the
 raw element provider, and the oracle answers the platform gives during one
 request. Every platform call the gate makes is logged as a `Call`, together
 with the answer it got, so that contracts can say which oracle was consulted,
 in which order and with what arguments.
 */
module NativeMethods {

  datatype Option<T> = None | Some(value: T)

  /** AutomationNotificationKind, with the values the native API expects. */
  datatype AutomationNotificationKind =
    | ItemAdded
    | ItemRemoved
    | ActionCompleted
    | ActionAborted
    | Other

  /** AutomationNotificationProcessing, with the values the native API expects. */
  datatype AutomationNotificationProcessing =
    | ImportantAll
    | ImportantMostRecent
    | All
    | MostRecent
    | CurrentThenMostRecent

  /** The integer a kind is marshalled as. */
  function KindValue(k: AutomationNotificationKind): (v: int)
    ensures 0 <= v <= 4
    ensures KindFromValue(v) == Some(k)
  {
    match k
    case ItemAdded => 0
    case ItemRemoved => 1
    case ActionCompleted => 2
    case ActionAborted => 3
    case Other => 4
  }

  /** The kind an integer stands for, if any. */
  function KindFromValue(v: int): (r: Option<AutomationNotificationKind>)
    ensures r.Some? <==> 0 <= v <= 4
  {
    if v == 0 then Some(ItemAdded)
    else if v == 1 then Some(ItemRemoved)
    else if v == 2 then Some(ActionCompleted)
    else if v == 3 then Some(ActionAborted)
    else if v == 4 then Some(Other)
    else None
  }

  /** The integer a processing mode is marshalled as. */
  function ProcessingValue(p: AutomationNotificationProcessing): (v: int)
    ensures 0 <= v <= 4
    ensures ProcessingFromValue(v) == Some(p)
  {
    match p
    case ImportantAll => 0
    case ImportantMostRecent => 1
    case All => 2
    case MostRecent => 3
    case CurrentThenMostRecent => 4
  }

  /** The processing mode an integer stands for, if any. */
  function ProcessingFromValue(v: int): (r: Option<AutomationNotificationProcessing>)
    ensures r.Some? <==> 0 <= v <= 4
  {
    if v == 0 then Some(ImportantAll)
    else if v == 1 then Some(ImportantMostRecent)
    else if v == 2 then Some(All)
    else if v == 3 then Some(MostRecent)
    else if v == 4 then Some(CurrentThenMostRecent)
    else None
  }

  /** Decoding an integer and encoding the result gives the integer back. */
  lemma KindValueRoundTrip(v: int)
    requires 0 <= v <= 4
    ensures KindFromValue(v).Some? && KindValue(KindFromValue(v).value) == v
  {
  }

  /** Decoding an integer and encoding the result gives the integer back. */
  lemma ProcessingValueRoundTrip(v: int)
    requires 0 <= v <= 4
    ensures ProcessingFromValue(v).Some? && ProcessingValue(ProcessingFromValue(v).value) == v
  {
  }

  /** An AutomationPeer as returned by FrameworkElementAutomationPeer.FromElement. */
  datatype Peer = Peer(id: nat)

  /** An IRawElementProviderSimple as returned by ProviderFromPeer. */
  datatype Handle = Handle(id: nat)

  /** How UiaRaiseNotificationEvent returns: normally, or by throwing
      EntryPointNotFoundException because UIAutomationCore.dll lacks it. */
  datatype NativeOutcome = Ok | EntryPointNotFound

  /** What the platform answers, should the gate ask, during one request:
      UiaClientsAreListening(), FromElement(owner), ProviderFromPeer(peer)
      (null becomes None) and the way UiaRaiseNotificationEvent returns. */
  datatype Platform = Platform(
    clientsListening: bool,
    fromElement: Option<Peer>,
    providerFromPeer: Option<Handle>,
    raiseOutcome: NativeOutcome)

  /** One platform call and its answer. `E` identifies the element passed to FromElement. */
  datatype Call<E> =
    | ClientsAreListening(listening: bool)
    | FromElement(element: E, found: Option<Peer>)
    | ProviderFromPeer(peer: Peer, derived: Option<Handle>)
    | RaiseNotification(
        provider: Handle,
        kind: AutomationNotificationKind,
        processing: AutomationNotificationProcessing,
        text: string,
        guid: string,
        outcome: NativeOutcome)

  /** No call in the log reached UiaRaiseNotificationEvent. */
  predicate NoNativeCall<E>(calls: seq<Call<E>>)
  {
    forall i :: 0 <= i < |calls| ==> !calls[i].RaiseNotification?
  }

  /** The number of calls to UiaRaiseNotificationEvent that failed with EntryPointNotFound. */
  function FailedAttempts<E>(calls: seq<Call<E>>): (n: nat)
    ensures n <= |calls|
    ensures n == 0 <== NoNativeCall(calls)
  {
    if calls == [] then 0
    else (if calls[0].RaiseNotification? && calls[0].outcome == EntryPointNotFound then 1 else 0)
         + FailedAttempts(calls[1..])
  }

  lemma {:induction false} FailedAttemptsAppend<E>(a: seq<Call<E>>, b: seq<Call<E>>)
    ensures FailedAttempts(a + b) == FailedAttempts(a) + FailedAttempts(b)
  {
    if a == [] {
      assert a + b == b;
    } else {
      assert (a + b)[1..] == a[1..] + b;
      FailedAttemptsAppend(a[1..], b);
    }
  }
}
