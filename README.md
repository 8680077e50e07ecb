# WPF UI Automation notification gate, modelled in Dafny

WPFNotificationSimulation is a small WPF demo. A `NotificationTextBlock` raises
UI Automation Notification events through its automation peer, so that screen
readers announce messages without moving focus. The peer decides on each
request whether the native `UiaRaiseNotificationEvent` is called. It checks,
in this order, stopping at the first failure:

1. the process-wide latch `_notificationEventAvailable`;
2. `UiaClientsAreListening()`;
3. the provider handle `_reps`, which is looked up lazily through
   `FrameworkElementAutomationPeer.FromElement` and `ProviderFromPeer` and then kept;
4. then it makes the native call with `ActionCompleted` and `ImportantMostRecent`.

An `EntryPointNotFoundException` from that call means the platform lacks the
API. The peer then switches the latch off for every instance and swallows the
exception. The demo window's Enter-key handler turns the trimmed input into a
response line. It announces that line through the log block, appends it to the
log and clears the input.

Modules and files:

- `NativeMethods` (NativeMethods.dfy): the two notification enums and their
  integer values. It also holds stand-ins for the automation peer and the provider
  handle, the `Platform` record of oracle answers, and the `Call` log of platform
  calls. Each `Call` records its arguments and the answer it got.
- `AutomationPeer` (AutomationPeer.dfy): `PeerRaise`, the gate of one request
  as a pure function of the latch, the cache and the platform's answers. It
  returns the new latch, the new cache and the calls made.
- `NotificationControls` (NotificationControls.dfy): the classes
  `NotificationTextBlock` and `NotificationTextBlockAutomationPeer`, with the
  fields the source updates. The static latch is a `NotificationEventAvailability`
  object that each text block holds in a `const` field. Each `RaiseNotificationEvent`
  method is proved equal to `PeerRaise`.
- `Process` (Process.dfy): any number of text blocks sharing one latch, and runs
  of `OnCreateAutomationPeer` and `RaiseNotificationEvent` events over them. This is
  where the properties that span several requests and instances are proved.
- `MainWindow` (MainWindow.dfy): the Enter-key handler, as the pure `KeyDown`
  and as the `Window.InputWindowKeyDown` method over the two text fields and
  `e.Handled`.

External calls are parameters. The platform's four answers for one request are a
`Platform` value. `trim` is a function parameter standing for `String.Trim`.

Three details of the code that the model keeps:

- The notification kind and processing are fixed in the code
  (`ActionCompleted`, `ImportantMostRecent`). They are not configurable.
- The `NotificationEventAvailable` setter is public and would accept `true`. The
  latch is one-way only because no code writes `true` to it.
- The code checks `_reps != null` after `ProviderFromPeer`, so a null provider is
  modelled as `None`. Such a request then skips the native call.

## Model

| member | source | states |
|---|---|---|
| NativeMethods.KindValue | WPFNotificationSimulation/MainWindow.xaml.cs:141-148 | each notification kind is marshalled as an integer in 0..4, and decoding that integer gives the kind back |
| NativeMethods.KindFromValue | WPFNotificationSimulation/MainWindow.xaml.cs:141-148 | an integer names a kind exactly when it is in 0..4 |
| NativeMethods.KindValueRoundTrip | WPFNotificationSimulation/MainWindow.xaml.cs:141-148 | encoding the kind decoded from any integer in 0..4 gives back that integer |
| NativeMethods.ProcessingValue | WPFNotificationSimulation/MainWindow.xaml.cs:150-157 | each processing mode is marshalled as an integer in 0..4, and decoding that integer gives the mode back |
| NativeMethods.ProcessingFromValue | WPFNotificationSimulation/MainWindow.xaml.cs:150-157 | an integer names a processing mode exactly when it is in 0..4 |
| NativeMethods.ProcessingValueRoundTrip | WPFNotificationSimulation/MainWindow.xaml.cs:150-157 | encoding the mode decoded from any integer in 0..4 gives back that integer |
| AutomationPeer.ResolveProvider | WPFNotificationSimulation/MainWindow.xaml.cs:104-111 | a filled cache is returned without any platform call; otherwise FromElement is asked, and ProviderFromPeer only when it found a peer; the provider cached is ProviderFromPeer's answer; no native call is made |
| AutomationPeer.RaiseToListeners | WPFNotificationSimulation/MainWindow.xaml.cs:102-134 | with the latch on and a listener: the listener probe comes first, then exactly the calls of the lazy lookup (ResolveProvider), and the new cache is that lookup's handle; the native call is made exactly when that handle exists; it is the last call; it carries the handle, the fixed kind and processing, and the text and guid unchanged; the latch ends off exactly when that call failed with EntryPointNotFound |
| AutomationPeer.PeerRaise | WPFNotificationSimulation/MainWindow.xaml.cs:93-137 | one request: the latch never turns on; a cached handle is kept; FromElement is asked about the owner only; with the latch on and a listener, the listener probe is followed by exactly the lazy lookup's calls and the cache becomes the lookup's handle, so an empty cache is filled by FromElement and then ProviderFromPeer; the native call is made exactly when the latch is on, a client listens and a handle is known; it comes last, with kind 2 and processing 1 and the text and guid unchanged; the latch turns off exactly when that call failed; at most one failed attempt per request |
| AutomationPeer.LatchOffIsInert | WPFNotificationSimulation/MainWindow.xaml.cs:95-97 | with the latch off, no platform call is made and the cache and latch are unchanged |
| AutomationPeer.NoListenersSkipsLookupAndCall | WPFNotificationSimulation/MainWindow.xaml.cs:99-100 | with no listener, only the listener probe is made; there is no lookup and no native call; the state is unchanged |
| AutomationPeer.CachedHandleIsReused | WPFNotificationSimulation/MainWindow.xaml.cs:104-111 | with a cached handle, neither FromElement nor ProviderFromPeer is called, and the handle stays |
| AutomationPeer.EmptyCacheIsFilledByLookup | WPFNotificationSimulation/MainWindow.xaml.cs:104-122 | with an empty cache, a listener and a peer found, the calls are the listener probe, FromElement on the owner and ProviderFromPeer on that peer; the cache becomes ProviderFromPeer's answer; when that is a provider, the native call that follows gets exactly it |
| AutomationPeer.MissingPeerIsTransient | WPFNotificationSimulation/MainWindow.xaml.cs:104-113 | when FromElement finds no peer, the cache stays empty, the native call is skipped and the latch stays on |
| AutomationPeer.NativeOutcomeDecidesLatch | WPFNotificationSimulation/MainWindow.xaml.cs:113-133 | once the native call is reached, the latch stays on if the call returns normally and turns off on EntryPointNotFound; nothing is thrown to the caller |
| Process.Start | WPFNotificationSimulation/MainWindow.xaml.cs:44-49 | a process starts with the latch on and no element holding a peer |
| Process.Step | WPFNotificationSimulation/MainWindow.xaml.cs:63-77 | one event (a new peer, or a request) leaves every other element's peer alone; a new peer replaces the element's peer with one whose cache is empty; a request neither creates nor removes the element's peer; with the latch off it makes no native call; a native call, if any, is its last call; the shared latch stays on exactly when no native call of the event failed |
| Process.LatchIsMonotone | WPFNotificationSimulation/MainWindow.xaml.cs:128-133 | over any run on any instances, the latch never turns back on |
| Process.NoNativeCallOnceLatched | WPFNotificationSimulation/MainWindow.xaml.cs:95-97 | once the latch is off, no later request on any instance makes the native call, and the latch stays off |
| Process.AtMostOneFailedAttempt | WPFNotificationSimulation/MainWindow.xaml.cs:121-133 | over any run the native call fails with EntryPointNotFound at most once, and never if the latch started off; the latch ends on exactly when it started on and no call failed |
| Process.FailureIsFinal | WPFNotificationSimulation/MainWindow.xaml.cs:128-133 | after a failed native call, no native call follows anywhere in the log |
| Process.HandleIsMemoized | WPFNotificationSimulation/MainWindow.xaml.cs:104-111 | once an element's peer holds a handle, the handle stays for the peer's lifetime and FromElement is never asked about that element again |
| Process.RequestWithoutPeerIsInert | WPFNotificationSimulation/MainWindow.xaml.cs:72-76 | a request on an element that has no peer makes no call and changes nothing |
| Process.RepeatedRequestAfterMissingEntryPoint | WPFNotificationSimulation/MainWindow.xaml.cs:93-137 | there are listeners, a resolvable peer and no entry point: the first request makes exactly one failed native call with ActionCompleted and ImportantMostRecent; an identical second request makes no call |
| NotificationControls.NotificationEventAvailability.constructor | WPFNotificationSimulation/MainWindow.xaml.cs:46-49 | the shared latch starts on |
| NotificationControls.NotificationTextBlock.constructor | WPFNotificationSimulation/MainWindow.xaml.cs:42-44 | a new text block holds the latch object it is given, has no peer yet and has empty text |
| NotificationControls.NotificationTextBlock.SetNotificationEventAvailable | WPFNotificationSimulation/MainWindow.xaml.cs:57-60 | the setter writes the value to the latch object, and every text block holding that object then reads the new value through the getter |
| NotificationControls.NotificationTextBlock.OnCreateAutomationPeer | WPFNotificationSimulation/MainWindow.xaml.cs:63-68 | a fresh peer is created, owned by this element and with an empty cache; it is stored in the element and returned |
| NotificationControls.NotificationTextBlock.RaiseNotificationEvent | WPFNotificationSimulation/MainWindow.xaml.cs:70-77 | without a peer, nothing is asked and the latch is unchanged; otherwise the peer's gate runs with the same text and guid; the element's peer is never replaced |
| NotificationControls.NotificationTextBlockAutomationPeer.constructor | WPFNotificationSimulation/MainWindow.xaml.cs:88-91 | a peer records its owner and starts with no cached provider |
| NotificationControls.NotificationTextBlockAutomationPeer.RaiseNotificationEvent | WPFNotificationSimulation/MainWindow.xaml.cs:93-137 | the new cache, the new shared latch and the platform calls made are exactly those of PeerRaise for the old latch and cache |
| MainWindow.KeyDown | WPFNotificationSimulation/MainWindow.xaml.cs:20-38 | a response is produced exactly on Enter with a non-empty trimmed input; the response is the fixed prefix followed by the trimmed input; the log becomes the old log, the response and CRLF; the input is cleared; otherwise both texts are unchanged; Enter is always marked handled; other keys leave the flag alone |
| MainWindow.Response | WPFNotificationSimulation/MainWindow.xaml.cs:27 | the response line is the fixed prefix followed by exactly the trimmed entry, so the entry can be read back from it |
| MainWindow.RepeatedEnterIsInert | WPFNotificationSimulation/MainWindow.xaml.cs:22-36 | if trimming the empty string gives the empty string, a second Enter right after a sent entry produces nothing; it only marks the key handled |
| MainWindow.EnterAppendsLine | WPFNotificationSimulation/MainWindow.xaml.cs:24-33 | one Enter appends exactly the entry's line to the log and announces exactly that entry's response |
| MainWindow.SessionAppendsTranscript | WPFNotificationSimulation/MainWindow.xaml.cs:24-33 | after a series of entries, each followed by Enter, the log is the old log and then the lines of the non-blank entries in order; exactly those responses were announced |
| MainWindow.Window.constructor | WPFNotificationSimulation/MainWindow.xaml.cs:13-18 | the window holds the fixed notification guid and its two text boxes |
| MainWindow.Window.InputWindowKeyDown | WPFNotificationSimulation/MainWindow.xaml.cs:20-38 | the input text, the log text and e.Handled become what KeyDown gives; with a response, the log block's gate runs with it and the window guid; without one, nothing is asked |

## Left out

- Window construction, `InitializeComponent`, XAML layout and rendering: presentation only.
- The P/Invoke bindings into UIAutomationCore.dll, `FrameworkElementAutomationPeer.FromElement` and `ProviderFromPeer` are platform calls. Only their answers are modelled, as the fields of a `Platform` value.
- The integer returned by `UiaRaiseNotificationEvent` is ignored by the code, so "returned normally" is a single `Ok` outcome.
- Exceptions other than `EntryPointNotFoundException` are not caught by the code. They are not modelled, and neither is an exception from `UiaClientsAreListening`.
- `String.Trim` is the parameter `trim`. Only `RepeatedEnterIsInert` assumes anything about it: that it maps the empty string to itself.
- Typing into the input box is not part of the handler. `Session` models it by setting the input to each entry before Enter.
- The WPF `Key` enumeration is reduced to `Enter` and every other key.
- Threading: everything runs on the UI thread.
- NotificationControls.NotificationTextBlock.NotificationEventAvailable: the getter is a plain read of the latch object. What all instances see after a write is stated on `SetNotificationEventAvailable`.
- NotificationControls.NotificationTextBlock.constructor: the classes do not force all text blocks to share one latch object. The constructor takes whatever `NotificationEventAvailability` it is given, so sharing is up to whoever builds the text blocks. Dafny has no mutable static field. The cross-instance properties (`LatchIsMonotone`, `NoNativeCallOnceLatched`, `AtMostOneFailedAttempt`, `FailureIsFinal`) are proved in `Process`, where `World.available` is the single latch. `Process.Step` and the class methods agree only because both delegate to `PeerRaise`.
- The model keeps no link between `FromElement`'s answer and the peer object created by `OnCreateAutomationPeer`. WPF would normally return that same peer.
