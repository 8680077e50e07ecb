/**
 The demo window's Enter-key handler. On Enter it trims the input box; a
 non-empty result becomes a response line that is announced through the log
 block's notification and appended to the log, and the input box is cleared.
 `trim` stands for String.Trim, whose whitespace rules are not modelled.
 */
module MainWindow {
  import opened NativeMethods
  import opened AutomationPeer
  import opened NotificationControls

  datatype Key = Enter | OtherKey(code: nat)

  const ResponsePrefix: string := "This is the response to "
  const LineBreak: string := "\r\n"
  /** The correlation id every notification of the window carries. */
  const NotificationGuid: string := "5A5CA7F5-5683-4021-9821-B581DA0B3F26"

  /** The two texts and the Handled flag after a key press, and the response announced, if any. */
  datatype KeyDownOutcome = KeyDownOutcome(input: string, log: string, response: Option<string>, handled: bool)

  /** The line a trimmed entry produces. */
  function Response(subject: string): (r: string)
    // the fixed prefix, then exactly the entry: the entry can be read back from the line
    ensures |r| == |ResponsePrefix| + |subject|
    ensures r[..|ResponsePrefix|] == ResponsePrefix && r[|ResponsePrefix|..] == subject
  {
    ResponsePrefix + subject
  }

  /** One key press on the input box, given the input text, the log text and e.Handled before it. */
  function KeyDown(key: Key, input: string, log: string, handled: bool, trim: string -> string): (r: KeyDownOutcome)
    // a response is announced exactly on Enter with a non-empty trimmed entry
    ensures r.response.Some? <==> key == Enter && |trim(input)| > 0
    // the response is the prefix followed by the trimmed entry; the log gains exactly
    // that response and a line break after its old text; the input is cleared
    ensures r.response.Some? ==>
      r.response.value == ResponsePrefix + trim(input) &&
      r.log == log + r.response.value + LineBreak && r.input == ""
    // otherwise neither text changes
    ensures r.response.None? ==> r.input == input && r.log == log
    // Enter is always marked handled; any other key leaves the flag alone
    ensures r.handled == (handled || key == Enter)
  {
    if key != Enter then
      KeyDownOutcome(input, log, None, handled)
    else
      var entry := trim(input);
      if |entry| > 0 then
        var response := Response(entry);
        KeyDownOutcome("", log + response + LineBreak, Some(response), true)
      else
        KeyDownOutcome(input, log, None, true)
  }

  /** Pressing Enter again right after an entry was sent does nothing but mark the key handled,
      as long as trimming the empty string gives the empty string. */
  lemma RepeatedEnterIsInert(input: string, log: string, handled: bool, trim: string -> string)
    requires trim("") == ""
    requires |trim(input)| > 0
    ensures var first := KeyDown(Enter, input, log, handled, trim);
      KeyDown(Enter, first.input, first.log, first.handled, trim) == KeyDownOutcome(first.input, first.log, None, true)
  {
  }

  /** The log line an entry produces: nothing when it is blank after trimming. */
  function Line(entry: string, trim: string -> string): string
  {
    if |trim(entry)| > 0 then Response(trim(entry)) + LineBreak else ""
  }

  /** The responses an entry announces: none when it is blank after trimming. */
  function Announcement(entry: string, trim: string -> string): seq<string>
  {
    if |trim(entry)| > 0 then [Response(trim(entry))] else []
  }

  /** The log lines a sequence of entries produces. */
  function Transcript(entries: seq<string>, trim: string -> string): string
  {
    if entries == [] then "" else Line(entries[0], trim) + Transcript(entries[1..], trim)
  }

  /** The responses a sequence of entries announces, in order. */
  function Announced(entries: seq<string>, trim: string -> string): seq<string>
  {
    if entries == [] then [] else Announcement(entries[0], trim) + Announced(entries[1..], trim)
  }

  /** The final log and the responses announced, when each entry is typed into the input box and Enter is pressed. */
  datatype SessionOutcome = SessionOutcome(log: string, announced: seq<string>)

  function Session(log: string, entries: seq<string>, trim: string -> string): SessionOutcome
    decreases |entries|
  {
    if entries == [] then SessionOutcome(log, [])
    else
      var k := KeyDown(Enter, entries[0], log, false, trim);
      var rest := Session(k.log, entries[1..], trim);
      SessionOutcome(rest.log, (if k.response.Some? then [k.response.value] else []) + rest.announced)
  }

  /** The log after one Enter is the old log followed by the entry's line. */
  lemma EnterAppendsLine(input: string, log: string, trim: string -> string)
    ensures var k := KeyDown(Enter, input, log, false, trim);
      k.log == log + Line(input, trim) && (if k.response.Some? then [k.response.value] else []) == Announcement(input, trim)
  {
  }

  /** Kept apart from the induction below so that its proof context stays small. */
  lemma AppendIsAssociative(a: string, b: string, c: string)
    ensures (a + b) + c == a + (b + c)
  {
  }

  /** The log only grows: after a session it is the old log followed by the transcript
      of the entries, and exactly the transcript's responses were announced. */
  lemma {:induction false} SessionAppendsTranscript(log: string, entries: seq<string>, trim: string -> string)
    ensures Session(log, entries, trim) == SessionOutcome(log + Transcript(entries, trim), Announced(entries, trim))
    decreases |entries|
  {
    if entries == [] {
      assert log + "" == log;
    } else {
      var k := KeyDown(Enter, entries[0], log, false, trim);
      var tail := entries[1..];
      SessionAppendsTranscript(k.log, tail, trim);
      EnterAppendsLine(entries[0], log, trim);
      var line := Line(entries[0], trim);
      var rest := Session(k.log, tail, trim);
      assert Session(log, entries, trim) == SessionOutcome(rest.log, Announcement(entries[0], trim) + rest.announced);
      assert rest.log == (log + line) + Transcript(tail, trim);
      AppendIsAssociative(log, line, Transcript(tail, trim));
      assert Transcript(entries, trim) == line + Transcript(tail, trim);
    }
  }

  /** The WPF TextBox the user types into. */
  class TextBox {
    var text: string

    constructor ()
      ensures text == ""
    {
      text := "";
    }
  }

  /** The key and the Handled flag of a KeyDown event. */
  class KeyEventArgs {
    const key: Key
    var handled: bool

    constructor (key: Key)
      ensures this.key == key && !handled
    {
      this.key := key;
      handled := false;
    }
  }

  class Window {
    const notificationGuid: string
    const inputWindowTB: TextBox
    const immediateWindowTB: NotificationTextBlock

    constructor (inputWindowTB: TextBox, immediateWindowTB: NotificationTextBlock)
      ensures notificationGuid == NotificationGuid
      ensures this.inputWindowTB == inputWindowTB && this.immediateWindowTB == immediateWindowTB
    {
      notificationGuid := NotificationGuid;
      this.inputWindowTB := inputWindowTB;
      this.immediateWindowTB := immediateWindowTB;
    }

    /** InputWindow_KeyDown: the texts and e.Handled follow `KeyDown`; a response is
        announced through the log block with the window's guid. */
    method InputWindowKeyDown(e: KeyEventArgs, trim: string -> string, platform: Platform)
      returns (calls: seq<Call<NotificationTextBlock>>)
      requires immediateWindowTB.Valid()
      modifies e, inputWindowTB, immediateWindowTB, immediateWindowTB.peer, immediateWindowTB.events
      ensures var k := KeyDown(e.key, old(inputWindowTB.text), old(immediateWindowTB.text), old(e.handled), trim);
        var peer := immediateWindowTB.peer;
        var events := immediateWindowTB.events;
        && inputWindowTB.text == k.input && immediateWindowTB.text == k.log && e.handled == k.handled
        && peer == old(immediateWindowTB.peer) && immediateWindowTB.Valid()
        && (k.response.None? || peer == null ==>
              calls == [] && events.available == old(events.available) && (peer != null ==> peer.reps == old(peer.reps)))
        && (k.response.Some? && peer != null ==>
              var r := PeerRaise(immediateWindowTB, old(events.available), old(peer.reps), k.response.value, notificationGuid, platform);
              peer.reps == r.reps && events.available == r.available && calls == r.calls)
    {
      calls := [];
      if e.key == Enter {
        var input := trim(inputWindowTB.text);
        if |input| > 0 {
          var response := Response(input);
          calls := immediateWindowTB.RaiseNotificationEvent(response, notificationGuid, platform);
          immediateWindowTB.text := immediateWindowTB.text + response + LineBreak;
          inputWindowTB.text := "";
        }
        e.handled := true;
      }
    }
  }
}
