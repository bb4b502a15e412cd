/** The chat client (public/javascripts/app.js): a message list, a text
    input and a send button over one WebSocket. The connection's `send` is
    recorded as the log of frames handed to it. */
module ChatApp {

  /** An `<li>` of the message list: its text, and whether it is the
      `bg-info` "Connected" marker. */
  datatype Item = Item(text: string, info: bool)

  const ConnectedMarker := Item("Connected", true)
  const EnterKey := 13

  /** What the transport delivers to the list: the open signal, or a message's data. */
  datatype ChatEvent = Opened | Received(data: string)

  /** The message list after one event: the marker goes in front, data at the end. */
  function Apply(items: seq<Item>, e: ChatEvent): seq<Item>
  {
    match e
    case Opened => [ConnectedMarker] + items
    case Received(d) => items + [Item(d, false)]
  }

  /** The message list after a sequence of events, in arrival order. */
  function ApplyAll(items: seq<Item>, es: seq<ChatEvent>): seq<Item>
  {
    if es == [] then items else Apply(ApplyAll(items, es[..|es| - 1]), es[|es| - 1])
  }

  predicate AllReceived(es: seq<ChatEvent>) {
    forall k :: 0 <= k < |es| ==> es[k].Received?
  }

  /** The items shown for a sequence of received messages, data verbatim. */
  function Shown(es: seq<ChatEvent>): (r: seq<Item>)
    requires AllReceived(es)
    ensures |r| == |es|
    ensures forall k :: 0 <= k < |es| ==> r[k] == Item(es[k].data, false)
  {
    if es == [] then [] else Shown(es[..|es| - 1]) + [Item(es[|es| - 1].data, false)]
  }

  /** Received messages are appended after what the list held, in arrival order. */
  lemma {:induction false} ArrivalOrderKept(items: seq<Item>, es: seq<ChatEvent>)
    requires AllReceived(es)
    ensures ApplyAll(items, es) == items + Shown(es)
  {
    if es != [] {
      ArrivalOrderKept(items, es[..|es| - 1]);
    }
  }

  /** Open then messages: the marker is first, then the old list, then the data in order. */
  lemma {:induction false} OpenThenMessages(items: seq<Item>, es: seq<ChatEvent>)
    requires AllReceived(es)
    ensures ApplyAll(items, [Opened] + es) == [ConnectedMarker] + items + Shown(es)
    decreases |es|
  {
    if es == [] {
      assert ([Opened] + es)[..0] == [];
    } else {
      var front := es[..|es| - 1];
      assert ([Opened] + es)[..|[Opened] + es| - 1] == [Opened] + front;
      OpenThenMessages(items, front);
    }
  }

  /** `event.keyCode || event.which`: a zero key code falls back to `which`,
      so a keypress is Enter exactly when keyCode is 13, or keyCode is 0 and
      which is 13. */
  function KeyOf(keyCode: int, which: int): (k: int)
    ensures keyCode != 0 ==> k == keyCode
    ensures keyCode == 0 ==> k == which
    ensures k == EnterKey <==> keyCode == EnterKey || (keyCode == 0 && which == EnterKey)
  {
    if keyCode != 0 then keyCode else which
  }

  class ChatClient {
    /** A WebSocket was created (the browser supports it). */
    var connected: bool
    /** The open handler has run: click and keypress listeners are installed. */
    var listening: bool
    var sendDisabled: bool
    var items: seq<Item>
    var input: string
    var sent: seq<string>

    /** The send button is disabled from setup until the connection opens. */
    ghost predicate Valid()
      reads this
    {
      (listening ==> connected) && (connected ==> sendDisabled == !listening)
    }

    /** Page load. Without WebSocket support the script returns before
        creating a connection or touching the button. */
    constructor (webSocketSupported: bool, items: seq<Item>, input: string, sendDisabled: bool)
      ensures Valid()
      ensures connected == webSocketSupported && !listening
      ensures this.sendDisabled == (webSocketSupported || sendDisabled)
      ensures this.items == items && this.input == input && sent == []
    {
      connected := webSocketSupported;
      listening := false;
      this.items := items;
      this.input := input;
      sent := [];
      this.sendDisabled := sendDisabled;
      if webSocketSupported {
        this.sendDisabled := true;
      }
    }

    /** The connection opens once. */
    method OnOpen()
      requires Valid() && connected && !listening
      modifies this`sendDisabled, this`items, this`listening
      ensures Valid()
      ensures !sendDisabled && listening
      ensures items == Apply(old(items), Opened)
    {
      sendDisabled := false;
      items := [ConnectedMarker] + items;
      listening := true;
    }

    method OnMessage(data: string)
      requires connected
      modifies this`items
      ensures items == Apply(old(items), Received(data))
    {
      items := items + [Item(data, false)];
    }

    /** The user edits the text input. */
    method OnInput(text: string)
      modifies this`input
      ensures input == text
    {
      input := text;
    }

    /** Hands the input text to the connection and empties the input. */
    method Send()
      modifies this`input, this`sent
      ensures sent == old(sent) + [old(input)] && input == ""
    {
      var text := input;
      input := "";
      sent := sent + [text];
    }

    /** A click on the send button; a disabled button delivers no click. */
    method OnClick()
      requires Valid()
      modifies this`input, this`sent
      ensures listening ==> sent == old(sent) + [old(input)] && input == ""
      ensures !listening ==> sent == old(sent) && input == old(input)
    {
      if listening && !sendDisabled {
        Send();
      }
    }

    method OnKeyPress(keyCode: int, which: int)
      modifies this`input, this`sent
      ensures listening && KeyOf(keyCode, which) == EnterKey ==>
        sent == old(sent) + [old(input)] && input == ""
      ensures !(listening && KeyOf(keyCode, which) == EnterKey) ==>
        sent == old(sent) && input == old(input)
    {
      if listening {
        var keycode := KeyOf(keyCode, which);
        if keycode == EnterKey {
          Send();
        }
      }
    }
  }
}
