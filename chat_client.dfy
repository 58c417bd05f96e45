/**
 * The client half of the protocol, from the `Chat` component: it registers
 * its phone when the socket connects, validates and emits `private-message`,
 * and appends every `receive-message` to its chat log.
 *
 * React state becomes the fields of a `Chat` object; the setters run to
 * completion one at a time. Emits are collected in `outbox` and error toasts
 * in `errors` instead of being sent or shown.
 */
module ChatClient {

  /** One line of the chat log: the fields destructured from `receive-message`. */
  datatype ChatEntry = ChatEntry(from: string, msg: string, timestamp: string)

  /** What the client emits to the server. */
  datatype ClientEmit =
    | RegisterPhone(phone: string)
    | PrivateMessage(from: string, to: string, msg: string)

  /** How `sendMessage` ended. */
  datatype SendOutcome =
    | MissingRecipient        // the recipient field was empty: error toast, early return
    | NotSent                 // the second guard failed: nothing happens
    | Sent(emit: ClientEmit)  // one `private-message` went out

  datatype ConnectionStatus = Connected | Disconnected

  const MissingRecipientError: string := "Please enter a recipient phone number."

  // ---------------------------------------------------------------------
  // String.prototype.trim
  // ---------------------------------------------------------------------

  /**
   * The characters `trim` strips: ECMAScript's WhiteSpace (tab, vertical
   * tab, form feed, space, no-break space, the byte order mark and the
   * Unicode space separators) and LineTerminator (line feed, carriage
   * return, line and paragraph separators).
   */
  predicate IsWhiteSpace(c: char) {
    || c == '\t' || c == '\n' || c == '\U{000B}' || c == '\U{000C}' || c == '\r'
    || c == ' ' || c == '\U{00A0}' || c == '\U{1680}'
    || ('\U{2000}' <= c <= '\U{200A}')
    || c == '\U{2028}' || c == '\U{2029}' || c == '\U{202F}' || c == '\U{205F}'
    || c == '\U{3000}' || c == '\U{FEFF}'
  }

  /** Strip leading white space. */
  function TrimStart(s: string): (r: string)
  {
    if s != [] && IsWhiteSpace(s[0]) then TrimStart(s[1..]) else s
  }

  /** Strip trailing white space. */
  function TrimEnd(s: string): (r: string)
  {
    if s != [] && IsWhiteSpace(s[|s| - 1]) then TrimEnd(s[..|s| - 1]) else s
  }

  /** `String.prototype.trim`. */
  function Trim(s: string): (r: string)
  {
    TrimEnd(TrimStart(s))
  }

  /** `TrimStart` drops exactly the leading white space: what is left is a suffix that starts with a non-space. */
  lemma {:induction false} TrimStartSpec(s: string)
    ensures |TrimStart(s)| <= |s| && TrimStart(s) == s[|s| - |TrimStart(s)|..]
    ensures forall i :: 0 <= i < |s| - |TrimStart(s)| ==> IsWhiteSpace(s[i])
    ensures TrimStart(s) != [] ==> !IsWhiteSpace(TrimStart(s)[0])
  {
    if s == [] {
    } else if IsWhiteSpace(s[0]) {
      var t := s[1..];
      TrimStartSpec(t);
      var r := TrimStart(t);
      assert TrimStart(s) == r;
      assert t[|t| - |r|..] == s[|s| - |r|..];
      assert forall i :: 1 <= i < |s| - |r| ==> s[i] == t[i - 1];
    } else {
      assert TrimStart(s) == s;
      assert s[0..] == s;
    }
  }

  /** `TrimEnd` drops exactly the trailing white space: what is left is a prefix that ends with a non-space. */
  lemma {:induction false} TrimEndSpec(s: string)
    ensures |TrimEnd(s)| <= |s| && TrimEnd(s) == s[..|TrimEnd(s)|]
    ensures forall i :: |TrimEnd(s)| <= i < |s| ==> IsWhiteSpace(s[i])
    ensures TrimEnd(s) != [] ==> !IsWhiteSpace(TrimEnd(s)[|TrimEnd(s)| - 1])
  {
    if s == [] {
    } else if IsWhiteSpace(s[|s| - 1]) {
      var t := s[..|s| - 1];
      TrimEndSpec(t);
      var r := TrimEnd(t);
      assert TrimEnd(s) == r;
      assert t[..|r|] == s[..|r|];
      assert forall i :: |r| <= i < |s| - 1 ==> s[i] == t[i];
    } else {
      assert TrimEnd(s) == s;
      assert s[..|s|] == s;
    }
  }

  /**
   * A trimmed string is empty (falsy) exactly when every character of the
   * original is white space; otherwise it starts and ends with a non-space.
   */
  lemma TrimSpec(s: string)
    ensures |Trim(s)| <= |s|
    ensures Trim(s) != [] ==> !IsWhiteSpace(Trim(s)[0]) && !IsWhiteSpace(Trim(s)[|Trim(s)| - 1])
    ensures Trim(s) == [] <==> forall i :: 0 <= i < |s| ==> IsWhiteSpace(s[i])
  {
    var t := TrimStart(s);
    TrimStartSpec(s);
    TrimEndSpec(t);
    assert forall i :: |s| - |t| <= i < |s| ==> s[i] == t[i - (|s| - |t|)];
  }

  // ---------------------------------------------------------------------
  // The pure parts of the handlers
  // ---------------------------------------------------------------------

  /**
   * The two guards of `sendMessage` and the payload it emits: `to` and
   * `msg` are the fields as typed, not trimmed.
   */
  function SendDecision(userPhone: string, message: string, recipientPhone: string, hasSocket: bool): (r: SendOutcome)
  {
    if recipientPhone == "" then MissingRecipient
    else if Trim(message) != "" && Trim(recipientPhone) != "" && hasSocket then
      Sent(PrivateMessage(userPhone, recipientPhone, message))
    else NotSent
  }

  /** `prev => [...prev, {from, msg, timestamp}]`: one entry at the end, the rest untouched. */
  function AppendEntry(chat: seq<ChatEntry>, from: string, msg: string, timestamp: string): (r: seq<ChatEntry>)
    ensures |r| == |chat| + 1
    ensures r[..|chat|] == chat
    ensures r[|chat|] == ChatEntry(from, msg, timestamp)
  {
    chat + [ChatEntry(from, msg, timestamp)]
  }

  /**
   * When `sendMessage` raises the error, when it emits, and what it emits.
   * A recipient made only of white space is not an error: it is silently
   * not sent.
   */
  lemma SendGuard(userPhone: string, message: string, recipientPhone: string, hasSocket: bool)
    ensures SendDecision(userPhone, message, recipientPhone, hasSocket).MissingRecipient?
        <==> recipientPhone == ""
    ensures SendDecision(userPhone, message, recipientPhone, hasSocket).Sent?
        <==> && hasSocket
             && (exists i :: 0 <= i < |message| && !IsWhiteSpace(message[i]))
             && (exists j :: 0 <= j < |recipientPhone| && !IsWhiteSpace(recipientPhone[j]))
    ensures SendDecision(userPhone, message, recipientPhone, hasSocket).Sent?
        ==> SendDecision(userPhone, message, recipientPhone, hasSocket).emit
            == PrivateMessage(userPhone, recipientPhone, message)
    ensures recipientPhone != "" && (forall j :: 0 <= j < |recipientPhone| ==> IsWhiteSpace(recipientPhone[j]))
        ==> SendDecision(userPhone, message, recipientPhone, hasSocket) == NotSent
  {
    TrimSpec(message);
    TrimSpec(recipientPhone);
  }

  // ---------------------------------------------------------------------
  // The component's state and its event handlers
  // ---------------------------------------------------------------------

  class Chat {
    const userPhone: string
    var hasSocket: bool
    var connectionStatus: ConnectionStatus
    var message: string
    var recipientPhone: string
    var chat: seq<ChatEntry>
    var outbox: seq<ClientEmit>
    var errors: seq<string>

    /** The initial `useState` values, for the logged-in `userPhone`. */
    constructor(userPhone: string)
      ensures this.userPhone == userPhone && !hasSocket && connectionStatus == Disconnected
      ensures message == "" && recipientPhone == "" && chat == []
      ensures outbox == [] && errors == []
    {
      this.userPhone := userPhone;
      hasSocket := false;
      connectionStatus := Disconnected;
      message := "";
      recipientPhone := "";
      chat := [];
      outbox := [];
      errors := [];
    }

    /** The mount effect creates the socket and stores it. */
    method OpenSocket()
      modifies this`hasSocket
      ensures hasSocket
    {
      hasSocket := true;
    }

    /** `connect`: mark the connection and register this client's phone. */
    method OnConnect()
      modifies this`connectionStatus, this`outbox
      ensures connectionStatus == Connected
      ensures outbox == old(outbox) + [RegisterPhone(userPhone)]
    {
      connectionStatus := Connected;
      outbox := outbox + [RegisterPhone(userPhone)];
    }

    /** `disconnect`: only the status changes; nothing is unregistered client-side. */
    method OnDisconnect()
      modifies this`connectionStatus
      ensures connectionStatus == Disconnected
    {
      connectionStatus := Disconnected;
    }

    /** `receive-message`: append one entry to the chat log. */
    method OnReceiveMessage(from: string, msg: string, timestamp: string)
      modifies this`chat
      ensures chat == AppendEntry(old(chat), from, msg, timestamp)
      ensures |chat| == |old(chat)| + 1 && chat[..|old(chat)|] == old(chat)
      ensures chat[|old(chat)|] == ChatEntry(from, msg, timestamp)
    {
      chat := AppendEntry(chat, from, msg, timestamp);
    }

    /** The message input's `onChange`. */
    method SetMessage(value: string)
      modifies this`message
      ensures message == value
    {
      message := value;
    }

    /** The recipient input's `onChange`. */
    method SetRecipientPhone(value: string)
      modifies this`recipientPhone
      ensures recipientPhone == value
    {
      recipientPhone := value;
    }

    /**
     * `sendMessage`: an empty recipient raises the error toast and keeps the
     * message; otherwise, when both fields hold a non-space character and a
     * socket exists, one `private-message` is emitted and the message input
     * is cleared. The recipient field is never changed.
     */
    method SendMessage() returns (outcome: SendOutcome)
      modifies this`message, this`outbox, this`errors
      ensures outcome == SendDecision(userPhone, old(message), recipientPhone, hasSocket)
      ensures outbox == old(outbox) + (if outcome.Sent? then [outcome.emit] else [])
      ensures message == (if outcome.Sent? then "" else old(message))
      ensures errors == old(errors) + (if outcome.MissingRecipient? then [MissingRecipientError] else [])
    {
      if recipientPhone == "" {
        errors := errors + [MissingRecipientError];
        return MissingRecipient;
      }
      if Trim(message) != "" && Trim(recipientPhone) != "" && hasSocket {
        var emit := PrivateMessage(userPhone, recipientPhone, message);
        outbox := outbox + [emit];
        message := "";
        outcome := Sent(emit);
      } else {
        outcome := NotSent;
      }
    }
  }
}
