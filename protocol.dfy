/**
 * The two halves together: what a client emits is what the server relays,
 * and what the server relays is what the recipient's chat log shows.
 */
module Protocol {
  import Presence
  import ChatClient

  /**
   * A message that passes the client's guards, sent to a phone the server
   * holds a socket for, reaches that socket and the sender's socket with
   * the sender's phone and the text exactly as typed, and becomes the last
   * line of the recipient's chat log.
   */
  lemma SentMessageArrives(userPhone: string, message: string, recipientPhone: string,
                           e: seq<Presence.Entry>, senderSid: Presence.SocketId, c: Presence.SocketId,
                           timestamp: string, log: seq<ChatClient.ChatEntry>)
    requires ChatClient.SendDecision(userPhone, message, recipientPhone, true).Sent?
    requires Presence.UniqueKeys(e) && (recipientPhone, c) in e && c != ""
    ensures
      var emit := ChatClient.SendDecision(userPhone, message, recipientPhone, true).emit;
      var out := Presence.Relay(e, senderSid, emit.to, emit.from, emit.msg, timestamp);
      && |out| == 2 && out[0].target == c && out[1].target == senderSid
      && out[0].payload == out[1].payload
      && var p := out[0].payload;
         ChatClient.AppendEntry(log, p.from, p.msg, p.timestamp)
         == log + [ChatClient.ChatEntry(userPhone, message, timestamp)]
  {
    Presence.RelayHit(e, senderSid, recipientPhone, userPhone, message, timestamp, c);
  }
}
