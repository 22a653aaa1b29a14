/** The channels that recipients listen on: `agent:`, the text of the agent's UUID, `:queue`. */
module Channels {
  import opened Model
  import UuidText

  function Channel(recipient: Uuid): string {
    "agent:" + UuidText.Text(recipient) + ":queue"
  }

  /** The agent that listens on a channel, if it is the channel of one. */
  function Listener(channel: string): Option<Uuid> {
    if |channel| != 48 then None
    else
      match UuidText.Parse(channel[6..42])
      case Some(agent) => if Channel(agent) == channel then Some(agent) else None
      case None => None
  }

  /** The text of a channel, character by character. */
  lemma ChannelText(a: Uuid)
    ensures |Channel(a)| == 48
    ensures Channel(a)[..6] == "agent:" && Channel(a)[6..42] == UuidText.Text(a) && Channel(a)[42..] == ":queue"
  {}

  /** Exactly one agent listens on its channel, and nobody on any other. */
  lemma OneListener(channel: string, a: Uuid)
    ensures Listener(channel) == Some(a) <==> channel == Channel(a)
  {
    if channel == Channel(a) {
      ChannelText(a);
      UuidText.RoundTrip(a);
    }
  }

  /** Different recipients have different channels. */
  lemma ChannelInjective(a: Uuid, b: Uuid)
    requires Channel(a) == Channel(b)
    ensures a == b
  {
    OneListener(Channel(a), a);
    OneListener(Channel(b), b);
  }
}
