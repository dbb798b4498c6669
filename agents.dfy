/**
 * What the three agents share: their names, the message envelope they pass
 * to each other's `receive_message`, and the error a `send_message` to an
 * unconnected name raises.
 */
module Agents {

  const ChatAgentName := "ChatAgent"
  const DomainModelAgentName := "DomainModelAgent"
  const VisualizationAgentName := "VisualizationAgent"

  /**
   * `{"from": ..., "type": ..., "content": {...}}`. Every content value the
   * agents exchange is a string.
   */
  datatype Envelope = Envelope(sender: string, kind: string, content: map<string, string>)

  /** `content.get(key, "")`. */
  function Field(content: map<string, string>, key: string): (v: string)
    ensures key in content ==> v == content[key]
    ensures key !in content ==> v == ""
  {
    if key in content then content[key] else ""
  }

  /** The message of the `ValueError` raised by `send_message` to a name that was never connected. */
  function NotConnected(to: string): (m: string)
    ensures |m| == |to| + 20
    ensures m[..6] == "Agent " && m[|m| - 14..] == " not connected"
    ensures m[6..|m| - 14] == to
  {
    "Agent " + to + " not connected"
  }

  /** Whether `send_message` hands the message over or raises. */
  datatype Delivery = Delivered | Refused(error: string)

  /** `send_message` raises `ValueError` exactly for a name that is not connected. */
  function Deliver(connected: set<string>, to: string): (d: Delivery)
    ensures d.Delivered? <==> to in connected
    ensures d.Refused? ==> d.error == NotConnected(to)
  {
    if to in connected then Delivered else Refused(NotConnected(to))
  }
}
