/**
 * The named channels (`events__channels`) as the blocks use them: every
 * `channels(name).emit(tag, data)` is recorded, in order, in one log. Who
 * receives a message is not modelled; each block states the channels and
 * tags it subscribes to as a function of its parameters, and its handlers
 * are methods a caller invokes with the message.
 */
module Channels {
  import opened Optional
  import opened Dom

  /** The message vocabulary used by the blocks. */
  datatype Tag =
    | OpenModal | CloseModal
    | Wait | Insert | InsertEnd | Init | Reset
    | Next | Success | Click | Change

  /** The data argument of `emit`: absent (`undefined`/`null`), a plain string
      (a modal name, a page token) or an html fragment, given as the nodes it
      parses into. */
  datatype Payload = NoData | Text(s: string) | Html(nodes: seq<Node>)

  /** `channel` is the parameter the emitter passed to `channels(...)`, which
      may be unset when a block emits on a channel parameter it never checked. */
  datatype Message = Message(channel: Option<string>, tag: Tag, payload: Payload)

  /** A handler registered at `inited` with `channels(channel).on(tag, ...)`. */
  datatype Subscription = Subscription(channel: string, tag: Tag)

  /** JavaScript truthiness of an optional string parameter (`if (this.params.x)`):
      null, undefined and the empty string are all false. */
  predicate Truthy(p: Option<string>)
  {
    p.Some? && p.value != ""
  }

  /** The data argument carrying an optional string. */
  function PayloadOf(v: Option<string>): Payload
  {
    if v.Some? then Text(v.value) else NoData
  }

  /** What `bemDom.replace(elem, html)` puts in place of the slot. */
  function Fragment(p: Payload): seq<Node>
  {
    match p
    case Html(ns) => ns
    case Text(s) => [Markup(s)]
    case NoData => []
  }

  /** The emission log shared by every block on the page. */
  class Bus {
    var log: seq<Message>

    constructor()
      ensures log == []
    {
      log := [];
    }

    /** `channels(channel).emit(tag, payload)`. */
    method Emit(m: Message)
      modifies this
      ensures log == old(log) + [m]
    {
      log := log + [m];
    }
  }
}
