/**
 * The `paginator` block: asks for the next page over `channelnext` when its
 * trigger fires, and couples two paste channels: content arriving on
 * `channel1` or `channel2` switches the `channel1` paste to `init` when a
 * page marker is present, and a wait on `channel2` resets it.
 */
module PaginatorBlock {
  import opened Optional
  import opened Channels

  /** What makes `_nextPaginator` run: a click on `__object`, or the
      block's own scroll reaching the top or the bottom. */
  datatype Trigger = ClickTrigger | TopScroll | BottomScroll

  /** The handlers `inited` wires, from whether `__object` exists and the
      `autopaginator` parameter: no trigger at all without the object; the
      click without autopagination; one scroll direction for `top` and
      `bottom`; none for any other non-empty value. */
  function Triggers(hasObject: bool, autopaginator: Option<string>): (t: set<Trigger>)
    ensures |t| <= 1
    ensures ClickTrigger in t <==> hasObject && !Truthy(autopaginator)
    ensures TopScroll in t <==> hasObject && autopaginator == Some("top")
    ensures BottomScroll in t <==> hasObject && autopaginator == Some("bottom")
  {
    if !hasObject then {}
    else if !Truthy(autopaginator) then {ClickTrigger}
    else if autopaginator == Some("top") then {TopScroll}
    else if autopaginator == Some("bottom") then {BottomScroll}
    else {}
  }

  /** Whether a scroll event, given the block's `scrollTop`, `height` and
      `scrollHeight`, runs `_nextPaginator`: at the very top for `top`, at or
      past the bottom for `bottom`. */
  predicate ScrollFires(triggers: set<Trigger>, scrollTop: int, height: int, scrollHeight: int)
  {
    (TopScroll in triggers && scrollTop == 0)
    || (BottomScroll in triggers && height + scrollTop >= scrollHeight)
  }

  /** What `_nextPaginator` emits, given the `__page` element it finds (its
      hidden fields, None when there is none): `next` on `channelnext` with
      the value of the `page` field (undefined when the field is missing),
      only when both the element and the channel are there. */
  function NextEmits(channelnext: Option<string>, page: Option<map<string, string>>): (ms: seq<Message>)
    ensures ms != [] <==> page.Some? && Truthy(channelnext)
    ensures ms != [] ==> ms == [Message(channelnext, Next, PayloadOf(Lookup(page.value, "page")))]
  {
    if page.Some? && Truthy(channelnext) then
      [Message(channelnext, Next, PayloadOf(Lookup(page.value, "page")))]
    else []
  }

  /** The three channel handlers in registration order: an `insert` on
      `channel1` and an `insert` on `channel2` each emit `init` on
      `channel1` when a `__page` element is present; a `wait` on `channel2`
      emits `reset` on `channel1`, checked or not. */
  function CouplingEmits(channel1: Option<string>, channel2: Option<string>, m: Message, pagePresent: bool): (ms: seq<Message>)
    ensures forall i :: 0 <= i < |ms| ==> ms[i].channel == channel1 && ms[i].payload == NoData
    ensures (exists i :: 0 <= i < |ms| && ms[i].tag == Reset) <==>
      Truthy(channel2) && m.channel == channel2 && m.tag == Wait
    ensures (exists i :: 0 <= i < |ms| && ms[i].tag == Init) ==> pagePresent && m.tag == Insert
    ensures forall i :: 0 <= i < |ms| ==> ms[i].tag == Init || ms[i].tag == Reset
    // Content arriving on either channel re-enables the bound paste when the marker is there.
    ensures Truthy(channel1) && m.channel == channel1 && m.tag == Insert && pagePresent ==>
      Message(channel1, Init, NoData) in ms
    ensures Truthy(channel2) && m.channel == channel2 && m.tag == Insert && pagePresent ==>
      Message(channel1, Init, NoData) in ms
  {
    var onInsert1 := if Truthy(channel1) && m.channel == channel1 && m.tag == Insert && pagePresent
      then [Message(channel1, Init, NoData)] else [];
    var onWait2 := if Truthy(channel2) && m.channel == channel2 && m.tag == Wait
      then [Message(channel1, Reset, NoData)] else [];
    var onInsert2 := if Truthy(channel2) && m.channel == channel2 && m.tag == Insert && pagePresent
      then [Message(channel1, Init, NoData)] else [];
    var ms := onInsert1 + onWait2 + onInsert2;
    assert onWait2 != [] ==> ms[|onInsert1|] == onWait2[0];
    ms
  }

  /** The channel subscriptions of `inited`, in registration order: `insert`
      on `channel1`, then `wait` and `insert` on `channel2`, each only when
      its channel is set. */
  function Subscriptions(channel1: Option<string>, channel2: Option<string>): (subs: seq<Subscription>)
    ensures |subs| == (if Truthy(channel1) then 1 else 0) + (if Truthy(channel2) then 2 else 0)
    ensures Truthy(channel1) ==> subs[0] == Subscription(channel1.value, Insert)
    ensures Truthy(channel2) ==>
      subs[|subs| - 2] == Subscription(channel2.value, Wait) && subs[|subs| - 1] == Subscription(channel2.value, Insert)
  {
    (if Truthy(channel1) then [Subscription(channel1.value, Insert)] else [])
    + (if Truthy(channel2) then [Subscription(channel2.value, Wait), Subscription(channel2.value, Insert)] else [])
  }

  /** The coupling handlers act only on a subscribed message, and a
      subscribed message always gets an answer, except an `insert` that
      finds no page marker. */
  lemma CouplingOnlyWhenSubscribed(channel1: Option<string>, channel2: Option<string>,
                                   m: Message, pagePresent: bool)
    ensures CouplingEmits(channel1, channel2, m, pagePresent) != [] ==>
      m.channel.Some? && Subscription(m.channel.value, m.tag) in Subscriptions(channel1, channel2)
    ensures (m.channel.Some? && Subscription(m.channel.value, m.tag) in Subscriptions(channel1, channel2)
             && (m.tag == Wait || pagePresent)) ==> CouplingEmits(channel1, channel2, m, pagePresent) != []
  {
  }

  /** Content arriving on the bound channel re-enables pagination exactly
      when the inserted content kept a page marker: one `init` on
      `channel1`, or two when `channel2` is the same channel (both `insert`
      handlers run), or nothing at all. */
  lemma {:induction false} BoundInsertReinits(channel1: Option<string>, channel2: Option<string>,
                                              m: Message, pagePresent: bool)
    requires Truthy(channel1) && m.channel == channel1 && m.tag == Insert
    ensures CouplingEmits(channel1, channel2, m, pagePresent)
         == if !pagePresent then []
            else if Truthy(channel2) && channel2 == channel1
            then [Message(channel1, Init, NoData), Message(channel1, Init, NoData)]
            else [Message(channel1, Init, NoData)]
  {
  }

  /** Content arriving on the unbound channel does the same for the bound
      paste: one `init` on `channel1` when the page marker is present (two
      when both channels are the same), nothing otherwise. */
  lemma {:induction false} UnboundInsertReinits(channel1: Option<string>, channel2: Option<string>,
                                                m: Message, pagePresent: bool)
    requires Truthy(channel2) && m.channel == channel2 && m.tag == Insert
    ensures CouplingEmits(channel1, channel2, m, pagePresent)
         == if !pagePresent then []
            else if Truthy(channel1) && channel1 == channel2
            then [Message(channel1, Init, NoData), Message(channel1, Init, NoData)]
            else [Message(channel1, Init, NoData)]
  {
  }

  /** Which scroll handler fires: the one `inited` wired for `top` at the
      very top, the one for `bottom` at or past the bottom, and none without
      the `__object` element or for any other `autopaginator`. */
  lemma ScrollFiresWhenWired(hasObject: bool, autopaginator: Option<string>,
                             scrollTop: int, height: int, scrollHeight: int)
    ensures ScrollFires(Triggers(hasObject, autopaginator), scrollTop, height, scrollHeight) <==>
      hasObject && ((autopaginator == Some("top") && scrollTop == 0)
                    || (autopaginator == Some("bottom") && height + scrollTop >= scrollHeight))
  {
  }

  class Paginator {
    /** The four parameters and whether `__object` exists. */
    const channel1: Option<string>
    const channel2: Option<string>
    const channelnext: Option<string>
    const autopaginator: Option<string>
    const hasObject: bool
    const bus: Bus

    constructor(channel1: Option<string>, channel2: Option<string>, channelnext: Option<string>,
                autopaginator: Option<string>, hasObject: bool, bus: Bus)
      ensures this.channel1 == channel1 && this.channel2 == channel2
      ensures this.channelnext == channelnext && this.autopaginator == autopaginator
      ensures this.hasObject == hasObject && this.bus == bus
    {
      this.channel1 := channel1;
      this.channel2 := channel2;
      this.channelnext := channelnext;
      this.autopaginator := autopaginator;
      this.hasObject := hasObject;
      this.bus := bus;
    }

    /** `_nextPaginator()`, with the `__page` element found at call time. */
    method NextPaginator(page: Option<map<string, string>>)
      modifies bus
      ensures bus.log == old(bus.log) + NextEmits(channelnext, page)
    {
      if page.Some? && Truthy(channelnext) {
        bus.Emit(Message(channelnext, Next, PayloadOf(Lookup(page.value, "page"))));
      }
    }

    /** A click on `__object`: it asks for the next page only when the click
        handler was wired. */
    method OnObjectClick(page: Option<map<string, string>>)
      modifies bus
      ensures bus.log == old(bus.log)
        + if ClickTrigger in Triggers(hasObject, autopaginator) then NextEmits(channelnext, page) else []
    {
      if hasObject && !Truthy(autopaginator) {
        NextPaginator(page);
      }
    }

    /** A scroll of the block. */
    method OnScroll(scrollTop: int, height: int, scrollHeight: int, page: Option<map<string, string>>)
      modifies bus
      ensures bus.log == old(bus.log)
        + if ScrollFires(Triggers(hasObject, autopaginator), scrollTop, height, scrollHeight)
          then NextEmits(channelnext, page) else []
    {
      if hasObject && autopaginator == Some("top") {
        if scrollTop == 0 {
          NextPaginator(page);
        }
      }
      if hasObject && autopaginator == Some("bottom") {
        if height + scrollTop >= scrollHeight {
          NextPaginator(page);
        }
      }
    }

    /** The coupling handlers, with whether a `__page` element is present
        when they run. */
    method Deliver(m: Message, pagePresent: bool)
      modifies bus
      ensures bus.log == old(bus.log) + CouplingEmits(channel1, channel2, m, pagePresent)
    {
      if Truthy(channel1) && m.channel == channel1 && m.tag == Insert && pagePresent {
        bus.Emit(Message(channel1, Init, NoData));
      }
      if Truthy(channel2) && m.channel == channel2 && m.tag == Wait {
        bus.Emit(Message(channel1, Reset, NoData));
      }
      if Truthy(channel2) && m.channel == channel2 && m.tag == Insert && pagePresent {
        bus.Emit(Message(channel1, Init, NoData));
      }
    }
  }
}
