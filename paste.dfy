/**
 * The `paste` block: a mode controller over three regions (`trubber`,
 * `other` and the `delete` placeholder slots) driven through its named
 * channel, and the insertion that swaps the first slot for received html.
 */
module PasteBlock {
  import opened Optional
  import opened Dom
  import opened Regions
  import opened Channels

  /** The four modes `_setupElem` recognises. */
  datatype Mode = InitMode | WaitMode | InsertMode | ResetMode

  /** The `init`, `wait`, `insert` and `reset` parameters. */
  datatype ModeTable = ModeTable(init: Visibility, wait: Visibility, insert: Visibility, reset: Visibility)
  {
    /** The `switch` of `_setupElem`: the parameter object of a mode. */
    function Get(m: Mode): Visibility
    {
      match m
      case InitMode => init
      case WaitMode => wait
      case InsertMode => insert
      case ResetMode => reset
    }
  }

  /** The defaults of `_getDefaultParams`: `init` shows only `other`, `wait`
      only `trubber`, `insert` only the slots, `reset` nothing. */
  const DEFAULT_MODES := ModeTable(
    Visibility(false, true, false),
    Visibility(true, false, false),
    Visibility(false, false, true),
    Visibility(false, false, false))

  /** `_setupElem` with a mode's parameters: each present region takes the
      mode's flag (`delMod('hide')` when true, `setMod('hide')` when false);
      every slot takes the slot flag; a missing region stays missing. */
  function Apply(c: Content, v: Visibility): (r: Content)
    ensures r.trubber.Some? == c.trubber.Some? && (r.trubber.Some? ==> r.trubber.value == !v.trubber)
    ensures r.other.Some? == c.other.Some? && (r.other.Some? ==> r.other.value == !v.other)
    ensures |r.nodes| == |c.nodes|
    ensures forall i :: 0 <= i < |c.nodes| ==>
      (c.nodes[i].Slot? ==> r.nodes[i] == Slot(!v.slot, c.nodes[i].inputs))
      && (!c.nodes[i].Slot? ==> r.nodes[i] == c.nodes[i])
  {
    Content(SetRegion(c.trubber, v.trubber), SetRegion(c.other, v.other), SetSlotsHidden(c.nodes, !v.slot))
  }

  /** Modes do not accumulate: switching twice leaves what the second switch
      alone leaves (hence switching to the current mode changes nothing). */
  lemma {:induction false} ApplyLastWins(c: Content, v1: Visibility, v2: Visibility)
    ensures Apply(Apply(c, v1), v2) == Apply(c, v2)
  {
    SetSlotsHiddenLastWins(c.nodes, !v1.slot, !v2.slot);
  }

  /** What `_insert` emits: `insertend` on the channel when it found a slot
      to replace and the channel is set. */
  function InsertEmits(channel: Option<string>, nodes: seq<Node>): (ms: seq<Message>)
    ensures ms != [] <==> SlotCount(nodes) > 0 && Truthy(channel)
    ensures ms != [] ==> ms == [Message(channel, InsertEnd, NoData)]
  {
    if SlotCount(nodes) > 0 && Truthy(channel) then [Message(channel, InsertEnd, NoData)] else []
  }

  /** `_insert(html)` on values: the first slot becomes the fragment, later
      slots go, and then the `insert` mode is applied. */
  function Inserted(c: Content, frag: seq<Node>, modes: ModeTable): (r: Content)
    ensures r.trubber == SetRegion(c.trubber, modes.insert.trubber)
    ensures r.other == SetRegion(c.other, modes.insert.other)
    ensures |r.nodes| == |Replaced(c.nodes, frag, true)|
    ensures forall i :: 0 <= i < |r.nodes| && r.nodes[i].Slot? ==> r.nodes[i].hidden == !modes.insert.slot
  {
    Apply(c.(nodes := Replaced(c.nodes, frag, true)), modes.Get(InsertMode))
  }

  /** With N >= 1 slots the fragment stands where slot 1 stood and the other
      slots are gone; with none the nodes are only re-flagged. The regions
      end in the `insert` mode either way. */
  lemma InsertReplacesFirstSlot(c: Content, frag: seq<Node>, modes: ModeTable)
    ensures var k := if SlotCount(c.nodes) > 0 then FirstSlotIndex(c.nodes) else 0;
      Inserted(c, frag, modes).nodes == SetSlotsHidden(
        if SlotCount(c.nodes) > 0 then c.nodes[..k] + frag + Strip(c.nodes[k + 1..]) else c.nodes,
        !modes.insert.slot)
    ensures SlotCount(Inserted(c, frag, modes).nodes)
         == if SlotCount(c.nodes) > 0 then SlotCount(frag) else 0
  {
    var r := Replaced(c.nodes, frag, true);
    assert Inserted(c, frag, modes).nodes == SetSlotsHidden(r, !modes.insert.slot);
    SlotsAfterReplace(c.nodes, frag);
    SlotCountHidden(r, !modes.insert.slot);
    if SlotCount(c.nodes) > 0 {
      ReplaceFirstSlot(c.nodes, frag);
    } else {
      ReplacedWithoutSlots(c.nodes, frag);
    }
  }

  /** The channel handlers registered at `inited`: `wait`, `insert`, `init`
      and `reset` on the block's channel, none without a channel. */
  function Subscriptions(channel: Option<string>): (subs: seq<Subscription>)
    ensures |subs| == if Truthy(channel) then 4 else 0
    ensures forall sub :: sub in subs <==>
      Truthy(channel) && sub.channel == channel.value && sub.tag in {Wait, Insert, Init, Reset}
  {
    if Truthy(channel) then
      [Subscription(channel.value, Wait), Subscription(channel.value, Insert),
       Subscription(channel.value, Init), Subscription(channel.value, Reset)]
    else []
  }

  /** Which mode a message switches to, if any: `wait`, `init` and `reset`
      on the block's own channel. */
  function ModeOf(channel: Option<string>, m: Message): (r: Option<Mode>)
    ensures r.Some? ==> Truthy(channel) && m.channel == channel
    ensures r == Some(WaitMode) <==> Truthy(channel) && m.channel == channel && m.tag == Wait
    ensures r == Some(InitMode) <==> Truthy(channel) && m.channel == channel && m.tag == Init
    ensures r == Some(ResetMode) <==> Truthy(channel) && m.channel == channel && m.tag == Reset
  {
    if !Truthy(channel) || m.channel != channel then None
    else match m.tag
      case Wait => Some(WaitMode)
      case Init => Some(InitMode)
      case Reset => Some(ResetMode)
      case _ => None
  }

  /** The block acts on a message (a mode switch or an insertion) exactly
      when it subscribed to that channel and tag. */
  lemma HandledIffSubscribed(channel: Option<string>, m: Message)
    ensures ModeOf(channel, m).Some? || (Truthy(channel) && m.channel == channel && m.tag.Insert?)
      <==> m.channel.Some? && Subscription(m.channel.value, m.tag) in Subscriptions(channel)
  {
  }

  class Paste {
    /** `params.channel` and the four mode parameters. */
    const channel: Option<string>
    const modes: ModeTable
    const bus: Bus

    var trubber: Option<bool>
    var other: Option<bool>
    var nodes: seq<Node>

    function State(): Content
      reads this
    {
      Content(trubber, other, nodes)
    }

    /** `inited`: the block starts in the `init` mode. */
    constructor(channel: Option<string>, modes: ModeTable, bus: Bus, markup: Content)
      ensures this.channel == channel && this.modes == modes && this.bus == bus
      ensures State() == Apply(markup, modes.init)
    {
      this.channel := channel;
      this.modes := modes;
      this.bus := bus;
      var c := Apply(markup, modes.init);
      trubber := c.trubber;
      other := c.other;
      nodes := c.nodes;
    }

    /** `_setupElem(mode)`. */
    method SetupElem(mode: Mode)
      modifies this
      ensures State() == Apply(old(State()), modes.Get(mode))
    {
      var v := modes.Get(mode);
      if trubber.Some? {
        trubber := Some(!v.trubber);
      }
      if other.Some? {
        other := Some(!v.other);
      }
      nodes := SetSlotsHidden(nodes, !v.slot);
    }

    /** `_insert(html)`: replace the first slot and drop the others, emit
        `insertend` when a slot was found, then switch to `insert`. `seen` is
        the block as it stands when `insertend` goes out: the fragment is in
        place but the regions are still in the previous mode. */
    method Insert(frag: seq<Node>) returns (ghost seen: Content)
      modifies this, bus
      ensures State() == Inserted(old(State()), frag, modes)
      ensures bus.log == old(bus.log) + InsertEmits(channel, old(nodes))
      ensures seen == old(State()).(nodes := Replaced(old(nodes), frag, true))
    {
      if SlotCount(nodes) > 0 {
        nodes := ReplaceSlots(nodes, frag);
        seen := State();
        if Truthy(channel) {
          bus.Emit(Message(channel, InsertEnd, NoData));
        }
      } else {
        ReplacedWithoutSlots(nodes, frag);
        seen := State();
      }
      SetupElem(InsertMode);
    }

    /** The four channel handlers; other messages leave the block alone. */
    method Deliver(m: Message)
      modifies this, bus
      ensures ModeOf(channel, m).Some? ==>
        State() == Apply(old(State()), modes.Get(ModeOf(channel, m).value)) && bus.log == old(bus.log)
      ensures Truthy(channel) && m.channel == channel && m.tag.Insert? ==>
        State() == Inserted(old(State()), Fragment(m.payload), modes)
        && bus.log == old(bus.log) + InsertEmits(channel, old(nodes))
      ensures ModeOf(channel, m).None? && !(Truthy(channel) && m.channel == channel && m.tag.Insert?) ==>
        State() == old(State()) && bus.log == old(bus.log)
    {
      var mode := ModeOf(channel, m);
      if mode.Some? {
        SetupElem(mode.value);
      } else if Truthy(channel) && m.channel == channel && m.tag.Insert? {
        ghost var _ := Insert(Fragment(m.payload));
      }
    }
  }
}
