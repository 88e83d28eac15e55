/**
 * The `paste-1` block: the eight-mode variant of `paste` that issues its own
 * request. It shows the `wait` mode while the request is out, replaces its
 * first `replace` slot with the response, and in `paginator` mode follows
 * the page field of that slot until a response arrives without one.
 */
module PasteOneBlock {
  import opened Optional
  import opened Dom
  import opened Regions
  import opened Channels

  /** How a handler ended: normally, or with a TypeError on a missing
      element or an unconfigured mode (everything after the throw is skipped). */
  datatype Outcome = Completed | Threw

  /** What `_ajax` did: no truthy URL, so no request; the request went out
      after `beforeSend` applied the sending mode; or `beforeSend` threw and
      the request never left. */
  datatype AjaxResult = NotSent | Sent | Aborted

  /** The parameters: `name`, `type_insert`, `mode_sending_request_ajax`,
      `mode_getting_response_ajax` and `display_modes`. */
  datatype Config = Config(
    name: Option<string>,
    typeInsert: string,
    modeSending: string,
    modeGetting: string,
    displayModes: map<string, Visibility>)

  /** The modes the `switch` of `_setupElem` knows. */
  const MODE_NAMES: set<string> := {"init", "wait", "insert", "reset", "twoup", "twodown", "twocenter", "all"}

  /** The default `display_modes`: the four modes of `paste` plus `twoup`
      (trubber and other), `twodown` (other and slot), `twocenter` (trubber
      and slot) and `all`. */
  const DEFAULT_DISPLAY_MODES: map<string, Visibility> := map[
    "init" := Visibility(false, true, false),
    "wait" := Visibility(true, false, false),
    "insert" := Visibility(false, false, true),
    "reset" := Visibility(false, false, false),
    "twoup" := Visibility(true, true, false),
    "twodown" := Visibility(false, true, true),
    "twocenter" := Visibility(true, false, true),
    "all" := Visibility(true, true, true)]

  /** The defaults of `_getDefaultParams` with a given name and insertion type. */
  function DefaultConfig(name: Option<string>, typeInsert: string): Config
  {
    Config(name, typeInsert, "wait", "insert", DEFAULT_DISPLAY_MODES)
  }

  /** The block's state: its regions and nodes, `params.url` and `_page`
      (the name of the hidden field that carries the next URL). */
  datatype Pane = Pane(content: Content, url: Option<string>, page: string)

  /** The parameter object `_setupElem` picks: None (null) for a mode outside
      the `switch` or missing from `display_modes`. */
  function ModeParams(table: map<string, Visibility>, mode: string): (p: Option<Visibility>)
    ensures p.Some? <==> mode in MODE_NAMES && mode in table
    ensures p.Some? ==> p.value == table[mode]
  {
    if mode in MODE_NAMES && mode in table then Some(table[mode]) else None
  }

  /** Whether the block holds any region `_setupElem` would touch. */
  predicate HasRegion(c: Content)
  {
    c.trubber.Some? || c.other.Some? || SlotCount(c.nodes) > 0
  }

  /** `_setupElem(mode)` of `paste-1`: each present region, and the first
      slot only, takes the mode's flag; with no parameters for the mode the
      first present region throws before anything changes. */
  function Setup(table: map<string, Visibility>, mode: string, c: Content): (r: (Content, Outcome))
    ensures r.1 == Threw <==> ModeParams(table, mode).None? && HasRegion(c)
    ensures ModeParams(table, mode).None? ==> r.0 == c
    ensures r.0.trubber.Some? == c.trubber.Some? && r.0.other.Some? == c.other.Some?
    ensures |r.0.nodes| == |c.nodes| && SlotCount(r.0.nodes) == SlotCount(c.nodes)
    ensures ModeParams(table, mode).Some? ==>
      var v := table[mode];
      (c.trubber.Some? ==> r.0.trubber == Some(!v.trubber))
      && (c.other.Some? ==> r.0.other == Some(!v.other))
      && (SlotCount(c.nodes) > 0 ==> FirstSlot(r.0.nodes) == Slot(!v.slot, FirstSlot(c.nodes).inputs))
    // Every node but the first slot is left as it was: later slots keep their own flag.
    ensures ModeParams(table, mode).Some? && SlotCount(c.nodes) > 0 ==>
      var k := FirstSlotIndex(c.nodes);
      r.0.nodes[..k] == c.nodes[..k] && r.0.nodes[k + 1..] == c.nodes[k + 1..]
    ensures ModeParams(table, mode).Some? && SlotCount(c.nodes) == 0 ==> r.0.nodes == c.nodes
  {
    var p := ModeParams(table, mode);
    if p.None? then (c, if HasRegion(c) then Threw else Completed)
    else
      var v := p.value;
      if SlotCount(c.nodes) > 0 then
        FirstSlotAfterHide(c.nodes, !v.slot);
        SetFirstSlotHiddenAt(c.nodes, !v.slot);
        (Content(SetRegion(c.trubber, v.trubber), SetRegion(c.other, v.other),
                 SetFirstSlotHidden(c.nodes, !v.slot)), Completed)
      else
        (Content(SetRegion(c.trubber, v.trubber), SetRegion(c.other, v.other), c.nodes), Completed)
  }

  /** Switching between configured modes does not accumulate: the second
      switch alone decides. */
  lemma {:induction false} SetupLastWins(table: map<string, Visibility>, m1: string, m2: string, c: Content)
    requires ModeParams(table, m1).Some? && ModeParams(table, m2).Some?
    ensures Setup(table, m2, Setup(table, m1, c).0) == Setup(table, m2, c)
  {
    SetFirstSlotHiddenLastWins(c.nodes, !table[m1].slot, !table[m2].slot);
  }

  /** Whether the first slot carries a hidden field of the given name. */
  predicate HasField(nodes: seq<Node>, field: string)
  {
    SlotCount(nodes) > 0 && field in FirstSlot(nodes).inputs
  }

  /** `inited` in `paginator` mode: `_page` becomes `name` when set; a block
      without a slot throws; a slot carrying the page field shows `other`,
      and throws when there is none. Other insertion types change nothing. */
  function InitedSpec(cfg: Config, s: Pane): (r: (Pane, Outcome))
    ensures r.0.url == s.url && r.0.content.trubber == s.content.trubber
    ensures r.0.content.nodes == s.content.nodes
    ensures cfg.typeInsert != "paginator" ==> r == (s, Completed)
    ensures cfg.typeInsert == "paginator" ==>
      r.0.page == (if Truthy(cfg.name) then cfg.name.value else s.page)
      && (r.1 == Threw <==>
            (SlotCount(s.content.nodes) == 0 || (HasField(s.content.nodes, r.0.page) && s.content.other.None?)))
      && (r.0.content.other == if r.1 == Completed && HasField(s.content.nodes, r.0.page)
                               then Some(false) else s.content.other)
  {
    if cfg.typeInsert != "paginator" then (s, Completed)
    else
      var page := if Truthy(cfg.name) then cfg.name.value else s.page;
      var s1 := s.(page := page);
      if SlotCount(s.content.nodes) == 0 then (s1, Threw)
      else if page in FirstSlot(s.content.nodes).inputs then
        if s.content.other.None? then (s1, Threw)
        else (s1.(content := s.content.(other := Some(false))), Completed)
      else (s1, Completed)
  }

  /** The channel handler of `inited`: only for a named block whose `inited`
      got that far. */
  function Subscriptions(cfg: Config, o: Outcome): (subs: seq<Subscription>)
    ensures subs != [] <==> Truthy(cfg.name) && o == Completed
    ensures subs != [] ==> subs == [Subscription(cfg.name.value, Click), Subscription(cfg.name.value, Change)]
  {
    if Truthy(cfg.name) && o == Completed then
      [Subscription(cfg.name.value, Click), Subscription(cfg.name.value, Change)]
    else []
  }

  /** `_ajax`: in `paginator` mode the URL is re-read from the `_page` field
      of the first slot (and left as it was when there is no slot); a truthy
      URL sends the request after the sending mode is applied. */
  function AjaxSpec(cfg: Config, s: Pane): (r: (Pane, AjaxResult))
    ensures r.0.page == s.page
    ensures cfg.typeInsert == "paginator" && SlotCount(s.content.nodes) > 0 ==>
      r.0.url == Lookup(FirstSlot(s.content.nodes).inputs, s.page)
    ensures !(cfg.typeInsert == "paginator" && SlotCount(s.content.nodes) > 0) ==> r.0.url == s.url
    ensures r.1 == NotSent <==> !Truthy(r.0.url)
    ensures r.1 == NotSent ==> r.0.content == s.content
    ensures r.1 != NotSent ==>
      (r.0.content, if r.1 == Sent then Completed else Threw) == Setup(cfg.displayModes, cfg.modeSending, s.content)
  {
    var url := if cfg.typeInsert == "paginator" && SlotCount(s.content.nodes) > 0
      then Lookup(FirstSlot(s.content.nodes).inputs, s.page) else s.url;
    if !Truthy(url) then (s.(url := url), NotSent)
    else
      var (c, o) := Setup(cfg.displayModes, cfg.modeSending, s.content);
      (Pane(c, url, s.page), if o == Completed then Sent else Aborted)
  }

  /** The `success` callback on the block's state: `_insert` replaces the
      slots; then in `paginator` mode either `init` (the new first slot has a
      field named literally "page") or `reset` followed by destroying `other`
      and `trubber`, each throwing when absent; in any other mode the
      receiving mode. */
  function SuccessSpec(cfg: Config, s: Pane, frag: seq<Node>): (r: (Pane, Outcome))
    ensures r.0.url == s.url && r.0.page == s.page
    ensures r.0.content.other.Some? ==> s.content.other.Some?
    ensures r.0.content.trubber.Some? ==> s.content.trubber.Some?
    ensures |r.0.content.nodes| == |Replaced(s.content.nodes, frag, true)|
    ensures cfg.typeInsert == "paginator" && !HasField(Replaced(s.content.nodes, frag, true), "page") && r.1 == Completed
      ==> r.0.content.other.None? && r.0.content.trubber.None?
    ensures cfg.typeInsert != "paginator" ==>
      (r.0.content, r.1) == Setup(cfg.displayModes, cfg.modeGetting, s.content.(nodes := Replaced(s.content.nodes, frag, true)))
    // Another page to come: the paginator shows its `init` mode again.
    ensures cfg.typeInsert == "paginator" && HasField(Replaced(s.content.nodes, frag, true), "page") ==>
      (r.0.content, r.1) == Setup(cfg.displayModes, "init", s.content.(nodes := Replaced(s.content.nodes, frag, true)))
    // The last page: the nodes and slot flag of the `reset` mode, and a completed
    // callback exactly when `reset` completed and both regions were there to destroy.
    ensures cfg.typeInsert == "paginator" && !HasField(Replaced(s.content.nodes, frag, true), "page") ==>
      var reset := Setup(cfg.displayModes, "reset", s.content.(nodes := Replaced(s.content.nodes, frag, true)));
      r.0.content.nodes == reset.0.nodes
      && (r.1 == Completed <==> reset.1 == Completed && s.content.other.Some? && s.content.trubber.Some?)
  {
    var c := s.content.(nodes := Replaced(s.content.nodes, frag, true));
    var (c2, o) :=
      if cfg.typeInsert != "paginator" then Setup(cfg.displayModes, cfg.modeGetting, c)
      else if HasField(c.nodes, "page") then Setup(cfg.displayModes, "init", c)
      else
        var (c1, o1) := Setup(cfg.displayModes, "reset", c);
        if o1 == Threw then (c1, Threw)
        else if c1.other.None? then (c1, Threw)
        else if c1.trubber.None? then (c1.(other := None), Threw)
        else (c1.(other := None, trubber := None), Completed);
    (s.(content := c2), o)
  }

  /** What the `success` callback emits: `success` on the block's name once
      the callback ran to the end. */
  function SuccessEmits(cfg: Config, o: Outcome): (ms: seq<Message>)
    ensures ms != [] <==> o == Completed && Truthy(cfg.name)
    ensures ms != [] ==> ms == [Message(cfg.name, Success, NoData)]
  {
    if o == Completed && Truthy(cfg.name) then [Message(cfg.name, Success, NoData)] else []
  }

  /** What can happen to the block after `inited`: a request is attempted,
      a response arrives, or the request fails (the `error` callback only
      alerts). */
  datatype Event = Send | Respond(frag: seq<Node>) | Fail

  function After(cfg: Config, s: Pane, e: Event): Pane
  {
    match e
    case Send => AjaxSpec(cfg, s).0
    case Respond(frag) => SuccessSpec(cfg, s, frag).0
    case Fail => s
  }

  function Replay(cfg: Config, s: Pane, es: seq<Event>): Pane
    decreases |es|
  {
    if es == [] then s else Replay(cfg, After(cfg, s, es[0]), es[1..])
  }

  /** No event brings back a region that is gone (responses are taken not to
      carry `trubber` or `other` elements). */
  lemma {:induction false} RegionsNeverReturn(cfg: Config, s: Pane, es: seq<Event>)
    ensures Replay(cfg, s, es).content.other.Some? ==> s.content.other.Some?
    ensures Replay(cfg, s, es).content.trubber.Some? ==> s.content.trubber.Some?
    decreases |es|
  {
    if es != [] {
      RegionsNeverReturn(cfg, After(cfg, s, es[0]), es[1..]);
    }
  }

  /** In `paginator` mode a response without a "page" field in its first
      slot that completes ends the feed: the `other` affordance and the
      `trubber` are destroyed and never come back, whatever follows. */
  lemma EndOfFeedIsTerminal(cfg: Config, s: Pane, frag: seq<Node>, es: seq<Event>)
    requires cfg.typeInsert == "paginator"
    requires !HasField(Replaced(s.content.nodes, frag, true), "page")
    requires SuccessSpec(cfg, s, frag).1 == Completed
    ensures Replay(cfg, s, [Respond(frag)] + es).content.other.None?
    ensures Replay(cfg, s, [Respond(frag)] + es).content.trubber.None?
  {
    var es' := [Respond(frag)] + es;
    assert es'[0] == Respond(frag) && es'[1..] == es;
    RegionsNeverReturn(cfg, SuccessSpec(cfg, s, frag).0, es);
  }

  /** Under the defaults every mode the `switch` knows has parameters, so
      `_setupElem` never throws for it. */
  lemma DefaultModeConfigured(mode: string)
    requires mode in MODE_NAMES
    ensures ModeParams(DEFAULT_DISPLAY_MODES, mode) == Some(DEFAULT_DISPLAY_MODES[mode])
  {
    assert MODE_NAMES == DEFAULT_DISPLAY_MODES.Keys;
  }

  /** The default sending mode: only the trubber shows. */
  lemma DefaultSendingMode()
    ensures ModeParams(DEFAULT_DISPLAY_MODES, "wait") == Some(Visibility(true, false, false))
  {
    assert "wait" in MODE_NAMES;
    assert DEFAULT_DISPLAY_MODES["wait"] == Visibility(true, false, false);
  }

  /** A failed request restores nothing: the block stays in the sending
      mode (with the defaults: the trubber shown, `other` and the slot
      hidden) until something else switches it. */
  lemma FailedRequestKeepsSendingMode(cfg: Config, s: Pane)
    requires ModeParams(cfg.displayModes, cfg.modeSending).Some?
    requires AjaxSpec(cfg, s).1 == Sent
    ensures var c := Replay(cfg, s, [Send, Fail]).content;
      var v := cfg.displayModes[cfg.modeSending];
      c.trubber == SetRegion(s.content.trubber, v.trubber)
      && c.other == SetRegion(s.content.other, v.other)
      && (SlotCount(c.nodes) > 0 ==> FirstSlot(c.nodes).hidden == !v.slot)
  {
    var a := AjaxSpec(cfg, s);
    assert [Send, Fail][1..] == [Fail];
    assert Replay(cfg, a.0, [Fail]) == Replay(cfg, a.0, []);
    assert Replay(cfg, s, [Send, Fail]) == a.0;
    assert (a.0.content, Completed) == Setup(cfg.displayModes, cfg.modeSending, s.content);
  }

  /** With a `name` other than "page", `inited` and `_ajax` use the field
      `name` while `success` looks for "page": a response whose slot carries
      the next URL under `name` is taken as the end of the feed, though
      `_ajax` would have followed that URL. */
  lemma PageNameMismatch()
    ensures var cfg := DefaultConfig(Some("feed"), "paginator");
      var s := Pane(Content(Some(true), Some(false), [Slot(true, map[])]), None, "feed");
      var frag := [Slot(true, map["feed" := "/list?p=3"])];
      var r := SuccessSpec(cfg, s, frag);
      r.1 == Completed && r.0.content.other.None?
      && AjaxSpec(cfg, r.0).1 == Sent && AjaxSpec(cfg, r.0).0.url == Some("/list?p=3")
  {
  }

  class PasteOne {
    const cfg: Config
    const bus: Bus

    var trubber: Option<bool>
    var other: Option<bool>
    var nodes: seq<Node>
    /** `params.url` and `_page`. */
    var url: Option<string>
    var page: string
    /** Whether `inited` registered the channel handler. */
    var subscribed: bool

    function State(): Pane
      reads this
    {
      Pane(Content(trubber, other, nodes), url, page)
    }

    /** The instance before `inited`: `_page` is "page". */
    constructor(cfg: Config, bus: Bus, markup: Content, url: Option<string>)
      ensures this.cfg == cfg && this.bus == bus
      ensures State() == Pane(markup, url, "page") && !subscribed
    {
      this.cfg := cfg;
      this.bus := bus;
      trubber := markup.trubber;
      other := markup.other;
      nodes := markup.nodes;
      this.url := url;
      page := "page";
      subscribed := false;
    }

    /** `inited`. */
    method Inited() returns (o: Outcome)
      modifies this
      ensures (State(), o) == InitedSpec(cfg, old(State()))
      ensures subscribed == (Subscriptions(cfg, o) != [])
    {
      o := Completed;
      if cfg.typeInsert == "paginator" {
        if Truthy(cfg.name) {
          page := cfg.name.value;
        }
        if SlotCount(nodes) == 0 {
          o := Threw;
        } else if page in FirstSlot(nodes).inputs {
          if other.None? {
            o := Threw;
          } else {
            other := Some(false);
          }
        }
      }
      subscribed := o == Completed && Truthy(cfg.name);
    }

    /** `_setupElem(mode)`. */
    method SetupElem(mode: string) returns (o: Outcome)
      modifies this
      ensures (State().content, o) == Setup(cfg.displayModes, mode, old(State().content))
      ensures url == old(url) && page == old(page) && subscribed == old(subscribed)
    {
      var p := ModeParams(cfg.displayModes, mode);
      if trubber.Some? {
        if p.None? {
          return Threw;
        }
        trubber := Some(!p.value.trubber);
      }
      if other.Some? {
        if p.None? {
          return Threw;
        }
        other := Some(!p.value.other);
      }
      if SlotCount(nodes) > 0 {
        if p.None? {
          return Threw;
        }
        nodes := SetFirstSlotHidden(nodes, !p.value.slot);
      }
      o := Completed;
    }

    /** `_insert(html)`: the walk of `paste`, with no mode switch and no message. */
    method Insert(frag: seq<Node>)
      modifies this
      ensures nodes == Replaced(old(nodes), frag, true)
      ensures trubber == old(trubber) && other == old(other)
      ensures url == old(url) && page == old(page) && subscribed == old(subscribed)
    {
      if SlotCount(nodes) > 0 {
        nodes := ReplaceSlots(nodes, frag);
      } else {
        ReplacedWithoutSlots(nodes, frag);
      }
    }

    /** `_ajax`, up to the request leaving (its callbacks are `OnSuccess`
        and the alert-only error callback). */
    method Ajax() returns (r: AjaxResult)
      modifies this
      ensures (State(), r) == AjaxSpec(cfg, old(State()))
      ensures subscribed == old(subscribed)
    {
      if cfg.typeInsert == "paginator" && SlotCount(nodes) > 0 {
        url := Lookup(FirstSlot(nodes).inputs, page);
      }
      if Truthy(url) {
        var o := SetupElem(cfg.modeSending);
        r := if o == Completed then Sent else Aborted;
      } else {
        r := NotSent;
      }
    }

    /** The `success` callback. */
    method OnSuccess(frag: seq<Node>) returns (o: Outcome)
      modifies this, bus
      ensures (State(), o) == SuccessSpec(cfg, old(State()), frag)
      ensures bus.log == old(bus.log) + SuccessEmits(cfg, o)
      ensures subscribed == old(subscribed)
    {
      Insert(frag);
      if cfg.typeInsert != "paginator" {
        o := SetupElem(cfg.modeGetting);
      } else if HasField(nodes, "page") {
        o := SetupElem("init");
      } else {
        o := SetupElem("reset");
        if o == Completed {
          if other.None? {
            o := Threw;
          } else {
            other := None;
            if trubber.None? {
              o := Threw;
            } else {
              trubber := None;
            }
          }
        }
      }
      if o == Completed && Truthy(cfg.name) {
        bus.Emit(Message(cfg.name, Success, NoData));
      }
    }

    /** The `click change` handler on the block's named channel. */
    method Deliver(m: Message) returns (r: AjaxResult)
      modifies this
      ensures subscribed && m.channel == cfg.name && (m.tag == Click || m.tag == Change) ==>
        (State(), r) == AjaxSpec(cfg, old(State()))
      ensures !(subscribed && m.channel == cfg.name && (m.tag == Click || m.tag == Change)) ==>
        State() == old(State()) && r == NotSent
      ensures subscribed == old(subscribed)
    {
      if subscribed && m.channel == cfg.name && (m.tag == Click || m.tag == Change) {
        r := Ajax();
      } else {
        r := NotSent;
      }
    }
  }
}
