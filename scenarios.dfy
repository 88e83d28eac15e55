/**
 * Page-level walks through the blocks working together, with the messages
 * each step would put on the channels.
 */
module Scenarios {
  import opened Optional
  import opened Dom
  import opened Regions
  import opened Channels
  import ModalWindowBlock
  import PasteBlock
  import PaginatorBlock
  import PasteOneBlock

  /** A window asked to open while it is the open one closes and re-opens
      itself; an outside click then closes it, leaving its name recorded. */
  method ModalReopenThenOutsideClick(v: ModalWindowBlock.Viewport)
    returns (log: seq<Message>, registry: ModalWindowBlock.Arbiter, hidden: bool)
    ensures log == [ModalWindowBlock.CloseModalMessage(NoData), ModalWindowBlock.CloseModalMessage(NoData)]
    ensures registry == ModalWindowBlock.Arbiter(false, Some("login"))
    ensures hidden
  {
    var bus := new Bus();
    var reg := new ModalWindowBlock.Registry();
    var body := new ModalWindowBlock.Body();
    var w := new ModalWindowBlock.ModalWindow("login", "center", true, true, reg, body, bus);
    var open := Message(Some(ModalWindowBlock.CHANNEL), OpenModal, Text("login"));
    w.Deliver(open, v);
    assert bus.log == [];
    w.Deliver(open, v);
    w.Click(false);
    log := bus.log;
    registry := reg.State();
    hidden := w.hidden;
  }

  /** A `paste` on channel "feed" under the defaults: `wait` shows only the
      trubber; `insert` puts the fragment where the slot was, announces
      `insertend` and shows the fragment's slot. */
  method PasteFeed() returns (log: seq<Message>, content: Content)
    ensures log == [Message(Some("feed"), InsertEnd, NoData)]
    ensures content == Content(Some(true), Some(true), [Markup("head"), Markup("item"), Slot(false, map[])])
  {
    var bus := new Bus();
    var markup := Content(Some(true), Some(true), [Markup("head"), Slot(true, map[])]);
    var p := new PasteBlock.Paste(Some("feed"), PasteBlock.DEFAULT_MODES, bus, markup);
    p.Deliver(Message(Some("feed"), Wait, NoData));
    assert p.State() == Content(Some(false), Some(true), [Markup("head"), Slot(true, map[])]);
    var frag := [Markup("item"), Slot(true, map[])];
    assert Replaced(p.nodes, frag, true) == [Markup("head"), Markup("item"), Slot(true, map[])];
    p.Deliver(Message(Some("feed"), Insert, Html(frag)));
    log := bus.log;
    content := p.State();
  }

  /** The paginator bound to "feed" sees the same `insert` as the paste:
      the paste's `insert` mode hides `other`, and the paginator, finding a
      page marker, answers with `init` on "feed", whose handler brings
      `other` back and hides the new slot. */
  method PaginatorReinitsFeed() returns (log: seq<Message>, afterInsert: Content, content: Content)
    ensures afterInsert == Content(Some(true), Some(true), [Markup("head"), Markup("item"), Slot(false, map[])])
    ensures log == [Message(Some("feed"), InsertEnd, NoData), Message(Some("feed"), Init, NoData)]
    ensures content == Content(Some(true), Some(false), [Markup("head"), Markup("item"), Slot(true, map[])])
  {
    var bus := new Bus();
    var markup := Content(Some(true), Some(true), [Markup("head"), Slot(false, map[])]);
    var p := new PasteBlock.Paste(Some("feed"), PasteBlock.DEFAULT_MODES, bus, markup);
    var pg := new PaginatorBlock.Paginator(Some("feed"), None, Some("next"), None, true, bus);
    assert p.nodes == [Markup("head"), Slot(true, map[])] && SlotCount(p.nodes) > 0 && bus.log == [];
    var frag := [Markup("item"), Slot(true, map[])];
    var insert := Message(Some("feed"), Insert, Html(frag));
    assert p.nodes[1..] == [Slot(true, map[])];
    assert Replaced(p.nodes[1..], frag, true) == frag;
    assert Replaced(p.nodes, frag, true) == [Markup("head"), Markup("item"), Slot(true, map[])];
    p.Deliver(insert);
    assert bus.log == [Message(Some("feed"), InsertEnd, NoData)];
    afterInsert := p.State();
    pg.Deliver(insert, true);
    var init := Message(Some("feed"), Init, NoData);
    assert bus.log == [Message(Some("feed"), InsertEnd, NoData), init];
    p.Deliver(init);
    log := bus.log;
    content := p.State();
  }

  /** A `paste-1` in `paginator` mode named "list": `inited` shows `other`
      because the slot carries the "list" field; the request goes to that
      URL in the `wait` mode; a response whose slot has no "page" field ends
      the feed, destroying `other` and the trubber, and `success` is sent. */
  method PasteOneLastPage()
    returns (log: seq<Message>, sent: PasteOneBlock.AjaxResult, url: Option<string>, content: Content)
    ensures sent == PasteOneBlock.Sent && url == Some("/list/2")
    ensures log == [Message(Some("list"), Success, NoData)]
    ensures content == Content(None, None, [Markup("row"), Slot(true, map[])])
  {
    var bus := new Bus();
    var cfg := PasteOneBlock.DefaultConfig(Some("list"), "paginator");
    var markup := Content(Some(true), Some(true), [Slot(true, map["list" := "/list/2"])]);
    var p := new PasteOneBlock.PasteOne(cfg, bus, markup, None);
    var o := p.Inited();
    assert o == PasteOneBlock.Completed && p.other == Some(false);
    sent := p.Ajax();
    url := p.url;
    assert p.State().content == Content(Some(false), Some(true), [Slot(true, map["list" := "/list/2"])]);
    var frag := [Markup("row"), Slot(true, map[])];
    assert Replaced(p.nodes, frag, true) == frag;
    assert !PasteOneBlock.HasField(frag, "page");
    o := p.OnSuccess(frag);
    log := bus.log;
    content := p.State().content;
  }
}
