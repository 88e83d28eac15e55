# blocks.js: modal windows, paste regions and pagination

A model of the interactive core of `blocks.js`, a set of i-bem front-end
blocks that talk to each other over named channels (`events__channels`):

- **modal-window**: every instance shares two static fields, `modal` and
  `namemodal`, so that at most one window is open. Opening a second window
  sends `closemodal` to the first. A click inside the content is told apart
  from a click outside it through a per-instance flag `e`. A window resize
  re-runs the placement of the open window (`top`, `center`, `bottom`,
  `fit`).
- **paste**: a mode controller over three regions, each with a `hide`
  modifier: a pending indicator (`trubber`), an affordance (`other`) and
  placeholder slots (`delete`). It is driven by `wait`, `insert`, `init` and
  `reset` on its channel. `insert` swaps the first slot for the received html
  and removes the other slots.
- **paginator**: asks for the next page (`next` on `channelnext`) on a click
  or on a scroll to an edge. It couples two paste channels: content arriving
  re-enables the bound paste with `init` when a page marker is there, and a
  wait on the second channel resets the bound paste.
- **paste-1**: an eight-mode variant that sends its own request and keeps
  the `wait` mode while the request is out. In `paginator` mode it follows
  the hidden page field of its `replace` slot, and tears its affordance down
  when a response carries no next page.

The channel bus is modelled as an append-only log of emitted messages
(`Channels.Bus`). Each block states its subscriptions as a function of its
parameters, and its handlers are `Deliver` methods that take a message. The
DOM of a block is reduced to its two regions and a sequence of nodes. A node
is markup the block never looks into, or a slot with its `hide` flag and its
hidden `<input>` fields. JavaScript truthiness of a parameter (`null`,
`undefined` and `""` are false) is `Channels.Truthy`.

Files:

| file | contents |
|---|---|
| `optional.dfy` | `Option` and map lookup |
| `dom.dfy` | the nodes a block's content is reduced to |
| `regions.dfy` | nodes and slots, the shared slot-replacement walk, hide flags |
| `channels.dfy` | message vocabulary, the bus log |
| `modal_window.dfy` | module `ModalWindowBlock` |
| `paste.dfy` | module `PasteBlock` |
| `paginator.dfy` | module `PaginatorBlock` |
| `paste_one.dfy` | module `PasteOneBlock` |
| `scenarios.dfy` | page-level walks through several blocks |

## Model

| member | source | states |
|---|---|---|
| ModalWindowBlock.Place | blocks.js:225-270 | A hidden window is shown at the top. `fit` pins the content height to the window height minus the wrapper's extra height. `center`/`auto` and `bottom` move the window only when the content is lower than the browser window. Any other direction, the documented `end` included, stays at the top. An already shown window keeps its placement unless that probe moves it. |
| ModalWindowBlock.Step | blocks.js:191-309 | Every `open(name)` leaves `modal` set and `namemodal` equal to `name`, whatever branch it takes. `close()` clears `modal` and keeps `namemodal`. |
| ModalWindowBlock.RunTracksLastOpen | blocks.js:191-217 | After any sequence of `open`/`close` calls, `modal` says whether the last call was an `open`, and `namemodal` is the name of the most recent `open`. `close` never clears `namemodal`. |
| ModalWindowBlock.SingleActive | blocks.js:191-309 | From the initial statics, whenever `modal` is set the registry names exactly the window the last call opened. |
| ModalWindowBlock.OpenEmits | blocks.js:191-217 | `open(data)` emits nothing when no window is open. It emits `closemodal` addressed to the open window when that window is another one, and the nameless `closemodal` of `close()` when it is the same one. |
| ModalWindowBlock.ResizeRestoresRegistry | blocks.js:146-158 | The resize re-open (`close` then `open` of the registered name) leaves the statics exactly as they were, and the re-open emits nothing more. |
| ModalWindowBlock.Interaction | blocks.js:77-96 | A click inside the content leaves the window open and the flag at 1. A click outside closes the window when the flag is 0 or 1. |
| ModalWindowBlock.OnlyOutsideClicksClose | blocks.js:77-96 | Starting from flag 0 or 1, over any sequence of clicks, exactly the outside clicks close the window. |
| ModalWindowBlock.Registry.constructor | blocks.js:319-324 | The statics start as `modal: false`, `namemodal: null`. |
| ModalWindowBlock.ModalWindow.constructor | blocks.js:63-77 | `inited` starts the click flag `e` at 0, with no placement applied yet. |
| ModalWindowBlock.ModalWindow.OnContentClick | blocks.js:79-82 | A click on `__content` sets the flag to 2 and leaves the window and its placement as they were. |
| ModalWindowBlock.ModalWindow.OpenWindow | blocks.js:225-270 | `_open` locks the body's scroll, shows the window, places it by `Place`, and records it as the open window. |
| ModalWindowBlock.ModalWindow.Open | blocks.js:191-217 | After `open(data)` the registry always names `data` as open. The emitted messages are `OpenEmits`. The placement is computed as for a hidden window whenever the window was hidden or was closed and re-opened. |
| ModalWindowBlock.ModalWindow.Close | blocks.js:298-309 | Hides the window. Unlocks the body only if the window was shown. Clears `modal` but not `namemodal`. Always emits one nameless `closemodal` and returns true. |
| ModalWindowBlock.ModalWindow.OnBlockClick | blocks.js:84-96 | The block handler closes when the flag is 0 or 1, and the body stays locked only if the window was already hidden. Otherwise it sets the flag to 1, and the window, the body lock, the registry and the log are unchanged. The placement never changes. |
| ModalWindowBlock.ModalWindow.Click | blocks.js:77-96 | One browser click: the content handler runs first for an inside click, then the block handler. The flag and whether the window closes are `Interaction`'s. A closing click unlocks the body as `close` does, and a non-closing click changes nothing else. The placement never changes. |
| ModalWindowBlock.ModalWindow.OnCloseIconClick | blocks.js:99-105 | The close icon closes the window only when the icon exists. Without it nothing changes. The placement and the click flag are kept either way. |
| ModalWindowBlock.ModalWindow.Deliver | blocks.js:108-143 | `openmodal`/`closemodal` act only when the data equals the instance's name, with the registry, log, body lock and placement of `open` and `close`. Any other message leaves the window, its placement, the body lock, the registry and the log unchanged. The click flag is never touched. |
| ModalWindowBlock.ModalWindow.OnResize | blocks.js:146-158 | Only the window the registry names is closed and re-opened. It is placed as a hidden window, and the registry is unchanged. Any other instance changes nothing, its body lock included. The click flag is kept in both cases. |
| PasteBlock.Apply | blocks.js:489-535 | Each present region takes the mode's flag and a missing region stays missing. Every slot takes the slot flag with its fields unchanged. Every other node is untouched. |
| PasteBlock.ApplyLastWins | blocks.js:489-535 | Two mode switches leave what the second alone leaves, so a switch to the current mode is idempotent. |
| PasteBlock.InsertEmits | blocks.js:543-567 | `insertend` goes out on the channel exactly when a slot was found and the channel is set. |
| PasteBlock.Inserted | blocks.js:543-567 | After `_insert` both regions are in the `insert` mode, and every slot left carries the `insert` mode's slot flag. |
| PasteBlock.InsertReplacesFirstSlot | blocks.js:543-567 | With N >= 1 slots, the fragment stands where slot 1 stood, slots 2..N are removed and all other nodes keep their order. With no slot the nodes are only re-flagged. Afterwards the only slots are the fragment's own. |
| PasteBlock.Subscriptions | blocks.js:455-477 | A paste with a channel subscribes to exactly `wait`, `insert`, `init` and `reset` on it, once each. Without a channel it subscribes to nothing. |
| PasteBlock.HandledIffSubscribed | blocks.js:455-477 | The block switches mode or inserts exactly for a message whose channel and tag it subscribed to. |
| PasteBlock.ModeOf | blocks.js:455-477 | `wait`, `init` and `reset` on the block's own channel select the mode of the same name, in both directions. |
| PasteBlock.Paste.constructor | blocks.js:449-453 | `inited` starts the block in the `init` mode. |
| PasteBlock.Paste.SetupElem | blocks.js:489-535 | The new regions are `Apply` of the old ones with the mode's parameters. |
| PasteBlock.Paste.Insert | blocks.js:543-567 | The new state is the slot walk followed by the `insert` mode, and the log grows by `InsertEmits`. When `insertend` goes out, the fragment is already in place but the regions are still in the previous mode. |
| PasteBlock.Paste.Deliver | blocks.js:455-477 | Mode messages switch modes, `insert` inserts its payload, and anything else changes nothing. |
| Regions.ReplaceSlots | blocks.js:546-562 | The `forEach` walk with the counter `i` equals `Replaced`: the first slot becomes the fragment and every later slot is destroyed. |
| Regions.ReplaceFirstSlot | blocks.js:546-562 | `Replaced` is the nodes before the first slot, then the fragment, then the remaining nodes with their slots removed. |
| Regions.SlotsAfterReplace | blocks.js:546-562 | After the walk the slot count is the fragment's when there was a slot, and zero otherwise. |
| Regions.ReplacedWithoutSlots | blocks.js:546-562 | With no slot, the walk leaves the nodes as they were. |
| Regions.SetSlotsHidden | blocks.js:526-534 | `findChildElems('delete')` flags every slot and leaves every other node unchanged. |
| Regions.SetFirstSlotHidden | blocks.js:1522-1532 | Flagging the first slot keeps the length and the number of slots, and changes nothing when there is no slot. |
| Regions.SetFirstSlotHiddenAt | blocks.js:1522-1532 | `findChildElem('replace')` flags only the first slot, keeping its fields, and leaves every node before and after it untouched. |
| Regions.FirstSlotAfterHide | blocks.js:1522-1532 | After a flag change the first slot is still the first slot, with its fields. |
| Regions.SetFirstSlotHiddenLastWins | blocks.js:1522-1532 | Flagging the first slot twice keeps only the second flag. |
| Regions.FirstSlotIndex | blocks.js:1363 | `findChildElem` finds a slot with no slot before it. |
| Regions.FirstSlotIndexUnique | blocks.js:1363 | That position is the only slot with no slot before it. |
| PaginatorBlock.Triggers | blocks.js:716-756 | Without `__object` no trigger is wired. The click is wired only without autopagination. `top` and `bottom` each wire one scroll direction. Any other non-empty value wires nothing. At most one trigger is wired. |
| PaginatorBlock.ScrollFiresWhenWired | blocks.js:731-756 | A scroll fires only with `__object` present: at `scrollTop == 0` under `top`, at `height + scrollTop >= scrollHeight` under `bottom`, and never otherwise. |
| PaginatorBlock.NextEmits | blocks.js:800-807 | `next` goes out on `channelnext`, carrying the value of the `page` field, exactly when a `__page` element exists and `channelnext` is set. |
| PaginatorBlock.CouplingEmits | blocks.js:758-792 | Every emission goes to `channel1` and carries no data, and it is `init` or `reset`. `reset` is emitted exactly on a `wait` on `channel2`. `init` is emitted only for an `insert` while a page marker is present. An `insert` on either channel with the marker present always emits `init` on `channel1`. |
| PaginatorBlock.BoundInsertReinits | blocks.js:760-792 | An `insert` on the bound channel yields one `init` on it when the page marker is present, or two when `channel2` is the same channel, and nothing otherwise. |
| PaginatorBlock.UnboundInsertReinits | blocks.js:782-792 | An `insert` on `channel2` yields one `init` on `channel1` when the page marker is present, or two when both channels are the same, and nothing otherwise. |
| PaginatorBlock.CouplingOnlyWhenSubscribed | blocks.js:758-792 | The coupling handlers emit only for a subscribed channel and tag. A subscribed `wait`, or a subscribed `insert` with the marker present, always emits. |
| PaginatorBlock.Paginator.constructor | blocks.js:713-716 | The instance keeps the four parameters and whether `__object` exists. |
| PaginatorBlock.Subscriptions | blocks.js:758-792 | In registration order: `insert` on `channel1`, then `wait` and `insert` on `channel2`, each only when that channel is set, and nothing else. |
| PaginatorBlock.Paginator.NextPaginator | blocks.js:800-807 | The log grows by `NextEmits`. |
| PaginatorBlock.Paginator.OnObjectClick | blocks.js:719-728 | A click asks for the next page only when the click handler was wired. |
| PaginatorBlock.Paginator.OnScroll | blocks.js:731-756 | A scroll asks for the next page at `scrollTop == 0` under `top`, and at `height + scrollTop >= scrollHeight` under `bottom`. |
| PaginatorBlock.Paginator.Deliver | blocks.js:758-792 | The log grows by `CouplingEmits`, in handler registration order. |
| PasteOneBlock.ModeParams | blocks.js:1465-1499 | A mode has parameters exactly when it is one of the eight names of the `switch` and is present in `display_modes`. |
| PasteOneBlock.Setup | blocks.js:1465-1533 | Each present region and the first slot take the mode's flags. Every node before and after the first slot is left as it was, so later slots keep their own flag. An unconfigured mode throws, with nothing changed, exactly when some region is present. |
| PasteOneBlock.SetupLastWins | blocks.js:1465-1533 | Between configured modes, the second switch alone decides the result. |
| PasteOneBlock.InitedSpec | blocks.js:1325-1350 | In `paginator` mode, `_page` becomes `name` when it is set. A block without a slot throws. A slot that carries the page field shows `other`, and the block throws when `other` is missing. Other insertion types change nothing. |
| PasteOneBlock.Subscriptions | blocks.js:1344-1350 | `click` and `change` are subscribed on the name only for a named block whose `inited` did not throw. |
| PasteOneBlock.AjaxSpec | blocks.js:1387-1414 | In `paginator` mode with a slot, the URL is re-read from the `_page` field of the first slot. The request is sent exactly when the URL is truthy. The sending mode is then applied, and a throw there stops the request. |
| PasteOneBlock.SuccessSpec | blocks.js:1415-1449 | The slots are replaced. In `paginator` mode, a new first slot with a "page" field brings back the `init` mode. Without one, the nodes and slot flag are those of `reset`, and the callback completes exactly when `reset` completes and both regions exist. A completed callback then leaves neither `other` nor the trubber. In other modes the receiving mode is applied. No region is ever created. |
| PasteOneBlock.SuccessEmits | blocks.js:1445-1448 | `success` goes out on the name exactly when the callback completed and the block is named. |
| PasteOneBlock.RegionsNeverReturn | blocks.js:1415-1449 | No sequence of requests, responses and failures brings back a destroyed region. |
| PasteOneBlock.EndOfFeedIsTerminal | blocks.js:1427-1438 | A completed response with no "page" field ends the feed for good: `other` and the trubber are gone after any later events. |
| PasteOneBlock.FailedRequestKeepsSendingMode | blocks.js:1409-1454 | After a sent request that fails, each present region and the first slot keep the flags of the sending mode. Nothing restores the mode the block had before the request. |
| PasteOneBlock.DefaultModeConfigured | blocks.js:1203-1266 | Under the default `display_modes`, each of the eight modes of the `switch` has its own parameters, so switching to it never throws. |
| PasteOneBlock.DefaultSendingMode | blocks.js:1203-1266 | The default sending mode `wait` shows only the trubber. |
| PasteOneBlock.PageNameMismatch | blocks.js:1387-1449 | With `name` "feed", a response whose slot carries the next URL under "feed" is taken as the end of the feed, although `_ajax` would follow that URL. |
| PasteOneBlock.PasteOne.constructor | blocks.js:1273-1276 | Before `inited`, `_page` is "page" and no channel handler is registered. |
| PasteOneBlock.PasteOne.Inited | blocks.js:1291-1351 | The new state and outcome are `InitedSpec`. The channel handler is registered as `Subscriptions` says. |
| PasteOneBlock.PasteOne.SetupElem | blocks.js:1465-1533 | The new regions and outcome are `Setup`. |
| PasteOneBlock.PasteOne.Insert | blocks.js:1541-1562 | The nodes become `Replaced`, and nothing else changes. |
| PasteOneBlock.PasteOne.Ajax | blocks.js:1387-1414 | The new state and result are `AjaxSpec`. |
| PasteOneBlock.PasteOne.OnSuccess | blocks.js:1415-1449 | The new state and outcome are `SuccessSpec`, and the log grows by `SuccessEmits`. |
| PasteOneBlock.PasteOne.Deliver | blocks.js:1346-1350 | `click`/`change` on the name run `_ajax` once subscribed. Anything else changes nothing. |
| Scenarios.ModalReopenThenOutsideClick | blocks.js:191-309 | Re-opening the open window emits one nameless `closemodal`. An outside click emits another and leaves `modal` false with the name kept. |
| Scenarios.PasteFeed | blocks.js:455-567 | `wait` then `insert` on a paste: the fragment replaces the slot, `insertend` is logged, and the fragment's slot is shown. |
| Scenarios.PaginatorReinitsFeed | blocks.js:455-792 | An `insert` on the bound channel hides the paste's `other` and logs `insertend`. The paginator answers the same `insert` with `init`, which shows `other` again and hides the new slot. |
| Scenarios.PasteOneLastPage | blocks.js:1291-1449 | A paste-1 paginator sends to the URL in its slot and shows `wait`. The last page removes `other` and the trubber, and `success` is logged. |

Two behaviours of the code that the model keeps as written:

- The paginator's coupling only emits `init`/`reset` on `channel1`. It does
  not tear down the paste's regions. Only `paste-1` destroys `other` and the
  trubber, and only inside its own `success` callback.
- A failed request restores nothing: the `error` callback only alerts, so
  the block stays in the sending mode.

## Left out

- Delivery of channel and BEM events is left out. Emissions are logged, and the handler a message would reach is called by the client. In the page, `emit` runs subscribers synchronously and in registration order, even inside the emitting handler. In the modal hand-off, the other window's `close()` therefore runs before `_open`. The model does not interleave these.
- The DOM, jQuery and CSS are left out. Region visibility is the `hide` flag. Heights are plain integers, and jQuery's clamping of a negative height in `fit` is not modelled.
- `_propertiesAll` (browser window measurements) is left out. Its results are the `Viewport` parameter.
- The `multiple` parameter of modal-window is left out because it is never read.
- The modal name is taken as a required string. The block documentation makes it mandatory.
- The textareasmiles block is left out. It rests on the browser's Selection/Range API, on layout measurements with fractional factors and on rewriting serialised HTML, none of which reduces to this state model.
- The ext-paste block is left out because it only forwards DOM events to a channel.
- The paste2-paste5 blocks are left out because they are plain re-declarations of `paste`, which is modelled.
- paste-1's event-wiring loops over `_elem_div` and the `_event` helper are left out, along with the `_elem_div` array shared through the prototype. The model covers only the named-channel `click`/`change` handler.
- paste-1's automatic request on `event_load` is left out. It is one call of `_ajax` at document ready, which a client makes with `Ajax`.
- URL resolution, the HTTP transport, `alert` and the pairing of responses with requests are left out. The `success` callback is `OnSuccess` with the parsed fragment, and the error callback changes nothing.
- Received fragments are taken not to contain `trubber` or `other` elements. The model does not search inside a fragment for new regions.
- PasteOneBlock.Setup: a destroyed region counts as absent at once. The source keeps its reference until the next `_mainObject`, and the only visible difference is that an unconfigured mode throws on such a stale reference.
- Regions.ReplaceSlots: nodes are rebuilt as a new sequence rather than edited in place.
