/**
 * The content of a block as its handlers see it once the DOM is reduced to
 * values: a document-ordered sequence of nodes, some of which are placeholder
 * slots (`paste__delete` in `paste`, `paste-1__replace` in `paste-1`) that an
 * insertion replaces, plus the mode triples that drive region visibility.
 */
module Regions {
  import opened Optional
  import opened Dom

  /** A display mode: whether the `trubber` (pending indicator), `other`
      (affordance) and slot regions are to be visible. */
  datatype Visibility = Visibility(trubber: bool, other: bool, slot: bool)

  /** A region located by `findChildElem`: None when absent, else Some(hidden).
      Present regions take the mode's flag; a missing one stays missing. */
  function SetRegion(r: Option<bool>, visible: bool): Option<bool>
  {
    if r.Some? then Some(!visible) else None
  }

  /** What a paste block's mode switch acts on: its `trubber` and `other`
      regions (each None when the markup has none, else Some(hidden)) and its
      content nodes. */
  datatype Content = Content(trubber: Option<bool>, other: Option<bool>, nodes: seq<Node>)

  function SlotCount(ns: seq<Node>): nat
  {
    if ns == [] then 0 else (if ns[0].Slot? then 1 else 0) + SlotCount(ns[1..])
  }

  lemma {:induction false} SlotCountAppend(a: seq<Node>, b: seq<Node>)
    ensures SlotCount(a + b) == SlotCount(a) + SlotCount(b)
  {
    if a == [] {
      assert a + b == b;
    } else {
      assert (a + b)[1..] == a[1..] + b;
      SlotCountAppend(a[1..], b);
    }
  }

  /** Where `findChildElem` finds the slot: the first one in document order. */
  function FirstSlotIndex(ns: seq<Node>): (k: nat)
    requires SlotCount(ns) > 0
    ensures k < |ns| && ns[k].Slot? && SlotCount(ns[..k]) == 0
  {
    if ns[0].Slot? then 0
    else
      var j := FirstSlotIndex(ns[1..]);
      assert ns[..j + 1] == [ns[0]] + ns[1..][..j];
      SlotCountAppend([ns[0]], ns[1..][..j]);
      j + 1
  }

  lemma {:induction false} FirstSlotIndexUnique(ns: seq<Node>, k: nat)
    requires k < |ns| && ns[k].Slot? && SlotCount(ns[..k]) == 0
    ensures SlotCount(ns) > 0 && FirstSlotIndex(ns) == k
  {
    assert ns == ns[..k] + ns[k..];
    SlotCountAppend(ns[..k], ns[k..]);
    var j := FirstSlotIndex(ns);
    if j < k {
      assert ns[..k] == ns[..j] + [ns[j]] + ns[j + 1..k];
      SlotCountAppend(ns[..j] + [ns[j]], ns[j + 1..k]);
      SlotCountAppend(ns[..j], [ns[j]]);
      assert false;
    } else if k < j {
      assert ns[..j] == ns[..k] + [ns[k]] + ns[k + 1..j];
      SlotCountAppend(ns[..k] + [ns[k]], ns[k + 1..j]);
      SlotCountAppend(ns[..k], [ns[k]]);
      assert false;
    }
  }

  /** The slot `findChildElem` returns. */
  function FirstSlot(ns: seq<Node>): Node
    requires SlotCount(ns) > 0
  {
    ns[FirstSlotIndex(ns)]
  }

  /** The nodes that are not slots, in order: what is left after every slot is destroyed. */
  function Strip(ns: seq<Node>): (r: seq<Node>)
    ensures SlotCount(r) == 0
  {
    if ns == [] then []
    else
      var rest := Strip(ns[1..]);
      SlotCountAppend(if ns[0].Slot? then [] else [ns[0]], rest);
      (if ns[0].Slot? then [] else [ns[0]]) + rest
  }

  /** What one node of the walk contributes: the fragment for the slot that
      is replaced, nothing for a destroyed slot, itself for any other node. */
  function Piece(n: Node, frag: seq<Node>, first: bool): seq<Node>
  {
    if n.Slot? then (if first then frag else []) else [n]
  }

  /** The walk over the slot collection with the counter `i`: while `first`
      holds, the next slot is replaced by `frag`; every later slot is
      destroyed; every other node stays where it is. */
  function Replaced(ns: seq<Node>, frag: seq<Node>, first: bool): seq<Node>
  {
    if ns == [] then []
    else Piece(ns[0], frag, first) + Replaced(ns[1..], frag, first && !ns[0].Slot?)
  }

  /** Once the first slot has been used, the rest of the walk only destroys slots. */
  lemma {:induction false} ReplacedAfterFirst(ns: seq<Node>, frag: seq<Node>)
    ensures Replaced(ns, frag, false) == Strip(ns)
  {
    if ns != [] {
      ReplacedAfterFirst(ns[1..], frag);
    }
  }

  /** With no slot at all, an insertion leaves the content as it was. */
  lemma {:induction false} ReplacedWithoutSlots(ns: seq<Node>, frag: seq<Node>)
    requires SlotCount(ns) == 0
    ensures Replaced(ns, frag, true) == ns
  {
    if ns != [] {
      ReplacedWithoutSlots(ns[1..], frag);
      assert ns == [ns[0]] + ns[1..];
    }
  }

  /** With N >= 1 slots, slot 1 is replaced by the fragment and slots 2..N are
      removed; every non-slot node keeps its place. */
  lemma {:induction false} ReplaceFirstSlot(ns: seq<Node>, frag: seq<Node>)
    requires SlotCount(ns) > 0
    ensures Replaced(ns, frag, true)
         == ns[..FirstSlotIndex(ns)] + frag + Strip(ns[FirstSlotIndex(ns) + 1..])
  {
    var k := FirstSlotIndex(ns);
    if ns[0].Slot? {
      ReplacedAfterFirst(ns[1..], frag);
      assert Replaced(ns, frag, true) == frag + Replaced(ns[1..], frag, false);
    } else {
      var tail := ns[1..];
      var j := FirstSlotIndex(tail);
      assert k == j + 1;
      ReplaceFirstSlot(tail, frag);
      assert tail[j + 1..] == ns[k + 1..];
      assert ns[..k] == [ns[0]] + tail[..j];
      assert Replaced(ns, frag, true) == [ns[0]] + Replaced(tail, frag, true);
      ConsRegroup(ns[0], tail[..j], frag, Strip(ns[k + 1..]));
    }
  }

  lemma ConsRegroup(x: Node, a: seq<Node>, b: seq<Node>, c: seq<Node>)
    ensures [x] + (a + b + c) == ([x] + a) + b + c
  {
  }

  /** Exactly one insertion point survives: afterwards the only slots are the
      fragment's own (none at all when the block had no slot). */
  lemma SlotsAfterReplace(ns: seq<Node>, frag: seq<Node>)
    ensures SlotCount(Replaced(ns, frag, true)) == if SlotCount(ns) > 0 then SlotCount(frag) else 0
  {
    if SlotCount(ns) > 0 {
      var k := FirstSlotIndex(ns);
      ReplaceFirstSlot(ns, frag);
      SlotCountAppend(ns[..k] + frag, Strip(ns[k + 1..]));
      SlotCountAppend(ns[..k], frag);
    } else {
      ReplacedWithoutSlots(ns, frag);
    }
  }

  /**
   * `_insert`'s walk (`forEach` over the slots with the counter `i`):
   * the first slot is swapped for the fragment (`bemDom.replace`), every
   * later one is destroyed (`bemDom.destruct`).
   */
  method ReplaceSlots(ns: seq<Node>, frag: seq<Node>) returns (r: seq<Node>)
    ensures r == Replaced(ns, frag, true)
  {
    r := [];
    var i := 1;
    var k := 0;
    while k < |ns|
      invariant 0 <= k <= |ns|
      invariant i == 1 || i == 2
      invariant r + Replaced(ns[k..], frag, i == 1) == Replaced(ns, frag, true)
    {
      ReplacedStep(ns, k, frag, i == 1, r);
      if ns[k].Slot? {
        if i == 1 {
          r := r + frag;
          i := i + 1;
        }
      } else {
        r := r + [ns[k]];
      }
      k := k + 1;
    }
  }

  /** One step of the walk: the node at `k` appends its piece to what is done. */
  lemma ReplacedStep(ns: seq<Node>, k: nat, frag: seq<Node>, first: bool, done: seq<Node>)
    requires k < |ns|
    ensures done + Replaced(ns[k..], frag, first)
         == (done + Piece(ns[k], frag, first)) + Replaced(ns[k + 1..], frag, first && !ns[k].Slot?)
  {
    assert ns[k..][1..] == ns[k + 1..];
    assert ns[k..][0] == ns[k];
  }

  /** `findChildElems(...).setMod/delMod('hide')`: every slot takes the same hide flag. */
  function SetSlotsHidden(ns: seq<Node>, hidden: bool): (r: seq<Node>)
    ensures |r| == |ns|
    ensures forall i :: 0 <= i < |ns| ==>
      r[i] == if ns[i].Slot? then Slot(hidden, ns[i].inputs) else ns[i]
  {
    if ns == [] then [] else
      (if ns[0].Slot? then [Slot(hidden, ns[0].inputs)] else [ns[0]])
      + SetSlotsHidden(ns[1..], hidden)
  }

  /** Setting the slots' hide flag twice keeps only the second flag. */
  lemma SetSlotsHiddenLastWins(ns: seq<Node>, h1: bool, h2: bool)
    ensures SetSlotsHidden(SetSlotsHidden(ns, h1), h2) == SetSlotsHidden(ns, h2)
  {
    var a := SetSlotsHidden(SetSlotsHidden(ns, h1), h2);
    var b := SetSlotsHidden(ns, h2);
    assert |a| == |b|;
    forall i | 0 <= i < |a| ensures a[i] == b[i] {
    }
  }

  /** Flagging the slots neither adds nor removes any. */
  lemma {:induction false} SlotCountHidden(ns: seq<Node>, hidden: bool)
    ensures SlotCount(SetSlotsHidden(ns, hidden)) == SlotCount(ns)
  {
    if ns != [] {
      SlotCountHidden(ns[1..], hidden);
      var r := SetSlotsHidden(ns, hidden);
      assert r[1..] == SetSlotsHidden(ns[1..], hidden);
    }
  }

  /** `findChildElem(...).setMod/delMod('hide')`: only the first slot takes the flag. */
  function SetFirstSlotHidden(ns: seq<Node>, hidden: bool): (r: seq<Node>)
    ensures |r| == |ns|
    ensures SlotCount(r) == SlotCount(ns)
    ensures SlotCount(ns) == 0 ==> r == ns
  {
    if ns == [] then []
    else if ns[0].Slot? then [Slot(hidden, ns[0].inputs)] + ns[1..]
    else
      var rest := SetFirstSlotHidden(ns[1..], hidden);
      assert ns == [ns[0]] + ns[1..];
      [ns[0]] + rest
  }

  /** Flagging the first slot twice keeps only the second flag. */
  lemma {:induction false} SetFirstSlotHiddenLastWins(ns: seq<Node>, h1: bool, h2: bool)
    ensures SetFirstSlotHidden(SetFirstSlotHidden(ns, h1), h2) == SetFirstSlotHidden(ns, h2)
  {
    if ns != [] {
      var r1 := SetFirstSlotHidden(ns, h1);
      if ns[0].Slot? {
        assert r1[1..] == ns[1..];
      } else {
        assert r1[1..] == SetFirstSlotHidden(ns[1..], h1);
        SetFirstSlotHiddenLastWins(ns[1..], h1, h2);
      }
    }
  }

  /** Exactly the first slot changes: it takes the flag and keeps its fields;
      every node before and after it is untouched. */
  lemma {:induction false} SetFirstSlotHiddenAt(ns: seq<Node>, hidden: bool)
    requires SlotCount(ns) > 0
    ensures var r, k := SetFirstSlotHidden(ns, hidden), FirstSlotIndex(ns);
      r[..k] == ns[..k] && r[k] == Slot(hidden, ns[k].inputs) && r[k + 1..] == ns[k + 1..]
  {
    if !ns[0].Slot? {
      var r := SetFirstSlotHidden(ns, hidden);
      var k := FirstSlotIndex(ns);
      var j := FirstSlotIndex(ns[1..]);
      assert k == j + 1;
      SetFirstSlotHiddenAt(ns[1..], hidden);
      assert r[1..] == SetFirstSlotHidden(ns[1..], hidden);
      assert r[..k] == [ns[0]] + r[1..][..j];
      assert ns[..k] == [ns[0]] + ns[1..][..j];
      assert r[k + 1..] == r[1..][j + 1..];
      assert ns[k + 1..] == ns[1..][j + 1..];
    }
  }

  /** The first slot stays the first slot, with its fields, under a hide flag change. */
  lemma {:induction false} FirstSlotAfterHide(ns: seq<Node>, hidden: bool)
    requires SlotCount(ns) > 0
    ensures SlotCount(SetFirstSlotHidden(ns, hidden)) > 0
    ensures FirstSlotIndex(SetFirstSlotHidden(ns, hidden)) == FirstSlotIndex(ns)
    ensures FirstSlot(SetFirstSlotHidden(ns, hidden)) == Slot(hidden, FirstSlot(ns).inputs)
  {
    if !ns[0].Slot? {
      var r := SetFirstSlotHidden(ns, hidden);
      FirstSlotAfterHide(ns[1..], hidden);
      assert r[1..] == SetFirstSlotHidden(ns[1..], hidden);
      assert r[0] == ns[0];
    }
  }
}
