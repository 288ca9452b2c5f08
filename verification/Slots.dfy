/** Slot memory and the frames in it (src/vchiq/shared/slot.rs). */
module Slots {
  import opened Config
  import opened SlotMessage

  /** Which slot, and the byte offset inside it. */
  datatype SlotPosition = SlotPosition(index: nat, offset: nat)

  /** The slot array: every slot has SLOT_SIZE bytes. */
  type Memory = seq<seq<byte>>

  predicate IsMemory(mem: Memory) {
    forall i | 0 <= i < |mem| :: |mem[i]| == SLOT_SIZE
  }

  /** The bytes of a slot with `bytes` written at offset `at`. */
  function Splice(slot: seq<byte>, at: nat, bytes: seq<byte>): (r: seq<byte>)
    requires at + |bytes| <= |slot|
    ensures |r| == |slot|
    ensures r[..at] == slot[..at] && r[at..at + |bytes|] == bytes
    ensures r[at + |bytes|..] == slot[at + |bytes|..]
  {
    slot[..at] + bytes + slot[at + |bytes|..]
  }

  /** What store_message leaves behind: a header and the payload given, nothing else. */
  function StoreMessage(mem: Memory, pos: SlotPosition, id: u32, size: u32, payload: seq<byte>): (r: Memory)
    requires IsMemory(mem) && 0 < pos.index < |mem|
    requires pos.offset + HEADER_SIZE + |payload| <= SLOT_SIZE
    ensures IsMemory(r) && |r| == |mem|
    ensures forall i | 0 <= i < |mem| && i != pos.index :: r[i] == mem[i]
  {
    mem[pos.index := Splice(mem[pos.index], pos.offset, Header(id, size) + payload)]
  }

  /** The message whose header starts at byte `at`; None when it would run over the end of the slot. */
  function MessageAt(slot: seq<byte>, at: nat): Option<Msg> {
    if at + HEADER_SIZE <= |slot| then
      var id := WordAt(slot, at);
      var size := WordAt(slot, at + 4);
      if at + HEADER_SIZE + size <= |slot|
      then Some(Msg(id, slot[at + HEADER_SIZE..at + HEADER_SIZE + size]))
      else None
    else None
  }

  /** read_message; None stands for its two assertions and for a message leaving the slot. */
  function ReadMessage(mem: Memory, pos: SlotPosition): Option<Msg> {
    if 0 < pos.index < |mem| then MessageAt(mem[pos.index], pos.offset % SLOT_SIZE) else None
  }

  lemma SameSlice(a: seq<byte>, b: seq<byte>, n: nat, i: nat, j: nat)
    requires i <= j <= n <= |a| && n <= |b| && a[..n] == b[..n]
    ensures a[i..j] == b[i..j]
  {
    assert a[i..j] == a[..n][i..j];
    assert b[i..j] == b[..n][i..j];
  }

  /** Reading depends only on the bytes the message occupies. */
  lemma MessageAtPrefix(a: seq<byte>, b: seq<byte>, n: nat, at: nat)
    requires n <= |a| && n <= |b| && a[..n] == b[..n]
    requires MessageAt(a, at).Some? && at + HEADER_SIZE + |MessageAt(a, at).value.data| <= n
    ensures MessageAt(b, at) == MessageAt(a, at)
  {
    SameSlice(a, b, n, at, at + 4);
    SameSlice(a, b, n, at + 4, at + 8);
    SameSlice(a, b, n, at + 8, at + 8 + |MessageAt(a, at).value.data|);
  }

  /** A stored message reads back. */
  lemma StoreThenRead(slot: seq<byte>, at: nat, m: Msg)
    requires at + HEADER_SIZE + |m.data| <= |slot| && |m.data| < 0x1_0000_0000
    ensures MessageAt(Splice(slot, at, Header(m.id, |m.data|) + m.data), at) == Some(m)
  {
    var bytes := Header(m.id, |m.data|) + m.data;
    var r := Splice(slot, at, bytes);
    var w := r[at..at + |bytes|];
    assert r[at..at + 4] == w[..4] == WordBytes(m.id);
    assert r[at + 4..at + 8] == w[4..8] == WordBytes(|m.data|);
    assert r[at + 8..at + 8 + |m.data|] == w[8..] == m.data;
  }

  /** A stored padding header reads back as a padding of the size given, whatever follows it. */
  lemma StorePaddingThenRead(slot: seq<byte>, at: nat, size: u32)
    requires at + HEADER_SIZE + size <= |slot|
    ensures var m := MessageAt(Splice(slot, at, Header(0, size) + []), at);
            m.Some? && m.value.id == 0 && |m.value.data| == size
  {
    var r := Splice(slot, at, Header(0, size) + []);
    var w := r[at..at + 8];
    assert r[at..at + 4] == w[..4] == WordBytes(0);
    assert r[at + 4..at + 8] == w[4..8] == WordBytes(size);
  }

  lemma StoredReads(mem: Memory, pos: SlotPosition, m: Msg)
    requires IsMemory(mem) && 0 < pos.index < |mem| && pos.offset + HEADER_SIZE + |m.data| <= SLOT_SIZE
    ensures ReadMessage(StoreMessage(mem, pos, m.id, |m.data|, m.data), pos) == Some(m)
  {
    var r := StoreMessage(mem, pos, m.id, |m.data|, m.data);
    assert r[pos.index] == Splice(mem[pos.index], pos.offset, Header(m.id, |m.data|) + m.data);
    assert pos.offset % SLOT_SIZE == pos.offset;
    StoreThenRead(mem[pos.index], pos.offset, m);
    assert ReadMessage(r, pos) == MessageAt(r[pos.index], pos.offset);
  }

  lemma StoredPaddingReads(mem: Memory, pos: SlotPosition, size: u32) returns (pad: Msg)
    requires IsMemory(mem) && 0 < pos.index < |mem| && pos.offset + HEADER_SIZE + size <= SLOT_SIZE
    ensures ReadMessage(StoreMessage(mem, pos, 0, size, []), pos) == Some(pad)
    ensures IsPadding(pad) && |pad.data| == size
  {
    StorePaddingThenRead(mem[pos.index], pos.offset, size);
    pad := MessageAt(StoreMessage(mem, pos, 0, size, [])[pos.index], pos.offset).value;
  }
}
