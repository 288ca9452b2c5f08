/** Message identifiers, headers and strides (src/vchiq/shared/slotmessage.rs). */
module SlotMessage {
  import opened Config

  type byte = b: int | 0 <= b < 0x100
  type u32 = x: int | 0 <= x < 0x1_0000_0000

  datatype MessageType =
    | PADDING | CONNECT | OPEN | OPENACK | CLOSE | DATA
    | BULK_RX | BULK_TX | BULK_RX_DONE | BULK_TX_DONE
    | PAUSE | RESUME | REMOTE_USE | REMOTE_RELEASE | REMOTE_USE_ACTIVE

  /** The discriminant of a message type. */
  function Code(t: MessageType): (c: nat)
    ensures FromCode(c) == Some(t)
  {
    match t
    case PADDING => 0
    case CONNECT => 1
    case OPEN => 2
    case OPENACK => 3
    case CLOSE => 4
    case DATA => 5
    case BULK_RX => 6
    case BULK_TX => 7
    case BULK_RX_DONE => 8
    case BULK_TX_DONE => 9
    case PAUSE => 10
    case RESUME => 11
    case REMOTE_USE => 12
    case REMOTE_RELEASE => 13
    case REMOTE_USE_ACTIVE => 14
  }

  /** The inverse of Code; None stands for the unreachable branch of the source. */
  function FromCode(c: nat): Option<MessageType> {
    match c
    case 0 => Some(PADDING)
    case 1 => Some(CONNECT)
    case 2 => Some(OPEN)
    case 3 => Some(OPENACK)
    case 4 => Some(CLOSE)
    case 5 => Some(DATA)
    case 6 => Some(BULK_RX)
    case 7 => Some(BULK_TX)
    case 8 => Some(BULK_RX_DONE)
    case 9 => Some(BULK_TX_DONE)
    case 10 => Some(PAUSE)
    case 11 => Some(RESUME)
    case 12 => Some(REMOTE_USE)
    case 13 => Some(REMOTE_RELEASE)
    case 14 => Some(REMOTE_USE_ACTIVE)
    case _ => None
  }

  /** Bitwise or of two unsigned integers, bit by bit. */
  function BitOr(a: nat, b: nat): nat
    decreases a + b
  {
    if a == 0 then b
    else if b == 0 then a
    else (if a % 2 == 1 || b % 2 == 1 then 1 else 0) + 2 * BitOr(a / 2, b / 2)
  }

  function Pow2(k: nat): nat {
    if k == 0 then 1 else 2 * Pow2(k - 1)
  }

  /** When b fits below bit k, or-ing it into a multiple of 2^k is addition. */
  lemma {:induction false} BitOrDisjoint(a: nat, b: nat, k: nat)
    requires b < Pow2(k)
    ensures BitOr(a * Pow2(k), b) == a * Pow2(k) + b
  {
    if k > 0 && a > 0 && b > 0 {
      var h := Pow2(k - 1);
      assert a * Pow2(k) == 2 * (a * h);
      assert a * h > 0;
      BitOrDisjoint(a, b / 2, k - 1);
    }
  }

  lemma BitOrBound(a: nat, b: nat, k: nat)
    requires a < Pow2(k) && b < Pow2(k)
    ensures BitOr(a, b) < Pow2(k)
  {
  }

  lemma PowersUsed()
    ensures Pow2(12) == 0x1000 && Pow2(24) == 0x100_0000 && Pow2(32) == 0x1_0000_0000
  {
    assert Pow2(4) == 16;
    assert Pow2(8) == 256;
    assert Pow2(12) == 0x1000;
    assert Pow2(16) == 0x1_0000;
    assert Pow2(20) == 0x10_0000;
    assert Pow2(24) == 0x100_0000;
    assert Pow2(28) == 0x1000_0000;
  }

  /** A left shift of a u32 drops the bits that leave the word. */
  function Shl12(x: u32): u32 {
    (x * 0x1000) % 0x1_0000_0000
  }

  function MakeMsgId(t: MessageType, src: u32, dst: u32): u32 {
    PowersUsed();
    BitOrBound(Code(t) * 0x100_0000, Shl12(src), 32);
    BitOrBound(BitOr(Code(t) * 0x100_0000, Shl12(src)), dst, 32);
    BitOr(BitOr(Code(t) * 0x100_0000, Shl12(src)), dst)
  }

  function MsgType(id: u32): Option<MessageType> {
    FromCode(id / 0x100_0000)
  }

  function SrcPort(id: u32): nat {
    id / 0x1000 % 0x1000
  }

  function DstPort(id: u32): nat {
    id % 0x1000
  }

  /** For ports of twelve bits the three fields do not overlap. */
  lemma FieldsAdd(c: nat, src: nat, dst: nat)
    requires src < 0x1000 && dst < 0x1000
    ensures BitOr(BitOr(c * 0x100_0000, src * 0x1000), dst) == (c * 0x1000 + src) * 0x1000 + dst
  {
    PowersUsed();
    BitOrDisjoint(c, src * 0x1000, 24);
    BitOrDisjoint(c * 0x1000 + src, dst, 12);
    assert c * 0x100_0000 + src * 0x1000 == (c * 0x1000 + src) * 0x1000;
  }

  /** A port of twelve bits survives the shift. */
  lemma ShiftKeeps(src: u32)
    requires src < 0x1000
    ensures Shl12(src) == src * 0x1000
  {
  }

  lemma MsgIdIsSum(t: MessageType, src: u32, dst: u32)
    requires src < 0x1000 && dst < 0x1000
    ensures MakeMsgId(t, src, dst) == (Code(t) * 0x1000 + src) * 0x1000 + dst
  {
    hide BitOr;
    hide Code;
    hide Shl12;
    FieldsAdd(Code(t), src, dst);
    ShiftKeeps(src);
  }

  lemma SplitFields(high: nat, low: nat)
    requires low < 0x1000
    ensures (high * 0x1000 + low) / 0x1000 == high && (high * 0x1000 + low) % 0x1000 == low
  {
  }

  lemma DivTwice(n: nat)
    ensures n / 0x1000 / 0x1000 == n / 0x100_0000
  {
  }

  /** All three fields come back exactly when both ports fit their twelve bits. */
  lemma MsgIdRoundTrip(t: MessageType, src: u32, dst: u32)
    ensures var id := MakeMsgId(t, src, dst);
            (MsgType(id) == Some(t) && SrcPort(id) == src && DstPort(id) == dst)
            <==> (src < 0x1000 && dst < 0x1000)
  {
    var id := MakeMsgId(t, src, dst);
    if src < 0x1000 && dst < 0x1000 {
      MsgIdIsSum(t, src, dst);
      hide MakeMsgId;
      SplitFields(Code(t) * 0x1000 + src, dst);
      SplitFields(Code(t), src);
      DivTwice(id);
    } else {
      assert SrcPort(id) < 0x1000 && DstPort(id) < 0x1000;
    }
  }

  lemma BitOrDouble(a: nat, b: nat)
    ensures BitOr(2 * a, 2 * b) == 2 * BitOr(a, b)
  {
  }

  lemma TimesPow2(a: nat, k: nat)
    requires k > 0
    ensures a * Pow2(k) == 2 * (a * Pow2(k - 1))
  {
    var h := Pow2(k - 1);
    assert a * (2 * h) == 2 * (a * h);
  }

  lemma {:induction false} BitOrScale(a: nat, b: nat, k: nat)
    ensures BitOr(a * Pow2(k), b * Pow2(k)) == BitOr(a, b) * Pow2(k)
  {
    if k > 0 {
      hide BitOr;
      hide Pow2;
      TimesPow2(a, k);
      TimesPow2(b, k);
      TimesPow2(BitOr(a, b), k);
      BitOrScale(a, b, k - 1);
      BitOrDouble(a * Pow2(k - 1), b * Pow2(k - 1));
    }
  }

  lemma BitOrOne(high: nat)
    ensures BitOr(high, 1) == high / 2 * 2 + 1
  {
  }

  /** The destination 0x1000 only sets the lowest bit of the source field. */
  lemma SpillSetsOneBit(c: nat, src: nat)
    requires src < 0x1000
    ensures BitOr(BitOr(c * 0x100_0000, src * 0x1000), 0x1000) == (c * 0x1000 + src / 2 * 2 + 1) * 0x1000
  {
    var high := c * 0x1000 + src;
    FieldsAdd(c, src, 0);
    PowersUsed();
    BitOrScale(high, 1, 12);
    BitOrOne(high);
    assert high / 2 == c * 0x800 + src / 2;
  }

  lemma SpilledId(t: MessageType, src: u32)
    requires src < 0x1000
    ensures MakeMsgId(t, src, 0x1000) == (Code(t) * 0x1000 + src / 2 * 2 + 1) * 0x1000
  {
    hide BitOr;
    hide Code;
    hide Shl12;
    SpillSetsOneBit(Code(t), src);
    ShiftKeeps(src);
  }

  /** The destination 0x1000 of a service without a remote port spills into the source port, never into the type. */
  lemma TypeSurvives(t: MessageType, src: u32, dst: u32)
    requires src < 0x1000 && dst <= 0x1000
    ensures MsgType(MakeMsgId(t, src, dst)) == Some(t)
  {
    hide MakeMsgId;
    if dst < 0x1000 {
      MsgIdRoundTrip(t, src, dst);
    } else {
      hide Code;
      hide FromCode;
      SpilledId(t, src);
      TypeOfSum(Code(t), src);
    }
  }

  lemma TypeOfSum(c: nat, src: nat)
    requires src < 0x1000
    ensures (c * 0x1000 + src / 2 * 2 + 1) * 0x1000 / 0x100_0000 == c
  {
    SplitFields(c * 0x1000 + (src / 2 * 2 + 1), 0);
    SplitFields(c, src / 2 * 2 + 1);
    DivTwice((c * 0x1000 + src / 2 * 2 + 1) * 0x1000);
  }

  /** A message as it lies in a slot: the header's id, and `size` bytes of payload. */
  datatype Msg = Msg(id: u32, data: seq<byte>)

  /** The source compares against VCHIQ_MSGID_PADDING's type only. */
  predicate IsPadding(m: Msg) {
    MsgType(m.id) == Some(PADDING)
  }

  /** Space taken by a message: the least multiple of 8 holding header and payload. */
  function CalcMsgStride(size: nat): (stride: nat)
    ensures stride % 8 == 0
    ensures size + HEADER_SIZE <= stride < size + HEADER_SIZE + 8
  {
    var padded := size + HEADER_SIZE + HEADER_SIZE - 1;
    padded - padded % HEADER_SIZE   // clears the low three bits
  }

  function Stride(m: Msg): nat {
    CalcMsgStride(|m.data|)
  }

  /** No smaller multiple of 8 would do, and a padding of size space - 8 takes exactly that space. */
  lemma StrideIsLeast(size: nat, other: nat)
    requires other % 8 == 0 && other >= size + HEADER_SIZE
    ensures CalcMsgStride(size) <= other
    ensures size + HEADER_SIZE == other ==> CalcMsgStride(size) == other
  {
  }

  function Pow256(n: nat): (p: nat)
    ensures p > 0
  {
    if n == 0 then 1 else 0x100 * Pow256(n - 1)
  }

  lemma Pow256Of4()
    ensures Pow256(4) == 0x1_0000_0000
  {
    assert Pow256(2) == 0x1_0000;
  }

  /** The `n` low bytes of a number, least significant first. */
  function ToLE(x: nat, n: nat): (bytes: seq<byte>)
    ensures |bytes| == n
    ensures x < Pow256(n) ==> FromLE(bytes) == x
  {
    if n == 0 then [] else [x % 0x100] + ToLE(x / 0x100, n - 1)
  }

  function FromLE(bytes: seq<byte>): (x: nat)
    ensures x < Pow256(|bytes|)
  {
    if bytes == [] then 0 else bytes[0] as nat + 0x100 * FromLE(bytes[1..])
  }

  function WordBytes(x: u32): (bytes: seq<byte>)
    ensures |bytes| == 4 && FromLE(bytes) == x
  {
    Pow256Of4();
    ToLE(x, 4)
  }

  function WordAt(bytes: seq<byte>, at: nat): (x: u32)
    requires at + 4 <= |bytes|
    ensures x == FromLE(bytes[at..at + 4])
  {
    Pow256Of4();
    FromLE(bytes[at..at + 4])
  }

  function Header(id: u32, size: u32): (bytes: seq<byte>)
    ensures |bytes| == HEADER_SIZE
  {
    WordBytes(id) + WordBytes(size)
  }

  /** How a header lies in a slot: the id in its first four bytes, the size in the others, low bytes first. */
  lemma HeaderLayout(id: u32, size: u32)
    ensures Header(id, size)[..4] == Quarters(id) && Header(id, size)[4..] == Quarters(size)
  {
    WordLayout(id);
    WordLayout(size);
  }

  /** The bytes of a number, lowest first. */
  function Quarters(x: u32): seq<byte> {
    [x % 0x100, x / 0x100 % 0x100, x / 0x1_0000 % 0x100, x / 0x100_0000]
  }

  lemma WordLayout(x: u32)
    ensures WordBytes(x) == Quarters(x)
  {
    assert x / 0x100 / 0x100 == x / 0x1_0000 && x / 0x1_0000 / 0x100 == x / 0x100_0000;
    assert ToLE(x / 0x100_0000, 1) == [x / 0x100_0000];
    assert ToLE(x / 0x1_0000, 2) == [x / 0x1_0000 % 0x100, x / 0x100_0000];
    assert ToLE(x / 0x100, 3) == [x / 0x100 % 0x100, x / 0x1_0000 % 0x100, x / 0x100_0000];
  }

  /** The message types in the order of their numbers. */
  const TYPES: seq<MessageType> :=
    [PADDING, CONNECT, OPEN, OPENACK, CLOSE, DATA, BULK_RX, BULK_TX, BULK_RX_DONE, BULK_TX_DONE, PAUSE, RESUME,
     REMOTE_USE, REMOTE_RELEASE, REMOTE_USE_ACTIVE]

  /** How an id is laid out: the type's number above 24 bits, the source port above 12, and the destination port. */
  lemma IdLayout(k: nat, src: u32, dst: u32)
    requires k < 15 && src < 0x1000 && dst < 0x1000
    ensures MakeMsgId(TYPES[k], src, dst) == k * 0x100_0000 + src * 0x1000 + dst
  {
    hide MakeMsgId;
    MsgIdIsSum(TYPES[k], src, dst);
    assert Code(TYPES[k]) == k;
  }
}
