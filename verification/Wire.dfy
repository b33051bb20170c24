/**
 * The binary message: fixed header fields, the tuple area behind them, strings and the
 * byte checksum. Multi-byte fields are stored lowest byte first.
 */
module Wire {
  import opened Basics
  import opened StudentTuples

  const BUFFER_WIDTH := 32768

  const NAME_LENGTH := 32

  const TUPLE := 9

  /** A buffer of BUFFER_WIDTH bytes and the length of the message in it. */
  datatype Message = Message(bytes: seq<Byte>, size: nat)

  datatype ParserError = ReadAfterEnd | InvalidValue

  datatype Result<T> = Ok(value: T) | Err(error: ParserError)

  datatype OpType =
    START_TXN | ADD_TUPLE | SHARED_READ | EXCLUSIVE_READ | YIELD_READ | PROMOTE | UPDATE | DELETE | COMMIT_TXN | ABORT_TXN

  datatype OpAck =
    | SUCCESS | BUSY | BAD_OP | BAD_TABLE | BAD_TP | BAD_TXN | BAD_PHASE | BAD_DATA | BAD_ACCESS
    | COMMIT_FULL | TIMEOUT | ABORTED | DEAD_TXN

  datatype Field = OP | OP_ID | TXN | ACK | TBL | TP_KEY

  function Offset(f: Field): nat {
    match f case OP => 0 case OP_ID => 1 case TXN => 2 case ACK => 6 case TBL => 7 case TP_KEY => 8
  }

  function Width(f: Field): nat { if f.TXN? then 4 else 1 }

  predicate Whole(m: Message) { |m.bytes| == BUFFER_WIDTH }

  // ---- Numbers as bytes ----

  function Pow256(w: nat): nat { if w == 0 then 1 else 256 * Pow256(w - 1) }

  function Encode(v: nat, w: nat): (b: seq<Byte>)
    ensures |b| == w
  {
    if w == 0 then [] else [v % 256] + Encode(v / 256, w - 1)
  }

  function Decode(b: seq<Byte>): nat { if b == [] then 0 else b[0] + 256 * Decode(b[1..]) }

  lemma {:induction false} DecodeBound(b: seq<Byte>)
    ensures Decode(b) < Pow256(|b|)
  {
    if b != [] { DecodeBound(b[1..]); }
  }

  lemma {:induction false} DecodeEncodeFits(v: nat, w: nat)
    requires v < Pow256(w)
    ensures Decode(Encode(v, w)) == v
  {
    if w > 0 { DecodeEncodeFits(v / 256, w - 1); }
  }

  /** A number comes back from its bytes exactly when it fits in them. */
  lemma {:induction false} DecodeEncode(v: nat, w: nat)
    ensures Decode(Encode(v, w)) == v <==> v < Pow256(w)
  {
    DecodeBound(Encode(v, w));
    if v < Pow256(w) { DecodeEncodeFits(v, w); }
  }

  // ---- Reading and writing bytes ----

  /** The bytes at an offset. */
  function Slice(s: seq<Byte>, off: nat, w: nat): (b: seq<Byte>)
    requires off + w <= |s|
    ensures |b| == w
  {
    s[off..off + w]
  }

  /** Copying bytes over an offset. */
  function Splice(s: seq<Byte>, off: nat, b: seq<Byte>): (t: seq<Byte>)
    requires off + |b| <= |s|
    ensures |t| == |s|
  {
    s[..off] + b + s[off + |b|..]
  }

  /** What is read back over a write: the written bytes at the same place, the old ones anywhere else. */
  lemma SliceOfSplice(s: seq<Byte>, off: nat, b: seq<Byte>, at: nat, w: nat)
    requires off + |b| <= |s| && at + w <= |s|
    ensures at == off && w == |b| ==> Slice(Splice(s, off, b), at, w) == b
    ensures at + w <= off || off + |b| <= at ==> Slice(Splice(s, off, b), at, w) == Slice(s, at, w)
  {
  }

  // ---- Header fields ----

  function ParseField(m: Message, f: Field): Result<nat>
    requires Whole(m)
  {
    if Offset(f) + Width(f) > m.size then Err(ReadAfterEnd) else Ok(Decode(Slice(m.bytes, Offset(f), Width(f))))
  }

  function SetField(m: Message, f: Field, v: nat): (r: Message)
    requires Whole(m)
    ensures Whole(r) && r.size == m.size
  {
    m.(bytes := Splice(m.bytes, Offset(f), Encode(v, Width(f))))
  }

  function Op(raw: nat): Result<OpType> {
    match raw
    case 0 => Ok(START_TXN) case 1 => Ok(ADD_TUPLE) case 2 => Ok(SHARED_READ) case 3 => Ok(EXCLUSIVE_READ)
    case 4 => Ok(YIELD_READ) case 5 => Ok(PROMOTE) case 6 => Ok(UPDATE) case 7 => Ok(DELETE)
    case 8 => Ok(COMMIT_TXN) case 9 => Ok(ABORT_TXN) case _ => Err(InvalidValue)
  }

  function OpCode(op: OpType): nat {
    match op
    case START_TXN => 0 case ADD_TUPLE => 1 case SHARED_READ => 2 case EXCLUSIVE_READ => 3 case YIELD_READ => 4
    case PROMOTE => 5 case UPDATE => 6 case DELETE => 7 case COMMIT_TXN => 8 case ABORT_TXN => 9
  }

  function Ack(raw: nat): Result<OpAck> {
    match raw
    case 0 => Ok(SUCCESS) case 1 => Ok(BUSY) case 2 => Ok(BAD_OP) case 3 => Ok(BAD_TABLE) case 4 => Ok(BAD_TP)
    case 5 => Ok(BAD_TXN) case 6 => Ok(BAD_PHASE) case 7 => Ok(BAD_DATA) case 8 => Ok(BAD_ACCESS)
    case 9 => Ok(COMMIT_FULL) case 10 => Ok(TIMEOUT) case 11 => Ok(ABORTED) case 12 => Ok(DEAD_TXN)
    case _ => Err(InvalidValue)
  }

  function AckCode(ack: OpAck): nat {
    match ack
    case SUCCESS => 0 case BUSY => 1 case BAD_OP => 2 case BAD_TABLE => 3 case BAD_TP => 4 case BAD_TXN => 5
    case BAD_PHASE => 6 case BAD_DATA => 7 case BAD_ACCESS => 8 case COMMIT_FULL => 9 case TIMEOUT => 10
    case ABORTED => 11 case DEAD_TXN => 12
  }

  function GetOp(m: Message): Result<OpType>
    requires Whole(m)
  {
    var raw := ParseField(m, OP);
    if raw.Err? then Err(raw.error) else Op(raw.value)
  }

  function GetAck(m: Message): Result<OpAck>
    requires Whole(m)
  {
    var raw := ParseField(m, ACK);
    if raw.Err? then Err(raw.error) else Ack(raw.value)
  }

  /** Everything the six getters answer. */
  datatype Header = Header(op: Result<OpType>, opId: Result<nat>, txn: Result<nat>, ack: Result<OpAck>, tbl: Result<nat>, key: Result<nat>)

  function Getters(m: Message): Header
    requires Whole(m)
  {
    Header(GetOp(m), ParseField(m, OP_ID), ParseField(m, TXN), GetAck(m), ParseField(m, TBL), ParseField(m, TP_KEY))
  }

  /** A call of one of the setters. */
  datatype Set = SetOp(op: OpType) | SetOpId(id: Byte) | SetTxn(txn: Word) | SetAck(ack: OpAck) | SetTbl(tbl: Byte) | SetKey(key: Byte)

  function FieldOf(s: Set): Field {
    match s case SetOp(_) => OP case SetOpId(_) => OP_ID case SetTxn(_) => TXN case SetAck(_) => ACK case SetTbl(_) => TBL case SetKey(_) => TP_KEY
  }

  function ValueOf(s: Set): nat {
    match s case SetOp(op) => OpCode(op) case SetOpId(v) => v case SetTxn(v) => v case SetAck(ack) => AckCode(ack) case SetTbl(v) => v case SetKey(v) => v
  }

  function Do(m: Message, s: Set): Message
    requires Whole(m)
  {
    SetField(m, FieldOf(s), ValueOf(s))
  }

  function DoAll(m: Message, sets: seq<Set>): (r: Message)
    requires Whole(m)
    ensures Whole(r) && r.size == m.size
  {
    if sets == [] then m else Do(DoAll(m, sets[..|sets|-1]), sets[|sets|-1])
  }

  /** The record a header is meant to be: a setter replaces its own field. */
  function Assigned(h: Header, s: Set): Header {
    match s
    case SetOp(op) => h.(op := Ok(op))
    case SetOpId(v) => h.(opId := Ok(v))
    case SetTxn(v) => h.(txn := Ok(v))
    case SetAck(ack) => h.(ack := Ok(ack))
    case SetTbl(v) => h.(tbl := Ok(v))
    case SetKey(v) => h.(key := Ok(v))
  }

  function AssignedAll(h: Header, sets: seq<Set>): Header {
    if sets == [] then h else Assigned(AssignedAll(h, sets[..|sets|-1]), sets[|sets|-1])
  }

  lemma Codes(s: Set)
    ensures s.SetOp? ==> Op(OpCode(s.op)) == Ok(s.op)
    ensures s.SetAck? ==> Ack(AckCode(s.ack)) == Ok(s.ack)
    ensures ValueOf(s) < Pow256(Width(FieldOf(s)))
  {
    assert Pow256(4) == 0x1_0000_0000 && Pow256(1) == 256;
  }

  /** A field read after one write: the value written, or what was there. */
  lemma FieldAfterSet(m: Message, f: Field, v: nat, g: Field)
    requires Whole(m) && v < Pow256(Width(f))
    ensures ParseField(SetField(m, f, v), g) ==
            if g == f && Offset(f) + Width(f) <= m.size then Ok(v) else ParseField(m, g)
  {
    SliceOfSplice(m.bytes, Offset(f), Encode(v, Width(f)), Offset(g), Width(g));
    DecodeEncode(v, Width(f));
  }

  lemma SetIsAssignment(m: Message, s: Set)
    requires Whole(m) && m.size >= TUPLE
    ensures Getters(Do(m, s)) == Assigned(Getters(m), s)
  {
    hide ParseField, SetField, Pow256, Op, Ack, OpCode, AckCode;
    Codes(s);
    var f, v := FieldOf(s), ValueOf(s);
    FieldAfterSet(m, f, v, OP);
    FieldAfterSet(m, f, v, OP_ID);
    FieldAfterSet(m, f, v, TXN);
    FieldAfterSet(m, f, v, ACK);
    FieldAfterSet(m, f, v, TBL);
    FieldAfterSet(m, f, v, TP_KEY);
  }

  /** Last writer wins: after any sequence of setters the getters answer like a plain record assigned in the same order. */
  lemma {:induction false} SettersAreAssignments(m: Message, sets: seq<Set>)
    requires Whole(m) && m.size >= TUPLE
    ensures Getters(DoAll(m, sets)) == AssignedAll(Getters(m), sets)
  {
    hide Getters, Do;
    if sets != [] {
      SettersAreAssignments(m, sets[..|sets|-1]);
      SetIsAssignment(DoAll(m, sets[..|sets|-1]), sets[|sets|-1]);
    }
  }

  /** A getter refuses exactly the messages that end before its field does, whatever the buffer holds. */
  lemma ShortMessages(m: Message, f: Field)
    requires Whole(m)
    ensures ParseField(m, f) == Err(ReadAfterEnd) <==> m.size < Offset(f) + Width(f)
    ensures ParseField(m, f).Ok? ==> ParseField(m, f).value < Pow256(Width(f))
  {
    DecodeBound(Slice(m.bytes, Offset(f), Width(f)));
  }

  // ---- The layout, byte by byte ----

  /** What the getters answer, by the bytes of the message. */
  lemma GettersAreBytes(m: Message)
    requires Whole(m)
    ensures m.size < 1 ==> Getters(m).op == Err(ReadAfterEnd)
    ensures m.size >= 1 ==>
              var op := Getters(m).op;
              && (m.bytes[0] == 0 ==> op == Ok(START_TXN)) && (m.bytes[0] == 1 ==> op == Ok(ADD_TUPLE)) && (m.bytes[0] == 2 ==> op == Ok(SHARED_READ))
              && (m.bytes[0] == 3 ==> op == Ok(EXCLUSIVE_READ)) && (m.bytes[0] == 4 ==> op == Ok(YIELD_READ)) && (m.bytes[0] == 5 ==> op == Ok(PROMOTE))
              && (m.bytes[0] == 6 ==> op == Ok(UPDATE)) && (m.bytes[0] == 7 ==> op == Ok(DELETE)) && (m.bytes[0] == 8 ==> op == Ok(COMMIT_TXN))
              && (m.bytes[0] == 9 ==> op == Ok(ABORT_TXN)) && (m.bytes[0] >= 10 ==> op == Err(InvalidValue))
    ensures Getters(m).opId == if m.size < 2 then Err(ReadAfterEnd) else Ok(m.bytes[1])
    ensures Getters(m).txn == if m.size < 6 then Err(ReadAfterEnd)
                              else Ok((m.bytes[2] as int) + 0x100 * (m.bytes[3] as int) + 0x1_0000 * (m.bytes[4] as int) + 0x100_0000 * (m.bytes[5] as int))
    ensures m.size < 7 ==> Getters(m).ack == Err(ReadAfterEnd)
    ensures m.size >= 7 ==>
              var ack := Getters(m).ack;
              && (m.bytes[6] == 0 ==> ack == Ok(SUCCESS)) && (m.bytes[6] == 1 ==> ack == Ok(BUSY)) && (m.bytes[6] == 2 ==> ack == Ok(BAD_OP))
              && (m.bytes[6] == 3 ==> ack == Ok(BAD_TABLE)) && (m.bytes[6] == 4 ==> ack == Ok(BAD_TP)) && (m.bytes[6] == 5 ==> ack == Ok(BAD_TXN))
              && (m.bytes[6] == 6 ==> ack == Ok(BAD_PHASE)) && (m.bytes[6] == 7 ==> ack == Ok(BAD_DATA)) && (m.bytes[6] == 8 ==> ack == Ok(BAD_ACCESS))
              && (m.bytes[6] == 9 ==> ack == Ok(COMMIT_FULL)) && (m.bytes[6] == 10 ==> ack == Ok(TIMEOUT)) && (m.bytes[6] == 11 ==> ack == Ok(ABORTED))
              && (m.bytes[6] == 12 ==> ack == Ok(DEAD_TXN)) && (m.bytes[6] >= 13 ==> ack == Err(InvalidValue))
    ensures Getters(m).tbl == if m.size < 8 then Err(ReadAfterEnd) else Ok(m.bytes[7])
    ensures Getters(m).key == if m.size < 9 then Err(ReadAfterEnd) else Ok(m.bytes[8])
  {
    OneByte(m.bytes, 0);
    OneByte(m.bytes, 1);
    FourBytes(m.bytes, 2);
    OneByte(m.bytes, 6);
    OneByte(m.bytes, 7);
    OneByte(m.bytes, 8);
    hide Slice, Decode;
  }

  lemma OneByte(b: seq<Byte>, i: nat)
    requires i < |b|
    ensures Decode(Slice(b, i, 1)) == b[i]
  {
    assert Slice(b, i, 1) == [b[i]] && [b[i]][1..] == [];
  }

  lemma FourBytes(b: seq<Byte>, i: nat)
    requires i + 4 <= |b|
    ensures Decode(Slice(b, i, 4)) ==
            (b[i] as int) + 0x100 * (b[i + 1] as int) + 0x1_0000 * (b[i + 2] as int) + 0x100_0000 * (b[i + 3] as int)
  {
    var s := Slice(b, i, 4);
    assert s == [b[i], b[i + 1], b[i + 2], b[i + 3]];
    assert s[1..] == [b[i + 1], b[i + 2], b[i + 3]] && s[1..][1..] == [b[i + 2], b[i + 3]];
    assert s[1..][1..][1..] == [b[i + 3]] && s[1..][1..][1..][1..] == [];
    assert Decode(s[1..][1..][1..]) == b[i + 3];
    assert Decode(s[1..][1..]) == (b[i + 2] as int) + 0x100 * (b[i + 3] as int);
  }

  /** Which byte each one-byte setter writes, and what. */
  lemma SettersAreBytes(m: Message, op: OpType, ack: OpAck, v: Byte)
    requires Whole(m)
    ensures Do(m, SetOp(op)).bytes ==
            m.bytes[0 := match op case START_TXN => 0 case ADD_TUPLE => 1 case SHARED_READ => 2 case EXCLUSIVE_READ => 3 case YIELD_READ => 4
                               case PROMOTE => 5 case UPDATE => 6 case DELETE => 7 case COMMIT_TXN => 8 case ABORT_TXN => 9]
    ensures Do(m, SetOpId(v)).bytes == m.bytes[1 := v]
    ensures Do(m, SetAck(ack)).bytes ==
            m.bytes[6 := match ack case SUCCESS => 0 case BUSY => 1 case BAD_OP => 2 case BAD_TABLE => 3 case BAD_TP => 4
                                case BAD_TXN => 5 case BAD_PHASE => 6 case BAD_DATA => 7 case BAD_ACCESS => 8 case COMMIT_FULL => 9
                                case TIMEOUT => 10 case ABORTED => 11 case DEAD_TXN => 12]
    ensures Do(m, SetTbl(v)).bytes == m.bytes[7 := v]
    ensures Do(m, SetKey(v)).bytes == m.bytes[8 := v]
  {
    hide Splice, Encode;
    PutByte(m.bytes, 0, OpCode(op));
    PutByte(m.bytes, 1, v);
    PutByte(m.bytes, 6, AckCode(ack));
    PutByte(m.bytes, 7, v);
    PutByte(m.bytes, 8, v);
  }

  lemma PutByte(b: seq<Byte>, i: nat, x: Byte)
    requires i < |b|
    ensures Splice(b, i, Encode(x, 1)) == b[i := x]
  {
    assert Encode(x, 1) == [x];
  }

  /** The transaction id goes into bytes 2 to 5, lowest first. */
  lemma TxnIsBytes(m: Message, v: Word)
    requires Whole(m)
    ensures Do(m, SetTxn(v)).bytes == m.bytes[2 := v % 256][3 := v / 0x100 % 256][4 := v / 0x1_0000 % 256][5 := v / 0x100_0000]
  {
    FourDigits(v);
    PutFour(m.bytes, 2, v % 256, v / 0x100 % 256, v / 0x1_0000 % 256, v / 0x100_0000);
  }

  lemma FourDigits(v: Word)
    ensures v / 0x100_0000 < 256 && Encode(v, 4) == [v % 256, v / 0x100 % 256, v / 0x1_0000 % 256, v / 0x100_0000]
  {
    assert v / 256 / 256 == v / 0x1_0000 && v / 0x1_0000 / 256 == v / 0x100_0000;
    assert Encode(v / 0x100_0000, 1) == [v / 0x100_0000];
    assert Encode(v / 0x1_0000, 2) == [v / 0x1_0000 % 256] + Encode(v / 0x100_0000, 1);
    assert Encode(v / 0x100, 3) == [v / 0x100 % 256] + Encode(v / 0x1_0000, 2);
  }

  lemma PutFour(b: seq<Byte>, i: nat, w: Byte, x: Byte, y: Byte, z: Byte)
    requires i + 4 <= |b|
    ensures Splice(b, i, [w, x, y, z]) == b[i := w][i + 1 := x][i + 2 := y][i + 3 := z]
  {
  }

  // ---- Records on the wire ----

  const RECORD_LENGTH := NAME_LENGTH + 1 + 4

  function SerializeBytes(s: Student): seq<Byte> { s.name + [s.age] + Encode(s.checksum, 4) }

  function Serialize(bytes: seq<Byte>, off: nat, s: Student): (r: seq<Byte>)
    requires |s.name| == NAME_LENGTH && off + RECORD_LENGTH <= |bytes|
    ensures |r| == |bytes|
  {
    Splice(bytes, off, SerializeBytes(s))
  }

  /** Decoding into an existing tuple: its key and its tickstamp are not on the wire and stay. */
  function Deserialize(bytes: seq<Byte>, off: nat, into: StudentTuple): StudentTuple
    requires off + RECORD_LENGTH <= |bytes|
  {
    var sum := Slice(bytes, off + NAME_LENGTH + 1, 4);
    StudentTuple(Student(Slice(bytes, off, NAME_LENGTH), bytes[off + NAME_LENGTH], ToWord(sum), into.student.tick), into.key)
  }

  function ToWord(b: seq<Byte>): Word
    requires |b| == 4
  {
    DecodeBound(b);
    assert Pow256(4) == 0x1_0000_0000;
    Decode(b)
  }

  /** A `char` as a signed number. */
  function SignedChar(b: Byte): int { if b < 128 then b else b - 256 }

  function NameSum(name: seq<Byte>): int { if name == [] then 0 else NameSum(name[..|name|-1]) + SignedChar(name[|name|-1]) }

  /** `compute_checksum`: characters are sign-extended and the sum wraps at 32 bits. */
  function ComputeChecksum(s: Student): Word { (NameSum(s.name) + s.age) % 0x1_0000_0000 }

  predicate ValChecksum(s: Student) { s.checksum == ComputeChecksum(s) }

  /** Changing the age or one character of the name changes the checksum by just that, a character counting as a signed number, modulo 2^32. */
  lemma ChecksumMoves(s: Student, age: Byte, i: nat, c: Byte)
    requires i < |s.name|
    ensures (ComputeChecksum(s.(age := age)) - ComputeChecksum(s)) % 0x1_0000_0000 == (age - s.age) % 0x1_0000_0000
    ensures (ComputeChecksum(s.(name := s.name[i := c])) - ComputeChecksum(s)) % 0x1_0000_0000 == (SignedChar(c) - SignedChar(s.name[i])) % 0x1_0000_0000
  {
    NameSumUpdate(s.name, i, c);
    ModDifference(NameSum(s.name) + age, NameSum(s.name) + s.age);
    ModDifference(NameSum(s.name[i := c]) + s.age, NameSum(s.name) + s.age);
  }

  lemma ModDifference(x: int, y: int)
    ensures (x % 0x1_0000_0000 - y % 0x1_0000_0000) % 0x1_0000_0000 == (x - y) % 0x1_0000_0000
  {
  }

  lemma {:induction false} NameSumUpdate(name: seq<Byte>, i: nat, c: Byte)
    requires i < |name|
    ensures NameSum(name[i := c]) == NameSum(name) + SignedChar(c) - SignedChar(name[i])
  {
    var n := |name| - 1;
    if i == n {
      assert name[i := c][..n] == name[..n];
    } else {
      assert name[i := c][..n] == name[..n][i := c];
      NameSumUpdate(name[..n], i, c);
    }
  }

  /** Characters are signed, the empty record sums to 0, and neither the tickstamp nor the stored checksum counts. */
  lemma ChecksumOfNothing(name: seq<Byte>, sum: Word, tick: Word)
    requires forall j :: 0 <= j < |name| ==> name[j] == 0
    ensures ComputeChecksum(Student(name, 0, sum, tick)) == 0
    ensures SignedChar(127) == 127 && SignedChar(128) == -128 && SignedChar(255) == -1
  {
    NoName(name);
  }

  lemma {:induction false} NoName(name: seq<Byte>)
    requires forall j :: 0 <= j < |name| ==> name[j] == 0
    ensures NameSum(name) == 0
  {
    if name != [] { NoName(name[..|name| - 1]); }
  }

  /** A record comes back from the wire with its name, age and checksum; the tuple it is decoded into keeps its own key. */
  lemma DeserializeSerialize(bytes: seq<Byte>, off: nat, s: Student, into: StudentTuple)
    requires |s.name| == NAME_LENGTH && off + RECORD_LENGTH <= |bytes|
    ensures Deserialize(Serialize(bytes, off, s), off, into) == StudentTuple(s.(tick := into.student.tick), into.key)
  {
    var t := Serialize(bytes, off, s);
    var b := SerializeBytes(s);
    SliceOfSplice(bytes, off, b, off, |b|);
    assert Slice(t, off, NAME_LENGTH) == Slice(t, off, |b|)[..NAME_LENGTH] == s.name;
    assert t[off + NAME_LENGTH] == Slice(t, off, |b|)[NAME_LENGTH] == s.age;
    assert Slice(t, off + NAME_LENGTH + 1, 4) == Slice(t, off, |b|)[NAME_LENGTH + 1..] == Encode(s.checksum, 4);
    assert Pow256(4) == 0x1_0000_0000;
    DecodeEncode(s.checksum, 4);
  }

  lemma HeaderKept(bytes: seq<Byte>, s: Student)
    requires |s.name| == NAME_LENGTH && TUPLE + RECORD_LENGTH <= |bytes|
    ensures Serialize(bytes, TUPLE, s)[..TUPLE] == bytes[..TUPLE]
  {
  }

  /** On the wire a record is 32 bytes of name, one of age and four of checksum, lowest first, and nothing else changes. */
  lemma RecordLayout(bytes: seq<Byte>, off: nat, s: Student)
    requires |s.name| == 32 && off + 37 <= |bytes|
    ensures var r := Serialize(bytes, off, s);
            && r[..off] == bytes[..off] && r[off..off + 32] == s.name && r[off + 32] == s.age
            && r[off + 33] == s.checksum % 256 && r[off + 34] == s.checksum / 0x100 % 256
            && r[off + 35] == s.checksum / 0x1_0000 % 256 && r[off + 36] == s.checksum / 0x100_0000
            && r[off + 37..] == bytes[off + 37..]
  {
    FourDigits(s.checksum);
    hide Encode;
    var b := SerializeBytes(s);
    assert b[32] == s.age && b[33] == Encode(s.checksum, 4)[0] && b[34] == Encode(s.checksum, 4)[1];
    assert b[35] == Encode(s.checksum, 4)[2] && b[36] == Encode(s.checksum, 4)[3];
    assert b[..32] == s.name;
    assert forall i :: 0 <= i < 37 ==> Serialize(bytes, off, s)[off + i] == b[i];
  }

  /** What a granted read writes over the request before it is sent back. */
  function ReadReply(m: Message, tuple: StudentTuple): Message
    requires Whole(m) && |tuple.student.name| == NAME_LENGTH && tuple.key < 256
  {
    var keyed := SetField(m, TP_KEY, tuple.key);
    Message(Serialize(keyed.bytes, TUPLE, tuple.student), TUPLE + RECORD_LENGTH)
  }

  /**
   * A read reply decodes to the row that was read, its checksum validates exactly when the
   * row's did, and every other field answers as in the request, whatever its length: a
   * field that the request was too short to show is read from the bytes it lies over.
   */
  lemma ReadReplyDecodes(m: Message, tuple: StudentTuple, into: StudentTuple)
    requires Whole(m) && |tuple.student.name| == NAME_LENGTH && tuple.key < 256
    ensures Whole(ReadReply(m, tuple)) && ReadReply(m, tuple).size == 46
    ensures Getters(ReadReply(m, tuple)) == Getters(m.(size := TUPLE + RECORD_LENGTH)).(key := Ok(tuple.key))
    ensures forall f: Field :: f != TP_KEY && ParseField(m, f).Ok? ==> ParseField(ReadReply(m, tuple), f) == ParseField(m, f)
    ensures var got := Deserialize(ReadReply(m, tuple).bytes, TUPLE, into);
            && got == StudentTuple(tuple.student.(tick := into.student.tick), into.key)
            && (ValChecksum(got.student) <==> ValChecksum(tuple.student))
  {
    hide Getters, Splice, SerializeBytes, Deserialize, Slice;
    var long, r := m.(size := TUPLE + RECORD_LENGTH), ReadReply(m, tuple);
    var keyed := Do(long, SetKey(tuple.key));
    HeaderKept(keyed.bytes, tuple.student);
    SetIsAssignment(long, SetKey(tuple.key));
    DeserializeSerialize(keyed.bytes, TUPLE, tuple.student, into);
    BeyondHeader(keyed, r);
    forall f: Field | f != TP_KEY && ParseField(m, f).Ok? ensures ParseField(r, f) == ParseField(m, f) {
      assert Pow256(1) == 256;
      FieldAfterSet(long, TP_KEY, tuple.key, f);
      FieldBeyondHeader(keyed, r, f);
    }
  }

  lemma SliceOfPrefix(s: seq<Byte>, n: nat, off: nat, w: nat)
    requires off + w <= n <= |s|
    ensures Slice(s, off, w) == Slice(s[..n], off, w)
  {
    assert forall i :: 0 <= i < w ==> Slice(s, off, w)[i] == Slice(s[..n], off, w)[i];
  }

  lemma FieldBeyondHeader(m: Message, r: Message, f: Field)
    requires Whole(m) && Whole(r) && m.size >= TUPLE && r.size >= TUPLE && m.bytes[..TUPLE] == r.bytes[..TUPLE]
    ensures ParseField(m, f) == ParseField(r, f)
  {
    hide Decode, Slice;
    SliceOfPrefix(m.bytes, TUPLE, Offset(f), Width(f));
    SliceOfPrefix(r.bytes, TUPLE, Offset(f), Width(f));
  }

  /** The getters look at nothing beyond the first nine bytes. */
  lemma BeyondHeader(m: Message, r: Message)
    requires Whole(m) && Whole(r) && m.size >= TUPLE && r.size >= TUPLE && m.bytes[..TUPLE] == r.bytes[..TUPLE]
    ensures Getters(m) == Getters(r)
  {
    hide Op, Ack, ParseField;
    forall f: Field ensures ParseField(m, f) == ParseField(r, f) { FieldBeyondHeader(m, r, f); }
  }

  // ---- Strings ----

  const TEXT := TUPLE + 2

  /** The length is cut to 16 bits before it is compared with the room there is. */
  function SetString(m: Message, s: seq<Byte>): Message
    requires Whole(m)
  {
    var length := |s| % 0x1_0000;
    if TEXT + length > BUFFER_WIDTH then m
    else Message(Splice(Splice(m.bytes, TUPLE, Encode(length, 2)), TEXT, s[..length]), TEXT + length)
  }

  function GetString(m: Message): seq<Byte>
    requires Whole(m) && m.size <= BUFFER_WIDTH
  {
    if TEXT > m.size then []
    else
      var length := Decode(Slice(m.bytes, TUPLE, 2));
      if TEXT + length > m.size then [] else Slice(m.bytes, TEXT, length)
  }

  lemma StringStored(m: Message, s: seq<Byte>)
    requires Whole(m) && TEXT + |s| % 0x1_0000 <= BUFFER_WIDTH
    ensures Whole(SetString(m, s)) && SetString(m, s).size <= BUFFER_WIDTH
    ensures GetString(SetString(m, s)) == s[..|s| % 0x1_0000]
    ensures SetString(m, s).bytes[..TUPLE] == m.bytes[..TUPLE]
  {
    var length := |s| % 0x1_0000;
    var b := Splice(m.bytes, TUPLE, Encode(length, 2));
    SliceOfSplice(m.bytes, TUPLE, Encode(length, 2), TUPLE, 2);
    SliceOfSplice(b, TEXT, s[..length], TUPLE, 2);
    SliceOfSplice(b, TEXT, s[..length], TEXT, length);
    assert Pow256(2) == 0x1_0000;
    DecodeEncode(length, 2);
  }

  /** The length of a string goes into bytes 9 and 10, lowest first, its text behind them; the message then ends with the text. */
  lemma StringLayout(m: Message, s: seq<Byte>)
    requires Whole(m)
    ensures 11 + |s| <= 32768 ==>
              var r := SetString(m, s);
              && Whole(r) && r.size == 11 + |s| && r.bytes[..9] == m.bytes[..9]
              && r.bytes[9] == |s| % 256 && r.bytes[10] == |s| / 256
              && r.bytes[11..11 + |s|] == s && r.bytes[11 + |s|..] == m.bytes[11 + |s|..]
    ensures 32768 < 11 + |s| && |s| < 65536 ==> SetString(m, s) == m
  {
    if 11 + |s| <= 32768 {
      var n := |s|;
      assert n % 0x1_0000 == n && s[..n] == s;
      TwoDigits(n);
      var b := Splice(m.bytes, 9, Encode(n, 2));
      assert b[9] == Encode(n, 2)[0] && b[10] == Encode(n, 2)[1];
      var c := Splice(b, 11, s);
      assert c[..9] == b[..9] == m.bytes[..9] && c[9] == b[9] && c[10] == b[10];
      assert c[11 + n..] == b[11 + n..] == m.bytes[11 + n..];
    }
  }

  lemma TwoDigits(n: nat)
    requires n < 0x1_0000
    ensures Encode(n, 2) == [n % 256, n / 256]
  {
    assert Encode(n / 256, 1) == [n / 256];
  }

  /** What the string getter answers, by the bytes of the message: nothing if the message ends before its text does. */
  lemma StringIsBytes(m: Message)
    requires Whole(m) && m.size <= 32768
    ensures m.size < 11 ==> GetString(m) == []
    ensures m.size >= 11 ==>
              var n := (m.bytes[9] as int) + 0x100 * (m.bytes[10] as int);
              GetString(m) == if 11 + n > m.size then [] else m.bytes[11..11 + n]
  {
    var b := Slice(m.bytes, 9, 2);
    assert b == [m.bytes[9], m.bytes[10]] && b[1..] == [m.bytes[10]] && b[1..][1..] == [];
    assert Decode(b[1..]) == m.bytes[10];
  }

  /** A string survives the round trip exactly when it fits behind the header; the header bytes never change. */
  lemma StringRoundTrip(m: Message, s: seq<Byte>)
    requires Whole(m) && m.size <= BUFFER_WIDTH
    ensures Whole(SetString(m, s)) && SetString(m, s).size <= BUFFER_WIDTH
    ensures GetString(SetString(m, s)) == s <==> TEXT + |s| <= BUFFER_WIDTH
    ensures SetString(m, s).bytes[..TUPLE] == m.bytes[..TUPLE]
  {
    if TEXT + |s| % 0x1_0000 <= BUFFER_WIDTH { StringStored(m, s); }
  }

  // ---- The byte checksum ----

  function ByteSum(b: seq<Byte>): nat { if b == [] then 0 else ByteSum(b[..|b|-1]) + b[|b|-1] }

  /** What the checksum is meant to be: the exact sum of the message's bytes, nothing for a bare header. */
  function ExactChecksum(m: Message): nat
    requires m.size <= |m.bytes|
  {
    if m.size <= TUPLE then 0 else ByteSum(m.bytes[..m.size])
  }

  lemma {:induction false} ByteSumBound(b: seq<Byte>)
    ensures ByteSum(b) <= 255 * |b|
  {
    if b != [] { ByteSumBound(b[..|b|-1]); }
  }

  /** The byte sum counts every byte of the message once. */
  lemma {:induction false} ByteSumIs(a: seq<Byte>, b: seq<Byte>, x: Byte)
    ensures ByteSum([]) == 0 && ByteSum([x]) == x && ByteSum(a + b) == ByteSum(a) + ByteSum(b)
    decreases |b|
  {
    assert [x][..0] == [];
    if b == [] {
      assert a + b == a;
    } else {
      assert (a + b)[..|a + b| - 1] == a + b[..|b| - 1];
      ByteSumIs(a, b[..|b| - 1], x);
    }
  }

  /** A message of up to nine bytes has checksum 0, and a longer one the sum of its bytes. */
  lemma ChecksumIs(m: Message, i: nat, x: Byte)
    requires m.size <= |m.bytes| && i < m.size
    ensures m.size <= 9 ==> ExactChecksum(m) == 0
    ensures m.size > 9 ==> ExactChecksum(m.(bytes := m.bytes[i := x])) == ExactChecksum(m) - m.bytes[i] + x
    ensures m.size > 9 && (forall j :: 0 <= j < m.size ==> m.bytes[j] == 0) ==> ExactChecksum(m) == 0
  {
    if m.size > 9 {
      var b, c := m.bytes[..m.size], m.bytes[i := x][..m.size];
      assert b == b[..i] + [b[i]] + b[i+1..] && c == b[..i] + [x] + b[i+1..];
      ByteSumIs(b[..i], [b[i]], b[i]);
      ByteSumIs(b[..i] + [b[i]], b[i+1..], b[i]);
      ByteSumIs(b[..i], [x], x);
      ByteSumIs(b[..i] + [x], b[i+1..], x);
      if forall j :: 0 <= j < m.size ==> m.bytes[j] == 0 { SumOfZeros(b); }
    }
  }

  lemma {:induction false} SumOfZeros(b: seq<Byte>)
    requires forall j :: 0 <= j < |b| ==> b[j] == 0
    ensures ByteSum(b) == 0
  {
    if b != [] { SumOfZeros(b[..|b| - 1]); }
  }

  /** A `ret_buf` over its buffer; a `job_buf` has the same bodies for the setters it has. */
  class RetBuf {
    const bytes: array<Byte>
    var size: nat

    ghost function State(): Message
      reads this, bytes
    {
      Message(bytes[..], size)
    }

    ghost predicate Valid()
      reads this, bytes
    {
      Whole(State())
    }

    constructor (buffer: array<Byte>, size: nat)
      requires buffer.Length == BUFFER_WIDTH
      ensures bytes == buffer && this.size == size && Valid()
    {
      bytes, this.size := buffer, size;
    }

    /** `memcpy` into the buffer. */
    method Store(off: nat, data: seq<Byte>)
      requires off + |data| <= bytes.Length
      modifies bytes
      ensures bytes[..] == Splice(old(bytes[..]), off, data)
    {
      for i := 0 to |data|
        invariant forall j :: 0 <= j < bytes.Length ==> bytes[j] == if off <= j < off + i then data[j - off] else old(bytes[j])
      {
        bytes[off + i] := data[i];
      }
    }

    method Apply(s: Set)
      requires Valid()
      modifies bytes
      ensures Valid() && State() == Do(old(State()), s)
      ensures size >= TUPLE ==> Getters(State()) == Assigned(Getters(old(State())), s)
    {
      Store(Offset(FieldOf(s)), Encode(ValueOf(s), Width(FieldOf(s))));
      if size >= TUPLE { SetIsAssignment(old(State()), s); }
    }

    method SetText(s: seq<Byte>)
      requires Valid()
      modifies this, bytes
      ensures Valid() && State() == SetString(old(State()), s)
    {
      var length := |s| % 0x1_0000;
      if TEXT + length > BUFFER_WIDTH { return; }
      Store(TUPLE, Encode(length, 2));
      Store(TEXT, s[..length]);
      size := TEXT + length;
    }

    method SetBufferSize(n: nat)
      modifies this
      ensures State() == old(State()).(size := n)
    {
      size := n;
    }

    /** The 32-bit accumulator never wraps: the checksum is the exact byte sum. */
    method GetChecksum() returns (sum: Word)
      requires Valid() && size <= BUFFER_WIDTH
      ensures sum == ExactChecksum(State())
    {
      if size <= TUPLE { return 0; }
      sum := 0;
      for i := 0 to size
        invariant sum == ByteSum(bytes[..i])
      {
        assert bytes[..i + 1][..i] == bytes[..i];
        ByteSumBound(bytes[..i + 1]);
        sum := (sum + bytes[i]) % 0x1_0000_0000;
      }
    }
  }
}
