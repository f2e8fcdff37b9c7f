/**
 The protocol buffer reader and the writer it must undo: varints, fields, messages, and the texts
 nested in them.
 */
module Protobuf {
  import opened Bytes
  import opened Options

  // ----------------------------------------------------------------- varints

  function Pow128(n: nat): nat {
    if n == 0 then 1 else 128 * Pow128(n - 1)
  }

  /** The unbounded value of a list of seven-bit groups, least significant first. */
  function GroupSum(groups: seq<Byte>): nat {
    if groups == [] then 0 else groups[0] % 128 + 128 * GroupSum(groups[1..])
  }

  /** The place of the first byte without a continuation bit, or the length. */
  function Terminator(buf: seq<Byte>): (n: nat)
    ensures n <= |buf|
  {
    if buf == [] || buf[0] < 128 then 0 else 1 + Terminator(buf[1..])
  }

  datatype Decoded = Decoded(value: nat, size: nat)

  /** A varint is at most ten groups, the tenth worth at most one; its value is the sum of its groups. */
  function Varint(buf: seq<Byte>): (r: Option<Decoded>)
    ensures r.Some? ==> 1 <= r.value.size <= |buf|
  {
    var n := Terminator(buf);
    if n < |buf| && n <= 9 && (n == 9 ==> buf[9] <= 1) then Some(Decoded(GroupSum(buf[..n + 1]), n + 1))
    else None
  }

  lemma {:induction false} GroupSumBound(groups: seq<Byte>)
    ensures GroupSum(groups) < Pow128(|groups|)
  {
    if groups != [] {
      GroupSumBound(groups[1..]);
    }
  }

  lemma {:induction false} GroupSumSnoc(groups: seq<Byte>, b: Byte)
    ensures GroupSum(groups + [b]) == GroupSum(groups) + (b % 128) * Pow128(|groups|)
  {
    if groups == [] {
      assert groups + [b] == [b];
      assert [b][1..] == [];
    } else {
      GroupSumSnoc(groups[1..], b);
      assert (groups + [b])[1..] == groups[1..] + [b];
      var rest, g := Pow128(|groups| - 1), b % 128;
      assert 128 * (g * rest) == g * (128 * rest);
    }
  }

  lemma PowersTo9()
    ensures Pow128(9) == 0x8000_0000_0000_0000 && Pow128(8) == 0x100_0000_0000_0000
  {
    assert Pow128(2) == 16384;
    assert Pow128(4) == 128 * (128 * Pow128(2));
    assert Pow128(6) == 128 * (128 * Pow128(4));
    assert Pow128(8) == 128 * (128 * Pow128(6));
  }

  lemma {:induction false} PowGrows(n: nat, m: nat)
    requires n <= m
    ensures 1 <= Pow128(n) <= Pow128(m)
    decreases m
  {
    if n < m {
      PowGrows(n, m - 1);
    } else if n > 0 {
      PowGrows(n - 1, m - 1);
    }
  }

  /** What the guard on the tenth group is for: no bit of the shifted group is lost. */
  lemma ShiftFits(group: nat, i: nat)
    requires group < 128 && i <= 9 && (i == 9 ==> group <= 1)
    ensures group * Pow128(i) < WORD
  {
    PowersTo9();
    if i < 9 {
      PowGrows(i, 8);
      Monotone(group, 127, Pow128(i), Pow128(8));
    } else {
      Monotone(group, 1, Pow128(9), Pow128(9));
    }
  }

  lemma TakeGroup(buf: seq<Byte>, i: nat)
    requires i < |buf| && i <= 9 && (i == 9 ==> buf[i] % 128 <= 1)
    ensures GroupSum(buf[..i]) < Pow128(i)
    ensures OrShifted(GroupSum(buf[..i]), buf[i] % 128, Pow128(i)) == GroupSum(buf[..i + 1])
  {
    ShiftFits(buf[i] % 128, i);
    GroupSumBound(buf[..i]);
    GroupSumSnoc(buf[..i], buf[i]);
    assert buf[..i] + [buf[i]] == buf[..i + 1];
    NothingShiftedOut(GroupSum(buf[..i]), buf[i] % 128, Pow128(i));
  }

  /** Ten groups fit a word when the tenth is zero or one. */
  lemma GroupsFitWord(groups: seq<Byte>)
    requires |groups| <= 10 && (|groups| == 10 ==> groups[9] <= 1)
    ensures GroupSum(groups) < WORD
  {
    GroupSumBound(groups);
    PowersTo9();
    if |groups| <= 9 {
      PowGrows(|groups|, 9);
    } else {
      GroupSumSnoc(groups[..9], groups[9]);
      GroupSumBound(groups[..9]);
      assert groups[..9] + [groups[9]] == groups;
    }
  }

  /** Of the varints of at most ten groups, exactly those too big for a word are refused. */
  lemma RefusedIffTooBig(buf: seq<Byte>)
    requires Terminator(buf) < |buf| && Terminator(buf) <= 9
    ensures Varint(buf).Some? <==> GroupSum(buf[..Terminator(buf) + 1]) < WORD
  {
    var n := Terminator(buf);
    var groups := buf[..n + 1];
    if n == 9 && buf[9] > 1 {
      TerminatorIsFirst(buf);
      TooBig(groups);
    } else {
      GroupsFitWord(groups);
    }
  }

  lemma TooBig(groups: seq<Byte>)
    requires |groups| == 10 && 1 < groups[9] < 128
    ensures GroupSum(groups) >= WORD
  {
    var low, g: nat := groups[..9], groups[9] % 128;
    assert low + [groups[9]] == groups;
    GroupSumSnoc(low, groups[9]);
    PowersTo9();
    Monotone(2, g, Pow128(9), Pow128(9));
  }

  lemma Monotone(a: nat, b: nat, x: nat, y: nat)
    requires a <= b && x <= y
    ensures a * x <= b * y
  {
  }

  lemma {:induction false} TerminatorIsFirst(buf: seq<Byte>)
    ensures forall i | 0 <= i < Terminator(buf) :: buf[i] >= 128
    ensures Terminator(buf) < |buf| ==> buf[Terminator(buf)] < 128
  {
    if buf != [] && buf[0] >= 128 {
      TerminatorIsFirst(buf[1..]);
    }
  }

  lemma ContinuedTerminator(buf: seq<Byte>, n: nat)
    requires n <= |buf| && forall i | 0 <= i < n :: buf[i] >= 128
    ensures n <= Terminator(buf)
    ensures n < |buf| && buf[n] < 128 ==> Terminator(buf) == n
  {
    TerminatorIsFirst(buf);
  }

  method ReadVarint(buf: seq<Byte>) returns (r: Option<Decoded>)
    ensures r == Varint(buf)
    ensures r.Some? ==> r.value.value < WORD
  {
    var result, shift, unit := 0, 0, 1;
    for i := 0 to |buf|
      invariant shift == 7 * i && i <= 10
      invariant unit == Pow128(i)
      invariant forall k | 0 <= k < i :: buf[k] >= 128
      invariant i <= 9 ==> result == GroupSum(buf[..i])
    {
      ContinuedTerminator(buf, i);
      if shift >= 64 {
        return None;
      }
      if shift == 63 && buf[i] % 128 > 1 {
        return None;
      }
      TakeGroup(buf, i);
      result := OrShifted(result, buf[i] % 128, unit);
      shift, unit := shift + 7, 128 * unit;
      if buf[i] < 128 {
        GroupsFitWord(buf[..i + 1]);
        return Some(Decoded(result, i + 1));
      }
    }
    ContinuedTerminator(buf, |buf|);
    return None;
  }

  function EncodeVarint(value: nat): (r: seq<Byte>)
    ensures r != []
  {
    if value < 128 then [value] else [value % 128 + 128] + EncodeVarint(value / 128)
  }

  method PushVarint(out: seq<Byte>, value: nat) returns (out': seq<Byte>)
    requires value < WORD
    ensures out' == out + EncodeVarint(value)
  {
    out' := out;
    var left := value;
    while true
      invariant 0 <= left < WORD && out' + EncodeVarint(left) == out + EncodeVarint(value)
      decreases left
    {
      if left < 128 {
        out' := out' + [left];
        break;
      }
      ghost var next := left / 128;
      assert out' + EncodeVarint(left) == out' + [left % 128 + 128] + EncodeVarint(next);
      out' := out' + [left % 128 + 128];
      left := left / 128;
    }
  }

  lemma {:induction false} EncodedGroups(value: nat)
    ensures GroupSum(EncodeVarint(value)) == value
    ensures Terminator(EncodeVarint(value)) == |EncodeVarint(value)| - 1
  {
    if value >= 128 {
      EncodedGroups(value / 128);
      assert EncodeVarint(value)[1..] == EncodeVarint(value / 128);
    } else {
      assert EncodeVarint(value)[1..] == [];
    }
  }

  lemma {:induction false} EncodedLength(value: nat, k: nat)
    requires value < 2 * Pow128(k)
    ensures |EncodeVarint(value)| <= k + 1
    ensures |EncodeVarint(value)| == k + 1 ==> EncodeVarint(value)[k] <= 1
  {
    if value >= 128 {
      if k > 0 {
        assert value / 128 < 2 * Pow128(k - 1);
        EncodedLength(value / 128, k - 1);
      }
    }
  }

  lemma {:induction false} TerminatorOfPrefix(buf: seq<Byte>, rest: seq<Byte>)
    requires Terminator(buf) < |buf|
    ensures Terminator(buf + rest) == Terminator(buf)
  {
    TerminatorIsFirst(buf);
    assert forall i | 0 <= i <= Terminator(buf) :: (buf + rest)[i] == buf[i];
    ContinuedTerminator(buf + rest, Terminator(buf));
  }

  /** What `read_varint` sees is decided by the bytes it consumes. */
  lemma VarintOfPrefix(buf: seq<Byte>, rest: seq<Byte>)
    requires Varint(buf).Some?
    ensures Varint(buf + rest) == Varint(buf)
  {
    var n := Terminator(buf);
    TerminatorOfPrefix(buf, rest);
    assert (buf + rest)[..n + 1] == buf[..n + 1];
  }

  /** Every word is read back, consuming exactly what was written, whatever follows. */
  lemma VarintRoundTrip(value: nat, rest: seq<Byte>)
    requires value < WORD
    ensures Varint(EncodeVarint(value) + rest) == Some(Decoded(value, |EncodeVarint(value)|))
  {
    var bytes := EncodeVarint(value);
    EncodedGroups(value);
    PowersTo9();
    EncodedLength(value, 9);
    assert bytes[..|bytes|] == bytes;
    VarintOfPrefix(bytes, rest);
  }

  // ------------------------------------------------------------------ fields

  const VARINT := 0
  const FIXED64 := 1
  const LEN := 2
  const FIXED32 := 5

  /** A field as it lies in the blob: its number, its wire type, and the bytes of its value. */
  datatype Field = Field(number: nat, wire: nat, bytes: seq<Byte>)

  datatype Sized = Sized(field: Field, size: nat)

  /** The value of a field of a given wire type, at the head of `body`. */
  function FieldValue(number: nat, wire: nat, body: seq<Byte>): (r: Option<Sized>)
    ensures r.Some? ==> r.value.size <= |body|
  {
    if wire == VARINT then
      match Varint(body)
      case None => None
      case Some(d) => Some(Sized(Field(number, wire, body[..d.size]), d.size))
    else if wire == LEN then
      match Varint(body)
      case None => None
      case Some(d) => Taken(number, wire, body, d.size, d.value)
    else if wire == FIXED32 then Taken(number, wire, body, 0, 4)
    else if wire == FIXED64 then Taken(number, wire, body, 0, 8)
    else None
  }

  /** The `length` bytes after the first `skip`, if there are so many. */
  function Taken(number: nat, wire: nat, body: seq<Byte>, skip: nat, length: nat): (r: Option<Sized>)
    requires skip <= |body|
    ensures r.Some? ==> r.value.size <= |body|
  {
    if skip + length <= |body| then Some(Sized(Field(number, wire, body[skip..skip + length]), skip + length)) else None
  }

  /** The first field of a blob, with the number of bytes it takes: at least one, at most all. */
  function NextField(blob: seq<Byte>): (r: Option<Sized>)
    ensures r.Some? ==> 1 <= r.value.size <= |blob|
  {
    match Varint(blob)
    case None => None
    case Some(tag) =>
      match FieldValue(tag.value / 8, tag.value % 8, blob[tag.size..])
      case None => None
      case Some(s) => Some(s.(size := tag.size + s.size))
  }

  /** The fields of a blob, up to the first that cannot be read. */
  function Fields(blob: seq<Byte>): seq<Field>
    decreases |blob|
  {
    match NextField(blob)
    case None => []
    case Some(s) => [s.field] + Fields(blob[s.size..])
  }

  /** All values under one number, in order. */
  function Payloads(fields: seq<Field>, target: nat): seq<seq<Byte>> {
    if fields == [] then []
    else (if fields[0].number == target then [fields[0].bytes] else []) + Payloads(fields[1..], target)
  }

  /** The first length-delimited value under one number. */
  function FirstLen(fields: seq<Field>, target: nat): Option<seq<Byte>> {
    if fields == [] then None
    else if fields[0].number == target && fields[0].wire == LEN then Some(fields[0].bytes)
    else FirstLen(fields[1..], target)
  }

  lemma FieldsStep(blob: seq<Byte>, i: nat, tag: Decoded, field: Field, end: nat)
    requires i <= |blob| && Varint(blob[i..]) == Some(tag) && i + tag.size <= end <= |blob|
    requires FieldValue(tag.value / 8, tag.value % 8, blob[i + tag.size..]) == Some(Sized(field, end - i - tag.size))
    ensures Fields(blob[i..]) == [field] + Fields(blob[end..])
  {
    SliceOfSlice(blob, i, i + tag.size, |blob|);
    SliceOfSlice(blob, i, end, |blob|);
    NextFieldIs(blob[i..], tag, field, end - i - tag.size, blob[i + tag.size..]);
    FieldsUnfold(blob[i..], Sized(field, end - i), blob[end..]);
  }

  lemma FieldsUnfold(blob: seq<Byte>, s: Sized, rest: seq<Byte>)
    requires NextField(blob) == Some(s) && blob[s.size..] == rest
    ensures Fields(blob) == [s.field] + Fields(rest)
  {
  }

  lemma NextFieldIs(blob: seq<Byte>, tag: Decoded, field: Field, size: nat, body: seq<Byte>)
    requires Varint(blob) == Some(tag) && blob[tag.size..] == body
    requires FieldValue(tag.value / 8, tag.value % 8, body) == Some(Sized(field, size))
    ensures NextField(blob) == Some(Sized(field, tag.size + size))
  {
  }

  lemma FieldsStop(blob: seq<Byte>, i: nat, tag: Decoded)
    requires i <= |blob| && Varint(blob[i..]) == Some(tag)
    requires FieldValue(tag.value / 8, tag.value % 8, blob[i + tag.size..]) == None
    ensures Fields(blob[i..]) == []
  {
    assert blob[i..][tag.size..] == blob[i + tag.size..];
  }

  /** The fields from every place of a blob on. */
  ghost predicate ByPlace(fieldsAt: nat -> seq<Field>, blob: seq<Byte>) {
    forall i: nat | i <= |blob| :: From(fieldsAt, blob, i)
  }

  ghost predicate From(fieldsAt: nat -> seq<Field>, blob: seq<Byte>, i: nat)
    requires i <= |blob|
  {
    fieldsAt(i) == Fields(blob[i..])
  }

  lemma FieldsByPlace(blob: seq<Byte>) returns (fieldsAt: nat -> seq<Field>)
    ensures ByPlace(fieldsAt, blob) && fieldsAt(0) == Fields(blob) && fieldsAt(|blob|) == []
  {
    fieldsAt := (i: nat) => if i <= |blob| then Fields(blob[i..]) else [];
    assert blob[0..] == blob && blob[|blob|..] == [];
  }

  datatype Arm = Arm(number: nat, wire: nat, start: nat, end: nat)

  /**
   One turn of either reader's loop up to its bounds check: the tag, then where the value starts
   and ends, if that can be read at all.
   */
  method ReadArm(blob: seq<Byte>, i: nat, ghost fieldsAt: nat -> seq<Field>) returns (r: Option<Arm>)
    requires i < |blob| < WORD && ByPlace(fieldsAt, blob)
    ensures r.None? ==> fieldsAt(i) == []
    ensures r.Some? ==> i < r.value.start <= r.value.end && r.value.start <= |blob|
    ensures r.Some? && r.value.wire == VARINT ==> r.value.end <= |blob|
    ensures r.Some? && r.value.end > |blob| ==> fieldsAt(i) == []
    ensures r.Some? && r.value.end <= |blob| ==>
              fieldsAt(i) == [Field(r.value.number, r.value.wire, blob[r.value.start..r.value.end])] + fieldsAt(r.value.end)
  {
    assert From(fieldsAt, blob, i);
    var tag := ReadVarint(blob[i..]);
    if tag.None? {
      return None;
    }
    var at := i + tag.value.size;
    var number, wire := tag.value.value / 8, tag.value.value % 8;
    var start, end := at, at;
    if wire == VARINT || wire == LEN {
      var head := ReadVarint(blob[at..]);
      if head.None? {
        FieldsStop(blob, i, tag.value);
        return None;
      }
      if wire == VARINT {
        end := at + head.value.size;
      } else {
        start := at + head.value.size;
        end := start + head.value.value;
      }
    } else if wire == FIXED32 {
      end := at + 4;
    } else if wire == FIXED64 {
      end := at + 8;
    } else {
      FieldsStop(blob, i, tag.value);
      return None;
    }
    ArmIsField(blob, i, tag.value, start, end);
    if end <= |blob| {
      assert From(fieldsAt, blob, end);
    }
    return Some(Arm(number, wire, start, end));
  }

  ghost predicate ArmOf(blob: seq<Byte>, at: nat, wire: nat, start: nat, end: nat)
    requires at <= |blob|
  {
    if wire == VARINT then
      var d := Varint(blob[at..]); d.Some? && start == at && end == at + d.value.size
    else if wire == LEN then
      var d := Varint(blob[at..]); d.Some? && start == at + d.value.size && end == start + d.value.value
    else
      start == at && ((wire == FIXED32 && end == at + 4) || (wire == FIXED64 && end == at + 8))
  }

  lemma ArmValue(blob: seq<Byte>, at: nat, number: nat, wire: nat, start: nat, end: nat)
    requires at <= |blob| && ArmOf(blob, at, wire, start, end)
    ensures at <= start <= end && start <= |blob|
    ensures FieldValue(number, wire, blob[at..]) ==
            if end <= |blob| then Some(Sized(Field(number, wire, blob[start..end]), end - at)) else None
  {
    if end <= |blob| {
      SliceOfSlice(blob, at, start, end);
    }
  }

  lemma ArmIsField(blob: seq<Byte>, i: nat, tag: Decoded, start: nat, end: nat)
    requires i <= |blob| && Varint(blob[i..]) == Some(tag)
    requires ArmOf(blob, i + tag.size, tag.value % 8, start, end)
    ensures i < start <= end && start <= |blob|
    ensures Fields(blob[i..]) ==
            if end <= |blob| then [Field(tag.value / 8, tag.value % 8, blob[start..end])] + Fields(blob[end..]) else []
  {
    ArmValue(blob, i + tag.size, tag.value / 8, tag.value % 8, start, end);
    if end <= |blob| {
      FieldsStep(blob, i, tag, Field(tag.value / 8, tag.value % 8, blob[start..end]), end);
    } else {
      FieldsStop(blob, i, tag);
    }
  }

  lemma OneMoreField(field: Field, fields: seq<Field>, target: nat)
    ensures FirstLen([field] + fields, target) ==
            if field.number == target && field.wire == LEN then Some(field.bytes) else FirstLen(fields, target)
  {
    assert ([field] + fields)[1..] == fields;
  }

  lemma OneMorePayload(sofar: seq<seq<Byte>>, field: Field, fields: seq<Field>, target: nat)
    ensures sofar + Payloads([field] + fields, target) ==
            (if field.number == target then sofar + [field.bytes] else sofar) + Payloads(fields, target)
  {
    assert ([field] + fields)[1..] == fields;
  }

  /**
   The first length-delimited value with that number, on any bytes at all.  A fixed-width value is
   skipped without a bounds check: past the end, the loop just stops.
   */
  method GetProtoField(blob: seq<Byte>, target: nat) returns (r: Option<seq<Byte>>)
    requires |blob| < WORD
    ensures r == FirstLen(Fields(blob), target)
    ensures r.Some? ==> |r.value| <= |blob|
  {
    ghost var fieldsAt := FieldsByPlace(blob);
    var i := 0;
    while i < |blob|
      invariant 0 <= i
      invariant FirstLen(fieldsAt(0), target) == if i <= |blob| then FirstLen(fieldsAt(i), target) else None
    {
      var arm := ReadArm(blob, i, fieldsAt);
      if arm.None? || arm.value.end >= WORD {
        return None;
      }
      var Arm(number, wire, start, end) := arm.value;
      if end <= |blob| {
        OneMoreField(Field(number, wire, blob[start..end]), fieldsAt(end), target);
      }
      if wire == LEN {
        if end > |blob| {
          return None;
        }
        if number == target {
          return Some(blob[start..end]);
        }
      }
      i := end;
    }
    return None;
  }

  /** Every value with that number, of any wire type, in order, up to the first unreadable field. */
  method GetProtoFields(blob: seq<Byte>, target: nat) returns (fields: seq<seq<Byte>>)
    requires |blob| < WORD
    ensures fields == Payloads(Fields(blob), target)
  {
    ghost var fieldsAt := FieldsByPlace(blob);
    var i := 0;
    fields := [];
    while i < |blob|
      invariant 0 <= i <= |blob|
      invariant fields + Payloads(fieldsAt(i), target) == Payloads(fieldsAt(0), target)
    {
      var arm := ReadArm(blob, i, fieldsAt);
      if arm.None? || arm.value.end >= WORD || arm.value.end > |blob| {
        return;
      }
      var Arm(number, wire, start, end) := arm.value;
      OneMorePayload(fields, Field(number, wire, blob[start..end]), fieldsAt(end), target);
      if number == target {
        fields := fields + [blob[start..end]];
      }
      i := end;
    }
  }

  /** What `get_proto_field` finds, `get_proto_fields` collects, after the others of that number before it. */
  lemma {:induction false} FirstLenIsCollected(fields: seq<Field>, target: nat) returns (k: nat)
    requires FirstLen(fields, target).Some?
    ensures k < |fields| && fields[k].number == target && fields[k].wire == LEN
    ensures forall j | 0 <= j < k :: !(fields[j].number == target && fields[j].wire == LEN)
    ensures FirstLen(fields, target) == Some(fields[k].bytes)
    ensures Payloads(fields, target) ==
            Payloads(fields[..k], target) + [fields[k].bytes] + Payloads(fields[k + 1..], target)
  {
    if fields[0].number == target && fields[0].wire == LEN {
      k := 0;
    } else {
      var j := FirstLenIsCollected(fields[1..], target);
      k := j + 1;
      assert fields[1..][..j] == fields[..k][1..];
      assert fields[1..][j + 1..] == fields[k + 1..];
      PayloadsFront(fields[..k], target);
    }
  }

  lemma PayloadsFront(fields: seq<Field>, target: nat)
    requires fields != []
    ensures Payloads(fields, target) ==
            (if fields[0].number == target then [fields[0].bytes] else []) + Payloads(fields[1..], target)
  {
  }

  lemma {:induction false} NoFirstLen(fields: seq<Field>, target: nat)
    ensures FirstLen(fields, target).None? <==> forall f | f in fields :: !(f.number == target && f.wire == LEN)
  {
    if fields != [] {
      NoFirstLen(fields[1..], target);
      assert fields == [fields[0]] + fields[1..];
    }
  }

  // ---------------------------------------------------------------- messages

  /** What the writer writes: bytes or a number, under a field number. */
  datatype Entry = Bytes(number: nat, payload: seq<Byte>) | Number(number: nat, value: nat)
  {
    /** Numbers and lengths are 64-bit. */
    predicate Fits() {
      number < WORD && (Bytes? ==> |payload| < WORD) && (Number? ==> value < WORD)
    }
  }

  type Message = m: seq<Entry> | forall e | e in m :: e.Fits()

  /** The field number that survives the shift by three. */
  function Kept(number: nat): (n: nat)
    ensures number < 0x2000_0000_0000_0000 ==> n == number
  {
    number % 0x2000_0000_0000_0000
  }

  function Tag(number: nat, wire: nat): nat {
    number * 8 % WORD + wire
  }

  lemma TagReads(number: nat, wire: nat)
    requires wire < 8
    ensures Tag(number, wire) < WORD && Tag(number, wire) / 8 == Kept(number) && Tag(number, wire) % 8 == wire
  {
    assert number * 8 == number / 0x2000_0000_0000_0000 * WORD + Kept(number) * 8;
    assert number * 8 % WORD == Kept(number) * 8;
  }

  function EncodeEntry(e: Entry): seq<Byte> {
    match e
    case Bytes(number, payload) => EncodeVarint(Tag(number, LEN)) + EncodeVarint(|payload|) + payload
    case Number(number, value) => EncodeVarint(Tag(number, VARINT)) + EncodeVarint(value)
  }

  function Encode(m: Message): seq<Byte> {
    if m == [] then [] else EncodeEntry(m[0]) + Encode(m[1..])
  }

  function FieldOf(e: Entry): Field {
    match e
    case Bytes(number, payload) => Field(Kept(number), LEN, payload)
    case Number(number, value) => Field(Kept(number), VARINT, EncodeVarint(value))
  }

  function FieldsOf(m: Message): seq<Field> {
    if m == [] then [] else [FieldOf(m[0])] + FieldsOf(m[1..])
  }

  function EntryBody(e: Entry): seq<Byte> {
    if e.Bytes? then EncodeVarint(|e.payload|) + e.payload else EncodeVarint(e.value)
  }

  lemma EntryValueReads(e: Entry, rest: seq<Byte>)
    requires e.Fits()
    ensures FieldValue(Kept(e.number), FieldOf(e).wire, EntryBody(e) + rest) == Some(Sized(FieldOf(e), |EntryBody(e)|))
  {
    match e
    case Bytes(number, payload) =>
      var head := EncodeVarint(|payload|);
      VarintRoundTrip(|payload|, payload + rest);
      assert head + (payload + rest) == head + payload + rest;
      assert (head + payload + rest)[|head|..|head| + |payload|] == payload;
    case Number(number, value) =>
      VarintRoundTrip(value, rest);
      assert (EncodeVarint(value) + rest)[..|EncodeVarint(value)|] == EncodeVarint(value);
  }

  lemma EntryParts(e: Entry, rest: seq<Byte>)
    requires e.Fits()
    ensures var tag := EncodeVarint(Tag(e.number, FieldOf(e).wire));
            && EncodeEntry(e) + rest == tag + (EntryBody(e) + rest)
            && (EncodeEntry(e) + rest)[|tag|..] == EntryBody(e) + rest
            && (EncodeEntry(e) + rest)[|tag| + |EntryBody(e)|..] == rest
  {
  }

  lemma EntryReads(e: Entry, rest: seq<Byte>)
    requires e.Fits()
    ensures Fields(EncodeEntry(e) + rest) == [FieldOf(e)] + Fields(rest)
  {
    var tag, field, body := Tag(e.number, FieldOf(e).wire), FieldOf(e), EntryBody(e);
    var size := |EncodeVarint(tag)|;
    EntryParts(e, rest);
    TagReads(e.number, field.wire);
    VarintRoundTrip(tag, body + rest);
    EntryValueReads(e, rest);
    NextFieldIs(EncodeEntry(e) + rest, Decoded(tag, size), field, |body|, body + rest);
    FieldsUnfold(EncodeEntry(e) + rest, Sized(field, size + |body|), rest);
  }

  /** Decoding undoes encoding, field for field. */
  lemma {:induction false} MessageReads(m: Message)
    ensures Fields(Encode(m)) == FieldsOf(m)
  {
    if m != [] {
      MessageReads(m[1..]);
      EntryReads(m[0], Encode(m[1..]));
    } else {
      assert Terminator([]) == 0;
    }
  }

  /** The first payload written under a number. */
  function FirstPayload(m: Message, target: nat): Option<seq<Byte>> {
    if m == [] then None
    else if m[0].Bytes? && Kept(m[0].number) == target then Some(m[0].payload)
    else FirstPayload(m[1..], target)
  }

  /** All values written under a number, a number as its varint. */
  function AllPayloads(m: Message, target: nat): seq<seq<Byte>> {
    if m == [] then []
    else (if Kept(m[0].number) == target then [FieldOf(m[0]).bytes] else []) + AllPayloads(m[1..], target)
  }

  lemma {:induction false} FieldsOfMessage(m: Message, target: nat)
    ensures FirstLen(FieldsOf(m), target) == FirstPayload(m, target)
    ensures Payloads(FieldsOf(m), target) == AllPayloads(m, target)
  {
    if m != [] {
      FieldsOfMessage(m[1..], target);
      OneMoreField(FieldOf(m[0]), FieldsOf(m[1..]), target);
      OneMorePayload([], FieldOf(m[0]), FieldsOf(m[1..]), target);
    }
  }

  /** Either reader, on what the writer wrote, gives back what was written under a number. */
  lemma MessageRoundTrip(m: Message, target: nat)
    ensures FirstLen(Fields(Encode(m)), target) == FirstPayload(m, target)
    ensures Payloads(Fields(Encode(m)), target) == AllPayloads(m, target)
  {
    MessageReads(m);
    FieldsOfMessage(m, target);
  }

  method PushLenField(out: seq<Byte>, number: nat, bytes: seq<Byte>) returns (out': seq<Byte>)
    requires Bytes(number, bytes).Fits()
    ensures out' == out + EncodeEntry(Bytes(number, bytes))
    ensures out == [] ==> out' == EncodeEntry(Bytes(number, bytes))
  {
    TagReads(number, LEN);
    out' := PushVarint(out, number * 8 % WORD + LEN);
    out' := PushVarint(out', |bytes|);
    out' := out' + bytes;
    assert out' == out + (EncodeVarint(Tag(number, LEN)) + EncodeVarint(|bytes|) + bytes);
  }

  method PushVarintField(out: seq<Byte>, number: nat, value: nat) returns (out': seq<Byte>)
    requires Number(number, value).Fits()
    ensures out' == out + EncodeEntry(Number(number, value))
  {
    TagReads(number, VARINT);
    out' := PushVarint(out, number * 8 % WORD);
    out' := PushVarint(out', value);
    assert out' == out + (EncodeVarint(Tag(number, VARINT)) + EncodeVarint(value));
  }

  /** The first value of a number read as a varint, whatever its wire type. */
  method GetVarintField(blob: seq<Byte>, target: nat) returns (r: Option<nat>)
    requires |blob| < WORD
    ensures r == VarintField(Payloads(Fields(blob), target))
  {
    var fields := GetProtoFields(blob, target);
    if fields == [] {
      return None;
    }
    var d := ReadVarint(fields[0]);
    r := if d.Some? then Some(d.value.value) else None;
  }

  function VarintField(payloads: seq<seq<Byte>>): Option<nat> {
    if payloads == [] then None
    else match Varint(payloads[0])
      case Some(d) => Some(d.value)
      case None => None
  }

  /** A number written first under its field number is the number read back. */
  lemma {:induction false} NumberRoundTrip(m: Message, k: nat)
    requires k < |m| && m[k].Number?
    requires forall j | 0 <= j < k :: Kept(m[j].number) != Kept(m[k].number)
    ensures VarintField(Payloads(Fields(Encode(m)), Kept(m[k].number))) == Some(m[k].value)
  {
    MessageRoundTrip(m, Kept(m[k].number));
    FirstOfAll(m, k);
    VarintRoundTrip(m[k].value, []);
    assert EncodeVarint(m[k].value) + [] == EncodeVarint(m[k].value);
  }

  lemma {:induction false} FirstOfAll(m: Message, k: nat)
    requires k < |m| && forall j | 0 <= j < k :: Kept(m[j].number) != Kept(m[k].number)
    ensures var all := AllPayloads(m, Kept(m[k].number)); all != [] && all[0] == FieldOf(m[k]).bytes
  {
    if k > 0 {
      assert Kept(m[0].number) != Kept(m[k].number);
      FirstOfAll(m[1..], k - 1);
    }
  }

  // ------------------------------------------------------------ nested texts

  /** UTF-8, and what `trim().is_empty()` says of a text. */
  datatype Utf8 = Utf8(decode: seq<Byte> -> Option<string>, encode: string -> seq<Byte>, blank: string -> bool)

  ghost predicate DecodesItsOwn(utf8: Utf8) {
    forall text :: utf8.decode(utf8.encode(text)) == Some(text)
  }

  function TextIn(utf8: Utf8, bytes: Option<seq<Byte>>): Option<string> {
    match bytes
    case Some(b) => utf8.decode(b)
    case None => None
  }

  /** The payload at the end of two nested fields. */
  function Nested(blob: seq<Byte>, outer: nat, inner: nat): Option<seq<Byte>> {
    match FirstLen(Fields(blob), outer)
    case Some(b) => FirstLen(Fields(b), inner)
    case None => None
  }

  function AssistantText(utf8: Utf8, blob: seq<Byte>): Option<string> {
    TextIn(utf8, Nested(blob, 20, 1))
  }

  /** The prompt's own text, or else its content's; and neither if what was found is blank. */
  function UserText(utf8: Utf8, blob: seq<Byte>): Option<string> {
    match FirstLen(Fields(blob), 19)
    case None => None
    case Some(prompt) =>
      var own := TextIn(utf8, FirstLen(Fields(prompt), 2));
      var text := if own.Some? then own else TextIn(utf8, Nested(prompt, 3, 1));
      if text.Some? && utf8.blank(text.value) then None else text
  }

  method GetTextField(utf8: Utf8, blob: seq<Byte>, target: nat) returns (r: Option<string>)
    requires |blob| < WORD
    ensures r == TextIn(utf8, FirstLen(Fields(blob), target))
  {
    var bytes := GetProtoField(blob, target);
    if bytes.None? {
      return None;
    }
    return utf8.decode(bytes.value);
  }

  method ExtractTextFromStepPayload(utf8: Utf8, blob: seq<Byte>) returns (r: Option<string>)
    requires |blob| < WORD
    ensures r == AssistantText(utf8, blob)
  {
    var step := GetProtoField(blob, 20);
    if step.None? {
      return None;
    }
    r := GetTextField(utf8, step.value, 1);
  }

  method ExtractUserTextFromStepPayload(utf8: Utf8, blob: seq<Byte>) returns (r: Option<string>)
    requires |blob| < WORD
    ensures r == UserText(utf8, blob)
  {
    var prompt := GetProtoField(blob, 19);
    if prompt.None? {
      return None;
    }
    r := GetTextField(utf8, prompt.value, 2);
    if r.None? {
      var content := GetProtoField(prompt.value, 3);
      if content.None? {
        return None;
      }
      r := GetTextField(utf8, content.value, 1);
    }
    if r.Some? && utf8.blank(r.value) {
      r := None;
    }
  }

  /** Messages within messages are read back through any number of other fields. */
  lemma NestedRoundTrip(m: Message, outer: nat, within: Message, inner: nat)
    requires FirstPayload(m, outer) == Some(Encode(within))
    ensures Nested(Encode(m), outer, inner) == FirstPayload(within, inner)
  {
    MessageRoundTrip(m, outer);
    MessageRoundTrip(within, inner);
  }

  /** The assistant's text comes back, whatever other fields either message carries. */
  lemma AssistantTextRoundTrip(utf8: Utf8, m: Message, step: Message, text: string)
    requires DecodesItsOwn(utf8)
    requires FirstPayload(m, 20) == Some(Encode(step)) && FirstPayload(step, 1) == Some(utf8.encode(text))
    ensures AssistantText(utf8, Encode(m)) == Some(text)
  {
    NestedRoundTrip(m, 20, step, 1);
  }

  /**
   The user's text comes back unless it is blank: from the prompt itself, or from its content
   message when the prompt has no text of its own that decodes.
   */
  lemma UserTextRoundTrip(utf8: Utf8, m: Message, prompt: Message, text: string)
    requires DecodesItsOwn(utf8) && FirstPayload(m, 19) == Some(Encode(prompt))
    requires var own := FirstPayload(prompt, 2);
             || own == Some(utf8.encode(text))
             || (TextIn(utf8, own).None? && exists content: Message ::
                   FirstPayload(prompt, 3) == Some(Encode(content)) && FirstPayload(content, 1) == Some(utf8.encode(text)))
    ensures UserText(utf8, Encode(m)) == if utf8.blank(text) then None else Some(text)
  {
    MessageRoundTrip(m, 19);
    MessageRoundTrip(prompt, 2);
    if FirstPayload(prompt, 2) != Some(utf8.encode(text)) {
      var content: Message :|
        FirstPayload(prompt, 3) == Some(Encode(content)) && FirstPayload(content, 1) == Some(utf8.encode(text));
      NestedRoundTrip(prompt, 3, content, 1);
    }
  }

  method MakeAssistantPayload(utf8: Utf8, text: string) returns (blob: seq<Byte>)
    requires Bytes(1, utf8.encode(text)).Fits() && Bytes(20, EncodeEntry(Bytes(1, utf8.encode(text)))).Fits()
    ensures blob == EncodeEntry(Bytes(20, EncodeEntry(Bytes(1, utf8.encode(text)))))
  {
    var inner := PushLenField([], 1, utf8.encode(text));
    blob := PushLenField([], 20, inner);
  }

  lemma AssistantPayloadReads(utf8: Utf8, text: string)
    requires DecodesItsOwn(utf8) && Bytes(1, utf8.encode(text)).Fits()
    requires Bytes(20, EncodeEntry(Bytes(1, utf8.encode(text)))).Fits()
    ensures AssistantText(utf8, EncodeEntry(Bytes(20, EncodeEntry(Bytes(1, utf8.encode(text)))))) == Some(text)
  {
    var inner := Bytes(1, utf8.encode(text));
    var outer := Bytes(20, EncodeEntry(inner));
    var step: Message, m: Message := [inner], [outer];
    OneEntry(inner);
    OneEntry(outer);
    AssistantTextRoundTrip(utf8, m, step, text);
  }

  lemma OneEntry(e: Entry)
    requires e.Fits()
    ensures var m: Message := [e];
            Encode(m) == EncodeEntry(e) && (e.Bytes? ==> FirstPayload(m, Kept(e.number)) == Some(e.payload))
  {
    var m: Message := [e];
    assert m[1..] == [];
  }

  /** The prompt carries its text twice: as its own field 2, and as the content message of field 3. */
  method MakeUserPayload(utf8: Utf8, text: string) returns (blob: seq<Byte>)
    requires Bytes(1, utf8.encode(text)).Fits() && Bytes(3, EncodeEntry(Bytes(1, utf8.encode(text)))).Fits()
    requires Bytes(19, UserPrompt(utf8, text)).Fits()
    ensures blob == EncodeEntry(Bytes(19, UserPrompt(utf8, text)))
  {
    var content := PushLenField([], 1, utf8.encode(text));
    var prompt := PushLenField([], 2, utf8.encode(text));
    prompt := PushLenField(prompt, 3, content);
    blob := PushLenField([], 19, prompt);
  }

  ghost function UserPrompt(utf8: Utf8, text: string): seq<Byte> {
    EncodeEntry(Bytes(2, utf8.encode(text))) + EncodeEntry(Bytes(3, EncodeEntry(Bytes(1, utf8.encode(text)))))
  }

  lemma UserPayloadReads(utf8: Utf8, text: string)
    requires DecodesItsOwn(utf8) && Bytes(1, utf8.encode(text)).Fits()
    requires Bytes(3, EncodeEntry(Bytes(1, utf8.encode(text)))).Fits() && Bytes(19, UserPrompt(utf8, text)).Fits()
    ensures UserText(utf8, EncodeEntry(Bytes(19, UserPrompt(utf8, text)))) ==
            if utf8.blank(text) then None else Some(text)
  {
    var own, content := Bytes(2, utf8.encode(text)), Bytes(3, EncodeEntry(Bytes(1, utf8.encode(text))));
    var outer := Bytes(19, UserPrompt(utf8, text));
    var prompt: Message, m: Message := [own, content], [outer];
    TwoEntries(own, content);
    OneEntry(outer);
    UserTextRoundTrip(utf8, m, prompt, text);
  }

  lemma TwoEntries(e: Entry, f: Entry)
    requires e.Fits() && f.Fits()
    ensures var m: Message := [e, f];
            && Encode(m) == EncodeEntry(e) + EncodeEntry(f)
            && (e.Bytes? ==> FirstPayload(m, Kept(e.number)) == Some(e.payload))
  {
    var m: Message, last: Message := [e, f], [f];
    OneEntry(f);
    assert m[1..] == last;
  }
}
