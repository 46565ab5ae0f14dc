/** Values exchanged between the native event handlers and their consumer over
    the platform channel: a dictionary-shaped record `{type, details}` whose
    leaves are booleans, integers, floating-point numbers and strings. */
module Values {

  datatype Option<T> = None | Some(value: T)

  /** A floating-point number: one that is a whole number is known by its
      value, any other is an opaque token on which no arithmetic is done. */
  datatype Float = Integral(n: int) | Fraction(token: nat)

  /** A value as carried by the channel codec. The C++ side sees the codec's
      alternatives directly (`int32_t` and `int64_t` are distinct); the Swift
      side sees the same value behind `Any`, a number as an `NSNumber`. */
  datatype Value =
    | Null
    | Bool(b: bool)
    | Int32(i: int)
    | Int64(i: int)
    | Double(f: Float)
    | Str(s: string)
    | Map(entries: map<string, Value>)

  /** Swift's `UInt16`, the type of a `CGKeyCode`. */
  type UInt16 = n: int | 0 <= n <= 0xFFFF

  /** Swift's `UInt64`, the width of a raw option set such as modifier flags. */
  type UInt64 = n: int | 0 <= n <= 0xFFFF_FFFF_FFFF_FFFF

  /** A 64-bit signed integer: Swift's `Int` and `Int64`, C++'s `int64_t`. */
  type I64 = n: int | -0x8000_0000_0000_0000 <= n <= 0x7FFF_FFFF_FFFF_FFFF

  const Int16Min: int := -0x8000
  const Int32Min: int := -0x8000_0000
  const Int32Max: int := 0x7FFF_FFFF
  const Int64Min: int := -0x8000_0000_0000_0000
  const Int64Max: int := 0x7FFF_FFFF_FFFF_FFFF
  const UInt16Max: int := 0xFFFF
  const UInt64Max: int := 0xFFFF_FFFF_FFFF_FFFF

  /** How the codec carries an integer produced on the native side: in the
      32-bit alternative when it fits, otherwise in the 64-bit one. */
  function IntValue(n: int): (v: Value)
    ensures v.Int32? || v.Int64?
    ensures v.i == n
  {
    if Int32Min <= n <= Int32Max then Int32(n) else Int64(n)
  }

  /** Swift's `value as? T` for an integer type T ranging over [lo, hi]. An
      `NSNumber` converts by value, not by how it was encoded: an integer or
      a whole-number double converts exactly when it fits. */
  function AsInteger(v: Value, lo: int, hi: int): (r: Option<int>)
    ensures r.Some? <==>
      || ((v.Int32? || v.Int64?) && lo <= v.i <= hi)
      || (v.Double? && v.f.Integral? && lo <= v.f.n <= hi)
    ensures r.Some? && (v.Int32? || v.Int64?) ==> r.value == v.i
    ensures r.Some? && v.Double? ==> r.value == v.f.n
  {
    match v
    case Int32(n) => if lo <= n <= hi then Some(n) else None
    case Int64(n) => if lo <= n <= hi then Some(n) else None
    case Double(Integral(n)) => if lo <= n <= hi then Some(n) else None
    case _ => None
  }

  /** Swift's `dict[key] as? T` for an integer type T. */
  function LookupInteger(m: map<string, Value>, key: string, lo: int, hi: int): (r: Option<int>)
    ensures r.Some? <==> key in m && AsInteger(m[key], lo, hi).Some?
    ensures r.Some? ==> lo <= r.value <= hi && r == AsInteger(m[key], lo, hi)
  {
    if key in m then AsInteger(m[key], lo, hi) else None
  }

  /** 2^53: every integer of at most this magnitude is a double exactly. */
  const DoubleExactLimit: int := 0x20_0000_0000_0000

  /** An integer a double holds exactly: a significand of 53 bits times a
      power of two. */
  predicate ExactInDouble(n: int)
    decreases if n < 0 then -n else n
  {
    || (-DoubleExactLimit <= n <= DoubleExactLimit)
    || (n % 2 == 0 && ExactInDouble(n / 2))
  }

  /** Swift's `dict[key] as? String`, and C++'s `find` plus
      `holds_alternative<std::string>`. */
  function LookupString(m: map<string, Value>, key: string): (r: Option<string>)
    ensures r.Some? <==> key in m && m[key].Str?
    ensures r.Some? ==> r.value == m[key].s
  {
    if key in m && m[key].Str? then Some(m[key].s) else None
  }

  /** Swift's `dict[key] as? Double`: a double converts as it is, and an
      integer converts to the whole-number double of the same value when a
      double holds it exactly (every 32-bit one does). */
  function LookupDouble(m: map<string, Value>, key: string): (r: Option<Float>)
    ensures r.Some? <==>
      key in m && (m[key].Double? || m[key].Int32? || (m[key].Int64? && ExactInDouble(m[key].i)))
    ensures r.Some? && m[key].Double? ==> r.value == m[key].f
    ensures r.Some? && !m[key].Double? ==> r.value == Integral(m[key].i)
  {
    if key !in m then None
    else
      match m[key]
      case Double(f) => Some(f)
      case Int32(n) => Some(Integral(n))
      case Int64(n) => if ExactInDouble(n) then Some(Integral(n)) else None
      case _ => None
  }

  /** Every 32-bit integer is a double exactly; past 2^53 only some
      integers are: 2^54 is, 2^53 + 1 is not. */
  lemma ExactInDoubleExamples()
    ensures forall n :: Int32Min <= n <= Int32Max ==> ExactInDouble(n)
    ensures ExactInDouble(2 * DoubleExactLimit)
    ensures !ExactInDouble(DoubleExactLimit + 1)
  {
    assert ExactInDouble(DoubleExactLimit);
  }

  /** C++'s `find` plus `holds_alternative<int32_t>`. */
  function LookupInt32(m: map<string, Value>, key: string): (r: Option<int>)
    ensures r.Some? <==> key in m && m[key].Int32?
    ensures r.Some? ==> r.value == m[key].i
  {
    if key in m && m[key].Int32? then Some(m[key].i) else None
  }

  /** What a handler delivers to its consumer: a status carrying one
      `message` or `error` string, or an event record. */
  datatype Message =
    | StatusMessage(field: string, text: string)
    | EventMessage(recordType: string, details: map<string, Value>)

  /** A message as it travels over the channel: a dictionary with a string
      "type" ("status" for a status) and a dictionary "details". */
  function Encode(m: Message): (v: Value)
    ensures v.Map? && v.entries.Keys == {"type", "details"}
    ensures v.entries["type"].Str? && v.entries["details"].Map?
    ensures m.EventMessage? ==>
      v.entries["type"] == Str(m.recordType) && v.entries["details"] == Map(m.details)
  {
    match m
    case StatusMessage(field, text) =>
      Map(map["type" := Str("status"), "details" := Map(map[field := Str(text)])])
    case EventMessage(recordType, details) =>
      Map(map["type" := Str(recordType), "details" := Map(details)])
  }

  /** A sent record, as the channel carries it, with its timestamp copied
      to the top level, where playback looks for it. */
  function Lift(record: Message): (m: map<string, Value>)
    requires record.EventMessage? && "timestamp" in record.details
    ensures m.Keys == {"type", "details", "timestamp"}
    ensures m - {"timestamp"} == Encode(record).entries
  {
    Encode(record).entries["timestamp" := record.details["timestamp"]]
  }

  // ------------------------------------------------ sequence helpers

  lemma AppendAssociates<T>(a: seq<T>, b: seq<T>, c: seq<T>)
    ensures (a + b) + c == a + (b + c)
  {
  }

  /** The sum of `f` over the elements of `xs`. */
  function Sum<T>(xs: seq<T>, f: T -> int): int
  {
    if xs == [] then 0 else f(xs[0]) + Sum(xs[1..], f)
  }

  lemma SumSingleton<T>(x: T, f: T -> int)
    ensures Sum([x], f) == f(x)
  {
    assert [x][1..] == [];
  }

  lemma {:induction false} SumAppend<T>(xs: seq<T>, ys: seq<T>, f: T -> int)
    ensures Sum(xs + ys, f) == Sum(xs, f) + Sum(ys, f)
  {
    if xs == [] {
      assert xs + ys == ys;
    } else {
      assert (xs + ys)[0] == xs[0];
      assert (xs + ys)[1..] == xs[1..] + ys;
      SumAppend(xs[1..], ys, f);
    }
  }
}
