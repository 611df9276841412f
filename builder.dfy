/**
 * `VectorBuilder`: a type-erased, mutable accumulator of column elements.
 * It selects one arm from a data type when it is made, keeps that arm for
 * its whole life, accepts elements through `Push`, `TryPushRef` and
 * `PushNull`, and turns what it holds into a `Vector` with `Finish`.
 */
module Builder {
  import opened Wrappers
  import opened Ints
  import CommonTime
  import opened DataTypes
  import opened Vectors

  /** The builder's arms: one per supported data type (there is no List arm). */
  datatype Arm =
    | NullArm | BooleanArm
    | UInt8Arm | UInt16Arm | UInt32Arm | UInt64Arm
    | Int8Arm | Int16Arm | Int32Arm | Int64Arm
    | Float32Arm | Float64Arm
    | StringArm | BinaryArm
    | DateArm | DateTimeArm | TimestampArm

  /**
   * The arm `with_capacity` selects for a data type; a List type is
   * unimplemented there. Only the null type gets the counting arm.
   */
  function ArmFor(t: ConcreteDataType): (a: Arm)
    requires !t.List?
    ensures a == NullArm <==> t.Null?
  {
    match t
    case Null => NullArm
    case Boolean => BooleanArm
    case UInt8 => UInt8Arm
    case UInt16 => UInt16Arm
    case UInt32 => UInt32Arm
    case UInt64 => UInt64Arm
    case Int8 => Int8Arm
    case Int16 => Int16Arm
    case Int32 => Int32Arm
    case Int64 => Int64Arm
    case Float32 => Float32Arm
    case Float64 => Float64Arm
    case String => StringArm
    case Binary => BinaryArm
    case Date => DateArm
    case DateTime => DateTimeArm
    case Timestamp => TimestampArm
  }

  /** The data type `data_type()` reports for an arm; selecting an arm for it gives the arm back. */
  function ArmDataType(a: Arm): (t: ConcreteDataType)
    ensures !t.List? && ArmFor(t) == a
  {
    match a
    case NullArm => ConcreteDataType.Null
    case BooleanArm => ConcreteDataType.Boolean
    case UInt8Arm => ConcreteDataType.UInt8
    case UInt16Arm => ConcreteDataType.UInt16
    case UInt32Arm => ConcreteDataType.UInt32
    case UInt64Arm => ConcreteDataType.UInt64
    case Int8Arm => ConcreteDataType.Int8
    case Int16Arm => ConcreteDataType.Int16
    case Int32Arm => ConcreteDataType.Int32
    case Int64Arm => ConcreteDataType.Int64
    case Float32Arm => ConcreteDataType.Float32
    case Float64Arm => ConcreteDataType.Float64
    case StringArm => ConcreteDataType.String
    case BinaryArm => ConcreteDataType.Binary
    case DateArm => ConcreteDataType.Date
    case DateTimeArm => ConcreteDataType.DateTime
    case TimestampArm => ConcreteDataType.Timestamp
  }

  /** A builder made for any supported type reports that very type. */
  lemma ArmDataTypeOfArmFor(t: ConcreteDataType)
    requires !t.List?
    ensures ArmDataType(ArmFor(t)) == t
  {
  }

  /** The recoverable errors of `TryPushRef`. */
  datatype Error =
      /** The Null arm's rejection of a non-null value, with its literal message. */
    | CastType(msg: string)
      /** A typed arm's rejection; the message text of the per-type builders is not modelled. */
    | CastValue(value: Value, target: ConcreteDataType)

  const NullBuilderMessage: string := "unable to accept non-null value in NullVectorBuilder"

  /** The integer encodings `Push` also takes: Int32 as a Date, Int64 as a DateTime or as a Timestamp. */
  predicate Widens(a: Arm, v: Value)
  {
    (a == DateArm && v.Int32?) || (a == DateTimeArm && v.Int64?) || (a == TimestampArm && v.Int64?)
  }

  /** What `Push` does not panic on: a null, a value of the arm's own type, or a widened integer. */
  predicate PushAccepts(a: Arm, v: Value)
  {
    v.Null? || IsValueOf(v, ArmDataType(a)) || Widens(a, v)
  }

  /** What `TryPushRef` succeeds on: a null, or a value of the arm's own type (no widening). */
  predicate AcceptsRef(a: Arm, v: ValueRef)
  {
    v.Null? || IsValueOf(v, ArmDataType(a))
  }

  /** The element `Push` appends for an accepted value. */
  function PushedElement(a: Arm, v: Value): (e: Option<Value>)
    requires PushAccepts(a, v)
    ensures e.None? <==> v.Null?
    ensures e.Some? ==> IsValueOf(e.value, ArmDataType(a))
    ensures IsValueOf(v, ArmDataType(a)) ==> e == Some(v)
    ensures a == DateArm && v.Int32? ==> e == Some(Value.Date(CommonTime.Date(v.int32Value)))
    ensures a == DateTimeArm && v.Int64? ==> e == Some(Value.DateTime(CommonTime.DateTime(v.int64Value)))
    ensures a == TimestampArm && v.Int64? ==> e == Some(Value.Timestamp(CommonTime.TimestampFromMillis(v.int64Value)))
  {
    match v
    case Null => None
    case Int32(x) =>
      if a == DateArm then Some(Value.Date(CommonTime.Date(x))) else Some(v)
    case Int64(x) =>
      if a == DateTimeArm then Some(Value.DateTime(CommonTime.DateTime(x)))
      else if a == TimestampArm then Some(Value.Timestamp(CommonTime.TimestampFromMillis(x)))
      else Some(v)
    case _ => Some(v)
  }

  /** Every value `TryPushRef` takes, `Push` takes too, and stores it unchanged. */
  lemma PushAcceptsWhatTryPushRefAccepts(a: Arm, v: Value)
    requires AcceptsRef(a, v)
    ensures PushAccepts(a, v)
    ensures PushedElement(a, v) == (if v.Null? then None else Some(v))
  {
  }

  /** The only pairings `Push` takes that `TryPushRef` refuses are the three integer widenings. */
  lemma PushOnlyWidensIntegers(a: Arm, v: Value)
    ensures PushAccepts(a, v) && !AcceptsRef(a, v) <==> Widens(a, v)
  {
  }

  class VectorBuilder {
    /** The arm chosen at construction; a `const`, so no operation can change it. */
    const arm: Arm
    /** The elements of a typed arm, in insertion order (absent means null). */
    var slots: seq<Option<Value>>
    /** The row count of the Null arm, which stores no elements. */
    var nullCount: nat

    ghost predicate Valid()
      reads this
    {
      && (arm == NullArm ==> slots == [])
      && (arm != NullArm ==> nullCount == 0)
      && forall i :: 0 <= i < |slots| && slots[i].Some? ==> IsValueOf(slots[i].value, ArmDataType(arm))
    }

    /** The rows accumulated so far, in insertion order, whatever the arm. */
    ghost function Contents(): seq<Option<Value>>
      reads this
    {
      if arm == NullArm then seq(nullCount, _ => None) else slots
    }

    /** `data_type()`: derived from the arm, never a List, and it selects this builder's arm again. */
    function DataType(): (t: ConcreteDataType)
      ensures !t.List? && ArmFor(t) == arm
    {
      ArmDataType(arm)
    }

    /** `with_capacity`: the capacity is a hint only and does not show in the contents. */
    constructor WithCapacity(dataType: ConcreteDataType, capacity: nat)
      requires !dataType.List?
      ensures Valid() && DataType() == dataType && arm == ArmFor(dataType)
      ensures Contents() == []
    {
      arm := ArmFor(dataType);
      slots := [];
      nullCount := 0;
    }

    /** `new`: a builder of capacity 0. */
    constructor New(dataType: ConcreteDataType)
      requires !dataType.List?
      ensures Valid() && DataType() == dataType && arm == ArmFor(dataType)
      ensures Contents() == []
    {
      arm := ArmFor(dataType);
      slots := [];
      nullCount := 0;
    }

    /** `push_null`: one null row; the Null arm counts it. */
    method PushNull()
      requires Valid()
      modifies this
      ensures Valid()
      ensures Contents() == old(Contents()) + [None]
      ensures arm == NullArm ==> nullCount == old(nullCount) + 1 && slots == old(slots)
      ensures arm != NullArm ==> slots == old(slots) + [None] && nullCount == old(nullCount)
    {
      if arm == NullArm {
        nullCount := nullCount + 1;
        assert Contents() == old(Contents()) + [None];
      } else {
        slots := slots + [None];
      }
    }

    /**
     * `push`: the unchecked insert. A null goes to `PushNull`; any other
     * value must suit the arm (or be one of its integer widenings), since
     * every other pairing panics.
     */
    method Push(value: Value)
      requires Valid()
      requires PushAccepts(arm, value)
      modifies this
      ensures Valid()
      ensures Contents() == old(Contents()) + [PushedElement(arm, value)]
      ensures !value.Null? ==> slots == old(slots) + [PushedElement(arm, value)] && nullCount == old(nullCount)
    {
      if value.Null? {
        PushNull();
        return;
      }
      slots := slots + [PushedElement(arm, value)];
    }

    /**
     * `try_push_ref`: the checked insert. A null or a value of the arm's
     * type is appended as it is; anything else is refused with an error and
     * leaves the builder as it was.
     */
    method TryPushRef(value: ValueRef) returns (r: Outcome<Error>)
      requires Valid()
      modifies this
      ensures Valid()
      ensures r.Pass? <==> AcceptsRef(arm, value)
      ensures r.Pass? ==> Contents() == old(Contents()) + [if value.Null? then None else Some(value)]
      ensures r.Fail? ==> slots == old(slots) && nullCount == old(nullCount)
      ensures r.Fail? && arm == NullArm ==> r.error == CastType(NullBuilderMessage)
      ensures r.Fail? && arm != NullArm ==> r.error == CastValue(value, DataType())
    {
      if arm == NullArm {
        if !value.Null? {
          return Fail(CastType(NullBuilderMessage));
        }
        nullCount := nullCount + 1;
        assert Contents() == old(Contents()) + [None];
        return Pass;
      }
      if AcceptsRef(arm, value) {
        slots := slots + [if value.Null? then None else Some(value)];
        r := Pass;
      } else {
        r := Fail(CastValue(value, DataType()));
      }
    }

    /**
     * `finish`: the column of the rows pushed so far, row i being the i-th
     * accepted element; the Null arm yields a `NullVector` of its count.
     */
    method Finish() returns (vector: Vector)
      requires Valid()
      ensures vector.Valid()
      ensures vector.DataType() == DataType()
      ensures vector.NullVector? <==> arm == NullArm
      ensures arm == NullArm ==> vector == NullVector(nullCount)
      ensures vector.Rows() == Contents()
      ensures vector.Len() == |Contents()|
      ensures forall i :: 0 <= i < vector.Len() ==> vector.Get(i) == SlotValue(Contents()[i])
    {
      if arm == NullArm {
        vector := NullVector(nullCount);
      } else {
        vector := Column(DataType(), slots);
      }
    }
  }

  /* ---------- Client methods: the source's own builder scenarios ---------- */

  /** An Int32 builder given a null, 100, a null, 101 and a refused boolean. */
  method Int32BuilderScenario() returns (refused: Outcome<Error>, vector: Vector)
    ensures refused == Fail(CastValue(Value.Boolean(true), ConcreteDataType.Int32))
    ensures vector.DataType() == ConcreteDataType.Int32 && vector.Len() == 4
    ensures vector.IsNull(0) && vector.Get(1) == Value.Int32(100)
    ensures vector.IsNull(2) && vector.Get(3) == Value.Int32(101)
  {
    var b := new VectorBuilder.New(ConcreteDataType.Int32);
    b.Push(Value.Null);
    b.Push(Value.Int32(100));
    var r := b.TryPushRef(Value.Null);
    assert r.Pass?;
    r := b.TryPushRef(Value.Int32(101));
    assert r.Pass?;
    refused := b.TryPushRef(Value.Boolean(true));
    vector := b.Finish();
  }

  /** The Null builder takes nulls through both paths and refuses a boolean. */
  method NullBuilderScenario() returns (refused: Outcome<Error>, vector: Vector)
    ensures refused == Fail(CastType("unable to accept non-null value in NullVectorBuilder"))
    ensures vector == NullVector(2)
    ensures vector.DataType() == ConcreteDataType.Null
    ensures vector.IsNull(0) && vector.IsNull(1)
  {
    var b := new VectorBuilder.New(ConcreteDataType.Null);
    b.Push(Value.Null);
    refused := b.TryPushRef(Value.Boolean(true));
    var r := b.TryPushRef(Value.Null);
    assert r.Pass?;
    vector := b.Finish();
  }

  /** A Date builder: a failed boolean in the middle appends nothing. */
  method DateBuilderScenario() returns (refused: Outcome<Error>, vector: Vector)
    ensures refused == Fail(CastValue(Value.Boolean(true), ConcreteDataType.Date))
    ensures vector.DataType() == ConcreteDataType.Date && vector.Len() == 4
    ensures vector.Get(0) == Value.Null
    ensures vector.Get(1) == Value.Date(CommonTime.Date(123))
    ensures vector.Get(2) == Value.Date(CommonTime.Date(456))
    ensures vector.Get(3) == Value.Null
  {
    var b := new VectorBuilder.WithCapacity(ConcreteDataType.Date, 3);
    b.PushNull();
    b.Push(Value.Date(CommonTime.Date(123)));
    refused := b.TryPushRef(Value.Boolean(true));
    var r := b.TryPushRef(Value.Date(CommonTime.Date(456)));
    assert r.Pass?;
    r := b.TryPushRef(Value.Null);
    assert r.Pass?;
    vector := b.Finish();
  }

  /** The widening of `Push`: raw integers stored as a Date, a DateTime and a millisecond Timestamp. */
  method WideningScenario() returns (dates: Vector, dateTimes: Vector, timestamps: Vector)
    ensures dates.Len() == 1 && dates.Get(0) == Value.Date(CommonTime.Date(7))
    ensures dateTimes.Len() == 1 && dateTimes.Get(0) == Value.DateTime(CommonTime.DateTime(7))
    ensures timestamps.Len() == 1
    ensures timestamps.Get(0) == Value.Timestamp(CommonTime.Timestamp(7, CommonTime.Millisecond))
  {
    var d := new VectorBuilder.New(ConcreteDataType.Date);
    d.Push(Value.Int32(7));
    dates := d.Finish();
    var dt := new VectorBuilder.New(ConcreteDataType.DateTime);
    dt.Push(Value.Int64(7));
    dateTimes := dt.Finish();
    var ts := new VectorBuilder.New(ConcreteDataType.Timestamp);
    ts.Push(Value.Int64(7));
    timestamps := ts.Finish();
  }

  /* ---------- Round trips through Finish ---------- */

  /** A builder that received nothing finishes as an empty vector of its type. */
  method FinishEmpty(dataType: ConcreteDataType) returns (vector: Vector)
    requires !dataType.List?
    ensures vector.IsEmpty() && vector.DataType() == dataType
  {
    var b := new VectorBuilder.New(dataType);
    vector := b.Finish();
  }

  /** A value of the builder's type, pushed alone, is read back unchanged as row 0. */
  method PushThenGet(dataType: ConcreteDataType, value: Value) returns (vector: Vector)
    requires !dataType.List? && IsValueOf(value, dataType)
    ensures vector.DataType() == dataType && vector.Len() == 1
    ensures vector.Get(0) == value
  {
    var b := new VectorBuilder.New(dataType);
    b.Push(value);
    vector := b.Finish();
  }

  /** What `Push` stores for a row read back from a valid vector is that row itself. */
  lemma PushRestoresRow(v: Vector, i: nat)
    requires v.Valid() && !v.DataType().List? && i < v.Len()
    ensures PushAccepts(ArmFor(v.DataType()), v.Get(i))
    ensures PushedElement(ArmFor(v.DataType()), v.Get(i)) == v.Rows()[i]
  {
    var a := ArmFor(v.DataType());
    if !v.NullVector? && v.slots[i].Some? {
      assert IsValueOf(v.Get(i), ArmDataType(a));
    }
    PushAcceptsWhatTryPushRefAccepts(a, v.Get(i));
  }

  /**
   * Making a builder from a vector's data type, pushing every row read back
   * from the vector and finishing gives back the very same vector.
   */
  method Refinish(v: Vector) returns (w: Vector)
    requires v.Valid() && !v.DataType().List?
    ensures w == v
  {
    var b := new VectorBuilder.New(v.DataType());
    var i := 0;
    while i < v.Len()
      invariant 0 <= i <= v.Len()
      invariant b.Valid() && b.arm == ArmFor(v.DataType())
      invariant b.Contents() == v.Rows()[..i]
    {
      PushRestoresRow(v, i);
      b.Push(v.Get(i));
      assert v.Rows()[..i + 1] == v.Rows()[..i] + [v.Rows()[i]];
      i := i + 1;
    }
    assert v.Rows()[..i] == v.Rows();
    w := b.Finish();
    RowsDetermineVector(v, w);
  }
}

