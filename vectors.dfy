/**
 * The immutable column a builder produces. A `Vector` is a value: once
 * made it has no operation that changes it.
 */
module Vectors {
  import opened Wrappers
  import opened DataTypes

  /** The value a slot reads back as: an empty slot is `Value.Null`. */
  function SlotValue(slot: Option<Value>): (v: Value)
    ensures v.Null? <==> slot.None? || slot.value.Null?
    ensures slot.Some? ==> v == slot.value
  {
    match slot
    case None => Value.Null
    case Some(x) => x
  }

  /**
   * `NullVector` carries only a length; `Column` is any other typed column,
   * one optional element per row (absent means null).
   */
  datatype Vector =
    | NullVector(length: nat)
    | Column(columnType: ConcreteDataType, slots: seq<Option<Value>>)
  {
    /** Every present element of a typed column belongs to the column's type. */
    ghost predicate Valid()
    {
      Column? ==> !columnType.Null? && forall i :: 0 <= i < |slots| && slots[i].Some? ==> IsValueOf(slots[i].value, columnType)
    }

    /** `data_type()`: the column's own type; for a valid vector, the null type exactly on a `NullVector`. */
    function DataType(): (t: ConcreteDataType)
      ensures Column? ==> t == columnType
      ensures Valid() ==> (t.Null? <==> NullVector?)
    {
      if NullVector? then ConcreteDataType.Null else columnType
    }

    /** The rows of the vector, in order; every row of a `NullVector` is absent. */
    ghost function Rows(): seq<Option<Value>>
    {
      if NullVector? then seq(length, _ => None) else slots
    }

    function Len(): (n: nat)
      ensures n == |Rows()|
    {
      if NullVector? then length else |slots|
    }

    /** `is_empty`, the trait's default method: emptiness is a length of zero. */
    function IsEmpty(): (e: bool)
      ensures e <==> Rows() == []
    {
      Len() == 0
    }

    /** `get(i)`: the i-th element, `Value.Null` for a null row. */
    function Get(i: nat): (v: Value)
      requires i < Len()
      ensures v == SlotValue(Rows()[i])
      ensures NullVector? ==> v == Value.Null
      ensures Valid() && Column? && !v.Null? ==> IsValueOf(v, columnType)
    {
      if NullVector? then Value.Null else SlotValue(slots[i])
    }

    /** `is_null(i)`: in a valid vector, a row is null exactly when it holds no element. */
    function IsNull(i: nat): (b: bool)
      requires i < Len()
      ensures b <==> Get(i) == Value.Null
      ensures NullVector? ==> b
      ensures Valid() ==> (b <==> Rows()[i].None?)
    {
      Get(i).Null?
    }
  }

  /**
   * A valid vector is determined by its data type and its rows: a null-typed
   * vector is always a `NullVector`, and any other is a column.
   */
  lemma RowsDetermineVector(v: Vector, w: Vector)
    requires v.Valid() && w.Valid()
    requires v.DataType() == w.DataType() && v.Rows() == w.Rows()
    ensures v == w
  {
    if v.NullVector? {
      assert |v.Rows()| == v.length && |w.Rows()| == w.length;
    }
  }
}
