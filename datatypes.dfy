/**
 * The logical data types of a column, the scalar values that inhabit them,
 * and the List type descriptor together with its mapping to Arrow types.
 *
 * The three kinds of data are mutually recursive (a list type names an inner
 * type, a list value carries its element type), so they share one module.
 */
module DataTypes {
  import opened Wrappers
  import opened Ints
  import CommonTime

  /** The coarse discriminant of a data type: every List is `List`, whatever its inner type. */
  datatype LogicalTypeId =
    | Null | Boolean
    | UInt8 | UInt16 | UInt32 | UInt64
    | Int8 | Int16 | Int32 | Int64
    | Float32 | Float64
    | String | Binary
    | Date | DateTime | Timestamp
    | List

  /** A concrete column type; `List` wraps the descriptor of its inner type. */
  datatype ConcreteDataType =
    | Null | Boolean
    | UInt8 | UInt16 | UInt32 | UInt64
    | Int8 | Int16 | Int32 | Int64
    | Float32 | Float64
    | String | Binary
    | Date | DateTime | Timestamp
    | List(listType: ListType)
  {
    /** `logical_type_id()`: every List has the id `List`, and no other type has it. */
    function TypeId(): (id: LogicalTypeId)
      ensures id == LogicalTypeId.List <==> List?
    {
      match this
      case Null => LogicalTypeId.Null
      case Boolean => LogicalTypeId.Boolean
      case UInt8 => LogicalTypeId.UInt8
      case UInt16 => LogicalTypeId.UInt16
      case UInt32 => LogicalTypeId.UInt32
      case UInt64 => LogicalTypeId.UInt64
      case Int8 => LogicalTypeId.Int8
      case Int16 => LogicalTypeId.Int16
      case Int32 => LogicalTypeId.Int32
      case Int64 => LogicalTypeId.Int64
      case Float32 => LogicalTypeId.Float32
      case Float64 => LogicalTypeId.Float64
      case String => LogicalTypeId.String
      case Binary => LogicalTypeId.Binary
      case Date => LogicalTypeId.Date
      case DateTime => LogicalTypeId.DateTime
      case Timestamp => LogicalTypeId.Timestamp
      case List(lt) => lt.TypeId()
    }

    /**
     * The Arrow type of this data type. Primitive types map to an Arrow leaf
     * named by their logical type id; a List delegates to its descriptor.
     */
    function AsArrowType(): (a: ArrowType)
      ensures a.ArrowList? <==> List?
      ensures List? ==> a.item.name == "item" && a.item.nullable
      ensures !List? ==> a == Leaf(TypeId())
    {
      match this
      case List(lt) => lt.AsArrowType()
      case _ => Leaf(TypeId())
    }
  }

  /** `ListType`: the List data type, holding exactly one inner data type. */
  datatype ListType = ListType(inner: ConcreteDataType)
  {
    /** `ListType::new`. */
    static function New(datatype': ConcreteDataType): (lt: ListType)
      ensures lt.inner == datatype'
    {
      ListType(datatype')
    }

    /** `ListType::default`: a list of the null data type. */
    static function Default(): (lt: ListType)
      ensures lt.inner == ConcreteDataType.Null
      ensures lt == New(ConcreteDataType.Null)
    {
      New(ConcreteDataType.Null)
    }

    function Name(): string
    {
      "List"
    }

    function TypeId(): LogicalTypeId
    {
      LogicalTypeId.List
    }

    /** An absent list that still records its element type; never `Value.Null`. */
    function DefaultValue(): (v: Value)
      ensures v.List? && v != Value.Null
      ensures v.list.items == None && v.list.itemType == inner
    {
      Value.List(ListValue(None, inner))
    }

    /** A List whose single field is called "item", is nullable, and has the inner type's Arrow type. */
    function AsArrowType(): (a: ArrowType)
      ensures a.ArrowList? && a.item.name == "item" && a.item.nullable
      ensures a.item.dataType == inner.AsArrowType()
    {
      ArrowList(Field("item", inner.AsArrowType(), true))
    }

    /** The list builder the factory creates: the same inner type and the requested capacity. */
    function CreateMutableVector(capacity: nat): (b: ListVectorBuilder)
      ensures b.itemType == inner && b.capacity == capacity
    {
      ListVectorBuilder(inner, capacity)
    }
  }

  /**
   * What `ListVectorBuilder::with_type_capacity` is given: its item type and
   * capacity. The list builder's own operations are not part of this model.
   */
  datatype ListVectorBuilder = ListVectorBuilder(itemType: ConcreteDataType, capacity: nat)

  /** An Arrow type descriptor: a primitive leaf (named by the logical type it stands for) or a list. */
  datatype ArrowType =
    | Leaf(id: LogicalTypeId)
    | ArrowList(item: Field)

  /** An Arrow field: name, type and nullability. */
  datatype Field = Field(name: string, dataType: ArrowType, nullable: bool)

  /** A float payload, kept opaque: two floats are the same exactly when their tokens are equal. */
  datatype FloatToken = FloatToken(id: int)

  /** A list value: its elements (absent for a null list) and its element type. */
  datatype ListValue = ListValue(items: Option<seq<Value>>, itemType: ConcreteDataType)

  /** An owned scalar value: one arm per data type, plus the type-polymorphic `Null`. */
  datatype Value =
    | Null
    | Boolean(bool)
    | UInt8(u8) | UInt16(u16) | UInt32(u32) | UInt64(u64)
    | Int8(i8) | Int16(i16) | Int32(int32Value: i32) | Int64(int64Value: i64)
    | Float32(FloatToken) | Float64(FloatToken)
    | String(string)
    | Binary(seq<u8>)
    | Date(CommonTime.Date)
    | DateTime(CommonTime.DateTime)
    | Timestamp(CommonTime.Timestamp)
    | List(list: ListValue)

  /** A borrowed value is, in a model without ownership, the same data as an owned one. */
  type ValueRef = Value

  /** Whether `v` is a non-null value of the arm that belongs to data type `t`. */
  predicate IsValueOf(v: Value, t: ConcreteDataType)
  {
    match t
    case Null => false
    case Boolean => v.Boolean?
    case UInt8 => v.UInt8?
    case UInt16 => v.UInt16?
    case UInt32 => v.UInt32?
    case UInt64 => v.UInt64?
    case Int8 => v.Int8?
    case Int16 => v.Int16?
    case Int32 => v.Int32?
    case Int64 => v.Int64?
    case Float32 => v.Float32?
    case Float64 => v.Float64?
    case String => v.String?
    case Binary => v.Binary?
    case Date => v.Date?
    case DateTime => v.DateTime?
    case Timestamp => v.Timestamp?
    case List(lt) => v.List? && v.list.itemType == lt.inner
  }

  /* ---------- Names and ids of List types ---------- */

  /** Every List type has the name "List" and the id `List`, whatever its inner type. */
  lemma ListNameAndIdIgnoreInner(a: ListType, b: ListType)
    ensures a.Name() == b.Name() == "List"
    ensures a.TypeId() == b.TypeId() == LogicalTypeId.List
    ensures ConcreteDataType.List(a).TypeId() == LogicalTypeId.List
  {
  }

  /** `ListType::new` is injective, so equality of List types is equality of their inner types. */
  lemma ListTypeEqualityIsStructural(t: ConcreteDataType, u: ConcreteDataType)
    ensures ListType.New(t) == ListType.New(u) <==> t == u
    ensures ConcreteDataType.List(ListType.New(t)) == ConcreteDataType.List(ListType.New(u)) <==> t == u
  {
  }

  /* ---------- The Arrow mapping loses no information (given distinct leaves for distinct primitives) ---------- */

  /** The primitive data type a logical type id names; `List` has none. */
  function PrimitiveOf(id: LogicalTypeId): (t: Option<ConcreteDataType>)
    ensures t.None? <==> id == LogicalTypeId.List
    ensures t.Some? ==> !t.value.List? && t.value.TypeId() == id
  {
    match id
    case Null => Some(ConcreteDataType.Null)
    case Boolean => Some(ConcreteDataType.Boolean)
    case UInt8 => Some(ConcreteDataType.UInt8)
    case UInt16 => Some(ConcreteDataType.UInt16)
    case UInt32 => Some(ConcreteDataType.UInt32)
    case UInt64 => Some(ConcreteDataType.UInt64)
    case Int8 => Some(ConcreteDataType.Int8)
    case Int16 => Some(ConcreteDataType.Int16)
    case Int32 => Some(ConcreteDataType.Int32)
    case Int64 => Some(ConcreteDataType.Int64)
    case Float32 => Some(ConcreteDataType.Float32)
    case Float64 => Some(ConcreteDataType.Float64)
    case String => Some(ConcreteDataType.String)
    case Binary => Some(ConcreteDataType.Binary)
    case Date => Some(ConcreteDataType.Date)
    case DateTime => Some(ConcreteDataType.DateTime)
    case Timestamp => Some(ConcreteDataType.Timestamp)
    case List => None
  }

  /**
   * The reverse mapping, from an Arrow type back to a data type. A list is
   * recognised only in the shape `AsArrowType` produces: one nullable field
   * called "item".
   */
  function FromArrowType(a: ArrowType): Option<ConcreteDataType>
  {
    match a
    case Leaf(id) => PrimitiveOf(id)
    case ArrowList(f) =>
      if f.name == "item" && f.nullable then
        match FromArrowType(f.dataType)
        case Some(inner) => Some(ConcreteDataType.List(ListType(inner)))
        case None => None
      else None
  }

  /** Every data type, however deeply nested, is recovered from its Arrow type. */
  lemma {:induction false} ArrowTypeRoundTrip(t: ConcreteDataType)
    ensures FromArrowType(t.AsArrowType()) == Some(t)
  {
    match t
    case List(lt) =>
      ArrowTypeRoundTrip(lt.inner);
    case _ =>
  }

  /** Hence two data types with the same Arrow type are the same data type. */
  lemma ArrowTypeInjective(t: ConcreteDataType, u: ConcreteDataType)
    requires t.AsArrowType() == u.AsArrowType()
    ensures t == u
  {
    ArrowTypeRoundTrip(t);
    ArrowTypeRoundTrip(u);
  }

  /** The source's own example: a list of booleans. */
  lemma BooleanListType()
    ensures ListType.New(ConcreteDataType.Boolean).Name() == "List"
    ensures ListType.New(ConcreteDataType.Boolean).DefaultValue()
      == Value.List(ListValue(None, ConcreteDataType.Boolean))
    ensures ListType.New(ConcreteDataType.Boolean).AsArrowType()
      == ArrowList(Field("item", Leaf(LogicalTypeId.Boolean), true))
  {
  }
}
