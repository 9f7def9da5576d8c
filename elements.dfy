/** The abstract program elements the annotation processor inspects.

    The compiler reads Java source through the `javax.lang.model` API; the
    model replaces that API by plain values.  A `TypeElement` is a class with
    its annotations, its enclosed members and its superclass; an `Element` is
    one member (field, method, constructor, parameter) with its modifiers, its
    type (for a method: its return type), its annotations and, for a method,
    its parameters.  `TypeMirror` mirrors `javax.lang.model.type.TypeKind`.
 */
module Elements {
  import opened Wrappers

  const TYPE_STRING: string := "java.lang.String"

  datatype Modifier = Public | Protected | Private | Static | Final | Transient | Abstract | Volatile

  datatype ElementKind = FieldKind | MethodKind | ConstructorKind | ParameterKind | ClassKind

  /** The `SerializeType` enum of the Kotlin serializer package. */
  datatype SerializeType = SerShort | SerInt | SerLong | SerFloat | SerDouble | SerString | SerByteArray

  /** The action of an `OnUpdate`/`OnDelete` annotation on a foreign key. */
  datatype ForeignKeyAction = NoAction | Restrict | SetNull | SetDefault | Cascade

  /** Every annotation the compiler looks at, across both generations.
      `DatabaseEntity` carries the attributes of both of its versions: `name`,
      the single `primaryKey` of the older annotation, the
      `primaryKeyFields` list (whose default is `[""]`) and the `serializer`
      class, as the mirror the compiler reports for it. */
  datatype Annotation =
    | DatabaseEntity(name: string, primaryKey: string, primaryKeyFields: seq<string>, serializer: TypeMirror)
    | PrimaryKey
    | FieldName(value: string)
    | ColumnName(value: string)
    | IgnoreField
    | NotDatabaseField
    | GetField(value: string)
    | SetField(value: string)
    | SerializeTo(serializeTo: SerializeType)
    | SerializerOf(serializer: TypeMirror)
    | SerializeTypeMethod
    | DeserializeTypeMethod
    | OnUpdate(updateAction: ForeignKeyAction)
    | OnDelete(deleteAction: ForeignKeyAction)
    | Insert
    | Replace
    | Update
    | Delete(deleteTarget: TypeMirror)
    | Select(selectWhere: string, selectOrderBy: string)
    | CreateTable(entity: TypeMirror)
    | Inject
    | Where(value: string)
    | OrderBy(value: string)
    | Limit(value: string)
    | DatabaseStorage(storageSerializer: TypeMirror)

  /** The annotation classes, as `getAnnotation(X.class)` names them. */
  datatype AnnotationClass =
    | DatabaseEntityClass | PrimaryKeyClass | FieldNameClass | ColumnNameClass
    | IgnoreFieldClass | NotDatabaseFieldClass | GetFieldClass | SetFieldClass
    | SerializeToClass | SerializerClass | SerializeTypeClass | DeserializeTypeClass
    | OnUpdateClass | OnDeleteClass
    | InsertClass | ReplaceClass | UpdateClass | DeleteClass | SelectClass
    | CreateTableClass | InjectClass | WhereClass | OrderByClass | LimitClass
    | DatabaseStorageClass

  function ClassOf(a: Annotation): AnnotationClass {
    match a
    case DatabaseEntity(_, _, _, _) => DatabaseEntityClass
    case PrimaryKey => PrimaryKeyClass
    case FieldName(_) => FieldNameClass
    case ColumnName(_) => ColumnNameClass
    case IgnoreField => IgnoreFieldClass
    case NotDatabaseField => NotDatabaseFieldClass
    case GetField(_) => GetFieldClass
    case SetField(_) => SetFieldClass
    case SerializeTo(_) => SerializeToClass
    case SerializerOf(_) => SerializerClass
    case SerializeTypeMethod => SerializeTypeClass
    case DeserializeTypeMethod => DeserializeTypeClass
    case OnUpdate(_) => OnUpdateClass
    case OnDelete(_) => OnDeleteClass
    case Insert => InsertClass
    case Replace => ReplaceClass
    case Update => UpdateClass
    case Delete(_) => DeleteClass
    case Select(_, _) => SelectClass
    case CreateTable(_) => CreateTableClass
    case Inject => InjectClass
    case Where(_) => WhereClass
    case OrderBy(_) => OrderByClass
    case Limit(_) => LimitClass
    case DatabaseStorage(_) => DatabaseStorageClass
  }

  datatype TypeMirror =
    | BooleanType | ShortType | IntType | LongType | FloatType | DoubleType | ByteType | CharType
    | VoidType
    | NoType
    | ArrayType(component: TypeMirror)
    | DeclaredType(decl: TypeElement, typeArguments: seq<TypeMirror>)
    | TypeVariable(variableName: string)

  /** `javax.lang.model.type.TypeKind`: the kind of a type mirror. */
  datatype TypeKind =
    | BooleanKind | ShortKind | IntKind | LongKind | FloatKind | DoubleKind | ByteKind | CharKind
    | VoidKind | NoneKind | ArrayKind | DeclaredKind | TypeVarKind

  /** `TypeMirror.getKind()`. */
  function KindOf(t: TypeMirror): TypeKind {
    match t
    case BooleanType => BooleanKind
    case ShortType => ShortKind
    case IntType => IntKind
    case LongType => LongKind
    case FloatType => FloatKind
    case DoubleType => DoubleKind
    case ByteType => ByteKind
    case CharType => CharKind
    case VoidType => VoidKind
    case NoType => NoneKind
    case ArrayType(_) => ArrayKind
    case DeclaredType(_, _) => DeclaredKind
    case TypeVariable(_) => TypeVarKind
  }

  /** `TypeKind.toString()`, the enum constant's name. */
  function KindName(k: TypeKind): string {
    match k
    case BooleanKind => "BOOLEAN"
    case ShortKind => "SHORT"
    case IntKind => "INT"
    case LongKind => "LONG"
    case FloatKind => "FLOAT"
    case DoubleKind => "DOUBLE"
    case ByteKind => "BYTE"
    case CharKind => "CHAR"
    case VoidKind => "VOID"
    case NoneKind => "NONE"
    case ArrayKind => "ARRAY"
    case DeclaredKind => "DECLARED"
    case TypeVarKind => "TYPEVAR"
  }

  /** A member of a class, or a parameter of a method. */
  datatype Element = Element(
    simpleName: string,
    kind: ElementKind,
    modifiers: set<Modifier>,
    asType: TypeMirror,
    annotations: seq<Annotation>,
    parameters: seq<Element>)

  /** A class or interface with its directly enclosed members. */
  datatype TypeElement = TypeElement(
    qualifiedName: string,
    simpleName: string,
    typeAnnotations: seq<Annotation>,
    enclosedElements: seq<Element>,
    superclass: TypeMirror)

  /** `getAnnotation(X.class)`: the first annotation of that class, or null. */
  function GetAnnotation(annotations: seq<Annotation>, c: AnnotationClass): (r: Option<Annotation>)
    ensures r.Some? ==> r.value in annotations && ClassOf(r.value) == c
  {
    if |annotations| == 0 then None
    else if ClassOf(annotations[0]) == c then Some(annotations[0])
    else GetAnnotation(annotations[1..], c)
  }

  predicate HasAnnotation(annotations: seq<Annotation>, c: AnnotationClass) {
    GetAnnotation(annotations, c).Some?
  }

  /** The `DatabaseEntity` annotation of a declared type, when it has one. */
  predicate IsEntityType(t: TypeMirror) {
    t.DeclaredType? && HasAnnotation(t.decl.typeAnnotations, DatabaseEntityClass)
  }

  predicate IsDeclaredString(t: TypeMirror) {
    t.DeclaredType? && t.decl.qualifiedName == TYPE_STRING
  }

  /** The primitive kinds the compiler stores natively. */
  predicate IsNativePrimitive(t: TypeMirror) {
    t.BooleanType? || t.ShortType? || t.IntType? || t.LongType? || t.FloatType? || t.DoubleType?
  }

  /** The `ObjectType` classification of a field type. */
  datatype ObjectType = BooleanObject | ShortObject | IntObject | LongObject | FloatObject
                      | DoubleObject | StringObject | OtherObject

  /** Character helpers: ASCII letters are the only ones case-mapped by the model. */
  predicate IsUpperCase(c: char) { 'A' <= c <= 'Z' }
  predicate IsLowerCase(c: char) { 'a' <= c <= 'z' }

  function ToUpper(c: char): (r: char)
    ensures IsLowerCase(c) ==> IsUpperCase(r)
    ensures !IsLowerCase(c) ==> r == c
  {
    if IsLowerCase(c) then (c as int - 'a' as int + 'A' as int) as char else c
  }

  function ToLower(c: char): (r: char)
    ensures IsUpperCase(c) ==> IsLowerCase(r)
    ensures !IsUpperCase(c) ==> r == c
  {
    if IsUpperCase(c) then (c as int - 'A' as int + 'a' as int) as char else c
  }

  /** `prefix + fieldName[0].toUpperCase() + fieldName[1..]`, the conventional
      accessor name (`getName`, `isActive`, `setName`).  The substring calls
      throw on an empty field name. */
  function AccessorName(prefix: string, fieldName: string): (r: Result<string>)
    ensures r.Ok? <==> |fieldName| > 0
    ensures r.Ok? ==> r.value == prefix + [ToUpper(fieldName[0])] + fieldName[1..]
  {
    if |fieldName| == 0 then Err(IndexOutOfBounds("substring(0, 1) of an empty name"))
    else Ok(prefix + [ToUpper(fieldName[0])] + fieldName[1..])
  }
}
