# slingerORM compiler core in Dafny

slingerORM is an object-relational mapper for Android's SQLite. Its
`compiler` module is a Java annotation processor. At build time it reads:

- the `@DatabaseEntity` classes of an application, which describe one table
  each;
- the `@DatabaseStorage` interfaces, whose methods are annotated with
  `@CreateTable`, `@Insert`, `@Update`, `@Replace`, `@Delete` or `@Select`.

From them it generates a mapper per entity and an implementation of each
storage interface. This project models the part of the processor that
decides what that generated code says:

- which members of an entity class become columns;
- the column names, SQL types and primary keys;
- the getters and setters used to read and write each column;
- the `CREATE TABLE` statement;
- the key predicate (`k = ? AND ...`) and its argument expressions;
- the validation of every storage method: its parameter count, the number
  of `?` placeholders against its parameters, its return shape and clashing
  annotations.

Each is modelled with the error it reports.

The processor reads Java source through the `javax.lang.model` API. The
model replaces that API with plain values (module `Elements`):

- a `TypeElement` is a class, with its annotations, enclosed members and
  superclass;
- an `Element` is a member, with its kind, modifiers, type, annotations
  and parameters;
- a `TypeMirror` follows `javax.lang.model.type.TypeKind`.

Every thrown exception becomes an `Err` of a `Result` (module `Wrappers`),
so each error path is a value the contracts talk about.

Two generations of the processor live side by side in the repository, and
their rules differ. Each is modelled against its own source, one Dafny
module per source file:

- **The Kotlin generation:**
  - `DatabaseEntityModelKt` (`DatabaseEntityModel.kt`);
  - `CreateTableVisitor`, `SelectVisitor`, `DeleteVisitor`,
    `InsertVisitor`, `UpdateVisitor` and `ReplaceVisitor`;
  - `DatabaseStorageProcessorKt`;
  - `DatabaseEntityModelLazyMap`, `ElementExtensions` and
    `StringExtensions`;
  - `StorageBuilder`, which holds the constants and methods handed to the
    code generator.
- **The Java generation:**
  - `DatabaseEntityModelJava` and `DatabaseEntityModelObject`, which are
    the functional pipeline and the class of `DatabaseEntityModel.java`;
  - `DatabaseStorageProcessorJava` and `EntityTypeJava`;
  - `ElementUtils`, `ListUtils`, `StringUtils`, `PackageProvider`,
    `MapperDescription`, `DefaultCursorGetter` and `TypeUtils`.

Code that works by expressions becomes functions with lemmas. Code that
updates state step by step becomes methods proved against those functions:

- `DatabaseEntityModelLazyMap` is a class over a `map` field;
- the cached fields of `EntityType` are `Option` fields of a class;
- each `initialize` step of the Java `DatabaseEntityModel` is a method of
  a class with one field per Java field;
- the `StringBuilder` and list-building loops are loops with invariants;
- each visitor is a class whose `Visit` appends to the builder.

The model keeps these behaviours of the code as they are, including the
ones that look like mistakes (those are listed under Findings, each beside
a corrected definition):

- The Kotlin entity model has two primary-key resolvers with opposite
  precedence. `CREATE TABLE` uses one of them (`PrimaryKeyFieldNames`) and
  the single-item predicate uses the other (`PrimaryKeyFields`).
- In `PrimaryKeyFields`, one column marked `@PrimaryKey` makes every
  column a key field, because the marked list only decides whether the
  annotation's keys are looked up. With the default annotation keys,
  `PrimaryKeyFieldNames` then names every column too.
- An entity without a `@PrimaryKey` marker and without key names in its
  annotation fails with "doesn't exist". This is because the
  `primaryKeyFields` attribute defaults to `[""]`.
- The inheritance walk shares one set of seen names between fields and
  methods.
- The Kotlin serializer list is not de-duplicated.
- Select-single ignores `@Where`.
- The Kotlin select visitor rejects every array return type: it checks the
  array type itself where it means the array's component.
- `EntityType.isDatabaseField` tests `@NotDatabaseField` only inside its
  loop over the modifiers. A field without modifiers (a package-private
  one) therefore never reaches that test, and is stored even when it
  carries `@NotDatabaseField`.
- The Java entity model compares a field's type with its serializer's
  `deserialize` type through its own copy of `isTypeMirrorEqual`, which
  compares each mirror with itself. So a field of primitive or declared
  type accepts any `deserialize` type.
- The Java entity model names a foreign key's referenced key FIELD, not its
  column, in the `REFERENCES` clause.
- The Java entity model records each serializer's generated field name for
  the first field found using that serializer only.
- The Java entity model iterates hash maps and sets. Their iteration order
  is a parameter (`Environment`), and every property about them holds for
  every order.

The code and the project's own description differ in two places; the
model follows the code:

- `checkUniqueAnnotations` of the Java storage processor checks the
  annotation against `@Inject`, not `@Insert` (compiler/src/main/java/net/daverix/slingerorm/compiler/DatabaseStorageProcessor.java:909-919).
- The Java `DatabaseEntityModel` names the key field, not its column, in
  a foreign key's `REFERENCES` clause (see Findings).

## Model

| member | source | states |
|---|---|---|
| StringExtensions.FirstCharLowerCase | compiler/src/main/java/net/daverix/slingerorm/compiler/StringExtensions.kt:4 | fails with `first()`'s NoSuchElement "Char sequence is empty." iff the input is empty; otherwise keeps the length, lower-cases index 0 and leaves every other character unchanged |
| StringExtensions.FirstCharLowerCaseIdempotent | compiler/src/main/java/net/daverix/slingerorm/compiler/StringExtensions.kt:4 | lower-casing the first character twice gives the same string as once |
| StringExtensions.CountSqliteArgs | compiler/src/main/java/net/daverix/slingerorm/compiler/StringExtensions.kt:6-8 | the count is the number of `?` characters in the string (its multiplicity in the multiset of characters), at most the length |
| StringExtensions.CountSqliteArgsAppend | compiler/src/main/java/net/daverix/slingerorm/compiler/StringExtensions.kt:6-8 | the placeholders of two concatenated clauses add up |
| StringExtensions.TerminatedPlaceholders | compiler/src/main/java/net/daverix/slingerorm/compiler/StringExtensions.kt:6-8 | parts holding one `?` each, each followed by a separator without one, hold exactly one `?` per part |
| StringExtensions.JoinPlaceholders | compiler/src/main/java/net/daverix/slingerorm/compiler/StringExtensions.kt:6-8 | parts holding one `?` each, joined by a separator without one, hold exactly one `?` per part |
| StringExtensions.EncloseStringValueOfIfNotString | compiler/src/main/java/net/daverix/slingerorm/compiler/StringExtensions.kt:10-11 | the result is the input unchanged iff the expression is a String; otherwise it is `String.valueOf(` + input + `)` |
| StringExtensions.FromCamelCaseToScreamingSnakeCase | compiler/src/main/java/net/daverix/slingerorm/compiler/StringExtensions.kt:13-22 | the builder loop produces exactly `ScreamingSnake(s)`, the per-character conversion with `_` before each upper-case character strictly between the first and the last |
| StringExtensions.ScreamingSnakeLength | compiler/src/main/java/net/daverix/slingerorm/compiler/StringExtensions.kt:13-22 | the output length is the input length plus one per inserted underscore |
| StringExtensions.ScreamingSnakeUpper | compiler/src/main/java/net/daverix/slingerorm/compiler/StringExtensions.kt:13-22 | no character of the output is a lower-case letter |
| StringExtensions.UpperAll | compiler/src/main/java/net/daverix/slingerorm/compiler/StringExtensions.kt:19 | keeps the length and upper-cases every character |
| StringExtensions.ScreamingSnakeNoInteriorCapitals | compiler/src/main/java/net/daverix/slingerorm/compiler/StringExtensions.kt:16-19 | a name with no upper-case letter strictly inside comes out merely upper-cased |
| StringExtensions.ScreamingSnakeSample | compiler/src/main/java/net/daverix/slingerorm/compiler/StringExtensions.kt:13-22 | `SimpleEntity` becomes `SIMPLE_ENTITY` |
| StringUtils.LowerCaseFirstCharacter | compiler/src/main/java/net/daverix/slingerorm/compiler/StringUtils.java:4-9 | fails with IllegalArgument iff the input is null or shorter than two characters; otherwise keeps the length, lower-cases index 0 and keeps the rest |
| StringUtils.LowerCaseFirstCharacterIdempotent | compiler/src/main/java/net/daverix/slingerorm/compiler/StringUtils.java:4-9 | applying it twice is the same as applying it once |
| StringUtils.LowerCaseFirstCharacterMatchesKotlin | compiler/src/main/java/net/daverix/slingerorm/compiler/StringUtils.java:4-9 | where it accepts the input it agrees with the Kotlin `firstCharLowerCase`; on one-character input only the Java helper fails |
| TypeUtils.AsWrittenIgnoresOther | compiler/src/main/java/net/daverix/slingerorm/compiler/TypeUtils.java:10-26 | the method as written answers true iff the arguments are equal or the first one is primitive or declared, whatever the second one is |
| TypeUtils.AsWrittenIntEqualsString | compiler/src/main/java/net/daverix/slingerorm/compiler/TypeUtils.java:15-16 | as written, `int` is reported equal to `java.lang.String`, although their kinds differ |
| TypeUtils.IsTypeMirrorEqualProperties | compiler/src/main/java/net/daverix/slingerorm/compiler/TypeUtils.java:10-26 | the corrected comparison is reflexive, symmetric and transitive, relates only types of one kind, declared types exactly when they have the same element, and any two primitives of one kind |
| TypeUtils.CorrectedImpliesAsWritten | compiler/src/main/java/net/daverix/slingerorm/compiler/TypeUtils.java:10-26 | the written version errs only towards true: whatever the corrected comparison accepts, it accepts too |
| DatabaseEntityModelLazyMap.DatabaseEntityModelLazyMap.constructor | compiler/src/main/java/net/daverix/slingerorm/compiler/DatabaseEntityModelLazyMap.kt:5-6 | the map starts empty |
| DatabaseEntityModelLazyMap.DatabaseEntityModelLazyMap.Get | compiler/src/main/java/net/daverix/slingerorm/compiler/DatabaseEntityModelLazyMap.kt:8-16 | returns the stored model of the element when there is one and changes nothing; otherwise creates a fresh model for the element, stores it under that key and leaves every other entry alone; the map grows by at most one entry and every stored model describes its key |
| DatabaseEntityModelLazyMap.GetTwice | compiler/src/main/java/net/daverix/slingerorm/compiler/DatabaseEntityModelLazyMap.kt:8-16 | two calls for one element return the identical object, and entries that existed before are unchanged |
| PackageProvider.LastIndexOf | compiler/src/main/java/net/daverix/slingerorm/compiler/PackageProvider.java:23 | `lastIndexOf`: -1 or a position holding the character, with no occurrence after it |
| PackageProvider.LastIndexOfMeaning | compiler/src/main/java/net/daverix/slingerorm/compiler/PackageProvider.java:23 | the result is -1 exactly when the character does not occur, and nothing after the result is that character |
| PackageProvider.GetPackage | compiler/src/main/java/net/daverix/slingerorm/compiler/PackageProvider.java:20-25 | null fails with IllegalArgument, a name without a dot fails in `substring(0, -1)`; otherwise the result is the prefix before the last dot, and no dot follows it |
| PackageProvider.GetPackageReconstructs | compiler/src/main/java/net/daverix/slingerorm/compiler/PackageProvider.java:20-25 | the package, a dot and the rest give back the qualified name |
| PackageProvider.GetPackageOfJoined | compiler/src/main/java/net/daverix/slingerorm/compiler/PackageProvider.java:20-25 | the package of `p.n` for a dot-free simple name `n` is `p` |
| ListUtils.MapItems | compiler/src/main/java/net/daverix/slingerorm/compiler/ListUtils.java:24-30 | the result has the input's length and holds the mapper's value of each item at the same position |
| ListUtils.Filter | compiler/src/main/java/net/daverix/slingerorm/compiler/ListUtils.java:32-40 | the loop returns what `FilterOrFail` computes: the first exception the predicate throws, otherwise the accepted items in order |
| ListUtils.FilterOrFailOk | compiler/src/main/java/net/daverix/slingerorm/compiler/ListUtils.java:32-40 | the filter succeeds iff the predicate succeeds on every item; then the result holds exactly the accepted items and is a subsequence of the input |
| ListUtils.FilterOrFailErr | compiler/src/main/java/net/daverix/slingerorm/compiler/ListUtils.java:32-40 | a failing filter reports the failure of an item on which the predicate failed, with every earlier item passing |
| ListUtils.FilterOrFailTotal | compiler/src/main/java/net/daverix/slingerorm/compiler/ListUtils.java:32-40 | a predicate that never throws gives the plain order-preserving filter |
| ListUtils.FirstOrDefault | compiler/src/main/java/net/daverix/slingerorm/compiler/ListUtils.java:42-47 | null iff the list is empty, otherwise its first item |
| MapperDescription.QualifiedName | compiler/src/main/java/net/daverix/slingerorm/compiler/MapperDescription.java:30-32 | the entity's qualified name followed by `Mapper` |
| MapperDescription.EntityNameNamesVariable | compiler/src/main/java/net/daverix/slingerorm/compiler/MapperDescription.java:34-45 | the mapper variable exists iff the entity name is non-empty, and is the entity name with a lower-case first letter followed by `Mapper` |
| MapperDescription.VariableName | compiler/src/main/java/net/daverix/slingerorm/compiler/MapperDescription.java:42-45 | fails (`substring(0, 1)`) iff the simple name is empty; otherwise the simple name with its first character lower-cased, followed by `Mapper` |
| MapperDescription.StringHashCode | compiler/src/main/java/net/daverix/slingerorm/compiler/MapperDescription.java:59-62 | Java's `String.hashCode` as a signed 32-bit value whose unsigned reading is the wrapping `31 * h + c` recurrence |
| MapperDescription.HashCode | compiler/src/main/java/net/daverix/slingerorm/compiler/MapperDescription.java:59-62 | the hash of the qualified name, a signed 32-bit value |
| MapperDescription.EqualsContract | compiler/src/main/java/net/daverix/slingerorm/compiler/MapperDescription.java:48-62 | `equals` is reflexive, symmetric and transitive, and equal descriptions have equal hash codes |
| MapperDescription.EqualsIgnoresSimpleName | compiler/src/main/java/net/daverix/slingerorm/compiler/MapperDescription.java:48-57 | two descriptions with one qualified name are equal even when their simple names, and so their mapper variables, differ |
| MapperDescription.HashCodeSingle | compiler/src/main/java/net/daverix/slingerorm/compiler/MapperDescription.java:59-62 | the hash of a one-character name is its code point |
| DefaultCursorGetter.StringRepresentation | compiler/src/main/java/net/daverix/slingerorm/compiler/mapping/cursor/DefaultCursorGetter.java:33-51 | null exactly for BOOLEAN; every other kind has its getter suffix |
| DefaultCursorGetter.Get | compiler/src/main/java/net/daverix/slingerorm/compiler/mapping/cursor/DefaultCursorGetter.java:18-31 | BOOLEAN reads `cursor.getShort(column) == 1`; every other kind reads `cursor.get<Suffix>(cursor.getColumnIndex("column"))` |
| DefaultCursorGetter.GetIdentifiesType | compiler/src/main/java/net/daverix/slingerorm/compiler/mapping/cursor/DefaultCursorGetter.java:18-51 | two non-boolean kinds that read a column through the same code are the same kind |
| Elements.AccessorName | compiler/src/main/java/net/daverix/slingerorm/compiler/DatabaseEntityModel.kt:244-247 | the accessor name exists iff the field name is non-empty (otherwise `substring(0, 1)` throws); it is the prefix followed by the field name with its first character upper-cased |
| ElementExtensions.AsElement | compiler/src/main/java/net/daverix/slingerorm/compiler/ElementExtensions.kt:42-54 | succeeds exactly for a member of declared type, returning that type's element; any other kind is an InvalidElementException |
| ElementExtensions.UnseenAppend | compiler/src/main/java/net/daverix/slingerorm/compiler/ElementExtensions.kt:63-72 | scanning two lists in a row with a shared set of names is scanning the first and then the second against the names the first added |
| ElementExtensions.AddOneStep | compiler/src/main/java/net/daverix/slingerorm/compiler/ElementExtensions.kt:66-72 | one iteration of the member loop extends the kept list and the name set exactly as the specification of the whole loop demands |
| ElementExtensions.UnseenDistinctNames | compiler/src/main/java/net/daverix/slingerorm/compiler/ElementExtensions.kt:63-72 | the kept members carry pairwise different names, none of them already seen |
| ElementExtensions.UnseenNearest | compiler/src/main/java/net/daverix/slingerorm/compiler/ElementExtensions.kt:63-72 | every kept member is the first member of the scanned list with its name, and every unseen name of the list is kept |
| ElementExtensions.UnseenIsSubsequence | compiler/src/main/java/net/daverix/slingerorm/compiler/ElementExtensions.kt:63-72 | the kept members appear in the order of the scanned list |
| ElementExtensions.NamesOfAppend | compiler/src/main/java/net/daverix/slingerorm/compiler/ElementExtensions.kt:66-72 | the names of two lists in a row are the union of their names |
| ElementExtensions.OwnMembersFirst | compiler/src/main/java/net/daverix/slingerorm/compiler/ElementExtensions.kt:56-79 | a class's own members come first; inherited members follow only when their names are still unused, and there are none above a class without a declared superclass |
| ElementExtensions.ElementsOfProperties | compiler/src/main/java/net/daverix/slingerorm/compiler/ElementExtensions.kt:56-79 | `getElements` lists each name once, picks for each name the member nearest to the class along the superclass chain, lists every name of the chain, and keeps the chain's order; a subclass member hides a superclass member of the same name |
| ElementExtensions.ChainSplit | compiler/src/main/java/net/daverix/slingerorm/compiler/ElementExtensions.kt:63-78 | the chain scan splits into the class's own members and the scan of the superclass chain against the names already seen |
| ElementExtensions.AddEnclosedElements | compiler/src/main/java/net/daverix/slingerorm/compiler/ElementExtensions.kt:66-72 | the loop over the enclosed members appends exactly the unseen members, in order, and adds all their names to the set |
| ElementExtensions.AddElements | compiler/src/main/java/net/daverix/slingerorm/compiler/ElementExtensions.kt:63-79 | the recursion appends the unseen members of the whole superclass chain and records every name of the chain |
| ElementExtensions.GetElements | compiler/src/main/java/net/daverix/slingerorm/compiler/ElementExtensions.kt:56-61 | returns the list `ElementsOf` specifies, whose properties `ElementsOfProperties` proves |
| ElementExtensions.MethodsOfProperties | compiler/src/main/java/net/daverix/slingerorm/compiler/ElementExtensions.kt:81-87 | a member is among the methods iff it is listed by `getElements`, is a method and is accessible; the methods keep the listing's order |
| ElementExtensions.GetTypeName | compiler/src/main/java/net/daverix/slingerorm/compiler/ElementExtensions.kt:97-115 | succeeds exactly for the eight primitive kinds and declared types; a declared type gives its simple name; every other kind is an InvalidElementException `<KIND> is not known, bug?` |
| ElementExtensions.GetTypeNamePrimitivesDistinct | compiler/src/main/java/net/daverix/slingerorm/compiler/ElementExtensions.kt:97-114 | two primitive types get the same name iff they are the same type |
| ElementUtils.IsAccessable | compiler/src/main/java/net/daverix/slingerorm/compiler/ElementUtils.java:45-60 | the scan over the modifier set answers exactly `isAccessible` of the Kotlin generation, whatever order the set yields |
| ElementUtils.GetTypeElement | compiler/src/main/java/net/daverix/slingerorm/compiler/ElementUtils.java:67-80 | succeeds exactly for a member of declared type, returning its element; any other type is an IllegalArgumentException |
| ElementUtils.GetDeclaredTypeName | compiler/src/main/java/net/daverix/slingerorm/compiler/ElementUtils.java:62-65 | succeeds exactly for a member of declared type, returning its qualified name |
| ElementUtils.AddEnclosedElements | compiler/src/main/java/net/daverix/slingerorm/compiler/ElementUtils.java:90-96 | the Java loop appends exactly the unseen members, in order, and records all their names |
| ElementUtils.AddElements | compiler/src/main/java/net/daverix/slingerorm/compiler/ElementUtils.java:89-103 | the Java recursion appends the unseen members of the superclass chain and records every name of the chain, like the Kotlin one |
| ElementUtils.GetElementsInTypeElement | compiler/src/main/java/net/daverix/slingerorm/compiler/ElementUtils.java:82-87 | returns the same list as the Kotlin `getElements` |
| ElementUtils.GetMethodsInTypeElement | compiler/src/main/java/net/daverix/slingerorm/compiler/ElementUtils.java:105-117 | returns the same list as the Kotlin `getMethods` |
| DatabaseEntityModelKt.DatabaseEntityModel.constructor | compiler/src/main/java/net/daverix/slingerorm/compiler/DatabaseEntityModel.kt:27 | the model holds the entity's type element, from which every property is computed |
| DatabaseEntityModelKt.TableName | compiler/src/main/java/net/daverix/slingerorm/compiler/DatabaseEntityModel.kt:28-37 | fails with InvalidElementException iff the class lacks `@DatabaseEntity`; otherwise the annotation's `name`, or the simple name when `name` is empty |
| DatabaseEntityModelKt.ColumnsProperties | compiler/src/main/java/net/daverix/slingerorm/compiler/DatabaseEntityModel.kt:45-47 | a member is a column iff `getElements` lists it and it is a non-static, non-transient field without `@IgnoreField`; columns keep member order and have distinct names |
| DatabaseEntityModelKt.ColumnsDistinct | compiler/src/main/java/net/daverix/slingerorm/compiler/DatabaseEntityModel.kt:45-47 | no two columns share a simple name |
| DatabaseEntityModelKt.GetDatabaseFieldName | compiler/src/main/java/net/daverix/slingerorm/compiler/DatabaseEntityModel.kt:54-64 | the `@FieldName` value when present and non-empty, the member name without the annotation, and an InvalidElementException for an empty value |
| DatabaseEntityModelKt.FieldNamesAligned | compiler/src/main/java/net/daverix/slingerorm/compiler/DatabaseEntityModel.kt:39-43 | one column name per column, in column order; fails iff some column has an empty `@FieldName` |
| DatabaseEntityModelKt.LookupColumn | compiler/src/main/java/net/daverix/slingerorm/compiler/DatabaseEntityModel.kt:172-175 | finds the first column with the name, and fails when none has it |
| DatabaseEntityModelKt.GetPrimaryKeyFieldsUsingDatabaseEntity | compiler/src/main/java/net/daverix/slingerorm/compiler/DatabaseEntityModel.kt:101-117 | the loop over the annotation keys returns what `KeyFieldsFromAnnotation` specifies: the column of each key in key order, or an InvalidElementException at the first missing one |
| DatabaseEntityModelKt.PrimaryKeyFields | compiler/src/main/java/net/daverix/slingerorm/compiler/DatabaseEntityModel.kt:86-99 | the key fields, when found, are never empty; an empty list fails |
| DatabaseEntityModelKt.PrimaryKeyFieldsTakesAllColumns | compiler/src/main/java/net/daverix/slingerorm/compiler/DatabaseEntityModel.kt:89-93 | once some column carries `@PrimaryKey`, every column is a key field, in column order |
| DatabaseEntityModelKt.PrimaryKeyFieldsIntendedMarked | compiler/src/main/java/net/daverix/slingerorm/compiler/DatabaseEntityModel.kt:86-99 | with the intended resolver, when some column is marked the key fields are exactly the marked columns, in column order |
| DatabaseEntityModelKt.PrimaryKeyFieldsSample | compiler/src/main/java/net/daverix/slingerorm/compiler/DatabaseEntityModel.kt:86-99 | for an entity with `id` marked `@PrimaryKey` and a plain `message`, as written both columns are keys, as intended only `id` |
| DatabaseEntityModelKt.PrimaryKeyFieldsFromAnnotation | compiler/src/main/java/net/daverix/slingerorm/compiler/DatabaseEntityModel.kt:92-117 | without markers the key fields are the column of each annotation key, in key order; they exist iff the key list is non-empty and every key names a column |
| DatabaseEntityModelKt.DefaultKeysRejected | compiler/src/main/java/net/daverix/slingerorm/compiler/DatabaseEntityModel.kt:92-117 | without markers, the default `primaryKeyFields = [""]` names no column and the entity is rejected |
| DatabaseEntityModelKt.SimpleNames | compiler/src/main/java/net/daverix/slingerorm/compiler/DatabaseEntityModel.kt:75-76 | the simple name of each member, position by position |
| DatabaseEntityModelKt.PrimaryKeyFieldNamesProperties | compiler/src/main/java/net/daverix/slingerorm/compiler/DatabaseEntityModel.kt:66-80 | the names have no duplicates; the non-empty annotation keys win when there are any, otherwise the non-empty names of the key fields |
| DatabaseEntityModelKt.KeyNamesAllColumnsWhenMarked | compiler/src/main/java/net/daverix/slingerorm/compiler/DatabaseEntityModel.kt:66-99 | with only empty annotation keys (the default `[""]`) and some column marked, the key names are exactly the non-empty names of all columns |
| DatabaseEntityModelKt.KeyResolversDisagree | compiler/src/main/java/net/daverix/slingerorm/compiler/DatabaseEntityModel.kt:66-99 | for a class whose annotation names `message` while `id` carries the marker, `primaryKeyFieldNames` gives `message` alone but `primaryKeyFields` gives both `id` and `message` |
| DatabaseEntityModelKt.GetDatabaseTypeRange | compiler/src/main/java/net/daverix/slingerorm/compiler/DatabaseEntityModel.kt:128-163 | every column type is INTEGER, REAL, TEXT or BLOB, and the only failure is an InvalidElementException |
| DatabaseEntityModelKt.GetDatabaseTypeProperties | compiler/src/main/java/net/daverix/slingerorm/compiler/DatabaseEntityModel.kt:128-163 | boolean and integral types are INTEGER, floating types REAL, String TEXT; another declared type takes its `@SerializeTo` target's type and fails without one; any other type fails |
| DatabaseEntityModelKt.GetObjectTypeForElementProperties | compiler/src/main/java/net/daverix/slingerorm/compiler/DatabaseEntityModel.kt:268-290 | primitives and declared types are classified (String apart from other classes); arrays, bytes and chars are InvalidElementException `<KIND> is not known by SlingerORM…`, the remaining kinds IllegalStateException `<KIND> should never been reached, processor error?` |
| DatabaseEntityModelKt.StorableColumnsHaveObjectType | compiler/src/main/java/net/daverix/slingerorm/compiler/DatabaseEntityModel.kt:136-163 | every column with an SQL type also has an accessor kind, and a custom-typed one carries `@SerializeTo` |
| DatabaseEntityModelKt.AnnotatedAccessorMeaning | compiler/src/main/java/net/daverix/slingerorm/compiler/DatabaseEntityModel.kt:252-306 | the annotation scan returns the first annotated method naming the field, returns null iff every method is passed over, and fails at the first empty annotation value met before a match |
| DatabaseEntityModelKt.FindMethodByFieldNameAndGetFieldAnnotation | compiler/src/main/java/net/daverix/slingerorm/compiler/DatabaseEntityModel.kt:252-266 | the loop returns what `AnnotatedAccessor` specifies for `@GetField` |
| DatabaseEntityModelKt.FirstByFieldNameAndSetFieldAnnotation | compiler/src/main/java/net/daverix/slingerorm/compiler/DatabaseEntityModel.kt:292-306 | the loop returns what `AnnotatedAccessor` specifies for `@SetField` |
| DatabaseEntityModelKt.FirstByFieldName | compiler/src/main/java/net/daverix/slingerorm/compiler/DatabaseEntityModel.kt:242-250 | fails (`substring`) iff there is a method to test and the field name is empty; otherwise the first method named prefix + capitalised field name |
| DatabaseEntityModelKt.FindDirectGetterPrecedence | compiler/src/main/java/net/daverix/slingerorm/compiler/DatabaseEntityModel.kt:221-240 | read access prefers a `@GetField` method, then `is`/`get` + name (`is` for booleans), then the field itself when accessible, and fails otherwise |
| DatabaseEntityModelKt.GetSerializerFieldName | compiler/src/main/java/net/daverix/slingerorm/compiler/DatabaseEntityModel.kt:199-207 | exists iff the field has a declared type with a non-empty simple name and carries `@SerializeTo`; it is the lower-camel type name, `To`, the target name and `Serializer` |
| DatabaseEntityModelKt.SerializerFieldNameShared | compiler/src/main/java/net/daverix/slingerorm/compiler/DatabaseEntityModel.kt:199-207 | fields of one type serialized to one target share one serializer field name |
| DatabaseEntityModelKt.FindGetter | compiler/src/main/java/net/daverix/slingerorm/compiler/DatabaseEntityModel.kt:177-197 | built-in kinds use the direct getter; a custom type wraps the direct getter in its serializer's `serialize` call; an unclassifiable type fails |
| DatabaseEntityModelKt.GetCursorMethod | compiler/src/main/java/net/daverix/slingerorm/compiler/DatabaseEntityModel.kt:345-357 | every kind but OTHER has a cursor call reading the given column index; a boolean compares `getInt` with 1; OTHER is an UnsupportedOperationException |
| DatabaseEntityModelKt.AsObjectType | compiler/src/main/java/net/daverix/slingerorm/compiler/DatabaseEntityModel.kt:368-378 | BYTE_ARRAY alone cannot be read back; the other targets map to a built-in non-boolean kind |
| DatabaseEntityModelKt.FindDeserializerMethod | compiler/src/main/java/net/daverix/slingerorm/compiler/DatabaseEntityModel.kt:359-366 | a BYTE_ARRAY target fails; a result is the serializer's `deserialize` around the cursor call for the target kind |
| DatabaseEntityModelKt.FindSetterMethodFromParameter | compiler/src/main/java/net/daverix/slingerorm/compiler/DatabaseEntityModel.kt:327-333 | a setter must take exactly one parameter; the call passes the cursor value typed by that parameter |
| DatabaseEntityModelKt.FindSetterPrecedence | compiler/src/main/java/net/daverix/slingerorm/compiler/DatabaseEntityModel.kt:308-325 | write access prefers a `@SetField` method, then `set` + name, then an assignment to the accessible field, and fails otherwise |
| DatabaseEntityModelKt.Indexed | compiler/src/main/java/net/daverix/slingerorm/compiler/DatabaseEntityModel.kt:380-381 | each column is paired with its position, as `mapIndexed` supplies it |
| DatabaseEntityModelKt.GetSettersAligned | compiler/src/main/java/net/daverix/slingerorm/compiler/DatabaseEntityModel.kt:380-381 | one setter per column, in column order, the i-th reading cursor column i; fails iff some column has no setter |
| DatabaseEntityModelKt.GetGettersAligned | compiler/src/main/java/net/daverix/slingerorm/compiler/DatabaseEntityModel.kt:383-389 | one `"<column>", <getter>` pair per column, in column order |
| DatabaseEntityModelKt.KeyPredicates | compiler/src/main/java/net/daverix/slingerorm/compiler/DatabaseEntityModel.kt:391-397 | one `k = ?` predicate per key column, in order |
| DatabaseEntityModelKt.KeyPredicatesPlaceholders | compiler/src/main/java/net/daverix/slingerorm/compiler/DatabaseEntityModel.kt:391-397 | the joined predicates hold exactly one placeholder per key column when the names hold none |
| DatabaseEntityModelKt.ItemSqlPlaceholders | compiler/src/main/java/net/daverix/slingerorm/compiler/DatabaseEntityModel.kt:391-397 | the key clause of an entity holds exactly as many `?` as it has key columns |
| DatabaseEntityModelKt.ItemSqlArgsAligned | compiler/src/main/java/net/daverix/slingerorm/compiler/DatabaseEntityModel.kt:391-401 | the arguments line up with the predicates: one per key column, in the same order, each the key field's getter, wrapped in `String.valueOf` unless the field is a String |
| DatabaseEntityModelKt.GetImports | compiler/src/main/java/net/daverix/slingerorm/compiler/DatabaseEntityModel.kt:420-430 | the serializer interface first, then the field's class when its type is declared |
| DatabaseEntityModelKt.KindFieldTypeName | compiler/src/main/java/net/daverix/slingerorm/compiler/DatabaseEntityModel.kt:457-469 | the eight primitive kinds have a boxed name; any other kind is an IllegalStateException `<KIND> should never been reached, processor error?` |
| DatabaseEntityModelKt.FieldTypeNameDropsDeclaredArray | compiler/src/main/java/net/daverix/slingerorm/compiler/DatabaseEntityModel.kt:432-450 | an array of a declared type gets the same type name as the declared type itself |
| DatabaseEntityModelKt.SerializersNotDeduplicated | compiler/src/main/java/net/daverix/slingerorm/compiler/DatabaseEntityModel.kt:403-418 | one serializer per `@SerializeTo` column, in column order, with no de-duplication: two columns of one type and target give two equal entries |
| DatabaseEntityModelKt.SerializerOfDeterminedByType | compiler/src/main/java/net/daverix/slingerorm/compiler/DatabaseEntityModel.kt:403-418 | a serializer depends only on the field's type and its target |
| Decimal.NatToString | compiler/src/main/java/net/daverix/slingerorm/compiler/DatabaseEntityModel.kt:348-354 | the decimal text of a column index is a non-empty string of digits |
| Decimal.NatToStringRoundTrip | compiler/src/main/java/net/daverix/slingerorm/compiler/DatabaseEntityModel.kt:348-354 | reading the decimal text back gives the number |
| Decimal.NatToStringInjective | compiler/src/main/java/net/daverix/slingerorm/compiler/DatabaseEntityModel.kt:348-354 | distinct column indices render as distinct texts |
| CreateTableVisitor.ColumnInfoOf | compiler/src/main/java/net/daverix/slingerorm/compiler/CreateTableVisitor.kt:64-69 | a column's entry exists iff both its column name and its SQL type do; the name is resolved first, so its failure wins |
| CreateTableVisitor.ColumnMapKeys | compiler/src/main/java/net/daverix/slingerorm/compiler/CreateTableVisitor.kt:62-69 | the keys of both maps are exactly the member names of the columns |
| CreateTableVisitor.ColumnMapLookup | compiler/src/main/java/net/daverix/slingerorm/compiler/CreateTableVisitor.kt:62-69 | with distinct member names no `put` overwrites another: column i's entry is what the loop recorded for it |
| CreateTableVisitor.ColumnDefinitions | compiler/src/main/java/net/daverix/slingerorm/compiler/CreateTableVisitor.kt:77-96 | one definition per column, in column order, marked as a key by member name and as the only key when there is one key |
| CreateTableVisitor.KeyColumnNames | compiler/src/main/java/net/daverix/slingerorm/compiler/CreateTableVisitor.kt:98-99 | the column name of each key in key order, or `null` when no column has that member name |
| CreateTableVisitor.RecordColumns | compiler/src/main/java/net/daverix/slingerorm/compiler/CreateTableVisitor.kt:62-69 | the first loop fails with the first column whose name or type fails; otherwise it fills the two maps with every column's name and type under its member name |
| CreateTableVisitor.ColumnDefinition | compiler/src/main/java/net/daverix/slingerorm/compiler/CreateTableVisitor.kt:81-91 | one column's `<name> <TYPE>` with ` NOT NULL PRIMARY KEY` for the single key, ` NOT NULL` for a composite key member |
| CreateTableVisitor.AppendColumns | compiler/src/main/java/net/daverix/slingerorm/compiler/CreateTableVisitor.kt:77-96 | the second loop appends the definitions separated by `", "`, none after the last |
| CreateTableVisitor.TerminatedStep | compiler/src/main/java/net/daverix/slingerorm/compiler/CreateTableVisitor.kt:93-95 | a separator follows each part except the last, so the loop's text is the joined list |
| CreateTableVisitor.ColumnMapDefinitions | compiler/src/main/java/net/daverix/slingerorm/compiler/CreateTableVisitor.kt:77-91 | each definition can be read off the two maps under the column's member name |
| CreateTableVisitor.AssembleCreateTable | compiler/src/main/java/net/daverix/slingerorm/compiler/CreateTableVisitor.kt:76-108 | the resolved parts become `CreateTableText`: definitions, composite key clause and closing parenthesis |
| CreateTableVisitor.CreateTableSql | compiler/src/main/java/net/daverix/slingerorm/compiler/CreateTableVisitor.kt:53-109 | `createTableSql` returns what `CreateTableSqlOf` specifies, evaluating columns, table name, names and types, then keys |
| CreateTableVisitor.CreateTableSqlErrors | compiler/src/main/java/net/daverix/slingerorm/compiler/CreateTableVisitor.kt:53-109 | an entity without columns is rejected; a statement exists iff there are columns, a table name, a name and type for every column and a non-empty key set |
| CreateTableVisitor.CreateTableSqlParts | compiler/src/main/java/net/daverix/slingerorm/compiler/CreateTableVisitor.kt:53-109 | a successful statement is the text built from the table name, each column's own name and SQL type, and the key names |
| CreateTableVisitor.CreateTableTextLayout | compiler/src/main/java/net/daverix/slingerorm/compiler/CreateTableVisitor.kt:60-106 | the text starts `CREATE TABLE IF NOT EXISTS <table>(`, continues with the definitions joined by `", "` and ends with `)` |
| CreateTableVisitor.CreateTableTextColumns | compiler/src/main/java/net/daverix/slingerorm/compiler/CreateTableVisitor.kt:77-96 | definition i is column i's own column name and SQL type followed by its key suffix |
| CreateTableVisitor.CreateTableTextKeys | compiler/src/main/java/net/daverix/slingerorm/compiler/CreateTableVisitor.kt:85-104 | a single key is marked `NOT NULL PRIMARY KEY` inline with no clause; several keys are marked `NOT NULL` and listed by column name in a `PRIMARY KEY(...)` clause; a key naming no column is rendered `null` |
| CreateTableVisitor.CreateTableEntity | compiler/src/main/java/net/daverix/slingerorm/compiler/CreateTableVisitor.kt:44-51 | only a method carrying `@CreateTable` yields an entity |
| CreateTableVisitor.ExecMethods | compiler/src/main/java/net/daverix/slingerorm/compiler/CreateTableVisitor.kt:29-35 | one overriding method per `@CreateTable` method, in order |
| CreateTableVisitor.SqlFieldOfMeaning | compiler/src/main/java/net/daverix/slingerorm/compiler/CreateTableVisitor.kt:38-42 | a constant exists exactly when the entity's statement does; it is named after the entity and initialised with that statement |
| CreateTableVisitor.VisitResultFields | compiler/src/main/java/net/daverix/slingerorm/compiler/CreateTableVisitor.kt:16-27 | one constant per distinct entity of the `@CreateTable` methods, in first-use order, each holding that entity's statement |
| CreateTableVisitor.ConstantsCover | compiler/src/main/java/net/daverix/slingerorm/compiler/CreateTableVisitor.kt:21-33 | every entity a method uses has a constant, so the `fieldNames[entity]` lookup never yields null |
| CreateTableVisitor.VisitResultMethods | compiler/src/main/java/net/daverix/slingerorm/compiler/CreateTableVisitor.kt:29-35 | method i overrides `@CreateTable` method i and executes the constant of its entity, which exists |
| CreateTableVisitor.CreateTableVisitor.constructor | compiler/src/main/java/net/daverix/slingerorm/compiler/CreateTableVisitor.kt:13-15 | the visitor holds the storage interface and the shared entity models |
| CreateTableVisitor.CreateTableVisitor.CreateSqlField | compiler/src/main/java/net/daverix/slingerorm/compiler/CreateTableVisitor.kt:38-42 | builds the constant `SqlFieldOf` specifies for the entity, through the shared model map, which stays valid |
| CreateTableVisitor.CreateTableVisitor.CreateSqlFields | compiler/src/main/java/net/daverix/slingerorm/compiler/CreateTableVisitor.kt:27 | builds the constants of the distinct entities in order, stopping at the first failing statement |
| CreateTableVisitor.CreateTableVisitor.Visit | compiler/src/main/java/net/daverix/slingerorm/compiler/CreateTableVisitor.kt:16-36 | on success the builder gains exactly the constants and methods of `VisitResult`; on failure it is left unchanged |
| CreateTableVisitor.SimpleEntityColumns | android/src/test/java/net/daverix/slingerorm/android/test/mapping/SimpleEntityMappingTest.java:99 | the sample entity's columns are `id`, `message` and `Length`, in order |
| CreateTableVisitor.SimpleEntityKeys | compiler/src/main/java/net/daverix/slingerorm/compiler/DatabaseEntityModel.kt:66-99 | the sample entity (`id` marked `@PrimaryKey`, default annotation keys) has the key names `id`, `message` and `Length`: the marker makes every column a key |
| CreateTableVisitor.SimpleEntityInfos | android/src/test/java/net/daverix/slingerorm/android/test/mapping/SimpleEntityMappingTest.java:99 | the sample's columns are `id TEXT`, `message TEXT` and `Length INTEGER` |
| CreateTableVisitor.SimpleEntityDefinitions | compiler/src/main/java/net/daverix/slingerorm/compiler/CreateTableVisitor.kt:77-97 | with `id` the only key, the sample's definitions are `id TEXT NOT NULL PRIMARY KEY`, `message TEXT` and `Length INTEGER` |
| CreateTableVisitor.SimpleEntityCreateTableSql | compiler/src/main/java/net/daverix/slingerorm/compiler/CreateTableVisitor.kt:53-109 | the sample's statement makes every column `NOT NULL` and adds `PRIMARY KEY(id,message,Length)`, not the inline key on `id` the repository's mapping test expects |
| CreateTableVisitor.SimpleEntityText | android/src/test/java/net/daverix/slingerorm/android/test/mapping/SimpleEntityMappingTest.java:99 | with `id` as the only key, the sample's statement is `CREATE TABLE IF NOT EXISTS SimpleEntity(id TEXT NOT NULL PRIMARY KEY, message TEXT, Length INTEGER)`, the text the mapping test expects |
| CreateTableVisitor.SimpleEntityItemSql | compiler/src/main/java/net/daverix/slingerorm/compiler/DatabaseEntityModel.kt:391-397 | the sample's single-item predicate is `id = ? AND message = ? AND Length = ?`, one condition per column |
| SelectVisitor.QueryHead | compiler/src/main/java/net/daverix/slingerorm/compiler/SelectVisitor.kt:48-52 | the opening of `db.query(false, table, new String[] { columns },` is five flat code lines |
| SelectVisitor.SetterStatements | compiler/src/main/java/net/daverix/slingerorm/compiler/SelectVisitor.kt:78-84 | one `entity.<setter>` statement per setter, in setter order |
| SelectVisitor.ReadFirst | compiler/src/main/java/net/daverix/slingerorm/compiler/SelectVisitor.kt:63-70 | the single-row block opens and closes its `if`/`else` and holds every setter statement |
| SelectVisitor.ReadAll | compiler/src/main/java/net/daverix/slingerorm/compiler/SelectVisitor.kt:142-153 | the all-rows block opens and closes its `while` loop and holds every setter statement |
| SelectVisitor.SetterStatementsIn | compiler/src/main/java/net/daverix/slingerorm/compiler/SelectVisitor.kt:78-84 | every setter statement is present in a read block built around the setter list |
| SelectVisitor.WithCursor | compiler/src/main/java/net/daverix/slingerorm/compiler/SelectVisitor.kt:63-73 | the query head is followed by the read block inside `try`/`finally { cursor.close() }`; the result stays balanced and keeps every statement of the block |
| SelectVisitor.SelectionArgs | compiler/src/main/java/net/daverix/slingerorm/compiler/SelectVisitor.kt:125-131 | `null` exactly when the method has no parameters, otherwise the parameters' array |
| SelectVisitor.KeyQuery | compiler/src/main/java/net/daverix/slingerorm/compiler/SelectVisitor.kt:48-61 | a single select's query starts with the query head and is balanced |
| SelectVisitor.ClauseArguments | compiler/src/main/java/net/daverix/slingerorm/compiler/SelectVisitor.kt:110-135 | the `@Where`, selection-argument, `@OrderBy` and `@Limit` arguments are each quoted, or `null` when the annotation is absent, in that order |
| SelectVisitor.ClauseQuery | compiler/src/main/java/net/daverix/slingerorm/compiler/SelectVisitor.kt:119-140 | a collection select's query starts with the query head, continues with the where clause and the selection arguments, and holds the order and limit arguments |
| SelectVisitor.SelectReturnTypes | compiler/src/main/java/net/daverix/slingerorm/compiler/SelectVisitor.kt:23-39 | a select method succeeds only for a `List`/`Collection`/`Iterable` of a declared type or for an entity; every array return fails with "Returned array must contain a type that is annotated with @DatabaseEntity", and any other kind of return type is rejected |
| SelectVisitor.SelectSingleLayout | compiler/src/main/java/net/daverix/slingerorm/compiler/SelectVisitor.kt:41-75 | a single select queries the entity's table and columns, reads each column i through its setter from cursor column i, and closes every block it opens |
| SelectVisitor.SelectManyLayout | compiler/src/main/java/net/daverix/slingerorm/compiler/SelectVisitor.kt:96-159 | a collection select queries the table and columns with the where clause, `null` arguments exactly for a parameterless method, order and limit, reads every column of every row, and closes every block |
| SelectVisitor.SelectArrayAsWrittenRejects | compiler/src/main/java/net/daverix/slingerorm/compiler/SelectVisitor.kt:161-168 | as written, every array return is rejected, an array of entities included |
| SelectVisitor.SelectArrayAccepts | compiler/src/main/java/net/daverix/slingerorm/compiler/SelectVisitor.kt:161-176 | checking the array's own component, an array of entities is accepted with a `return null;` body and anything else is rejected; the two versions differ on every array of entities |
| SelectVisitor.SelectVisitor.constructor | compiler/src/main/java/net/daverix/slingerorm/compiler/SelectVisitor.kt:19-21 | the visitor holds the storage interface, the shared entity models and the parameter rendering |
| SelectVisitor.SelectVisitor.CreateSelectMethod | compiler/src/main/java/net/daverix/slingerorm/compiler/SelectVisitor.kt:28-33 | builds the method `SelectMethodOf` specifies, through the shared model map, which stays valid |
| SelectVisitor.SelectVisitor.CreateSelectMethods | compiler/src/main/java/net/daverix/slingerorm/compiler/SelectVisitor.kt:28-34 | builds the methods of the `@Select` methods in order, stopping at the first failure |
| SelectVisitor.SelectVisitor.Visit | compiler/src/main/java/net/daverix/slingerorm/compiler/SelectVisitor.kt:23-35 | on success the builder gains exactly the methods of `VisitResult`; its fields never change; on failure nothing changes |
| DeleteVisitor.DeleteReturnTypes | compiler/src/main/java/net/daverix/slingerorm/compiler/DeleteVisitor.kt:20-58 | a delete method must return `void` or `int` (`int` returns the count); a named entity gives the by-keys body, `Object` the entity-parameter body |
| DeleteVisitor.DeleteByKeysLayout | compiler/src/main/java/net/daverix/slingerorm/compiler/DeleteVisitor.kt:30-39 | a by-keys delete takes one parameter per key and emits `db.delete(table, itemSql, new String[] {`, the parameters' array and the closing brace, with no control flow |
| DeleteVisitor.DeleteByKeysMismatch | compiler/src/main/java/net/daverix/slingerorm/compiler/DeleteVisitor.kt:32-33 | a key count that differs from the parameter count is rejected, naming the keys and the table |
| DeleteVisitor.DeleteByKeysPlaceholders | compiler/src/main/java/net/daverix/slingerorm/compiler/DeleteVisitor.kt:30-39 | the key clause holds one `?` per key field and the method takes one parameter per key name |
| DeleteVisitor.DeleteEntityLayout | compiler/src/main/java/net/daverix/slingerorm/compiler/DeleteVisitor.kt:40-56 | an entity-parameter delete needs a declared first parameter (the only one when it is an entity), null-checks it and passes one item-argument per `?` of the key clause |
| DeleteVisitor.DeleteVisitor.constructor | compiler/src/main/java/net/daverix/slingerorm/compiler/DeleteVisitor.kt:11-14 | the visitor holds the storage interface, the shared entity models and the parameter rendering |
| DeleteVisitor.DeleteVisitor.CreateDeleteMethod | compiler/src/main/java/net/daverix/slingerorm/compiler/DeleteVisitor.kt:20-57 | builds the method `DeleteMethodOf` specifies, through the shared model map, which stays valid |
| DeleteVisitor.DeleteVisitor.CreateDeleteMethods | compiler/src/main/java/net/daverix/slingerorm/compiler/DeleteVisitor.kt:20-58 | builds the methods of the `@Delete` methods in order, stopping at the first failure |
| DeleteVisitor.DeleteVisitor.Visit | compiler/src/main/java/net/daverix/slingerorm/compiler/DeleteVisitor.kt:15-59 | on success the builder gains exactly the methods of `VisitResult`; its fields never change; on failure nothing changes |
| InsertVisitor.InsertBodyLayout | compiler/src/main/java/net/daverix/slingerorm/compiler/InsertVisitor.kt:31-48 | an insert null-checks the parameter, declares the values, puts one `"<column>", <getter>` pair per column in column order, inserts into the entity's table, and closes every block |
| InsertVisitor.InsertAcceptsAsProcessor | compiler/src/main/java/net/daverix/slingerorm/compiler/InsertVisitor.kt:18-27 | the visitor accepts exactly the insert signatures the storage processor accepts: one parameter whose class is an entity |
| InsertVisitor.InsertVisitor.constructor | compiler/src/main/java/net/daverix/slingerorm/compiler/InsertVisitor.kt:10-11 | the visitor holds the storage interface and the shared entity models |
| InsertVisitor.InsertVisitor.CreateInsertMethod | compiler/src/main/java/net/daverix/slingerorm/compiler/InsertVisitor.kt:17-49 | builds the method `InsertMethodOf` specifies, through the shared model map, which stays valid |
| InsertVisitor.InsertVisitor.CreateInsertMethods | compiler/src/main/java/net/daverix/slingerorm/compiler/InsertVisitor.kt:17-50 | builds the methods of the `@Insert` methods in order, stopping at the first failure |
| InsertVisitor.InsertVisitor.Visit | compiler/src/main/java/net/daverix/slingerorm/compiler/InsertVisitor.kt:12-51 | on success the builder gains exactly the methods of `VisitResult`; its fields never change; on failure nothing changes |
| UpdateVisitor.UpdateBodyLayout | compiler/src/main/java/net/daverix/slingerorm/compiler/UpdateVisitor.kt:31-48 | an update null-checks the parameter, declares the values, puts one `"<column>", <getter>` pair per column in column order, then calls `db.update` on the entity's table with the key clause and key arguments, and closes every block |
| UpdateVisitor.UpdatePlaceholdersBound | compiler/src/main/java/net/daverix/slingerorm/compiler/UpdateVisitor.kt:45-47 | the key clause holds exactly one `?` per key argument passed to `db.update` |
| UpdateVisitor.UpdateStricterThanProcessor | compiler/src/main/java/net/daverix/slingerorm/compiler/UpdateVisitor.kt:18-19 | an update method with parameters after the entity is rejected here although the storage processor accepts it |
| UpdateVisitor.UpdateVisitor.constructor | compiler/src/main/java/net/daverix/slingerorm/compiler/UpdateVisitor.kt:10-11 | the visitor holds the storage interface and the shared entity models |
| UpdateVisitor.UpdateVisitor.CreateUpdateMethod | compiler/src/main/java/net/daverix/slingerorm/compiler/UpdateVisitor.kt:17-49 | builds the method `UpdateMethodOf` specifies, through the shared model map, which stays valid |
| UpdateVisitor.UpdateVisitor.CreateUpdateMethods | compiler/src/main/java/net/daverix/slingerorm/compiler/UpdateVisitor.kt:17-50 | builds the methods of the `@Update` methods in order, stopping at the first failure |
| UpdateVisitor.UpdateVisitor.Visit | compiler/src/main/java/net/daverix/slingerorm/compiler/UpdateVisitor.kt:12-51 | on success the builder gains exactly the methods of `VisitResult`; its fields never change; on failure nothing changes |
| ReplaceVisitor.ReplaceBodyLayout | compiler/src/main/java/net/daverix/slingerorm/compiler/ReplaceVisitor.kt:30-40 | a replace null-checks the parameter in one statement, opens `db.edit` on the entity's table, puts one pair per column in column order, and ends with `.replace();`, with no control flow |
| ReplaceVisitor.ReplaceAcceptsAsInsert | compiler/src/main/java/net/daverix/slingerorm/compiler/ReplaceVisitor.kt:17-28 | a replace method is accepted exactly when the same method would be accepted as an insert |
| ReplaceVisitor.ReplaceVisitor.constructor | compiler/src/main/java/net/daverix/slingerorm/compiler/ReplaceVisitor.kt:9-10 | the visitor holds the storage interface and the shared entity models |
| ReplaceVisitor.ReplaceVisitor.CreateReplaceMethod | compiler/src/main/java/net/daverix/slingerorm/compiler/ReplaceVisitor.kt:16-40 | builds the method `ReplaceMethodOf` specifies, through the shared model map, which stays valid |
| ReplaceVisitor.ReplaceVisitor.CreateReplaceMethods | compiler/src/main/java/net/daverix/slingerorm/compiler/ReplaceVisitor.kt:16-41 | builds the methods of the `@Replace` methods in order, stopping at the first failure |
| ReplaceVisitor.ReplaceVisitor.Visit | compiler/src/main/java/net/daverix/slingerorm/compiler/ReplaceVisitor.kt:11-42 | on success the builder gains exactly the methods of `VisitResult`; its fields never change; on failure nothing changes |
| StorageBuilder.DatabaseStorageBuilder.constructor | compiler/src/main/java/net/daverix/slingerorm/compiler/DatabaseStorageProcessor.kt:66-74 | a fresh storage builder holds no constants and no methods |
| StorageBuilder.DatabaseStorageBuilder.AddFields | compiler/src/main/java/net/daverix/slingerorm/compiler/CreateTableVisitor.kt:27 | `fields +=` appends the constants and leaves the methods alone |
| StorageBuilder.DatabaseStorageBuilder.AddMethods | compiler/src/main/java/net/daverix/slingerorm/compiler/SelectVisitor.kt:28-34 | `methods +=` appends the methods and leaves the constants alone |
| StorageBuilder.AnnotatedMethods | compiler/src/main/java/net/daverix/slingerorm/compiler/SelectVisitor.kt:24-26 | a member is selected iff the interface declares it, it is a method and it carries the annotation; declaration order is kept |
| StorageBuilder.TryFinallyBalanced | compiler/src/main/java/net/daverix/slingerorm/compiler/MethodSpecExtensions.kt:14-21 | `tryFinally` around two blocks balanced inside it opens exactly as many blocks as it closes |
| StorageBuilder.VariableArrayCode | compiler/src/main/java/net/daverix/slingerorm/compiler/MethodSpecExtensions.kt:23-33 | the parameter array is flat code with no control flow |
| StorageBuilder.VariableArrayCodeLayout | compiler/src/main/java/net/daverix/slingerorm/compiler/MethodSpecExtensions.kt:23-33 | parameter i is rendered at position 3i, followed by a comma unless it is the last, then a line break: 3n - 1 calls for n parameters |
| StorageBuilder.EntityParameter | compiler/src/main/java/net/daverix/slingerorm/compiler/InsertVisitor.kt:18-27 | accepted iff the method has exactly one parameter whose class carries `@DatabaseEntity`; the result is that class; every rejection is an InvalidElementException, a type that is not declared included, as `asElement()` rejects it |
| StorageBuilder.NullCheckBlock | compiler/src/main/java/net/daverix/slingerorm/compiler/InsertVisitor.kt:33-37 | the null check opens and closes its block |
| StorageBuilder.ValuesBody | compiler/src/main/java/net/daverix/slingerorm/compiler/InsertVisitor.kt:33-47 | the null check, the `ContentValues` declaration, one `values.put` per getter in order, then the closing call; balanced when the closing call is plain code |
| StorageBuilder.PutLines | compiler/src/main/java/net/daverix/slingerorm/compiler/InsertVisitor.kt:41-43 | one put line per getter, in order: `values.put(<getter>);` in the insert and update bodies, `  .put(<getter>)` in the replace chain |
| DatabaseStorageProcessorKt.CheckUniqueAnnotation | compiler/src/main/java/net/daverix/slingerorm/compiler/DatabaseStorageProcessor.kt:507-513 | fails with InvalidElementException iff the other annotation differs from the method's own and is present |
| DatabaseStorageProcessorKt.CheckUniqueAmong | compiler/src/main/java/net/daverix/slingerorm/compiler/DatabaseStorageProcessor.kt:498-505 | the checks in sequence pass iff none of the listed annotations other than the method's own is present |
| DatabaseStorageProcessorKt.CheckUniqueAnnotations | compiler/src/main/java/net/daverix/slingerorm/compiler/DatabaseStorageProcessor.kt:498-505 | passes iff none of Inject, Replace, Update, Delete, Select and CreateTable other than the method's own accompanies it; `@Insert` is not checked |
| DatabaseStorageProcessorKt.UniqueFacts | compiler/src/main/java/net/daverix/slingerorm/compiler/DatabaseStorageProcessor.kt:498-505 | after the check passes, each of the six checked annotations other than the method's own is absent |
| DatabaseStorageProcessorKt.CheckHasVoidReturnType | compiler/src/main/java/net/daverix/slingerorm/compiler/DatabaseStorageProcessor.kt:471-475 | passes iff the method returns `void` |
| DatabaseStorageProcessorKt.CheckHasOneParameter | compiler/src/main/java/net/daverix/slingerorm/compiler/DatabaseStorageProcessor.kt:477-481 | passes iff the method has exactly one parameter |
| DatabaseStorageProcessorKt.CheckFirstParameterMustBeDatabaseEntity | compiler/src/main/java/net/daverix/slingerorm/compiler/DatabaseStorageProcessor.kt:483-495 | passes iff there is a first parameter whose declared class carries `@DatabaseEntity` |
| DatabaseStorageProcessorKt.FirstParameterEntity | compiler/src/main/java/net/daverix/slingerorm/compiler/DatabaseStorageProcessor.kt:466-469 | the class of the first parameter; no parameter or a non-declared type fails |
| DatabaseStorageProcessorKt.DeleteTarget | compiler/src/main/java/net/daverix/slingerorm/compiler/DatabaseStorageProcessor.kt:519-527 | a target exists only for a `@Delete` whose value is a declared class, and is that class |
| DatabaseStorageProcessorKt.ClauseOf | compiler/src/main/java/net/daverix/slingerorm/compiler/DatabaseStorageProcessor.kt:179-184 | a clause value exists iff its annotation is present |
| DatabaseStorageProcessorKt.ToMapperVariableName | compiler/src/main/java/net/daverix/slingerorm/compiler/DatabaseStorageProcessor.kt:172-173 | fails iff the simple name is empty; otherwise the simple name with its first character lower-cased, followed by `Mapper` |
| DatabaseStorageProcessorKt.WhereArg | compiler/src/main/java/net/daverix/slingerorm/compiler/DatabaseStorageProcessor.kt:444-449 | a String parameter is passed by name, a boolean as `"1"`/`"0"`, anything else through `String.valueOf` |
| DatabaseStorageProcessorKt.WhereArgs | compiler/src/main/java/net/daverix/slingerorm/compiler/DatabaseStorageProcessor.kt:444-450 | one argument per parameter, in parameter order |
| DatabaseStorageProcessorKt.GetWhereArgsShape | compiler/src/main/java/net/daverix/slingerorm/compiler/DatabaseStorageProcessor.kt:443-457 | no parameter gives `null`; named parameters give `new String[]{...}` holding each parameter's argument, in order |
| DatabaseStorageProcessorKt.GetWhereArgsOneString | compiler/src/main/java/net/daverix/slingerorm/compiler/DatabaseStorageProcessor.kt:443-457 | a single String parameter gives an array of its bare name |
| DatabaseStorageProcessorKt.ChangeMapperOf | compiler/src/main/java/net/daverix/slingerorm/compiler/DatabaseStorageProcessor.kt:363-435 | insert, replace and update succeed iff the uniqueness check passes, the first parameter is an entity (the only one for insert and replace) with a non-empty name; the mapper is that entity's |
| DatabaseStorageProcessorKt.InsertPlanOf | compiler/src/main/java/net/daverix/slingerorm/compiler/DatabaseStorageProcessor.kt:412-435 | an insert is accepted exactly under the shared checks with one parameter, and names the entity's mapper, the parameter and whether the result is returned |
| DatabaseStorageProcessorKt.ReplacePlanOf | compiler/src/main/java/net/daverix/slingerorm/compiler/DatabaseStorageProcessor.kt:387-410 | a replace is accepted exactly under the shared checks with one parameter, and names the entity's mapper, the parameter and whether the result is returned |
| DatabaseStorageProcessorKt.UpdatePlanOf | compiler/src/main/java/net/daverix/slingerorm/compiler/DatabaseStorageProcessor.kt:362-385 | an update is accepted under the shared checks without a parameter count check, and names the entity's mapper, the parameter and whether the result is returned |
| DatabaseStorageProcessorKt.DeletePlanOf | compiler/src/main/java/net/daverix/slingerorm/compiler/DatabaseStorageProcessor.kt:286-360 | a delete returns `int` or `void`; without `@Where` it deletes its entity parameter; with `@Where` it needs a target other than `Object` and a clause with one `?` per parameter |
| DatabaseStorageProcessorKt.SelectPlanOf | compiler/src/main/java/net/daverix/slingerorm/compiler/DatabaseStorageProcessor.kt:175-225 | a select needs a declared return type and a `@Where` with one `?` per parameter; an entity return selects one row by the clause or else by the entity's key; a `List`/`Collection`/`Iterable` return selects many rows of its first type argument; a placeholder mismatch fails, with an IllegalFormatException exactly when the `@Where` text, spliced into the `String.format` pattern, holds a conversion, and otherwise with the InvalidElementException quoting the formatted text, which is the text itself when it holds no `%` |
| DatabaseStorageProcessorKt.FormatEmbedded | compiler/src/main/java/net/daverix/slingerorm/compiler/DatabaseStorageProcessor.kt:195-197 | `String.format` leaves text without `%` unchanged; a successful formatting of text with `%` is shorter than the text |
| DatabaseStorageProcessorKt.FormatEmbeddedEscape | compiler/src/main/java/net/daverix/slingerorm/compiler/DatabaseStorageProcessor.kt:195-197 | formatting a text whose every `%` is doubled gives back the text |
| DatabaseStorageProcessorKt.FormatEmbeddedConversion | compiler/src/main/java/net/daverix/slingerorm/compiler/DatabaseStorageProcessor.kt:195-197 | a `%` followed by neither `%` nor `n`, after text without `%`, makes the formatter throw, as `%x` does in the `LIKE` pattern `'%x%'` |
| DatabaseStorageProcessorKt.FormatEmbeddedEscapedPercent | compiler/src/main/java/net/daverix/slingerorm/compiler/DatabaseStorageProcessor.kt:195-197 | the `@Where` text `rate = 100%%` is formatted as `rate = 100%` |
| DatabaseStorageProcessorKt.SelectByReturnType | compiler/src/main/java/net/daverix/slingerorm/compiler/DatabaseStorageProcessor.kt:204-224 | the entity check comes before the collection check; the single-row query defaults to the entity's key clause; the many-row query keeps where, order and limit |
| DatabaseStorageProcessorKt.CreateTablePlanOf | compiler/src/main/java/net/daverix/slingerorm/compiler/DatabaseStorageProcessor.kt:158-170 | a create-table method must be `void`, is unique among the storage annotations, and names the mapper of its annotation's entity |
| DatabaseStorageProcessorKt.CreateMapperInfo | compiler/src/main/java/net/daverix/slingerorm/compiler/DatabaseStorageProcessor.kt:126-138 | the mapper describes the entity it was made for |
| DatabaseStorageProcessorKt.MappersOfEntities | compiler/src/main/java/net/daverix/slingerorm/compiler/DatabaseStorageProcessor.kt:83-90 | one mapper per distinct qualified name, covering every entity, never more than the entities |
| DatabaseStorageProcessorKt.GetMappersProperties | compiler/src/main/java/net/daverix/slingerorm/compiler/DatabaseStorageProcessor.kt:83-90 | no two mappers map classes of one qualified name, every method's entity has a mapper, and there are never more mappers than methods |
| DatabaseStorageProcessorKt.MapperEntities | compiler/src/main/java/net/daverix/slingerorm/compiler/DatabaseStorageProcessor.kt:89 | the mappers of a list of entities map those entities, in order |
| DatabaseStorageProcessorKt.PlanClass | compiler/src/main/java/net/daverix/slingerorm/compiler/DatabaseStorageProcessor.kt:146-156 | every plan implements one of the six storage annotations |
| DatabaseStorageProcessorKt.StoragePlanExclusive | compiler/src/main/java/net/daverix/slingerorm/compiler/DatabaseStorageProcessor.kt:145-156 | an accepted method carries the annotation it was dispatched on and no other storage annotation, and no `@Inject` |
| DatabaseStorageProcessorKt.OnlyStorageAnnotation | compiler/src/main/java/net/daverix/slingerorm/compiler/DatabaseStorageProcessor.kt:498-513 | a method passing its uniqueness check (and without `@Insert` unless it is an insert) carries no other storage annotation |
| DatabaseStorageProcessorKt.Dispatch | compiler/src/main/java/net/daverix/slingerorm/compiler/DatabaseStorageProcessor.kt:145-156 | the method goes to the first of Insert, Replace, Update, Delete, Select and CreateTable that it carries |
| DatabaseStorageProcessorKt.DispatchedUnique | compiler/src/main/java/net/daverix/slingerorm/compiler/DatabaseStorageProcessor.kt:145-156 | the dispatched method passed its own uniqueness check, carries its annotation, and carries no `@Insert` unless it is an insert |
| DatabaseStorageProcessorKt.NotAStorageMethod | compiler/src/main/java/net/daverix/slingerorm/compiler/DatabaseStorageProcessor.kt:154 | a method with none of the six annotations is rejected |
| DatabaseStorageProcessorKt.ChangePlanProperties | compiler/src/main/java/net/daverix/slingerorm/compiler/DatabaseStorageProcessor.kt:362-435 | an accepted insert, replace or update has an entity first parameter (the only one for insert and replace), uses its mapper, and returns the call's result iff it is not void |
| DatabaseStorageProcessorKt.SelectSingleTryBalanced | compiler/src/main/java/net/daverix/slingerorm/compiler/DatabaseStorageProcessor.kt:243-250 | the try block of a single-row query closes the `if` it opens |
| DatabaseStorageProcessorKt.SelectSingleBodyBalanced | compiler/src/main/java/net/daverix/slingerorm/compiler/DatabaseStorageProcessor.kt:227-255 | the single-row select body closes every block it opens |
| DatabaseStorageProcessorKt.SelectManyBodyBalanced | compiler/src/main/java/net/daverix/slingerorm/compiler/DatabaseStorageProcessor.kt:257-284 | the many-row select body closes every block it opens |
| DatabaseStorageProcessorKt.MethodBodyBalanced | compiler/src/main/java/net/daverix/slingerorm/compiler/DatabaseStorageProcessor.kt:146-435 | every generated storage method body closes each block it opens |
| DatabaseStorageProcessorJava.FieldsUsedInDatabaseProperties | compiler/src/main/java/net/daverix/slingerorm/compiler/DatabaseStorageProcessor.java:814-840 | the columns are exactly the member fields that are neither static, transient nor `@NotDatabaseField`, kept in member order, with distinct names |
| DatabaseStorageProcessorJava.GetPrimaryKeyFieldUsingDatabaseEntity | compiler/src/main/java/net/daverix/slingerorm/compiler/DatabaseStorageProcessor.java:387-401 | without `@DatabaseEntity` it fails; an empty `primaryKey` gives no field; otherwise it succeeds iff a column has that name, and gives the first such column |
| DatabaseStorageProcessorJava.GetPrimaryKeyField | compiler/src/main/java/net/daverix/slingerorm/compiler/DatabaseStorageProcessor.java:361-385 | the first `@PrimaryKey` column wins; without one the column named by `primaryKey` is used, and failing both is an error |
| DatabaseStorageProcessorJava.PrimaryKeyFieldProperties | compiler/src/main/java/net/daverix/slingerorm/compiler/DatabaseStorageProcessor.java:361-401 | the key field is a column; if marked it is the first marked column, otherwise no column is marked and its name is the non-empty `primaryKey` |
| DatabaseStorageProcessorJava.GetPrimaryKeyDbName | compiler/src/main/java/net/daverix/slingerorm/compiler/DatabaseStorageProcessor.java:355-359 | succeeds iff a key field exists and has a column name, and is that column name |
| DatabaseStorageProcessorJava.GetObjectTypeForElement | compiler/src/main/java/net/daverix/slingerorm/compiler/DatabaseStorageProcessor.java:580-610 | a declared `String` is a string object, any other declared type a custom object, and an unknown kind fails with the "not known by Slinger" message |
| DatabaseStorageProcessorJava.ObjectTypeAgreesWithKotlin | compiler/src/main/java/net/daverix/slingerorm/compiler/DatabaseStorageProcessor.java:580-610 | applied to a field's own kind, the classification succeeds and fails exactly when the Kotlin one does and gives the same answer |
| DatabaseStorageProcessorJava.FindDirectGetterPrecedence | compiler/src/main/java/net/daverix/slingerorm/compiler/DatabaseStorageProcessor.java:452-507 | an annotated getter wins, then the `is`/`get` accessor of the field's name, then the field itself when it is accessible; otherwise it fails |
| DatabaseStorageProcessorJava.ParameterMatches | compiler/src/main/java/net/daverix/slingerorm/compiler/DatabaseStorageProcessor.java:553-577 | a serializer method is valid iff it has exactly one parameter, and matches iff that parameter's class is the field's class |
| DatabaseStorageProcessorJava.MethodsMatchingParameter | compiler/src/main/java/net/daverix/slingerorm/compiler/DatabaseStorageProcessor.java:540-578 | matching is only done for a field of a custom class |
| DatabaseStorageProcessorJava.MethodsMatchingParameterMeaning | compiler/src/main/java/net/daverix/slingerorm/compiler/DatabaseStorageProcessor.java:529-578 | it succeeds iff every method has one parameter, and keeps in order exactly the methods whose parameter is the field's class |
| DatabaseStorageProcessorJava.FindGetterInSerializer | compiler/src/main/java/net/daverix/slingerorm/compiler/DatabaseStorageProcessor.java:509-527 | the getter is the one `@SerializeType` method taking the field's class applied to the field's direct getter; none or several is an error |
| DatabaseStorageProcessorJava.SerializeMethodUnique | compiler/src/main/java/net/daverix/slingerorm/compiler/DatabaseStorageProcessor.java:509-538 | the method used is a `@SerializeType` method of the serializer taking the field's class, and the only such method |
| DatabaseStorageProcessorJava.FindGetter | compiler/src/main/java/net/daverix/slingerorm/compiler/DatabaseStorageProcessor.java:428-450 | primitives and strings are read directly, custom classes through the serializer, and any other kind fails |
| DatabaseStorageProcessorJava.GetterEntryMeaning | compiler/src/main/java/net/daverix/slingerorm/compiler/DatabaseStorageProcessor.java:415-426 | one pass puts the field's getter under its column name, and fails iff either of them fails |
| DatabaseStorageProcessorJava.PutGetter | compiler/src/main/java/net/daverix/slingerorm/compiler/DatabaseStorageProcessor.java:420-424 | one pass of the loop computes the entry for the field |
| DatabaseStorageProcessorJava.GetFieldMethodGetter | compiler/src/main/java/net/daverix/slingerorm/compiler/DatabaseStorageProcessor.java:415-426 | the loop builds the getter map of the entity's columns |
| DatabaseStorageProcessorJava.GetterMapProperties | compiler/src/main/java/net/daverix/slingerorm/compiler/DatabaseStorageProcessor.java:415-426 | the map succeeds iff every field has a column name and a getter; its keys are exactly the column names, and the last field with a name supplies its getter |
| DatabaseStorageProcessorJava.GetNativeTypeForDatabase | compiler/src/main/java/net/daverix/slingerorm/compiler/DatabaseStorageProcessor.java:770-798 | INTEGER exactly for boolean, short, long and int; REAL exactly for float and double; TEXT exactly for String; custom classes and other kinds fail with their own messages |
| DatabaseStorageProcessorJava.GetMethodsWithReturnElement | compiler/src/main/java/net/daverix/slingerorm/compiler/DatabaseStorageProcessor.java:741-768 | defined only for a declared type, and keeps exactly the methods returning the field's class |
| DatabaseStorageProcessorJava.GetMethodMatchingReturnType | compiler/src/main/java/net/daverix/slingerorm/compiler/DatabaseStorageProcessor.java:724-739 | succeeds only when exactly one method returns the field's class, and gives that method |
| DatabaseStorageProcessorJava.GetDatabaseTypeFromMethodParameterInSerializer | compiler/src/main/java/net/daverix/slingerorm/compiler/DatabaseStorageProcessor.java:681-705 | the column type is the native type of the single parameter of the one method returning the field's class |
| DatabaseStorageProcessorJava.GetDatabaseType | compiler/src/main/java/net/daverix/slingerorm/compiler/DatabaseStorageProcessor.java:651-679 | native values and strings use their own SQL type, custom classes the serializer's deserialize method, and any other kind fails |
| DatabaseStorageProcessorJava.DatabaseTypeProperties | compiler/src/main/java/net/daverix/slingerorm/compiler/DatabaseStorageProcessor.java:651-716 | a column type is INTEGER, REAL or TEXT; for a custom class it comes from the serializer's only `@DeserializeType` method returning that class |
| DatabaseStorageProcessorJava.ColumnDefinition | compiler/src/main/java/net/daverix/slingerorm/compiler/DatabaseStorageProcessor.java:627-641 | a column reads `name type`, with ` NOT NULL PRIMARY KEY` after a key field, and fails iff its name or type fails |
| DatabaseStorageProcessorJava.AppendColumn | compiler/src/main/java/net/daverix/slingerorm/compiler/DatabaseStorageProcessor.java:628-636 | one pass of the loop appends the field's definition and reports whether it is a key field |
| DatabaseStorageProcessorJava.AppendPart | compiler/src/main/java/net/daverix/slingerorm/compiler/DatabaseStorageProcessor.java:637-640 | one pass adds the part, followed by ", " unless it is the last |
| DatabaseStorageProcessorJava.AppendColumns | compiler/src/main/java/net/daverix/slingerorm/compiler/DatabaseStorageProcessor.java:627-641 | the loop appends the comma-separated definitions of all fields and reports whether any was a key field; it fails with the first field's error |
| DatabaseStorageProcessorJava.TableName | compiler/src/main/java/net/daverix/slingerorm/compiler/DatabaseStorageProcessor.java:842-853 | fails with InvalidElementException "element not annotated with @DatabaseEntity" iff the class lacks `@DatabaseEntity`; otherwise the annotation's `name`, or the simple name when `name` is empty |
| DatabaseStorageProcessorJava.TableNameAgreesWithKotlin | compiler/src/main/java/net/daverix/slingerorm/compiler/DatabaseStorageProcessor.java:842-853 | the Java and Kotlin table names are found for the same classes and are equal; only the rejection message differs |
| DatabaseStorageProcessorJava.CreateTableSql | compiler/src/main/java/net/daverix/slingerorm/compiler/DatabaseStorageProcessor.java:612-649 | the method computes the statement the specification function defines |
| DatabaseStorageProcessorJava.CreateTableSqlProperties | compiler/src/main/java/net/daverix/slingerorm/compiler/DatabaseStorageProcessor.java:612-649 | an entity without columns is rejected; a statement is `CREATE TABLE IF NOT EXISTS <table>(<definitions>)` with one definition `name type` per column in order, and some column is a key |
| DatabaseStorageProcessorJava.CreateTableNeedsKey | compiler/src/main/java/net/daverix/slingerorm/compiler/DatabaseStorageProcessor.java:643-644 | with no `@PrimaryKey` column and an empty `primaryKey` no statement is produced |
| DatabaseStorageProcessorJava.CreateTableEntity | compiler/src/main/java/net/daverix/slingerorm/compiler/DatabaseStorageProcessor.java:972-988 | succeeds iff the method's `@CreateTable` names a declared class, and gives that class |
| DatabaseStorageProcessorJava.GetTypeName | compiler/src/main/java/net/daverix/slingerorm/compiler/DatabaseStorageProcessor.java:250-277 | the Java name of a primitive or the simple name of a class; other kinds fail with the "not known" message |
| DatabaseStorageProcessorJava.ParameterDeclaration | compiler/src/main/java/net/daverix/slingerorm/compiler/DatabaseStorageProcessor.java:238-246 | one parameter reads `type name` |
| DatabaseStorageProcessorJava.GetParameterText | compiler/src/main/java/net/daverix/slingerorm/compiler/DatabaseStorageProcessor.java:234-248 | the loop computes the parameter text the specification function defines |
| DatabaseStorageProcessorJava.ParameterTextProperties | compiler/src/main/java/net/daverix/slingerorm/compiler/DatabaseStorageProcessor.java:234-248 | succeeds iff every parameter type has a name; no parameter gives "" and one parameter gives its declaration alone |
| DatabaseStorageProcessorJava.ParameterNamesOf | compiler/src/main/java/net/daverix/slingerorm/compiler/DatabaseStorageProcessor.java:224-232 | one name per parameter, in order |
| DatabaseStorageProcessorJava.GetParameterNames | compiler/src/main/java/net/daverix/slingerorm/compiler/DatabaseStorageProcessor.java:224-232 | the loop collects the parameter names |
| DatabaseStorageProcessorJava.CheckFirstParameterMustBeSQLiteDatabase | compiler/src/main/java/net/daverix/slingerorm/compiler/DatabaseStorageProcessor.java:893-907 | passes iff there is a first parameter of type `android.database.sqlite.SQLiteDatabase` |
| DatabaseStorageProcessorJava.CheckSecondParameterMustBeDatabaseEntity | compiler/src/main/java/net/daverix/slingerorm/compiler/DatabaseStorageProcessor.java:877-891 | passes iff there is a second parameter whose declared class carries `@DatabaseEntity` |
| DatabaseStorageProcessorJava.CheckHasTwoParameters | compiler/src/main/java/net/daverix/slingerorm/compiler/DatabaseStorageProcessor.java:869-875 | passes iff there are exactly two parameters, else fails with "method must have exactly two parameters" |
| DatabaseStorageProcessorJava.CheckedEntity | compiler/src/main/java/net/daverix/slingerorm/compiler/DatabaseStorageProcessor.java:855-932 | the entity is the second parameter's class, accepted iff no conflicting annotation is present, the second parameter is an entity and, where asked, there are exactly two parameters |
| DatabaseStorageProcessorJava.CreateInsertMethod | compiler/src/main/java/net/daverix/slingerorm/compiler/DatabaseStorageProcessor.java:338-353 | an insert method carries the method's name and passed the annotation check |
| DatabaseStorageProcessorJava.CreateReplaceMethod | compiler/src/main/java/net/daverix/slingerorm/compiler/DatabaseStorageProcessor.java:321-336 | a replace method carries the method's name and passed the annotation check |
| DatabaseStorageProcessorJava.KeyWhere | compiler/src/main/java/net/daverix/slingerorm/compiler/DatabaseStorageProcessor.java:287-291 | the predicate is `<key column>=?` with the key field's direct getter as its one argument |
| DatabaseStorageProcessorJava.CreateUpdateMethod | compiler/src/main/java/net/daverix/slingerorm/compiler/DatabaseStorageProcessor.java:299-319 | an update method carries the method's name and passed the annotation check |
| DatabaseStorageProcessorJava.CreateDeleteMethod | compiler/src/main/java/net/daverix/slingerorm/compiler/DatabaseStorageProcessor.java:279-297 | a delete method carries the method's name and passed the annotation check |
| DatabaseStorageProcessorJava.CreateSelectMethod | compiler/src/main/java/net/daverix/slingerorm/compiler/DatabaseStorageProcessor.java:177-222 | a select gives a single or a multiple select with the method's name, after the annotation check |
| DatabaseStorageProcessorJava.CreateCreateTableMethod | compiler/src/main/java/net/daverix/slingerorm/compiler/DatabaseStorageProcessor.java:165-175 | a create-table method carries the method's name and passed the annotation check |
| DatabaseStorageProcessorJava.CreateTableOfNonEntity | compiler/src/main/java/net/daverix/slingerorm/compiler/DatabaseStorageProcessor.java:165-175 | `@CreateTable` naming a stored-field class without `@DatabaseEntity` fails with "element not annotated with @DatabaseEntity" |
| DatabaseStorageProcessorJava.SelectListOfNonEntity | compiler/src/main/java/net/daverix/slingerorm/compiler/DatabaseStorageProcessor.java:206-218 | a select returning a `List`/`Collection`/`Iterable` of a class without `@DatabaseEntity` fails with "element not annotated with @DatabaseEntity" |
| DatabaseStorageProcessorJava.Dispatch | compiler/src/main/java/net/daverix/slingerorm/compiler/DatabaseStorageProcessor.java:142-163 | the database parameter is checked first; then the first of insert, replace, update, delete, select and create-table present decides the kind |
| DatabaseStorageProcessorJava.StorageMethodAnnotations | compiler/src/main/java/net/daverix/slingerorm/compiler/DatabaseStorageProcessor.java:142-163 | an accepted method has the database first, carries the annotation of its kind and no earlier one, passed the uniqueness check, and keeps its name |
| DatabaseStorageProcessorJava.GetterMapKeysAreColumnNames | compiler/src/main/java/net/daverix/slingerorm/compiler/DatabaseStorageProcessor.java:415-426 | the keys of an entity's getter map are exactly its column names |
| DatabaseStorageProcessorJava.InsertMethodProperties | compiler/src/main/java/net/daverix/slingerorm/compiler/DatabaseStorageProcessor.java:338-353 | an insert takes exactly the database and an entity, names that entity and its table, and carries its getter map |
| DatabaseStorageProcessorJava.ReplaceMethodProperties | compiler/src/main/java/net/daverix/slingerorm/compiler/DatabaseStorageProcessor.java:321-336 | a replace takes exactly the database and an entity, names that entity and its table, and carries its getter map |
| DatabaseStorageProcessorJava.UpdateMethodProperties | compiler/src/main/java/net/daverix/slingerorm/compiler/DatabaseStorageProcessor.java:299-319 | an update identifies the row by `<key column>=?` bound to the key field's direct getter, and carries the entity's getter map |
| DatabaseStorageProcessorJava.DeleteMethodProperties | compiler/src/main/java/net/daverix/slingerorm/compiler/DatabaseStorageProcessor.java:279-297 | a delete identifies the row by `<key column>=?` bound to the key field's direct getter |
| DatabaseStorageProcessorJava.SelectMethodProperties | compiler/src/main/java/net/daverix/slingerorm/compiler/DatabaseStorageProcessor.java:177-222 | a select keeps its `where` and its parameters in order; it returns one row exactly when the return type is an entity, otherwise a supported collection of an entity, and an empty `orderBy` means none |
| DatabaseStorageProcessorJava.CreateTableMethodProperties | compiler/src/main/java/net/daverix/slingerorm/compiler/DatabaseStorageProcessor.java:165-175 | a create-table method is void and carries the statement built for the class its `@CreateTable` names |
| DatabaseStorageProcessorJava.NotAStorageMethod | compiler/src/main/java/net/daverix/slingerorm/compiler/DatabaseStorageProcessor.java:160-161 | a method with none of the six annotations is rejected as an invalid element |
| DatabaseStorageProcessorJava.GetStorageMethods | compiler/src/main/java/net/daverix/slingerorm/compiler/DatabaseStorageProcessor.java:129-140 | the loop builds one storage method per declared method, in order, and stops at the first failure |
| DatabaseStorageProcessorJava.StorageMethodsProperties | compiler/src/main/java/net/daverix/slingerorm/compiler/DatabaseStorageProcessor.java:129-140 | the class succeeds iff each declared method does, and then has their storage methods in order |
| DatabaseStorageProcessorJava.HasEmptyConstructor | compiler/src/main/java/net/daverix/slingerorm/compiler/DatabaseStorageProcessor.java:941-952 | true iff the class declares a constructor without parameters |
| DatabaseStorageProcessorJava.SerializerElement | compiler/src/main/java/net/daverix/slingerorm/compiler/DatabaseStorageProcessor.java:961-970 | succeeds iff `@DatabaseStorage` names a declared serializer class, and gives that class |
| DatabaseStorageProcessorJava.CreateStorage | compiler/src/main/java/net/daverix/slingerorm/compiler/DatabaseStorageProcessor.java:100-127 | the method computes the storage class the specification function defines |
| DatabaseStorageProcessorJava.StorageClassNaming | compiler/src/main/java/net/daverix/slingerorm/compiler/DatabaseStorageProcessor.java:100-127 | the generated class is in the interface's package, named `Slinger_` + the interface name, and records the interface name |
| EntityTypeJava.MapperTypeName | compiler/src/main/java/net/daverix/slingerorm/compiler/EntityType.java:79-81 | the mapper name is the entity's simple name followed by `Storage` |
| EntityTypeJava.TableName | compiler/src/main/java/net/daverix/slingerorm/compiler/EntityType.java:87-94 | fails with a null dereference exactly when `@DatabaseEntity` is missing, and is otherwise the entity's table name |
| EntityTypeJava.IsDatabaseField | compiler/src/main/java/net/daverix/slingerorm/compiler/EntityType.java:615-627 | the check agrees with the column rule |
| EntityTypeJava.KeptAsColumnRule | compiler/src/main/java/net/daverix/slingerorm/compiler/EntityType.java:615-627 | a field with no modifiers is always stored, even one marked `@NotDatabaseField`, which the storage processor drops; with modifiers it is stored iff it is neither static, transient nor `@NotDatabaseField` |
| EntityTypeJava.FieldsOfProperties | compiler/src/main/java/net/daverix/slingerorm/compiler/EntityType.java:265-276 | the columns are the stored members in member order with distinct names, and agree with the storage processor's when every member has a modifier |
| EntityTypeJava.FilterColumnFields | compiler/src/main/java/net/daverix/slingerorm/compiler/EntityType.java:265-276 | the loop keeps exactly the stored fields, in order |
| EntityTypeJava.PrimaryKeyFieldUsingDatabaseEntity | compiler/src/main/java/net/daverix/slingerorm/compiler/EntityType.java:534-545 | an empty `primaryKey` gives no field; otherwise the column of that name, or an illegal state "Field specified in DatabaseEntity doesn't exist in entity class!" |
| EntityTypeJava.PrimaryKeyFieldOf | compiler/src/main/java/net/daverix/slingerorm/compiler/EntityType.java:522-545 | the first `@PrimaryKey` column wins, then the column named by `primaryKey`; neither gives the "no primary key" illegal state |
| EntityTypeJava.PrimaryKeyFieldProperties | compiler/src/main/java/net/daverix/slingerorm/compiler/EntityType.java:522-545 | the key field is a column; if marked it is the first marked column, otherwise no column is marked and its name is the non-empty `primaryKey` |
| EntityTypeJava.DatabaseFieldName | compiler/src/main/java/net/daverix/slingerorm/compiler/EntityType.java:629-641 | the `@FieldName` value or the simple name; an empty `@FieldName` is an illegal state |
| EntityTypeJava.PrimaryKeyDbNameOf | compiler/src/main/java/net/daverix/slingerorm/compiler/EntityType.java:83-85 | succeeds iff the key field exists and has a column name, and is that name |
| EntityTypeJava.ObjectTypeOf | compiler/src/main/java/net/daverix/slingerorm/compiler/EntityType.java:643-674 | the six native kinds and declared types classify; `String` is a string object and other classes custom objects; any other kind is an illegal state "... is not known by SlingerORM" |
| EntityTypeJava.ObjectTypeAgreesWithProcessor | compiler/src/main/java/net/daverix/slingerorm/compiler/EntityType.java:643-674 | on an element's own type the classification succeeds and fails with the storage processor's and gives the same answer |
| EntityTypeJava.MethodsInSerializer | compiler/src/main/java/net/daverix/slingerorm/compiler/EntityType.java:599-605 | the serializer's methods are available exactly when a serializer has been resolved |
| EntityTypeJava.SerializeMethods | compiler/src/main/java/net/daverix/slingerorm/compiler/EntityType.java:586-597 | with a resolved serializer, its `@SerializeType` methods, as the storage processor finds them |
| EntityTypeJava.DeserializeMethods | compiler/src/main/java/net/daverix/slingerorm/compiler/EntityType.java:573-584 | with a resolved serializer, its `@DeserializeType` methods, as the storage processor finds them |
| EntityTypeJava.FindDirectGetterPrecedence | compiler/src/main/java/net/daverix/slingerorm/compiler/EntityType.java:442-456 | an annotated getter wins, then the `is`/`get` accessor, then the accessible field; otherwise an illegal state naming the field and class |
| EntityTypeJava.ParameterMatches | compiler/src/main/java/net/daverix/slingerorm/compiler/EntityType.java:321-358 | a serializer method is valid iff it has exactly one parameter, and matches iff that parameter is the field's class; an invalid one is an illegal state |
| EntityTypeJava.MethodsMatchingParameter | compiler/src/main/java/net/daverix/slingerorm/compiler/EntityType.java:321-358 | matching is only done for a field of a custom class |
| EntityTypeJava.MethodsMatchingParameterMeaning | compiler/src/main/java/net/daverix/slingerorm/compiler/EntityType.java:321-358 | only custom classes are matched; it succeeds iff every method has one parameter and keeps, in order, those whose parameter is the field's class |
| EntityTypeJava.SerializerGetterOf | compiler/src/main/java/net/daverix/slingerorm/compiler/EntityType.java:458-471 | the getter is the one `@SerializeType` method taking the field's class applied to the direct getter, through `mSerializer.` |
| EntityTypeJava.SerializeMethodUnique | compiler/src/main/java/net/daverix/slingerorm/compiler/EntityType.java:458-471 | the method used is a `@SerializeType` method of the serializer taking the field's class, and the only such method |
| EntityTypeJava.GetterOf | compiler/src/main/java/net/daverix/slingerorm/compiler/EntityType.java:473-491 | primitives and strings are read directly, custom classes through the serializer, and other kinds are an illegal state |
| EntityTypeJava.ValueGetterInjective | compiler/src/main/java/net/daverix/slingerorm/compiler/EntityType.java:547-571 | each native type and String reads with its own `values.get…` call |
| EntityTypeJava.NativeValuePart | compiler/src/main/java/net/daverix/slingerorm/compiler/EntityType.java:547-571 | the value part of a native field succeeds iff the column name does |
| EntityTypeJava.DeserializeCall | compiler/src/main/java/net/daverix/slingerorm/compiler/EntityType.java:294-319 | the deserializer call wraps the value part of the one native parameter of the one method returning the field's class |
| EntityTypeJava.DeserializerCallOf | compiler/src/main/java/net/daverix/slingerorm/compiler/EntityType.java:294-319 | the call is available only with a resolved serializer and reads its `@DeserializeType` methods |
| EntityTypeJava.DeserializerUnique | compiler/src/main/java/net/daverix/slingerorm/compiler/EntityType.java:278-292 | the method returning a custom class is a `@DeserializeType` method of the serializer, returns that class, and is the only one that does |
| EntityTypeJava.ValuePartProperties | compiler/src/main/java/net/daverix/slingerorm/compiler/EntityType.java:547-571 | a native field reads `values.get…("<column>")`; a custom field wraps that read, typed by the deserializer's parameter, in the deserializer call |
| EntityTypeJava.ParameterIsNative | compiler/src/main/java/net/daverix/slingerorm/compiler/EntityType.java:643-674 | whatever is classified as other than a custom class is a native type or String |
| EntityTypeJava.SetterPrecedence | compiler/src/main/java/net/daverix/slingerorm/compiler/EntityType.java:386-418 | an annotated setter wins, then the `set` accessor, then assigning the accessible field; a failed classification or value part fails first |
| EntityTypeJava.NativeTypeForDatabase | compiler/src/main/java/net/daverix/slingerorm/compiler/EntityType.java:205-231 | the storage processor's INTEGER/REAL/TEXT mapping; a custom class is unsupported and an unknown kind an illegal state |
| EntityTypeJava.DatabaseTypeFromSerializer | compiler/src/main/java/net/daverix/slingerorm/compiler/EntityType.java:233-256 | agrees with the storage processor: the native type of the parameter of the one method returning the field's class |
| EntityTypeJava.DatabaseTypeOf | compiler/src/main/java/net/daverix/slingerorm/compiler/EntityType.java:176-203 | with a resolved serializer the type is the storage processor's; without one only native types succeed; an unknown kind is unsupported |
| EntityTypeJava.CreateTableSqlOf | compiler/src/main/java/net/daverix/slingerorm/compiler/EntityType.java:123-157 | no columns is an illegal argument, and a class without `@DatabaseEntity` fails on the table name |
| EntityTypeJava.CreateTableSqlProperties | compiler/src/main/java/net/daverix/slingerorm/compiler/EntityType.java:123-157 | a statement is `CREATE TABLE IF NOT EXISTS <table>(<definitions>)` with `name type` and the key suffix for each column in order, and some column is a key |
| EntityTypeJava.CreateTableNeedsKey | compiler/src/main/java/net/daverix/slingerorm/compiler/EntityType.java:151-152 | with no `@PrimaryKey` column and an empty `primaryKey` the statement fails with "Primary key not found" |
| EntityTypeJava.CreateTableAgreesWithProcessor | compiler/src/main/java/net/daverix/slingerorm/compiler/EntityType.java:123-157 | when every member has a modifier, the statement is the storage processor's for the same serializer |
| EntityTypeJava.ResolvedSerializer | compiler/src/main/java/net/daverix/slingerorm/compiler/EntityType.java:163-174 | fails without `@DatabaseEntity` or for a type variable; gives the class the serializer names, or null when it names none |
| EntityTypeJava.EntityType.constructor | compiler/src/main/java/net/daverix/slingerorm/compiler/EntityType.java:67-73 | a new entity type remembers its class and has every cache empty |
| EntityTypeJava.EntityType.GetElementsInType | compiler/src/main/java/net/daverix/slingerorm/compiler/EntityType.java:607-613 | gives the class's members and caches them |
| EntityTypeJava.EntityType.GetFieldsUsedInDatabase | compiler/src/main/java/net/daverix/slingerorm/compiler/EntityType.java:265-276 | gives the stored fields and caches them together with the members |
| EntityTypeJava.EntityType.GetMethods | compiler/src/main/java/net/daverix/slingerorm/compiler/EntityType.java:258-263 | gives the class's methods and caches them |
| EntityTypeJava.EntityType.GetSerializerType | compiler/src/main/java/net/daverix/slingerorm/compiler/EntityType.java:163-174 | resolves the serializer named by `@DatabaseEntity` and stores it; a failure changes nothing |
| EntityTypeJava.EntityType.GetSerializerTypeName | compiler/src/main/java/net/daverix/slingerorm/compiler/EntityType.java:96-98 | the simple name of the resolved serializer class |
| EntityTypeJava.EntityType.GetSerializerQualifiedName | compiler/src/main/java/net/daverix/slingerorm/compiler/EntityType.java:100-102 | the qualified name of the resolved serializer class |
| EntityTypeJava.EntityType.GetMethodsInSerializer | compiler/src/main/java/net/daverix/slingerorm/compiler/EntityType.java:599-605 | the methods of the serializer as resolved so far, cached; fails before it is resolved |
| EntityTypeJava.EntityType.GetSerializeMethodsInSerializer | compiler/src/main/java/net/daverix/slingerorm/compiler/EntityType.java:586-597 | the serializer's `@SerializeType` methods, cached |
| EntityTypeJava.EntityType.GetDeserializeMethodsInSerializer | compiler/src/main/java/net/daverix/slingerorm/compiler/EntityType.java:573-584 | the serializer's `@DeserializeType` methods, cached |
| EntityTypeJava.EntityType.GetPrimaryKeyField | compiler/src/main/java/net/daverix/slingerorm/compiler/EntityType.java:522-532 | gives the key field; caches stay consistent and the serializer is unchanged |
| EntityTypeJava.EntityType.GetPrimaryKeyDbName | compiler/src/main/java/net/daverix/slingerorm/compiler/EntityType.java:83-85 | gives the key column name |
| EntityTypeJava.EntityType.FindDirectGetter | compiler/src/main/java/net/daverix/slingerorm/compiler/EntityType.java:442-456 | gives the field's direct getter |
| EntityTypeJava.EntityType.GetIdGetter | compiler/src/main/java/net/daverix/slingerorm/compiler/EntityType.java:420-422 | gives the direct getter of the key field, and fails iff either step fails |
| EntityTypeJava.EntityType.FindGetterInSerializer | compiler/src/main/java/net/daverix/slingerorm/compiler/EntityType.java:458-471 | gives the serializer getter of a custom field |
| EntityTypeJava.EntityType.FindGetter | compiler/src/main/java/net/daverix/slingerorm/compiler/EntityType.java:473-491 | gives the field's getter |
| EntityTypeJava.EntityType.GetDeserializeMethodForFieldElement | compiler/src/main/java/net/daverix/slingerorm/compiler/EntityType.java:294-319 | gives the deserializer call for a custom field |
| EntityTypeJava.EntityType.GetValuePart | compiler/src/main/java/net/daverix/slingerorm/compiler/EntityType.java:547-571 | gives the value read from the cursor values for the field |
| EntityTypeJava.EntityType.GetSetterWithParam | compiler/src/main/java/net/daverix/slingerorm/compiler/EntityType.java:386-401 | gives the statement that sets the field from its value part |
| EntityTypeJava.EntityType.GetDatabaseType | compiler/src/main/java/net/daverix/slingerorm/compiler/EntityType.java:176-203 | gives the field's SQL type |
| EntityTypeJava.EntityType.AppendColumn | compiler/src/main/java/net/daverix/slingerorm/compiler/EntityType.java:137-145 | one pass of the loop appends the field's definition and reports whether it is a key field |
| EntityTypeJava.EntityType.AppendColumns | compiler/src/main/java/net/daverix/slingerorm/compiler/EntityType.java:135-149 | the loop appends the comma-separated definitions of all fields and whether any was a key; it fails with the first field's error |
| EntityTypeJava.EntityType.CreateTableSql | compiler/src/main/java/net/daverix/slingerorm/compiler/EntityType.java:123-157 | gives the `CREATE TABLE` statement of the class |
| EntityTypeJava.EntityType.GetSetterMethodParts | compiler/src/main/java/net/daverix/slingerorm/compiler/EntityType.java:104-111 | gives one setter statement per stored field, in order |
| EntityTypeJava.EntityType.GetterEntryFor | compiler/src/main/java/net/daverix/slingerorm/compiler/EntityType.java:115-118 | one pass gives the field's column name and getter |
| EntityTypeJava.EntityType.GetFieldMethodGetter | compiler/src/main/java/net/daverix/slingerorm/compiler/EntityType.java:113-121 | gives the getter map of the stored fields keyed by column name |
| DatabaseEntityModelJava.MapperClassName | compiler/src/main/java/net/daverix/slingerorm/compiler/DatabaseEntityModel.java:338-340 | the mapper class is the entity's simple name followed by `Mapper` |
| DatabaseEntityModelJava.TableName | compiler/src/main/java/net/daverix/slingerorm/compiler/DatabaseEntityModel.java:364-372 | the annotation's non-empty `name`, else the class's simple name; a class without `@DatabaseEntity` fails on a null dereference |
| DatabaseEntityModelJava.FieldsInUseErr | compiler/src/main/java/net/daverix/slingerorm/compiler/DatabaseEntityModel.java:374-388 | the fields in use fail with "Database Entity must have fields in order to be stored" exactly when no member of the class or its superclasses is stored |
| DatabaseEntityModelJava.FieldsInUseValues | compiler/src/main/java/net/daverix/slingerorm/compiler/DatabaseEntityModel.java:374-405 | every field in use is a stored member of the class or a superclass, under its own simple name |
| DatabaseEntityModelJava.FieldsInUseMembers | compiler/src/main/java/net/daverix/slingerorm/compiler/DatabaseEntityModel.java:374-405 | a member is stored iff it is the field in use under its name: neither static, transient nor `@NotDatabaseField` |
| DatabaseEntityModelJava.AnnotationKeysOk | compiler/src/main/java/net/daverix/slingerorm/compiler/DatabaseEntityModel.java:424-441 | the annotation's key list is accepted iff every non-empty entry is a field in use |
| DatabaseEntityModelJava.AnnotationKeysValue | compiler/src/main/java/net/daverix/slingerorm/compiler/DatabaseEntityModel.java:424-441 | the accepted keys are exactly the non-empty entries |
| DatabaseEntityModelJava.AnnotationKeysErr | compiler/src/main/java/net/daverix/slingerorm/compiler/DatabaseEntityModel.java:424-441 | a rejected list reports its first non-empty entry that is not a field in use, with the "can't be found in the class" message |
| DatabaseEntityModelJava.PrimaryKeysOk | compiler/src/main/java/net/daverix/slingerorm/compiler/DatabaseEntityModel.java:407-441 | the keys resolve iff every listed key is a field in use and some key is listed or marked `@PrimaryKey` |
| DatabaseEntityModelJava.PrimaryKeysValue | compiler/src/main/java/net/daverix/slingerorm/compiler/DatabaseEntityModel.java:407-422 | listed keys win; without them the `@PrimaryKey` fields are the keys |
| DatabaseEntityModelJava.PrimaryKeysInUse | compiler/src/main/java/net/daverix/slingerorm/compiler/DatabaseEntityModel.java:407-422 | the keys are never empty and are always fields in use |
| DatabaseEntityModelJava.ColumnNamesOk | compiler/src/main/java/net/daverix/slingerorm/compiler/DatabaseEntityModel.java:443-460 | in any iteration order, the column names succeed iff no field's column name is empty |
| DatabaseEntityModelJava.ColumnNamesErr | compiler/src/main/java/net/daverix/slingerorm/compiler/DatabaseEntityModel.java:453-455 | a failure is "columnName must not be null or empty!" |
| DatabaseEntityModelJava.ColumnNamesValue | compiler/src/main/java/net/daverix/slingerorm/compiler/DatabaseEntityModel.java:443-460 | each field in use maps to its `@ColumnName` value or its simple name, whatever the iteration order |
| DatabaseEntityModelJava.FieldOfAccessor | compiler/src/main/java/net/daverix/slingerorm/compiler/DatabaseEntityModel.java:216-296 | an accessor name points to the rest of the name after its prefix, with the first character lower-cased |
| DatabaseEntityModelJava.GetMethodEntryOk | compiler/src/main/java/net/daverix/slingerorm/compiler/DatabaseEntityModel.java:259-296 | a getter passes iff a `get` method of a field in use returns its type and an `is` method returns boolean for a boolean field |
| DatabaseEntityModelJava.SetMethodEntryOk | compiler/src/main/java/net/daverix/slingerorm/compiler/DatabaseEntityModel.java:216-243 | a setter passes iff a `set` method of a field in use takes exactly one parameter of the field's type |
| DatabaseEntityModelJava.AnnotatedGetMethodsOk | compiler/src/main/java/net/daverix/slingerorm/compiler/DatabaseEntityModel.java:299-318 | the `@GetField` step completes iff every `@GetField` method names a field in use and returns its type |
| DatabaseEntityModelJava.AnnotatedGetMethodsValue | compiler/src/main/java/net/daverix/slingerorm/compiler/DatabaseEntityModel.java:299-318 | each mapped field maps to a method whose `@GetField` names it |
| DatabaseEntityModelJava.AnnotatedGetMethodsComplete | compiler/src/main/java/net/daverix/slingerorm/compiler/DatabaseEntityModel.java:299-318 | every field named by a `@GetField` method is mapped |
| DatabaseEntityModelJava.GetMethodsOk | compiler/src/main/java/net/daverix/slingerorm/compiler/DatabaseEntityModel.java:259-296 | the conventional-getter step completes iff no conventional getter of a field in use is malformed |
| DatabaseEntityModelJava.GetMethodsValue | compiler/src/main/java/net/daverix/slingerorm/compiler/DatabaseEntityModel.java:259-296 | each mapped field is in use and maps to one of its conventional getters |
| DatabaseEntityModelJava.GetMethodsComplete | compiler/src/main/java/net/daverix/slingerorm/compiler/DatabaseEntityModel.java:259-296 | every field in use with a conventional getter is mapped |
| DatabaseEntityModelJava.AnnotatedSetMethodsOk | compiler/src/main/java/net/daverix/slingerorm/compiler/DatabaseEntityModel.java:190-214 | the `@SetField` step completes iff every `@SetField` method names a field in use and takes one parameter of its type |
| DatabaseEntityModelJava.AnnotatedSetMethodsValue | compiler/src/main/java/net/daverix/slingerorm/compiler/DatabaseEntityModel.java:190-214 | each mapped field maps to a method whose `@SetField` names it |
| DatabaseEntityModelJava.AnnotatedSetMethodsComplete | compiler/src/main/java/net/daverix/slingerorm/compiler/DatabaseEntityModel.java:190-214 | every field named by a `@SetField` method is mapped |
| DatabaseEntityModelJava.SetMethodsOk | compiler/src/main/java/net/daverix/slingerorm/compiler/DatabaseEntityModel.java:216-243 | the conventional-setter step completes iff no conventional setter of a field in use is malformed |
| DatabaseEntityModelJava.SetMethodsValue | compiler/src/main/java/net/daverix/slingerorm/compiler/DatabaseEntityModel.java:216-243 | each mapped field is in use and maps to one of its conventional setters |
| DatabaseEntityModelJava.SetMethodsComplete | compiler/src/main/java/net/daverix/slingerorm/compiler/DatabaseEntityModel.java:216-243 | every field in use with a conventional setter is mapped |
| DatabaseEntityModelJava.FieldAccessesOk | compiler/src/main/java/net/daverix/slingerorm/compiler/DatabaseEntityModel.java:245-257 | an access step completes iff every field in use has an annotated or conventional accessor or is accessible, in any iteration order |
| DatabaseEntityModelJava.FieldAccessesErr | compiler/src/main/java/net/daverix/slingerorm/compiler/DatabaseEntityModel.java:320-332 | an unreachable field fails with the step's own "No way to access field" message |
| DatabaseEntityModelJava.FieldAccessesValue | compiler/src/main/java/net/daverix/slingerorm/compiler/DatabaseEntityModel.java:245-257 | every field in use gets an access: the annotated method when there is one, else the conventional one, else the field itself, which is then accessible |
| DatabaseEntityModelJava.SerializersOk | compiler/src/main/java/net/daverix/slingerorm/compiler/DatabaseEntityModel.java:462-482 | finding serializers fails exactly when some field's `@Serializer` names a type variable |
| DatabaseEntityModelJava.SerializersValue | compiler/src/main/java/net/daverix/slingerorm/compiler/DatabaseEntityModel.java:462-486 | serializers are found exactly for fields with `@Serializer` or of type `Date`: the class `@Serializer` names (null if it names none), else the default date serializer |
| DatabaseEntityModelJava.FindMethodWithName | compiler/src/main/java/net/daverix/slingerorm/compiler/DatabaseEntityModel.java:550-556 | a method found by name is a method of the class or an ancestor with that name |
| DatabaseEntityModelJava.VerifySerializersOk | compiler/src/main/java/net/daverix/slingerorm/compiler/DatabaseEntityModel.java:488-501 | verification passes iff every field's serializer has a `deserialize` method returning a type equal to the field's |
| DatabaseEntityModelJava.VerifySerializersAsWrittenAcceptsAll | compiler/src/main/java/net/daverix/slingerorm/compiler/DatabaseEntityModel.java:488-519 | with the comparison as written, verification passes whatever `deserialize` returns |
| DatabaseEntityModelJava.DatabaseTypeOf | compiler/src/main/java/net/daverix/slingerorm/compiler/DatabaseEntityModel.java:558-600 | INTEGER for boolean, short, long, int and their boxes; REAL for float, double and boxes; TEXT for String; BLOB for `byte[]`; anything else fails with its message |
| DatabaseEntityModelJava.CursorTypeOf | compiler/src/main/java/net/daverix/slingerorm/compiler/DatabaseEntityModel.java:631-687 | `byte[]` reads as a byte array, other arrays and unknown kinds fail |
| DatabaseEntityModelJava.CursorTypeMatchesDatabaseType | compiler/src/main/java/net/daverix/slingerorm/compiler/DatabaseEntityModel.java:558-687 | whenever a column has an SQL type, its cursor getter reads that storage class; only a boxed Boolean has a getter but no SQL type |
| DatabaseEntityModelJava.SerializedType | compiler/src/main/java/net/daverix/slingerorm/compiler/DatabaseEntityModel.java:550-556 | the class a serializer's `serialize` method returns |
| DatabaseEntityModelJava.FieldTypeOfCases | compiler/src/main/java/net/daverix/slingerorm/compiler/DatabaseEntityModel.java:529-548 | a field with a serializer takes the type its `serialize` returns; a sub-model field takes its one key's type, failing unless there is exactly one key; otherwise the field's own type |
| DatabaseEntityModelJava.FieldTypesOk | compiler/src/main/java/net/daverix/slingerorm/compiler/DatabaseEntityModel.java:521-527 | the SQL types are found iff every column's type resolves, in any iteration order |
| DatabaseEntityModelJava.FieldTypesValue | compiler/src/main/java/net/daverix/slingerorm/compiler/DatabaseEntityModel.java:521-527 | every column maps to its type |
| DatabaseEntityModelJava.Columns | compiler/src/main/java/net/daverix/slingerorm/compiler/DatabaseEntityModel.java:697-706 | the columns of the listed fields, in order, `null` for a field without one |
| DatabaseEntityModelJava.ForeignKeyClauseOk | compiler/src/main/java/net/daverix/slingerorm/compiler/DatabaseEntityModel.java:719-748 | a foreign-key clause is built iff the referenced entity has exactly one key |
| DatabaseEntityModelJava.AssembleCreateTable | compiler/src/main/java/net/daverix/slingerorm/compiler/DatabaseEntityModel.java:689-695 | the statement starts `CREATE TABLE IF NOT EXISTS <table>(` and ends with `)` |
| DatabaseEntityModelJava.ColumnDefinitionsOk | compiler/src/main/java/net/daverix/slingerorm/compiler/DatabaseEntityModel.java:708-717 | the column definitions are built iff every field in use has an SQL type |
| DatabaseEntityModelJava.ForeignKeyClausesOk | compiler/src/main/java/net/daverix/slingerorm/compiler/DatabaseEntityModel.java:719-748 | the foreign-key clauses are built iff every referenced entity has exactly one key |
| DatabaseEntityModelJava.CreateTableSqlOk | compiler/src/main/java/net/daverix/slingerorm/compiler/DatabaseEntityModel.java:689-748 | the statement is built iff every field has an SQL type and every referenced entity exactly one key |
| DatabaseEntityModelJava.KeyColumnsInOrder | compiler/src/main/java/net/daverix/slingerorm/compiler/DatabaseEntityModel.java:697-706 | the `PRIMARY KEY` clause lists the column of every key exactly once, in the order of the column definitions |
| DatabaseEntityModelJava.ForeignKeyAsWrittenNamesNoColumn | compiler/src/main/java/net/daverix/slingerorm/compiler/DatabaseEntityModel.java:733-735 | as written, `REFERENCES` names the key's field (`id`), which is not a column of a table whose key column is `_id`; the corrected clause names `_id` |
| DatabaseEntityModelJava.SerializerFieldName | compiler/src/main/java/net/daverix/slingerorm/compiler/DatabaseEntityModel.java:767-786 | the serializer field is the simple name with a lower-case first character, plus the count's digits and `1` from its second use on; a name under two characters fails |
| DatabaseEntityModelJava.SerializerFieldNamesDistinct | compiler/src/main/java/net/daverix/slingerorm/compiler/DatabaseEntityModel.java:767-786 | two serializers with the same simple name named at different counts get different fields |
| DatabaseEntityModelJava.NameEachOk | compiler/src/main/java/net/daverix/slingerorm/compiler/DatabaseEntityModel.java:767-786 | the naming loop completes iff no serializer class is null and every simple name has two characters or more |
| DatabaseEntityModelJava.NameEachFields | compiler/src/main/java/net/daverix/slingerorm/compiler/DatabaseEntityModel.java:767-786 | exactly the fields some serializer class puts get a serializer field |
| DatabaseEntityModelJava.NameEachDeclared | compiler/src/main/java/net/daverix/slingerorm/compiler/DatabaseEntityModel.java:767-786 | every serializer field an entity field uses is declared with a class |
| DatabaseEntityModelJava.NameEachQualified | compiler/src/main/java/net/daverix/slingerorm/compiler/DatabaseEntityModel.java:767-786 | the names to import are exactly those of the serializer classes |
| DatabaseEntityModelJava.FirstFieldWith | compiler/src/main/java/net/daverix/slingerorm/compiler/DatabaseEntityModel.java:788-795 | at most one field, the first in iteration order whose serializer is the class; none when no field uses it |
| DatabaseEntityModelJava.NameSerializersOk | compiler/src/main/java/net/daverix/slingerorm/compiler/DatabaseEntityModel.java:767-786 | naming succeeds iff every serializer is non-null with a simple name of two characters or more |
| DatabaseEntityModelJava.NameSerializersFields | compiler/src/main/java/net/daverix/slingerorm/compiler/DatabaseEntityModel.java:767-795 | every field with a serializer gets a serializer field, declared with a class |
| DatabaseEntityModelJava.NameSerializersImports | compiler/src/main/java/net/daverix/slingerorm/compiler/DatabaseEntityModel.java:767-786 | the classes to import are exactly the serializer classes |
| DatabaseEntityModelJava.NameSerializersAsWrittenMissesField | compiler/src/main/java/net/daverix/slingerorm/compiler/DatabaseEntityModel.java:767-795 | as written, two fields sharing one serializer class do not both get a serializer field |
| DatabaseEntityModelJava.NameSerializersAsWrittenOk | compiler/src/main/java/net/daverix/slingerorm/compiler/DatabaseEntityModel.java:767-795 | naming as written succeeds exactly when the corrected naming does: every serializer class non-null with a simple name of two characters or more |
| DatabaseEntityModelJava.NameSerializersAsWrittenFields | compiler/src/main/java/net/daverix/slingerorm/compiler/DatabaseEntityModel.java:767-795 | as written, each serializer class has its name recorded for exactly one of the fields using it, and every recorded name is declared with a class |
| DatabaseEntityModelJava.FirstUsersOncePerSerializer | compiler/src/main/java/net/daverix/slingerorm/compiler/DatabaseEntityModel.java:788-795 | taking the first user of each serializer class names one field per class and only fields with a serializer |
| DatabaseEntityModelJava.KeyConditions | compiler/src/main/java/net/daverix/slingerorm/compiler/DatabaseEntityModel.java:797-804 | one `column=?` condition per key, in order |
| DatabaseEntityModelJava.KeyConditionsPlaceholders | compiler/src/main/java/net/daverix/slingerorm/compiler/DatabaseEntityModel.java:797-804 | the conditions joined by ` AND ` hold one placeholder per key |
| DatabaseEntityModelJava.ItemSqlBindsKeys | compiler/src/main/java/net/daverix/slingerorm/compiler/DatabaseEntityModel.java:797-804 | the row condition has exactly one `?` per key and its argument fields list each key once |
| DatabaseEntityModelJava.Discover | compiler/src/main/java/net/daverix/slingerorm/compiler/DatabaseEntityModel.java:113-123 | discovery succeeds only with the class's fields in use, for that class |
| DatabaseEntityModelJava.ResolveAccessors | compiler/src/main/java/net/daverix/slingerorm/compiler/DatabaseEntityModel.java:127-132 | the accessor steps change only the six accessor maps |
| DatabaseEntityModelJava.ResolveSerializers | compiler/src/main/java/net/daverix/slingerorm/compiler/DatabaseEntityModel.java:134-135 | the serializer steps change only the field serializers |
| DatabaseEntityModelJava.Generate | compiler/src/main/java/net/daverix/slingerorm/compiler/DatabaseEntityModel.java:137-141 | the generating steps change only the types, the statement, the serializer names and the row condition |
| DatabaseEntityModelJava.FieldTypeAgrees | compiler/src/main/java/net/daverix/slingerorm/compiler/DatabaseEntityModel.java:521-687 | whenever a field has an SQL type, its cursor getter reads that storage class, also through serializers and sub-models |
| DatabaseEntityModelJava.DiscoverResolves | compiler/src/main/java/net/daverix/slingerorm/compiler/DatabaseEntityModel.java:113-123 | after discovery the fields in use, keys and column names are consistent and there are no sub-models yet |
| DatabaseEntityModelJava.ResolveAccessorsResolves | compiler/src/main/java/net/daverix/slingerorm/compiler/DatabaseEntityModel.java:127-132 | after the accessor steps every field in use can be read and written, and nothing established before is lost |
| DatabaseEntityModelJava.ResolveSerializersResolves | compiler/src/main/java/net/daverix/slingerorm/compiler/DatabaseEntityModel.java:134-135 | after the serializer steps every serializer belongs to a field in use and has a `deserialize` method that the class's own type comparison accepts |
| DatabaseEntityModelJava.ColumnTypesAgree | compiler/src/main/java/net/daverix/slingerorm/compiler/DatabaseEntityModel.java:521-527 | each column's cursor getter reads the column's SQL type |
| DatabaseEntityModelJava.GenerateTypes | compiler/src/main/java/net/daverix/slingerorm/compiler/DatabaseEntityModel.java:137-141 | after generation every column has an SQL type and a cursor getter that agree, and every referenced entity has one key |
| DatabaseEntityModelJava.GenerateNames | compiler/src/main/java/net/daverix/slingerorm/compiler/DatabaseEntityModel.java:137-141 | after generation each serializer class has its serializer field recorded for exactly one of the fields using it, declared with a class, and the row arguments are the keys |
| DatabaseEntityModelJava.GenerateResolves | compiler/src/main/java/net/daverix/slingerorm/compiler/DatabaseEntityModel.java:137-141 | generation leaves a model whose types agree, whose sub-models have one key each, whose serializer classes are each named once and whose row arguments are the keys |
| DatabaseEntityModelJava.GenerateKeeps | compiler/src/main/java/net/daverix/slingerorm/compiler/DatabaseEntityModel.java:137-141 | generation keeps what the earlier steps established |
| DatabaseEntityModelJava.InitializeResolved | compiler/src/main/java/net/daverix/slingerorm/compiler/DatabaseEntityModel.java:113-142 | `initialize` returns a fully resolved model of the class, and so are its sub-models, whatever the iteration orders |
| DatabaseEntityModelJava.CompleteKeeps | compiler/src/main/java/net/daverix/slingerorm/compiler/DatabaseEntityModel.java:127-141 | the steps after the sub-models keep what discovery established |
| DatabaseEntityModelJava.CompleteResolves | compiler/src/main/java/net/daverix/slingerorm/compiler/DatabaseEntityModel.java:127-141 | the steps after the sub-models resolve accessors, serializers and the generated statements |
| DatabaseEntityModelJava.InitializeEachResolved | compiler/src/main/java/net/daverix/slingerorm/compiler/DatabaseEntityModel.java:184-188 | each sub-model field gets a resolved model of its entity class |
| DatabaseEntityModelJava.KeyColumnReferenced | compiler/src/main/java/net/daverix/slingerorm/compiler/DatabaseEntityModel.java:719-748 | the one key of a discovered entity has a non-empty column, which the corrected reference names |
| DatabaseEntityModelJava.ResolvedSubModels | compiler/src/main/java/net/daverix/slingerorm/compiler/DatabaseEntityModel.java:113-142 | every sub-model of a resolved model is discovered and has exactly one key |
| DatabaseEntityModelJava.ForeignKeysReferenceColumns | compiler/src/main/java/net/daverix/slingerorm/compiler/DatabaseEntityModel.java:719-748 | in a resolved model every foreign key names the one key of the referenced entity, and the corrected reference is a column of its table |
| DatabaseEntityModelObject.OnUpdateLoopFinds | compiler/src/main/java/net/daverix/slingerorm/compiler/DatabaseEntityModel.java:154-162 | in any iteration order the loop puts exactly each field's `OnUpdate` action |
| DatabaseEntityModelObject.OnDeleteLoopFinds | compiler/src/main/java/net/daverix/slingerorm/compiler/DatabaseEntityModel.java:144-152 | in any iteration order the loop puts exactly each field's `OnDelete` action |
| DatabaseEntityModelObject.SubModelLoopFinds | compiler/src/main/java/net/daverix/slingerorm/compiler/DatabaseEntityModel.java:164-182 | in any iteration order the loop finds the class of exactly the fields whose type is an entity class |
| DatabaseEntityModelObject.KeyColumnsLoop | compiler/src/main/java/net/daverix/slingerorm/compiler/DatabaseEntityModel.java:697-706 | the loop collects the column of every key in the order of the fields in use |
| DatabaseEntityModelObject.InitializeEachLoop | compiler/src/main/java/net/daverix/slingerorm/compiler/DatabaseEntityModel.java:184-188 | the loop initializes each sub-model in iteration order and stops at the first failure |
| DatabaseEntityModelObject.AnnotationKeysLoop | compiler/src/main/java/net/daverix/slingerorm/compiler/DatabaseEntityModel.java:424-441 | the loop collects the listed non-empty keys, failing on the first that is not a field in use |
| DatabaseEntityModelObject.MarkedKeysLoop | compiler/src/main/java/net/daverix/slingerorm/compiler/DatabaseEntityModel.java:407-422 | in any iteration order the loop collects exactly the `@PrimaryKey` fields |
| DatabaseEntityModelObject.CreateTableLoop | compiler/src/main/java/net/daverix/slingerorm/compiler/DatabaseEntityModel.java:689-748 | the loops build the statement as written, the foreign keys referencing the key's field |
| DatabaseEntityModelObject.KeyConditionsLoop | compiler/src/main/java/net/daverix/slingerorm/compiler/DatabaseEntityModel.java:797-804 | the loop adds one `column=?` per key and lists the keys as arguments in the same order |
| DatabaseEntityModelObject.NameLoop | compiler/src/main/java/net/daverix/slingerorm/compiler/DatabaseEntityModel.java:767-795 | the loop names each serializer class in order, recording the name for the first field found that uses it |
| DatabaseEntityModelObject.FindFieldNameForTypeElement | compiler/src/main/java/net/daverix/slingerorm/compiler/DatabaseEntityModel.java:788-795 | the first field in iteration order whose serializer is the class, or none when no field uses it |
| DatabaseEntityModelObject.DatabaseEntityModel.constructor | compiler/src/main/java/net/daverix/slingerorm/compiler/DatabaseEntityModel.java:113-142 | a new object holds its class and empty maps and sets |
| DatabaseEntityModelObject.DatabaseEntityModel.FindMapperPackageName | compiler/src/main/java/net/daverix/slingerorm/compiler/DatabaseEntityModel.java:334-336 | stores the package the element utilities report and changes nothing else |
| DatabaseEntityModelObject.DatabaseEntityModel.FindMapperClassName | compiler/src/main/java/net/daverix/slingerorm/compiler/DatabaseEntityModel.java:338-340 | stores the mapper class name and changes nothing else |
| DatabaseEntityModelObject.DatabaseEntityModel.FindEntityClassName | compiler/src/main/java/net/daverix/slingerorm/compiler/DatabaseEntityModel.java:342-344 | stores the entity's simple name and changes nothing else |
| DatabaseEntityModelObject.DatabaseEntityModel.FindTableName | compiler/src/main/java/net/daverix/slingerorm/compiler/DatabaseEntityModel.java:364-372 | stores the table name, or fails as the table name does |
| DatabaseEntityModelObject.DatabaseEntityModel.FindFieldsInUse | compiler/src/main/java/net/daverix/slingerorm/compiler/DatabaseEntityModel.java:374-388 | stores the fields in use by simple name, or fails when there are none |
| DatabaseEntityModelObject.DatabaseEntityModel.FindPrimaryKeyFields | compiler/src/main/java/net/daverix/slingerorm/compiler/DatabaseEntityModel.java:407-441 | stores the listed or marked keys, or fails as key resolution does |
| DatabaseEntityModelObject.DatabaseEntityModel.FindOnUpdateActions | compiler/src/main/java/net/daverix/slingerorm/compiler/DatabaseEntityModel.java:154-162 | stores every field's `OnUpdate` action |
| DatabaseEntityModelObject.DatabaseEntityModel.FindOnDeleteActions | compiler/src/main/java/net/daverix/slingerorm/compiler/DatabaseEntityModel.java:144-152 | stores every field's `OnDelete` action |
| DatabaseEntityModelObject.DatabaseEntityModel.FindSubModels | compiler/src/main/java/net/daverix/slingerorm/compiler/DatabaseEntityModel.java:164-182 | stores a new, uninitialized model for every field whose type is an entity class |
| DatabaseEntityModelObject.DatabaseEntityModel.FindColumnNames | compiler/src/main/java/net/daverix/slingerorm/compiler/DatabaseEntityModel.java:443-460 | stores every field's column name, or fails on an empty one |
| DatabaseEntityModelObject.DatabaseEntityModel.InitializeSubModels | compiler/src/main/java/net/daverix/slingerorm/compiler/DatabaseEntityModel.java:184-188 | replaces each sub-model by its initialized model, or fails with the first failure |
| DatabaseEntityModelObject.DatabaseEntityModel.FindGetFieldMethods | compiler/src/main/java/net/daverix/slingerorm/compiler/DatabaseEntityModel.java:299-318 | stores the `@GetField` methods by field, or fails on a malformed one |
| DatabaseEntityModelObject.DatabaseEntityModel.FindGetMethods | compiler/src/main/java/net/daverix/slingerorm/compiler/DatabaseEntityModel.java:259-296 | stores the conventional getters by field, or fails on a malformed one |
| DatabaseEntityModelObject.DatabaseEntityModel.FindGetFieldAccess | compiler/src/main/java/net/daverix/slingerorm/compiler/DatabaseEntityModel.java:320-332 | stores how each field is read, or fails when one cannot be |
| DatabaseEntityModelObject.DatabaseEntityModel.FindSetFieldMethods | compiler/src/main/java/net/daverix/slingerorm/compiler/DatabaseEntityModel.java:190-214 | stores the `@SetField` methods by field, or fails on a malformed one |
| DatabaseEntityModelObject.DatabaseEntityModel.FindSetMethods | compiler/src/main/java/net/daverix/slingerorm/compiler/DatabaseEntityModel.java:216-243 | stores the conventional setters by field, or fails on a malformed one |
| DatabaseEntityModelObject.DatabaseEntityModel.FindSetFieldAccess | compiler/src/main/java/net/daverix/slingerorm/compiler/DatabaseEntityModel.java:245-257 | stores how each field is written, or fails when one cannot be |
| DatabaseEntityModelObject.DatabaseEntityModel.FindSerializers | compiler/src/main/java/net/daverix/slingerorm/compiler/DatabaseEntityModel.java:462-472 | stores each field's serializer, or fails on a type variable |
| DatabaseEntityModelObject.DatabaseEntityModel.VerifySerializersMatchFields | compiler/src/main/java/net/daverix/slingerorm/compiler/DatabaseEntityModel.java:488-518 | passes iff every field's serializer has a `deserialize` method that the class's own comparison accepts |
| DatabaseEntityModelObject.DatabaseEntityModel.FindDatabaseTypesForFields | compiler/src/main/java/net/daverix/slingerorm/compiler/DatabaseEntityModel.java:521-527 | stores each column's SQL type, or fails as the first unresolved type does |
| DatabaseEntityModelObject.DatabaseEntityModel.FindCursorTypesForFields | compiler/src/main/java/net/daverix/slingerorm/compiler/DatabaseEntityModel.java:602-608 | stores each column's cursor getter, or fails as the first unresolved type does |
| DatabaseEntityModelObject.DatabaseEntityModel.GenerateCreateTableSql | compiler/src/main/java/net/daverix/slingerorm/compiler/DatabaseEntityModel.java:689-695 | stores the `CREATE TABLE` statement as written, or fails as building it does |
| DatabaseEntityModelObject.DatabaseEntityModel.GenerateNamesForSerializers | compiler/src/main/java/net/daverix/slingerorm/compiler/DatabaseEntityModel.java:767-795 | stores the serializer field names, one per serializer class under the first field found using it, or fails with nothing changed |
| DatabaseEntityModelObject.DatabaseEntityModel.GenerateItemSql | compiler/src/main/java/net/daverix/slingerorm/compiler/DatabaseEntityModel.java:797-804 | stores the row condition and its argument fields |
| DatabaseEntityModelObject.DatabaseEntityModel.FindEntityProperties | compiler/src/main/java/net/daverix/slingerorm/compiler/DatabaseEntityModel.java:113-123 | the first steps leave the discovered model with uninitialized sub-models |
| DatabaseEntityModelObject.DatabaseEntityModel.FindAccessors | compiler/src/main/java/net/daverix/slingerorm/compiler/DatabaseEntityModel.java:127-132 | the accessor steps leave the model the accessor resolution defines |
| DatabaseEntityModelObject.DatabaseEntityModel.FindVerifiedSerializers | compiler/src/main/java/net/daverix/slingerorm/compiler/DatabaseEntityModel.java:134-135 | the serializer steps leave the model the serializer resolution defines |
| DatabaseEntityModelObject.DatabaseEntityModel.GenerateSql | compiler/src/main/java/net/daverix/slingerorm/compiler/DatabaseEntityModel.java:137-141 | the generating steps leave the model generation defines |
| DatabaseEntityModelObject.DatabaseEntityModel.Initialize | compiler/src/main/java/net/daverix/slingerorm/compiler/DatabaseEntityModel.java:113-142 | `initialize` leaves exactly the resolved model of the class, or fails as the pipeline does |

## Left out

- The annotation-processor plumbing is not modelled: `process()`, the Filer,
  the Messager and the writing of source files. They are compiler I/O. The
  model's results are the values those writers would receive.
- The `MirroredTypeException` idiom used to read a `Class` value from an
  annotation is modelled as reading the mirror directly. This is what the
  idiom achieves.
- JavaPoet (`MethodSpec`, `TypeSpec`, `CodeBlock`) is a foreign library.
  Generated bodies are modelled as sequences of `Code` lines, each with its
  format string and arguments. The library's formatting of `$T`, `$N` and
  `$L` is not modelled.
- The visitors write into a builder with `fields` and `methods` lists, and
  read storage methods through the `directMethods` extension. That builder
  class and that extension are not part of this model (the
  `DatabaseStorageBuilder.kt` in the repository is an older, Writer-based
  class). Both are modelled from their use
  (compiler/src/main/java/net/daverix/slingerorm/compiler/DatabaseStorageProcessor.kt:66-74, compiler/src/main/java/net/daverix/slingerorm/compiler/SelectVisitor.kt:24-28).
- `getParameterVariable` (compiler/src/main/java/net/daverix/slingerorm/compiler/MethodSpecExtensions.kt:25) renders a parameter as a variable
  expression. It is a `render` function parameter of the visitors.
- `ElementUtils.java` in this version does not declare `isDate`,
  `findMethodWithName` and `TYPE_LONG`, which `DatabaseEntityModel.java`
  imports (compiler/src/main/java/net/daverix/slingerorm/compiler/DatabaseEntityModel.java:56-63). They are modelled from their use there: a class
  named `java.util.Date`, the first method with the given name, and the
  name `long`.
- `StorageBuilder.EntityParameter` and `DatabaseEntityModelKt.GetSerializerFieldName`
  model `asTypeElement()`, which no file of this model defines. The Kotlin
  visitors and entity model call it on an element
  (compiler/src/main/java/net/daverix/slingerorm/compiler/InsertVisitor.kt:25, compiler/src/main/java/net/daverix/slingerorm/compiler/UpdateVisitor.kt:25,
  compiler/src/main/java/net/daverix/slingerorm/compiler/ReplaceVisitor.kt:24, compiler/src/main/java/net/daverix/slingerorm/compiler/DeleteVisitor.kt:42,
  compiler/src/main/java/net/daverix/slingerorm/compiler/DatabaseEntityModel.kt:201). It is modelled from that use
  as `asElement()` (compiler/src/main/java/net/daverix/slingerorm/compiler/ElementExtensions.kt:42-54). So a
  parameter or field whose type is not declared is assumed to fail with
  the InvalidElementException "Element is not a declared type: …". A
  cast like the one at compiler/src/main/java/net/daverix/slingerorm/compiler/DatabaseStorageProcessor.kt:465-468
  would throw a ClassCastException instead.
- `DatabaseStorageProcessorKt.SelectPlanOf` formats the placeholder-mismatch
  message only as far as the `@Where` text goes. `%%` becomes `%`, and `%n`
  becomes a `\n` line break where Java writes the platform's line separator.
  Any other `%` is an IllegalFormatException. The model carries the format
  string as that exception's message, not the message the formatter
  writes. Java's formatter accepts some more specifiers without taking an
  argument: an explicit index such as `%1$d` or `%<d`, and a width or `-`
  flag on `%%`. The model rejects those too.
- `javac` prints a `TypeMirror` in a way that is only approximated. Error
  messages use `TypeToString`, which prints qualified names, type arguments
  and array brackets.
- `TypeMirror.equals` is modelled as value equality of mirrors.
- Entity names of nested classes are not modelled. A class's qualified
  name and simple name are fields of the model, and no enclosing class is
  represented.
- Self-referencing entities are not modelled. A class whose member types
  lead back to the class itself cannot be written as a value. The Java
  model's sub-model recursion terminates on the size of the class
  (`TypeSize`).
- Null arguments are not modelled. The `IllegalArgumentException` checks
  for a null element, type or name have no counterpart, because a value of
  the model is never null. Nullable results and annotation values are
  `Option`.
- Case mapping (`toLowerCase`, `toUpperCase`, `Character.toLowerCase`)
  covers ASCII letters only. Other characters are left unchanged.
- The Java `DatabaseEntityModel` keeps each sub-model as its own object.
  The model keeps it as the value of that object's fields, because no
  other reference to it exists.
- When an `initialize` step of the Java `DatabaseEntityModel` throws, the
  Java object has partly filled the step's map. The model leaves that
  field unchanged, and the object is abandoned after the exception either
  way.
- `DatabaseEntityModelJava.SubModelTypes`: the failure "Cannot get type
  from field" (compiler/src/main/java/net/daverix/slingerorm/compiler/DatabaseEntityModel.java:171-174) cannot arise in the model. A declared type
  always carries its class, so converting it to a type element never gives
  null.
- `DatabaseStorageProcessorKt.CreateMapperInfo`: `mapperHasDependencies`
  (compiler/src/main/java/net/daverix/slingerorm/compiler/DatabaseStorageProcessor.kt:460-464) is not carried. It looks up the generated
  `<Entity>Mapper.Builder` class in the compiler's element table, which the
  model does not have. Java `TypeName`s are modelled as their name
  strings.
- The Android runtime is not part of this model: `SQLiteStorage`, cursors,
  `ContentValues`, reflection-based mapper lookup and the concrete
  serializers. Floating-point value semantics are not modelled either.

## Findings

| source | as written | input that shows it | evidently intended | confidence | as-written member | corrected member |
|---|---|---|---|---|---|---|
| compiler/src/main/java/net/daverix/slingerorm/compiler/DatabaseEntityModel.java:733-735 | the foreign-key clause `REFERENCES T(x)` names the referenced entity's key FIELD | a referenced entity whose key field `id` is stored in column `_id`: the clause says `(id)`, a column that does not exist | name the key's column, as every other generated statement does | not executed | DatabaseEntityModelJava.CreateTableSqlAsWritten (with DatabaseEntityModelJava.ForeignKeyAsWrittenNamesNoColumn) | DatabaseEntityModelJava.CreateTableSql (with DatabaseEntityModelJava.ForeignKeysReferenceColumns) |
| compiler/src/main/java/net/daverix/slingerorm/compiler/DatabaseEntityModel.java:767-795 | each serializer gets one generated name, from the first field found that uses it; further fields are not looked up | fields `created` and `updated` sharing one date serializer: only one of them has a serializer name, so the mapper has no serializer for the other | every field with a serializer can look up its serializer's name | not executed | DatabaseEntityModelJava.NameSerializersAsWritten (with DatabaseEntityModelJava.NameSerializersAsWrittenMissesField) | DatabaseEntityModelJava.NameSerializers (with DatabaseEntityModelJava.NameSerializersFields) |
| compiler/src/main/java/net/daverix/slingerorm/compiler/TypeUtils.java:15-22 | `isTypeMirrorEqual(a, b)` compares `a`'s kind with itself and `a`'s element with itself; the Java entity model runs its own identical copy (compiler/src/main/java/net/daverix/slingerorm/compiler/DatabaseEntityModel.java:503-518) | `int` against `java.lang.String`: answers true, so an `int` field accepts a serializer whose `deserialize` returns `String` | true exactly when both mirrors are the same primitive kind or name the same class | not executed | TypeUtils.IsTypeMirrorEqualAsWritten (with TypeUtils.AsWrittenIntEqualsString) | TypeUtils.IsTypeMirrorEqual (with TypeUtils.IsTypeMirrorEqualProperties) |
| compiler/src/main/java/net/daverix/slingerorm/compiler/DatabaseEntityModel.kt:86-99 | when some field is marked `@PrimaryKey`, `primaryKeyFields` returns every column; the marked list only decides whether the annotation's keys are looked up | the sample entity with `id` marked and plain `message` and `Length`: every column is a key, so the table gets `PRIMARY KEY(id,message,Length)` and the single-item predicate `id = ? AND message = ? AND Length = ?` | the marked fields are the keys: the repository's mapping test (android/src/test/java/net/daverix/slingerorm/android/test/mapping/SimpleEntityMappingTest.java:99) expects `id TEXT NOT NULL PRIMARY KEY` for that entity | not executed | DatabaseEntityModelKt.PrimaryKeyFields (with DatabaseEntityModelKt.PrimaryKeyFieldsTakesAllColumns and CreateTableVisitor.SimpleEntityCreateTableSql) | DatabaseEntityModelKt.PrimaryKeyFieldsIntended (with DatabaseEntityModelKt.PrimaryKeyFieldsIntendedMarked and CreateTableVisitor.SimpleEntityText) |
| compiler/src/main/java/net/daverix/slingerorm/compiler/SelectVisitor.kt:161-168 | the array branch takes the component type of `getArrayType(returnType)`, which is the return type itself, an array, so it never names an entity | a `@Select` method returning `SimpleEntity[]`: rejected as not an entity | take the component type of the returned array | not executed | SelectVisitor.SelectArrayAsWritten (with SelectVisitor.SelectArrayAsWrittenRejects) | SelectVisitor.SelectArray (with SelectVisitor.SelectArrayAccepts) |
