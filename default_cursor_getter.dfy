/** `DefaultCursorGetter` (older Java generation): the expression that reads
    one column of a cursor.
 */
module DefaultCursorGetter {
  import opened Wrappers

  /** The cursor value kinds the Java generation distinguishes.  The enum's
      declaration is not part of this model; these are the constants the
      compiler refers to. */
  datatype CursorType = BOOLEAN | SHORT | INT | LONG | FLOAT | DOUBLE | STRING | BYTE_ARRAY

  /** `getStringRepresentation`: the cursor method suffix, or null for an
      unmapped kind (only BOOLEAN). */
  function StringRepresentation(cursorType: CursorType): (r: Option<string>)
    ensures r.None? <==> cursorType == BOOLEAN
    ensures r.Some? ==> |r.value| >= 3
  {
    match cursorType
    case SHORT => Some("Short")
    case INT => Some("Int")
    case LONG => Some("Long")
    case FLOAT => Some("Float")
    case DOUBLE => Some("Double")
    case STRING => Some("String")
    case BYTE_ARRAY => Some("Blob")
    case BOOLEAN => None
  }

  /** `%s` of a possibly null string. */
  function Formatted(s: Option<string>): string {
    if s.None? then "null" else s.value
  }

  /** `get`: BOOLEAN reads a short and compares it with 1, taking the raw
      column name as the index; every other kind looks the index up by name
      and calls the kind's getter. */
  function Get(cursorType: CursorType, columnName: string, cursorVariableName: string): (r: string)
    ensures cursorType == BOOLEAN ==> r == cursorVariableName + ".getShort(" + columnName + ") == 1"
    ensures cursorType != BOOLEAN ==>
              r == cursorVariableName + ".get" + StringRepresentation(cursorType).value + "("
                   + cursorVariableName + ".getColumnIndex(\"" + columnName + "\"))"
  {
    if cursorType == BOOLEAN then
      cursorVariableName + ".getShort(" + columnName + ") == 1"
    else
      cursorVariableName + ".get" + Formatted(StringRepresentation(cursorType)) + "("
      + cursorVariableName + ".getColumnIndex(\"" + columnName + "\"))"
  }

  /** The two letters after `.get` identify the kind: no two cursor types
      read a column through the same getter. */
  lemma GetIdentifiesType(t1: CursorType, t2: CursorType, columnName: string, cursor: string)
    requires t1 != BOOLEAN && t2 != BOOLEAN
    requires Get(t1, columnName, cursor) == Get(t2, columnName, cursor)
    ensures t1 == t2
  {
    var k := |cursor| + 4;
    var g1 := Get(t1, columnName, cursor);
    var g2 := Get(t2, columnName, cursor);
    var r1 := StringRepresentation(t1).value;
    var r2 := StringRepresentation(t2).value;
    assert g1[k..k + 2] == r1[..2];
    assert g2[k..k + 2] == r2[..2];
    assert r1[..2] == r2[..2];
    assert r1[0] == r2[0] && r1[1] == r2[1];
  }
}
