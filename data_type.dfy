/**
 * DataTypeOf: the column type of a mapped struct field.
 *
 * ParseFieldStructForDialect (the host's reflection step) is not modelled;
 * its results arrive as a ParsedField. The host's auto-increment policy
 * (fieldCanAutoIncrement) is a parameter that sees the field as it stands
 * once the AUTO_INCREMENT tag has been removed.
 */
module DataType {
  import opened Wrappers
  import opened Text

  /** The kinds of Go's reflect package. */
  datatype Kind =
    | Invalid | Bool | Int | Int8 | Int16 | Int32 | Int64
    | Uint | Uint8 | Uint16 | Uint32 | Uint64 | Uintptr
    | Float32 | Float64 | Complex64 | Complex128
    | Array | Chan | Func | Interface | Map | Pointer | Slice | String | Struct | UnsafePointer

  /**
   * What DataTypeOf asks of the reflected value: its kind, its type name (for
   * the panic message), whether it holds a time.Time, and what
   * IsByteArrayOrSlice says of it.
   */
  datatype DataValue = DataValue(kind: Kind, typeName: string, isTime: bool, isByteArrayOrSlice: bool)

  /** The results of ParseFieldStructForDialect. */
  datatype ParsedField = ParsedField(value: DataValue, sqlType: string, size: int, additionalType: string)

  /** A snapshot of the field, as the auto-increment policy sees it. */
  datatype FieldView = FieldView(name: string, isPrimaryKey: bool, tags: map<string, string>)

  /** The panic for a field whose kind has no column type. */
  datatype DialectError = InvalidSqlType(typeName: string, kind: Kind, fieldName: string)

  /** The column type (or the panic) and the field's tag settings afterwards. */
  datatype Resolved = Resolved(sqlType: Result<string, DialectError>, tags: map<string, string>)

  const AUTO_INCREMENT := "AUTO_INCREMENT"
  const MAX_SIZED := 65532

  /** The field descriptor, whose tag settings DataTypeOf edits in place. */
  class StructField {
    const name: string
    const isPrimaryKey: bool
    var tagSettings: map<string, string>

    constructor (name: string, isPrimaryKey: bool, tagSettings: map<string, string>)
      ensures this.name == name && this.isPrimaryKey == isPrimaryKey && this.tagSettings == tagSettings
    {
      this.name := name;
      this.isPrimaryKey := isPrimaryKey;
      this.tagSettings := tagSettings;
    }

    function View(): (v: FieldView)
      reads this
      ensures v.name == name && v.isPrimaryKey == isPrimaryKey && v.tags == tagSettings
    {
      FieldView(name, isPrimaryKey, tagSettings)
    }

    method TagSettingsSet(key: string, value: string)
      modifies this
      ensures tagSettings == old(tagSettings)[key := value]
    {
      tagSettings := tagSettings[key := value];
    }

    method TagSettingsDelete(key: string)
      modifies this
      ensures tagSettings == old(tagSettings) - {key}
    {
      tagSettings := tagSettings - {key};
    }
  }

  /** The column type of the integer kinds, before any AUTO_INCREMENT. */
  function IntegerType(k: Kind): Option<string> {
    match k
    case Int8 => Some("tinyint")
    case Int | Int16 | Int32 => Some("int")
    case Uint8 => Some("tinyint unsigned")
    case Uint | Uint16 | Uint32 | Uintptr => Some("int unsigned")
    case Int64 => Some("bigint")
    case Uint64 => Some("bigint unsigned")
    case _ => None
  }

  /** The kinds the switch names; every other kind goes to its default branch. */
  predicate Switched(k: Kind) {
    k.Bool? || IntegerType(k).Some? || k.Float32? || k.Float64? || k.String? || k.Struct?
  }

  /** Whether the kind switch yields a column type for this value. */
  predicate Mapped(v: DataValue) {
    if v.kind.Struct? then v.isTime else Switched(v.kind) || v.isByteArrayOrSlice
  }

  function Cleared(f: FieldView): FieldView {
    f.(tags := f.tags - {AUTO_INCREMENT})
  }

  /** The field gets an AUTO_INCREMENT column: no explicit type, an integer kind, and the policy agrees. */
  predicate AutoIncrements(f: FieldView, p: ParsedField, canAutoIncrement: FieldView -> bool) {
    p.sqlType == "" && IntegerType(p.value.kind).Some? && canAutoIncrement(Cleared(f))
  }

  /** `name(size)` for a size in (0, 65532), the fallback otherwise. */
  function Sized(name: string, size: int, fallback: string): (r: string)
    ensures 0 < size < MAX_SIZED ==> r == name + "(" + Decimal(size) + ")"
    ensures 0 < size < MAX_SIZED ==>
      |r| > |name| + 2 && r[..|name| + 1] == name + "(" && r[|r| - 1] == ')'
      && AllDigits(r[|name| + 1..|r| - 1]) && DigitsValue(r[|name| + 1..|r| - 1]) == size
    ensures !(0 < size < MAX_SIZED) ==> r == fallback
  {
    if size > 0 && size < MAX_SIZED then
      var r := name + "(" + Decimal(size) + ")";
      assert r[|name| + 1..|r| - 1] == Decimal(size);
      DecimalReadsBack(size);
      r
    else fallback
  }

  /** DATETIME with the PRECISION tag, and NULL unless the field is NOT NULL or a primary key. */
  function TimeType(f: FieldView): string {
    var precision := if "PRECISION" in f.tags then "(" + f.tags["PRECISION"] + ")" else "";
    if "NOT NULL" in f.tags || f.isPrimaryKey then "DATETIME" + precision else "DATETIME" + precision + " NULL"
  }

  /** The kind switch: the column type for a field without an explicit type, "" when unmapped. */
  function KindType(f: FieldView, v: DataValue, size: int, autoIncrement: bool): (r: string)
    ensures r == "" <==> !Mapped(v)
    ensures IntegerType(v.kind).Some? ==>
      r == IntegerType(v.kind).value + (if autoIncrement then " AUTO_INCREMENT" else "")
    ensures v.kind.Bool? ==> r == "int"
    ensures v.kind.Float32? || v.kind.Float64? ==> r == "double"
    ensures v.kind.String? ==>
      r == if 0 < size < MAX_SIZED then "varchar(" + Decimal(size) + ")" else "varchar(102400)"
    ensures !Switched(v.kind) && v.isByteArrayOrSlice ==>
      r == if 0 < size < MAX_SIZED then "varbinary(" + Decimal(size) + ")" else "longblob"
    ensures v.kind.Struct? && v.isTime ==>
      var precision := if "PRECISION" in f.tags then "(" + f.tags["PRECISION"] + ")" else "";
      var nullable := !("NOT NULL" in f.tags) && !f.isPrimaryKey;
      r == "DATETIME" + precision + (if nullable then " NULL" else "")
  {
    var suffix := if autoIncrement then " AUTO_INCREMENT" else "";
    match v.kind
    case Bool => "int"
    case Int8 => "tinyint" + suffix
    case Int | Int16 | Int32 => "int" + suffix
    case Uint8 => "tinyint unsigned" + suffix
    case Uint | Uint16 | Uint32 | Uintptr => "int unsigned" + suffix
    case Int64 => "bigint" + suffix
    case Uint64 => "bigint unsigned" + suffix
    case Float32 | Float64 => "double"
    case String => Sized("varchar", size, "varchar(102400)")
    case Struct => if v.isTime then TimeType(f) else ""
    case _ => if v.isByteArrayOrSlice then Sized("varbinary", size, "longblob") else ""
  }

  /** Appends the additional type unless it is only white space. */
  function WithAdditional(sqlType: string, additionalType: string): (r: string)
    ensures IsBlank(additionalType) ==> r == sqlType
    ensures !IsBlank(additionalType) ==> r == sqlType + " " + additionalType
  {
    if TrimSpace(additionalType) == "" then sqlType else sqlType + " " + additionalType
  }

  /** What DataTypeOf returns and leaves in the field's tag settings. */
  function ColumnTypeOf(f: FieldView, p: ParsedField, canAutoIncrement: FieldView -> bool): (r: Resolved)
    // The AUTO_INCREMENT tag: present afterwards exactly for an auto-increment column, and no other tag changes.
    ensures AUTO_INCREMENT in r.tags <==> AutoIncrements(f, p, canAutoIncrement)
    ensures AUTO_INCREMENT in r.tags ==> r.tags[AUTO_INCREMENT] == AUTO_INCREMENT
    ensures r.tags - {AUTO_INCREMENT} == f.tags - {AUTO_INCREMENT}
    // An explicit type is used verbatim; otherwise the kind switch decides, on the field without the tag.
    ensures p.sqlType != "" ==> r.sqlType == Ok(WithAdditional(p.sqlType, p.additionalType))
    ensures p.sqlType == "" && Mapped(p.value) ==>
      r.sqlType == Ok(WithAdditional(KindType(Cleared(f), p.value, p.size, AutoIncrements(f, p, canAutoIncrement)),
                                     p.additionalType))
    // Unmapped kinds panic, naming the field.
    ensures r.sqlType.Err? <==> p.sqlType == "" && !Mapped(p.value)
    ensures r.sqlType.Err? ==> r.sqlType.error == InvalidSqlType(p.value.typeName, p.value.kind, f.name)
  {
    var cleared := Cleared(f);
    var autoIncrement := AutoIncrements(f, p, canAutoIncrement);
    var sqlType := if p.sqlType != "" then p.sqlType else KindType(cleared, p.value, p.size, autoIncrement);
    var tags := if autoIncrement then cleared.tags[AUTO_INCREMENT := AUTO_INCREMENT] else cleared.tags;
    if sqlType == "" then
      Resolved(Err(InvalidSqlType(p.value.typeName, p.value.kind, f.name)), tags)
    else
      Resolved(Ok(WithAdditional(sqlType, p.additionalType)), tags)
  }

  /**
   * DataTypeOf on the field descriptor: removes the AUTO_INCREMENT tag, picks
   * the column type by kind (setting the tag again for an auto-increment
   * integer column), and panics on a kind it cannot map.
   */
  method DataTypeOf(field: StructField, parsed: ParsedField, canAutoIncrement: FieldView -> bool)
    returns (r: Result<string, DialectError>)
    modifies field
    ensures var resolved := ColumnTypeOf(old(field.View()), parsed, canAutoIncrement);
      r == resolved.sqlType && field.tagSettings == resolved.tags
  {
    ghost var before := field.View();
    var sqlType := parsed.sqlType;

    if AUTO_INCREMENT in field.tagSettings {
      field.TagSettingsDelete(AUTO_INCREMENT);
    }
    assert field.View() == Cleared(before);

    if sqlType == "" {
      sqlType := SwitchOnKind(field, parsed.value, parsed.size, canAutoIncrement);
    }

    if sqlType == "" {
      return Err(InvalidSqlType(parsed.value.typeName, parsed.value.kind, field.name));
    }

    if TrimSpace(parsed.additionalType) == "" {
      return Ok(sqlType);
    }
    return Ok(sqlType + " " + parsed.additionalType);
  }

  /** An integer column: AUTO_INCREMENT, and the tag set again, when the policy admits the field. */
  method IntegerColumn(field: StructField, base: string, canAutoIncrement: FieldView -> bool)
    returns (sqlType: string)
    modifies field
    ensures sqlType == base + if canAutoIncrement(old(field.View())) then " AUTO_INCREMENT" else ""
    ensures field.tagSettings == if canAutoIncrement(old(field.View()))
      then old(field.tagSettings)[AUTO_INCREMENT := AUTO_INCREMENT] else old(field.tagSettings)
  {
    if canAutoIncrement(field.View()) {
      field.TagSettingsSet(AUTO_INCREMENT, AUTO_INCREMENT);
      sqlType := base + " AUTO_INCREMENT";
    } else {
      sqlType := base;
    }
  }

  /** The switch on the value's kind, for a field without an explicit type. */
  method SwitchOnKind(field: StructField, value: DataValue, size: int, canAutoIncrement: FieldView -> bool)
    returns (sqlType: string)
    modifies field
    ensures var autoIncrement := IntegerType(value.kind).Some? && canAutoIncrement(old(field.View()));
      && sqlType == KindType(old(field.View()), value, size, autoIncrement)
      && field.tagSettings == if autoIncrement then old(field.tagSettings)[AUTO_INCREMENT := AUTO_INCREMENT]
                              else old(field.tagSettings)
  {
    sqlType := "";
    match value.kind
    case Bool =>
      sqlType := "int";
    case Int8 =>
      sqlType := IntegerColumn(field, "tinyint", canAutoIncrement);
    case Int | Int16 | Int32 =>
      sqlType := IntegerColumn(field, "int", canAutoIncrement);
    case Uint8 =>
      sqlType := IntegerColumn(field, "tinyint unsigned", canAutoIncrement);
    case Uint | Uint16 | Uint32 | Uintptr =>
      sqlType := IntegerColumn(field, "int unsigned", canAutoIncrement);
    case Int64 =>
      sqlType := IntegerColumn(field, "bigint", canAutoIncrement);
    case Uint64 =>
      sqlType := IntegerColumn(field, "bigint unsigned", canAutoIncrement);
    case Float32 | Float64 =>
      sqlType := "double";
    case String =>
      if size > 0 && size < MAX_SIZED {
        sqlType := "varchar(" + Decimal(size) + ")";
      } else {
        sqlType := "varchar(102400)";
      }
    case Struct =>
      if value.isTime {
        var precision := "";
        if "PRECISION" in field.tagSettings {
          precision := "(" + field.tagSettings["PRECISION"] + ")";
        }
        if "NOT NULL" in field.tagSettings || field.isPrimaryKey {
          sqlType := "DATETIME" + precision;
        } else {
          sqlType := "DATETIME" + precision + " NULL";
        }
      }
    case _ =>
      if value.isByteArrayOrSlice {
        if size > 0 && size < MAX_SIZED {
          sqlType := "varbinary(" + Decimal(size) + ")";
        } else {
          sqlType := "longblob";
        }
      }
  }
}
