/** The dialect's name, identifier quoting and fixed SQL fragments. */
module Dialect {

  function GetName(): string {
    "dm"
  }

  /** Wraps a key in double quotes; quotes inside the key are not escaped. */
  function Quote(key: string): (r: string)
    ensures |r| == |key| + 2 && r[0] == '"' && r[|r| - 1] == '"'
    ensures r[1..|r| - 1] == key
  {
    "\"" + key + "\""
  }

  /** The engine's dummy-table idiom for a SELECT without a table. */
  function SelectFromDummyTable(): string {
    "FROM DUAL"
  }

  /** The VALUES fragment for an insert that supplies only defaults. */
  function DefaultValueStr(): string {
    "VALUES()"
  }
}
