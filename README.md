# DM dialect for the gorm mapping layer — a Dafny model

This project models the deterministic string logic of the DM (Dameng) database
dialect of gorm, `dialect_dm.go`:

- **the column-type mapper** `DataTypeOf`. It turns a struct field's reflected kind, size and explicit type into
  a column type string. It edits the field's tag settings in place: the `AUTO_INCREMENT` tag is removed, then set
  again for an integer column that the host's auto-increment policy admits. It panics on a kind it cannot map.
  It is modelled as the class `DataType.StructField` (tag map as a mutable field) with the method
  `DataType.DataTypeOf`. That method is proved to agree with the function `DataType.ColumnTypeOf`, whose contract
  states the mapping table;
- **the pagination renderer** `LimitAndOffsetSQL`. Optional limit and offset values become ` LIMIT n` and
  ` OFFSET m`, and a failed parse is returned as an error. It is modelled as a method without side effects.
  A reader `ReadPageClause` is proved to recover the pagination from the rendered text;
- **the key-name shortener** `BuildKeyName`. A name longer than 64 runes becomes (up to 24 runes of the sanitised first
  field) followed by the 40 lower-case hex digits of the SHA-1 digest of the name's UTF-8 bytes. The UTF-8
  encoding and the `%x` encoding are written out, and ReadHex inverts the hex encoding;
- **the index/column normaliser** `NormalizeIndexAndColumn`. The pattern `^(.+)\((\d+)\)$` is replaced by an
  explicit split position: a non-empty prefix without a newline (RE2's `.` does not match `\n`), `(`, a non-empty
  run of ASCII digits, and `)`. The split is unique, and the pieces rebuild the input;
- `Quote` and the constant getters `GetName` ("dm"), `SelectFromDummyTable` ("FROM DUAL") and
  `DefaultValueStr` ("VALUES()"). The three getters are constant functions without a contract, so they have no
  row below.

Modules: `Wrappers` (Option, Result), `Text` (`%d` of a non-negative integer, `strings.TrimSpace` with
`unicode.IsSpace`), `Encoding` (UTF-8 bytes of a rune string, `%x` of bytes), `DataType`, `Pagination`,
`KeyName`, `IndexName`, `Dialect`.

Inputs the model cannot see are parameters:
- the results of `ParseFieldStructForDialect`, as a `ParsedField`;
- `fieldCanAutoIncrement`, as a function of the field as it stands after the tag is removed;
- the host's `parseInt`, as a function from a value to a 64-bit integer or an error;
- `commonDialect.BuildKeyName`, the `keyNameRegex` sanitiser and SHA-1 (its result is a 20-byte digest).

Whether the reflected value holds a `time.Time`, and what `IsByteArrayOrSlice` says of it, are booleans of
`DataType.DataValue`. Go panics are modelled as `Err` results: the unmapped kind in `DataTypeOf`, and
`fields[0]` on an empty field list in `BuildKeyName`.

The code (dialect_dm.go:38-40) removes the `AUTO_INCREMENT` tag from every field first, including fields with
an explicit type. So after `DataTypeOf` the tag is present exactly when the kind switch chose an
`AUTO_INCREMENT` integer column.

## Model

| member | source | states |
|---|---|---|
| `DataType.DataTypeOf` | dialect_dm.go:33-128 | The value returned, and the field's tag settings afterwards, are those `ColumnTypeOf` gives for the field as it was before the call. |
| `DataType.SwitchOnKind` | dialect_dm.go:43-117 | The kind switch, run on the field after the tag is removed, returns the `KindType` column type. It sets the `AUTO_INCREMENT` tag again exactly for an integer kind the policy admits, and changes nothing else. |
| `DataType.IntegerColumn` | dialect_dm.go:47-52 | An integer branch: the base type plus " AUTO_INCREMENT" and the tag set, when the policy admits the field; otherwise the base type and the tags unchanged. |
| `DataType.ColumnTypeOf` | dialect_dm.go:38-127 | The `AUTO_INCREMENT` tag is present afterwards iff there is no explicit type, the kind is an integer kind and the policy admits the cleared field; its value is then `AUTO_INCREMENT`, and no other tag changes. A non-empty explicit type is used verbatim. Otherwise the kind switch decides. The call fails, naming type, kind and field, iff there is no explicit type and the kind is unmapped. |
| `DataType.KindType` | dialect_dm.go:43-117 | bool → `int`; each integer kind → its base type (`tinyint`, `int`, `tinyint unsigned`, `int unsigned`, `bigint`, `bigint unsigned`), plus " AUTO_INCREMENT" when eligible; floats → `double`; string → `varchar(size)` for 0 < size < 65532, else `varchar(102400)`; a byte array or slice of an unswitched kind → `varbinary(size)` under the same bounds, else `longblob`; time.Time → `DATETIME`, then `(p)` for a PRECISION tag p, then " NULL" unless NOT NULL is tagged or the field is a primary key. The result is empty iff the value is unmapped: a non-time struct, or an unswitched kind that is not a byte array or slice. |
| `DataType.Sized` | dialect_dm.go:91-95 | For 0 < size < 65532: the name, "(", a run of digits that reads back as size, and ")". Otherwise the fallback. |
| `DataType.WithAdditional` | dialect_dm.go:124-127 | The type alone when the additional type is all Unicode white space; otherwise type, one space, and the untrimmed additional type. |
| `Text.TrimSpace` | dialect_dm.go:124 | The result is empty iff every character is white space in the sense of `unicode.IsSpace`. A non-empty result neither starts nor ends with white space. It is the input with a blank prefix and a blank suffix removed. |
| `Text.LeadingSpaces` | dialect_dm.go:124 | The count of leading white-space characters: they are all white space, and the next one is not. |
| `Text.TrailingSpaces` | dialect_dm.go:124 | The count of trailing white-space characters: they are all white space, and the one before them is not. |
| `Text.Decimal` | dialect_dm.go:92 | `%d` of a non-negative integer is a non-empty run of digits with no leading zero, except for "0" itself. |
| `Text.DecimalReadsBack` | dialect_dm.go:147 | The digits `Decimal` prints read back as the number printed. |
| `Pagination.LimitAndOffsetSQL` | dialect_dm.go:140-161 | A nil limit, or one that parses negative, gives ("", no error) for every offset, even one that would not parse. A limit whose parse fails gives ("", that error). Otherwise ` LIMIT n`, followed by ` OFFSET m` only when the offset is present and parses to m ≥ 0. A negative offset is dropped, and an offset whose parse fails gives ("", that error). An error always comes with "". |
| `Pagination.DigitPrefix` | dialect_dm.go:147 | The count of leading digits of a string: all digits, and the next character is not one. |
| `Pagination.DigitPrefixOfDigits` | dialect_dm.go:147-155 | A run of digits followed by a non-digit (or nothing) has exactly its own length as its digit prefix. |
| `Pagination.ReadPageClauseOfPageClause` | dialect_dm.go:147-155 | Every rendered clause (none, ` LIMIT n`, ` LIMIT n OFFSET m`) reads back as the pagination it was rendered from. |
| `Pagination.ReadLimitClause` | dialect_dm.go:147 | ` LIMIT n` reads back as a limit of n without offset. |
| `Pagination.ReadOffsetClause` | dialect_dm.go:155 | ` OFFSET m` reads back as m. |
| `Pagination.ReadLimitOffsetClause` | dialect_dm.go:147-155 | ` LIMIT n OFFSET m` reads back as limit n, offset m. |
| `Pagination.ReadLimitOffsetText` | dialect_dm.go:147-155 | The text after ` LIMIT ` of a limit-and-offset clause reads back as limit n, offset m. |
| `Pagination.PageClauseExamples` | dialect_dm.go:147-155 | Limit 10 with offset 5 renders ` LIMIT 10 OFFSET 5`, and limit 10 alone renders ` LIMIT 10`. |
| `Encoding.EncodeRune` | dialect_dm.go:219 | One rune becomes 1, 2, 3 or 4 UTF-8 bytes by code-point range. The lead byte is below 0x80, in 0xC0-0xDF, in 0xE0-0xEF or in 0xF0-0xF7 to match, and continuation bytes are in 0x80-0xBF. The bytes decode back to the code point. |
| `Encoding.EncodeRunePrefixFree` | dialect_dm.go:219 | When one rune's encoding followed by x equals another's followed by y, the runes are equal and so are x and y. |
| `Encoding.Utf8` | dialect_dm.go:219 | `[]byte(s)` has at least one and at most four bytes per rune of s in total, and exactly one per rune for an ASCII string. |
| `Encoding.Utf8Injective` | dialect_dm.go:219 | Two strings have the same UTF-8 bytes iff they are equal. |
| `Encoding.HexDigit` | dialect_dm.go:228 | A nibble becomes a lower-case hex digit. |
| `Encoding.HexValue` | dialect_dm.go:228 | The nibble of a lower-case hex digit; `HexDigit` of it is that digit again. |
| `Encoding.LowerHex` | dialect_dm.go:228 | `%x` of n bytes is 2n characters, all lower-case hex digits. |
| `Encoding.ReadHexOfLowerHex` | dialect_dm.go:228 | `%x` text reads back as the bytes it was printed from. |
| `Encoding.LowerHexInjective` | dialect_dm.go:228 | Two byte strings print the same `%x` text iff they are equal. |
| `KeyName.DestPrefix` | dialect_dm.go:223-226 | The first min(24, length) runes of the sanitised first field. |
| `KeyName.BuildKeyName` | dialect_dm.go:213-229 | A base name of at most 64 runes is returned unchanged. A longer one with no fields fails with index out of range [0] with length 0. Otherwise the result is the at-most-24-rune prefix of the sanitised first field (24 runes, or the whole field when it is shorter), then 40 characters that read back as the SHA-1 digest of the base name's UTF-8 bytes. Every successful result has at most 64 runes. |
| `KeyName.DigestInputsDiffer` | dialect_dm.go:218-219 | Distinct base names give SHA-1 distinct byte strings. |
| `KeyName.ShortenedNamesDifferByDigest` | dialect_dm.go:218-228 | Two shortened names whose first fields give the same prefix are equal iff the digests of the two full names are equal. |
| `IndexName.SplitIsUnique` | dialect_dm.go:14 | The pattern splits a string in at most one place. |
| `IndexName.LastNonDigitBefore` | dialect_dm.go:14 | The last non-digit position below j, or -1; everything after it up to j is a digit. |
| `IndexName.FindSplit` | dialect_dm.go:14 | A non-negative result is a position where the pattern matches; a negative result means the pattern matches nowhere. |
| `IndexName.NormalizeIndexAndColumn` | dialect_dm.go:232-240 | When the index name matches with its `(` at i, the result is (the name before i, column + "(" + digits + ")"). When it does not match, both inputs come back unchanged. |
| `IndexName.NormalizeComposed` | dialect_dm.go:232-240 | p + "(" + d + ")", with p non-empty and newline-free and d non-empty digits, normalises to (p, column + "(" + d + ")"). |
| `IndexName.NormalizeRebuilds` | dialect_dm.go:232-240 | A matched index name is rebuilt as the returned name + "(" + d + ")". d is non-empty digits and is the suffix given to the column. |
| `IndexName.NormalizeExamples` | dialect_dm.go:232-240 | ("idx_foo(10)", "col") normalises to ("idx_foo", "col(10)"), and ("idx_plain", "col") comes back unchanged. |
| `Dialect.Quote` | dialect_dm.go:28-30 | The key between two double quotes, with nothing else changed or escaped. |

## Left out

- `HasForeignKey`, `HasTable`, `HasIndex`, `HasColumn`, `CurrentDatabase` (dialect_dm.go:163-207): their answers come from database queries, and `currentDatabaseAndTable` is not part of this model.
- `RemoveIndex`, `ModifyColumn` (dialect_dm.go:130-138): they execute DDL through the database handle, which is I/O.
- `init` and `RegisterDialect` (dialect_dm.go:20-22): a process-wide registry of dialects.
- The internals of SHA-1, `reflect`, `parseInt`, `fieldCanAutoIncrement`, `ParseFieldStructForDialect`, `IsByteArrayOrSlice`, `commonDialect.BuildKeyName` and `keyNameRegex`: these are parameters or booleans of the model, as above.
- The lock the host takes around tag-setting access: the model has no concurrency.
- Go panics are `Err` results. The model does not capture the unwinding of the caller.
- Go strings are byte strings. The model's strings are sequences of Unicode scalar values, so invalid UTF-8 (which Go reads as U+FFFD runes) is not modelled.
- Nothing is claimed about SHA-1 collisions. `KeyName.ShortenedNamesDifferByDigest` ties distinct shortened names to distinct digests, not to distinct inputs.
