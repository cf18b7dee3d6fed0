/**
 * BuildKeyName: key and index names longer than the engine's 64-character
 * identifier limit are shortened to a prefix of the first field's sanitised
 * name followed by the SHA-1 digest of the full name in lower-case hex.
 *
 * The shared base algorithm (commonDialect.BuildKeyName), the keyNameRegex
 * sanitiser and SHA-1 itself are parameters. Strings are sequences of runes.
 */
module KeyName {
  import opened Wrappers
  import opened Encoding

  const MAX_KEY_NAME := 64
  const PREFIX_RUNES := 24

  type Sha1Digest = s: seq<Byte> | |s| == 20 witness [0, 0, 0, 0, 0, 0, 0, 0, 0, 0, 0, 0, 0, 0, 0, 0, 0, 0, 0, 0]

  /** The run-time panic of `fields[0]` on an empty field list. */
  datatype Panic = IndexOutOfRange(index: int, length: int)

  /** The first (at most 24) runes of the sanitised first field. */
  function DestPrefix(dest: string): (r: string)
    ensures |r| <= PREFIX_RUNES && |r| <= |dest| && r == dest[..|r|]
    ensures |dest| <= PREFIX_RUNES ==> r == dest
    ensures |dest| > PREFIX_RUNES ==> |r| == PREFIX_RUNES
  {
    if |dest| > PREFIX_RUNES then dest[..PREFIX_RUNES] else dest
  }

  /**
   * `name` is a shortened key name: a prefix of at most 24 runes of `dest`,
   * then 40 characters that read back as `digest`.
   */
  ghost predicate ShortenedFrom(name: string, dest: string, digest: Sha1Digest) {
    var p := |name| - 40;
    0 <= p <= PREFIX_RUNES && p <= |dest|
    && name[..p] == dest[..p]
    && (p == PREFIX_RUNES || p == |dest|)
    && ReadHex(name[p..]) == Some(digest)
  }

  function BuildKeyName(kind: string, tableName: string, fields: seq<string>,
                        commonBuildKeyName: (string, string, seq<string>) -> string,
                        sanitize: string -> string,
                        sha1: seq<Byte> -> Sha1Digest): (r: Result<string, Panic>)
    ensures var keyName := commonBuildKeyName(kind, tableName, fields);
      && (|keyName| <= MAX_KEY_NAME ==> r == Ok(keyName))
      && (|keyName| > MAX_KEY_NAME && fields == [] ==> r == Err(IndexOutOfRange(0, 0)))
      && (|keyName| > MAX_KEY_NAME && fields != [] ==>
            r.Ok? && ShortenedFrom(r.value, sanitize(fields[0]), sha1(Utf8(keyName))))
    ensures r.Ok? ==> |r.value| <= MAX_KEY_NAME
  {
    var keyName := commonBuildKeyName(kind, tableName, fields);
    if |keyName| <= MAX_KEY_NAME then Ok(keyName)
    else if fields == [] then Err(IndexOutOfRange(0, 0))
    else
      var bs := sha1(Utf8(keyName));
      var dest := DestPrefix(sanitize(fields[0]));
      var name := dest + LowerHex(bs);
      assert name[..|dest|] == dest && name[|dest|..] == LowerHex(bs);
      ReadHexOfLowerHex(bs);
      Ok(name)
  }

  /** Distinct base names give SHA-1 distinct byte strings. */
  lemma DigestInputsDiffer(kind1: string, table1: string, fields1: seq<string>,
                           kind2: string, table2: string, fields2: seq<string>,
                           commonBuildKeyName: (string, string, seq<string>) -> string)
    requires commonBuildKeyName(kind1, table1, fields1) != commonBuildKeyName(kind2, table2, fields2)
    ensures Utf8(commonBuildKeyName(kind1, table1, fields1)) != Utf8(commonBuildKeyName(kind2, table2, fields2))
  {
    Utf8Injective(commonBuildKeyName(kind1, table1, fields1), commonBuildKeyName(kind2, table2, fields2));
  }

  /**
   * Two shortened names whose first fields sanitise to the same prefix are
   * equal exactly when the digests of the full names are.
   */
  lemma ShortenedNamesDifferByDigest(kind1: string, table1: string, fields1: seq<string>,
                                     kind2: string, table2: string, fields2: seq<string>,
                                     commonBuildKeyName: (string, string, seq<string>) -> string,
                                     sanitize: string -> string,
                                     sha1: seq<Byte> -> Sha1Digest)
    requires var k1 := commonBuildKeyName(kind1, table1, fields1);
      var k2 := commonBuildKeyName(kind2, table2, fields2);
      |k1| > MAX_KEY_NAME && |k2| > MAX_KEY_NAME && fields1 != [] && fields2 != []
    requires DestPrefix(sanitize(fields1[0])) == DestPrefix(sanitize(fields2[0]))
    ensures var k1 := commonBuildKeyName(kind1, table1, fields1);
      var k2 := commonBuildKeyName(kind2, table2, fields2);
      BuildKeyName(kind1, table1, fields1, commonBuildKeyName, sanitize, sha1)
        == BuildKeyName(kind2, table2, fields2, commonBuildKeyName, sanitize, sha1)
      <==> sha1(Utf8(k1)) == sha1(Utf8(k2))
  {
    var k1 := commonBuildKeyName(kind1, table1, fields1);
    var k2 := commonBuildKeyName(kind2, table2, fields2);
    var d := DestPrefix(sanitize(fields1[0]));
    var h1, h2 := LowerHex(sha1(Utf8(k1))), LowerHex(sha1(Utf8(k2)));
    LowerHexInjective(sha1(Utf8(k1)), sha1(Utf8(k2)));
    if d + h1 == d + h2 {
      assert h1 == (d + h1)[|d|..] == (d + h2)[|d|..] == h2;
    }
  }
}
