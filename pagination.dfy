/**
 * LimitAndOffsetSQL: renders the pagination clause from optional limit and
 * offset values. The host's parseInt (a conversion of an arbitrary value to a
 * 64-bit integer that may fail) is a parameter.
 */
module Pagination {
  import opened Wrappers
  import opened Text

  type Int64 = x: int | -0x8000_0000_0000_0000 <= x < 0x8000_0000_0000_0000

  /** The pagination a rendered clause asks for. */
  datatype Page = Unbounded | Limit(limit: nat) | LimitOffset(limit: nat, offset: nat)

  function PageClause(p: Page): string {
    match p
    case Unbounded => ""
    case Limit(n) => " LIMIT " + Decimal(n)
    case LimitOffset(n, m) => " LIMIT " + Decimal(n) + " OFFSET " + Decimal(m)
  }

  /**
   * LimitAndOffsetSQL. A nil limit (None) or a negative one renders nothing,
   * whatever the offset is, so an offset that would not parse is never an
   * error then. A failed parse returns ("", error).
   */
  method LimitAndOffsetSQL<V, E>(limit: Option<V>, offset: Option<V>, parseInt: V -> Result<Int64, E>)
    returns (sql: string, err: Option<E>)
    ensures err.Some? ==> sql == ""
    ensures limit.None? ==> sql == "" && err.None?
    ensures limit.Some? ==>
      match parseInt(limit.value)
      case Err(e) => sql == "" && err == Some(e)
      case Ok(n) =>
        if n < 0 then sql == "" && err.None?
        else if offset.None? then sql == PageClause(Limit(n)) && err.None?
        else match parseInt(offset.value)
          case Err(e) => sql == "" && err == Some(e)
          case Ok(m) =>
            err.None? && sql == PageClause(if m < 0 then Limit(n) else LimitOffset(n, m))
  {
    sql, err := "", None;
    if limit.Some? {
      var parsedLimit := parseInt(limit.value);
      if parsedLimit.Err? {
        return "", Some(parsedLimit.error);
      }
      if parsedLimit.value >= 0 {
        sql := sql + " LIMIT " + Decimal(parsedLimit.value);
        if offset.Some? {
          var parsedOffset := parseInt(offset.value);
          if parsedOffset.Err? {
            return "", Some(parsedOffset.error);
          }
          if parsedOffset.value >= 0 {
            sql := sql + " OFFSET " + Decimal(parsedOffset.value);
          }
        }
      }
    }
  }

  /** Number of leading decimal digits of `s`. */
  function DigitPrefix(s: string): (k: nat)
    ensures k <= |s| && AllDigits(s[..k])
    ensures k < |s| ==> !IsDigit(s[k])
  {
    if s == [] || !IsDigit(s[0]) then 0
    else
      var k := 1 + DigitPrefix(s[1..]);
      assert s[..k] == [s[0]] + s[1..][..k - 1];
      k
  }

  /** Reads a rendered clause back into the pagination it asks for. */
  function ReadPageClause(s: string): Option<Page> {
    if s == "" then Some(Unbounded)
    else if |s| < 7 || s[..7] != " LIMIT " then None
    else ReadLimitAndOffset(s[7..])
  }

  /** Reads the text after " LIMIT ": digits, then optionally " OFFSET " and digits. */
  function ReadLimitAndOffset(rest: string): Option<Page> {
    var k := DigitPrefix(rest);
    if k == 0 then None
    else if k == |rest| then Some(Limit(DigitsValue(rest)))
    else match ReadOffset(rest[k..])
      case None => None
      case Some(m) => Some(LimitOffset(DigitsValue(rest[..k]), m))
  }

  function ReadOffset(tail: string): Option<nat> {
    if |tail| < 9 || tail[..8] != " OFFSET " || !AllDigits(tail[8..]) then None
    else Some(DigitsValue(tail[8..]))
  }

  lemma {:induction false} DigitPrefixOfDigits(d: string, t: string)
    requires AllDigits(d) && (t == [] || !IsDigit(t[0]))
    ensures DigitPrefix(d + t) == |d|
  {
    if d == [] {
      assert d + t == t;
    } else {
      assert (d + t)[1..] == d[1..] + t;
      DigitPrefixOfDigits(d[1..], t);
    }
  }

  /** The clause the renderer emits reads back as the pagination it was rendered from. */
  lemma ReadPageClauseOfPageClause(p: Page)
    ensures ReadPageClause(PageClause(p)) == Some(p)
  {
    match p
    case Unbounded =>
    case Limit(n) => ReadLimitClause(n);
    case LimitOffset(n, m) => ReadLimitOffsetClause(n, m);
  }

  lemma ReadLimitClause(n: nat)
    ensures ReadPageClause(" LIMIT " + Decimal(n)) == Some(Limit(n))
  {
    var s := " LIMIT " + Decimal(n);
    assert s[..7] == " LIMIT " && s[7..] == Decimal(n);
    DigitPrefixOfDigits(Decimal(n), "");
    assert Decimal(n) + "" == Decimal(n);
    DecimalReadsBack(n);
  }

  lemma ReadOffsetClause(m: nat)
    ensures ReadOffset(" OFFSET " + Decimal(m)) == Some(m)
  {
    var tail := " OFFSET " + Decimal(m);
    assert tail[..8] == " OFFSET " && tail[8..] == Decimal(m);
    DecimalReadsBack(m);
  }

  lemma ReadLimitOffsetClause(n: nat, m: nat)
    ensures ReadPageClause(" LIMIT " + Decimal(n) + " OFFSET " + Decimal(m)) == Some(LimitOffset(n, m))
  {
    var rest := Decimal(n) + (" OFFSET " + Decimal(m));
    var s := " LIMIT " + rest;
    assert s == " LIMIT " + Decimal(n) + " OFFSET " + Decimal(m);
    assert s[..7] == " LIMIT " && s[7..] == rest;
    ReadLimitOffsetText(n, m);
  }

  lemma ReadLimitOffsetText(n: nat, m: nat)
    ensures ReadLimitAndOffset(Decimal(n) + (" OFFSET " + Decimal(m))) == Some(LimitOffset(n, m))
  {
    var tail := " OFFSET " + Decimal(m);
    var rest := Decimal(n) + tail;
    DigitPrefixOfDigits(Decimal(n), tail);
    var k := |Decimal(n)|;
    assert rest[..k] == Decimal(n) && rest[k..] == tail;
    ReadOffsetClause(m);
    DecimalReadsBack(n);
  }

  lemma PageClauseExamples()
    ensures PageClause(LimitOffset(10, 5)) == " LIMIT 10 OFFSET 5"
    ensures PageClause(Limit(10)) == " LIMIT 10"
  {
  }
}
