/** `CryptoQuoteService`: the field checks `save_crypto_quote` runs before it
    touches the store, the conversions applied to an accepted quote, and the
    volume filter of the per-symbol statistics. The store is a sequence of
    rows; whether the commit succeeds is an input. */
module CryptoQuoteService {
  import opened Common

  /** The values a quote dict may hold, as far as the checks distinguish
      them. */
  datatype PyValue = Str(s: string) | Int(i: int) | Null

  /** Why a quote is refused, in the order the checks run. */
  datatype Rejection = EmptySymbol | EmptyFullSymbol | InvalidPrice | InvalidTimestamp

  /** A `CryptoQuote` row: price and volume as text, the timestamp as an
      integer (milliseconds). */
  datatype CryptoQuoteRow = CryptoQuoteRow(symbol: PyValue, s: PyValue, p: string,
                                           v: string, t: int)

  /** Python truthiness: the empty string, 0 and None are false. */
  predicate Truthy(x: PyValue)
  {
    match x
    case Str(s) => s != ""
    case Int(i) => i != 0
    case Null => false
  }

  /** The dict reads of lines 23-27 with their defaults. */
  function SymbolOf(data: map<string, PyValue>): PyValue { GetOr(data, "symbol", Str("")) }
  function FullSymbolOf(data: map<string, PyValue>): PyValue { GetOr(data, "s", Str("")) }
  function PriceOf(data: map<string, PyValue>): PyValue { GetOr(data, "p", Str("0")) }
  function VolumeOf(data: map<string, PyValue>): PyValue { GetOr(data, "v", Str("0")) }
  function TimestampOf(data: map<string, PyValue>): PyValue { GetOr(data, "t", Int(0)) }

  /** The checks of lines 29-43, in order. Only the exact text "0" is
      refused as a zero price; a spelling such as "0.0" passes. */
  function Check(data: map<string, PyValue>): (r: Option<Rejection>)
    ensures r == Some(EmptySymbol) <==> !Truthy(SymbolOf(data))
    ensures r == Some(EmptyFullSymbol) <==> Truthy(SymbolOf(data)) && !Truthy(FullSymbolOf(data))
    ensures r == Some(InvalidPrice) <==>
              Truthy(SymbolOf(data)) && Truthy(FullSymbolOf(data))
              && (!Truthy(PriceOf(data)) || PriceOf(data) == Str("0"))
    ensures r == Some(InvalidTimestamp) <==>
              Truthy(SymbolOf(data)) && Truthy(FullSymbolOf(data))
              && Truthy(PriceOf(data)) && PriceOf(data) != Str("0")
              && !Truthy(TimestampOf(data))
    ensures r.None? ==> Truthy(PriceOf(data)) && Truthy(TimestampOf(data))
  {
    var symbol, s, p, t := SymbolOf(data), FullSymbolOf(data), PriceOf(data), TimestampOf(data);
    if !Truthy(symbol) then Some(EmptySymbol)
    else if !Truthy(s) then Some(EmptyFullSymbol)
    else if !Truthy(p) || p == Str("0") then Some(InvalidPrice)
    else if !Truthy(t) || t == Int(0) then Some(InvalidTimestamp)
    else None
  }

  function DigitChar(d: nat): (c: char)
    requires d < 10
  {
    "0123456789"[d]
  }

  function DigitValue(c: char): nat
  {
    if '0' <= c <= '9' then (c as int - '0' as int) as nat else 0
  }

  predicate IsDigit(c: char)
  {
    '0' <= c <= '9'
  }

  /** The decimal text of a natural number. */
  function NatText(n: nat): (r: string)
    ensures |r| >= 1
    ensures forall c :: c in r ==> IsDigit(c)
    decreases n
  {
    if n < 10 then [DigitChar(n)] else NatText(n / 10) + [DigitChar(n % 10)]
  }

  /** `str()` of a value. */
  function Text(x: PyValue): string
  {
    match x
    case Str(s) => s
    case Int(i) => if i < 0 then "-" + NatText(-i) else NatText(i)
    case Null => "None"
  }

  /** The value of a string of decimal digits. */
  function DigitsValue(s: string): nat
    decreases |s|
  {
    if |s| == 0 then 0 else DigitsValue(s[..|s| - 1]) * 10 + DigitValue(s[|s| - 1])
  }

  /** `int()` of a value: an integer is kept, a non-empty string of decimal
      digits is read, anything else raises (None). */
  function IntOf(x: PyValue): (r: Option<int>)
    ensures x.Int? ==> r == Some(x.i)
    ensures x.Null? ==> r.None?
  {
    match x
    case Int(i) => Some(i)
    case Str(s) => if |s| > 0 && forall c :: c in s ==> IsDigit(c) then Some(DigitsValue(s)) else None
    case Null => None
  }

  /** Reading back the decimal text of a natural number gives the number. */
  lemma {:induction false} NatTextRoundTrip(n: nat)
    ensures DigitsValue(NatText(n)) == n
    decreases n
  {
    if n >= 10 {
      NatTextRoundTrip(n / 10);
      var r := NatText(n);
      assert r[..|r| - 1] == NatText(n / 10);
    }
  }

  /** An integer timestamp sent as its decimal text is stored as the same
      integer. */
  lemma TimestampTextRoundTrip(n: nat)
    ensures IntOf(Str(NatText(n))) == Some(n)
  {
    NatTextRoundTrip(n);
  }

  /** The row stored for an accepted quote, or None when `int(t)` raises. */
  function RowOf(data: map<string, PyValue>): (r: Option<CryptoQuoteRow>)
    ensures r.Some? <==> IntOf(TimestampOf(data)).Some?
    ensures r.Some? ==> r.value.symbol == SymbolOf(data) && r.value.s == FullSymbolOf(data)
    ensures r.Some? ==> r.value.p == Text(PriceOf(data)) && r.value.v == Text(VolumeOf(data))
    ensures r.Some? ==> r.value.t == IntOf(TimestampOf(data)).value
  {
    match IntOf(TimestampOf(data))
    case None => None
    case Some(t) =>
      Some(CryptoQuoteRow(SymbolOf(data), FullSymbolOf(data), Text(PriceOf(data)),
                          Text(VolumeOf(data)), t))
  }

  /** A quote without a volume is stored with volume "0". */
  lemma MissingVolumeStoredAsZero(data: map<string, PyValue>)
    requires "v" !in data && RowOf(data).Some?
    ensures RowOf(data).value.v == "0"
  {
  }

  /** The volumes the statistics add up: empty values and the text "0" are
      dropped, everything else is kept in order. */
  function CountedVolumes(vs: seq<string>): (r: seq<string>)
    ensures forall x :: x in r <==> x in vs && x != "" && x != "0"
    ensures forall x :: x != "" && x != "0" ==> multiset(r)[x] == multiset(vs)[x]
    ensures multiset(r)[""] == 0 && multiset(r)["0"] == 0
    ensures |r| <= |vs|
  {
    if |vs| == 0 then []
    else
      assert vs == [vs[0]] + vs[1..];
      (if vs[0] != "" && vs[0] != "0" then [vs[0]] else []) + CountedVolumes(vs[1..])
  }

  class CryptoQuoteStore {
    var rows: seq<CryptoQuoteRow>

    constructor ()
      ensures rows == []
    {
      rows := [];
    }

    /** `save_crypto_quote`: a quote that fails a check is refused before
        the store is touched; an accepted one is converted and appended when
        the conversion and the commit succeed. The result reports whether a
        row was appended. */
    method SaveCryptoQuote(data: map<string, PyValue>, commitOk: bool) returns (ok: bool)
      modifies this
      ensures Check(data).Some? ==> !ok && rows == old(rows)
      ensures ok <==> Check(data).None? && RowOf(data).Some? && commitOk
      ensures ok ==> rows == old(rows) + [RowOf(data).value]
      ensures !ok ==> rows == old(rows)
    {
      var rejection := Check(data);
      if rejection.Some? {
        return false;
      }
      var row := RowOf(data);
      if row.None? || !commitOk {
        return false;
      }
      rows := rows + [row.value];
      return true;
    }
  }
}
