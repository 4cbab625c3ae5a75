/** The validated trade record (app/models/trade.py): one executed fill,
    with the two field validators that run when a `Trade` is constructed. */
module Trades {
  import opened Results

  datatype Side = Buy | Sell

  /** An executed fill. Prices and quantities are exact decimals, modelled
      as `real`; the timestamp is epoch seconds and is never interpreted. */
  datatype Trade = Trade(id: int, symbol: string, side: Side, price: real, quantity: real, timestamp: int)
  {
    /** What every constructed trade satisfies: both validators passed. */
    predicate WellFormed() {
      price > 0.0 && quantity > 0.0 && IsUpperAscii(symbol)
    }
  }

  /** The fields that `must_be_positive` guards. */
  datatype Field = Price | Quantity

  /** A rejected construction: every guarded field that failed, in
      declaration order (price before quantity). */
  datatype ValidationError = ValidationError(fields: seq<Field>)

  const PositiveMessage := "Must be greater than 0"

  /** `must_be_positive`: a positive value passes through unchanged, any
      other value is rejected. */
  function MustBePositive(v: real): (r: Result<real, string>)
    ensures r.Success? <==> v > 0.0
    ensures r.Success? ==> r.value == v
    ensures r.Failure? ==> r.error == PositiveMessage
  {
    if v <= 0.0 then Failure(PositiveMessage) else Success(v)
  }

  predicate IsLowerAscii(c: char) {
    'a' <= c <= 'z'
  }

  /** No character of `s` is a lower-case ASCII letter. */
  predicate IsUpperAscii(s: string) {
    forall i :: 0 <= i < |s| ==> !IsLowerAscii(s[i])
  }

  /** Upper-casing of one character, over ASCII. */
  function UpperChar(c: char): (u: char)
    ensures !IsLowerAscii(u)
    ensures !IsLowerAscii(c) ==> u == c
    ensures IsLowerAscii(c) ==> 'A' <= u <= 'Z' && u as int - 'A' as int == c as int - 'a' as int
  {
    if IsLowerAscii(c) then (c as int - 'a' as int + 'A' as int) as char else c
  }

  /** `normalize_symbol`: the symbol upper-cased character by character. */
  function NormalizeSymbol(v: string): (r: string)
    ensures |r| == |v|
    ensures IsUpperAscii(r)
    ensures forall i :: 0 <= i < |v| ==> r[i] == UpperChar(v[i])
    decreases |v|
  {
    if v == [] then [] else NormalizeSymbol(v[..|v| - 1]) + [UpperChar(v[|v| - 1])]
  }

  /** An already upper-case symbol is stored as given. */
  lemma NormalizeSymbolKeepsUpper(v: string)
    requires IsUpperAscii(v)
    ensures NormalizeSymbol(v) == v
  {
    var r := NormalizeSymbol(v);
    assert forall i :: 0 <= i < |v| ==> r[i] == v[i];
  }

  /** Normalising twice is normalising once. */
  lemma NormalizeSymbolIdempotent(v: string)
    ensures NormalizeSymbol(NormalizeSymbol(v)) == NormalizeSymbol(v)
  {
    NormalizeSymbolKeepsUpper(NormalizeSymbol(v));
  }

  /** Constructing a `Trade`: both validators run, every failing field is
      reported, and on success the symbol is stored normalised. */
  function NewTrade(id: int, symbol: string, side: Side, price: real, quantity: real, timestamp: int)
    : (r: Result<Trade, ValidationError>)
    ensures r.Success? <==> price > 0.0 && quantity > 0.0
    ensures r.Success? ==> r.value.WellFormed()
    ensures r.Success? ==> r.value == Trade(id, NormalizeSymbol(symbol), side, price, quantity, timestamp)
    ensures r.Failure? ==> (Price in r.error.fields <==> price <= 0.0)
    ensures r.Failure? ==> (Quantity in r.error.fields <==> quantity <= 0.0)
  {
    var priceCheck := MustBePositive(price);
    var quantityCheck := MustBePositive(quantity);
    var failed := (if priceCheck.Failure? then [Price] else [])
                + (if quantityCheck.Failure? then [Quantity] else []);
    if failed == [] then
      Success(Trade(id, NormalizeSymbol(symbol), side, priceCheck.value, quantityCheck.value, timestamp))
    else
      Failure(ValidationError(failed))
  }
}
