/** Reading values of unknown shape: property accesses and the small `read...` helpers. */
module JsonRead {
  import opened Text
  import opened Json

  /** `readRecord(v)?.key`; arrays are records without these keys. */
  function At(v: Option<Json>, key: string): Option<Json> {
    if v.Some? && v.value.Obj? then Lookup(v.value.members, key) else None
  }

  /** `readRecord(v) !== undefined`. */
  predicate IsRecord(v: Option<Json>) {
    v.Some? && (v.value.Obj? || v.value.Arr?)
  }

  predicate IsArray(v: Option<Json>) {
    v.Some? && v.value.Arr?
  }

  /** `readNonEmptyString`. */
  function NonEmpty(v: Option<Json>): Option<string> {
    if v.Some? && v.value.Str? && v.value.s != "" then Some(v.value.s) else None
  }

  /** `readNonNegativeInteger`. */
  function Count(v: Option<Json>): Option<nat> {
    if v.Some? && v.value.Int? && v.value.n >= 0 then Some(v.value.n) else None
  }

  const BPS_DENOMINATOR := 10_000

  /** `readBasisPoints`. */
  function BasisPoints(v: Option<Json>): (r: Option<nat>)
    ensures r.Some? ==> v == Some(Int(r.value)) && r.value <= BPS_DENOMINATOR
    ensures r.None? && v.Some? && v.value.Int? ==> !(0 <= v.value.n <= BPS_DENOMINATOR)
  {
    if v.Some? && v.value.Int? && 0 <= v.value.n <= BPS_DENOMINATOR then Some(v.value.n) else None
  }

  /** `readAtomicAmount` and `readNonNegativeAtomicString`: `0` or digits without a leading zero. */
  function Atomic(s: string): Option<nat> {
    if IsCanonical(s) then Some(NatOf(s)) else None
  }

  function AtomicAt(v: Option<Json>): Option<nat> {
    if v.Some? && v.value.Str? then Atomic(v.value.s) else None
  }

  /** The collector's `readPositiveAtomicAmount`: digits that do not start with a zero. */
  function PositiveDigits(s: string): Option<nat> {
    if s != "" && s[0] != '0' && AllDigits(s) then Some(NatOf(s)) else None
  }

  /** The checker's `readPositiveAtomicString`: an atomic amount above zero. */
  function PositiveAt(v: Option<Json>): Option<nat> {
    var n := AtomicAt(v);
    if n.Some? && n.value > 0 then n else None
  }

  /** The two readings of a positive amount are the same. */
  lemma PositiveReadersAgree(s: string)
    ensures PositiveAt(Some(Str(s))) == PositiveDigits(s)
  {
    if IsCanonical(s) && s[0] != '0' {
      CanonicalIsPositive(s);
    } else if IsCanonical(s) {
      assert s[..|s| - 1] == "" && s[|s| - 1] == '0';
      assert NatOf(s) == 0;
    }
  }

  /** The elements of an array, none of anything else. */
  function Elements(v: Option<Json>): seq<Json> {
    if IsArray(v) then v.value.items else []
  }

  /** The text of an amount. */
  ghost predicate IsAmount(v: Json) {
    exists n: nat :: v == Str(Digits(n))
  }

  ghost predicate IsAbove(v: Json) {
    exists n: nat :: n > 0 && v == Str(Digits(n))
  }

  lemma AmountIff(v: Json)
    ensures AtomicAt(Some(v)).Some? <==> IsAmount(v)
    ensures PositiveAt(Some(v)).Some? <==> IsAbove(v)
    ensures AtomicAt(Some(v)) == Some(0) <==> v == Str(Digits(0))
  {
    hide Digits, NatOf;
    if AtomicAt(Some(v)).Some? {
      DigitsOfNat(v.s);
    }
    if IsAmount(v) {
      var n: nat :| v == Str(Digits(n));
      NatOfDigits(n);
    }
    if IsAbove(v) {
      var n: nat :| n > 0 && v == Str(Digits(n));
      NatOfDigits(n);
    }
    NatOfDigits(0);
  }
}
