/**
 * The shared string constants the core reads (the YES/NO flag values and the
 * braces) and the YES/NO encoding of Boolean flags. The constants' values are
 * not fixed by the model; the flag round trip needs only that YES and NO
 * differ ignoring case.
 */
module StringPools {
  import opened Lang

  /** Character.toLowerCase on ASCII letters. */
  function ToLower(c: char): char {
    if 'A' <= c <= 'Z' then (c as int - 'A' as int + 'a' as int) as char else c
  }

  /** String.equalsIgnoreCase (ASCII case folding): same length and pairwise equal letters after folding. */
  predicate EqualsIgnoreCase(a: string, b: string) {
    |a| == |b| && forall i :: 0 <= i < |a| ==> ToLower(a[i]) == ToLower(b[i])
  }

  datatype Pool = Pool(yes: string, no: string, leftBrace: string, rightBrace: string)

  /** The constants, with YES and NO telling flags apart. */
  type StringPool = p: Pool | !EqualsIgnoreCase(p.yes, p.no) witness Pool("YES", "NO", "{", "}")

  /** How a setter stores a Boolean flag. */
  function EncodeFlag(pool: StringPool, b: bool): (s: string)
    ensures s == pool.yes || s == pool.no
  {
    if b then pool.yes else pool.no
  }

  /** How a getter reads a flag: YES.equalsIgnoreCase(stored); a null field is false. */
  predicate DecodeFlag(pool: StringPool, stored: Nullable<string>) {
    stored.NonNull? && EqualsIgnoreCase(pool.yes, stored.value)
  }

  lemma EqualsIgnoreCaseReflexive(a: string)
    ensures EqualsIgnoreCase(a, a)
  {
  }

  /** Reading a stored flag gives back what was stored. */
  lemma FlagRoundTrip(pool: StringPool, b: bool)
    ensures DecodeFlag(pool, NonNull(EncodeFlag(pool, b))) == b
  {
    EqualsIgnoreCaseReflexive(pool.yes);
  }

  /** A flag never stored reads false. */
  lemma UnsetFlagIsFalse(pool: StringPool)
    ensures !DecodeFlag(pool, Null)
  {
  }

  /** A stored value that equals YES ignoring case reads true, in whatever case it was stored. */
  lemma CaseVariantReadsTrue(pool: StringPool, stored: string)
    requires EqualsIgnoreCase(stored, pool.yes)
    ensures DecodeFlag(pool, NonNull(stored))
  {
  }

  /** The stored NO reads false. */
  lemma NoReadsFalse(pool: StringPool)
    ensures !DecodeFlag(pool, NonNull(pool.no))
  {
  }
}
