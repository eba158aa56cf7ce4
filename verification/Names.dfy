/** Domain names as label sequences.

    A name is absolute; the root label is implied, so the root is the empty sequence and the
    parent of `[a, b]` is `[b]`.  The canonical form lower-cases ASCII letters. */
module Names {
  type byte = x: int | 0 <= x < 256

  type Label = seq<byte>
  type Name = seq<Label>

  function LowerByte(b: byte): byte {
    if 65 <= b <= 90 then b + 32 else b
  }

  function LowerLabel(l: Label): (r: Label)
    ensures |r| == |l| && forall i :: 0 <= i < |l| ==> r[i] == LowerByte(l[i])
  {
    seq(|l|, i requires 0 <= i < |l| => LowerByte(l[i]))
  }

  function Canonical(n: Name): (r: Name)
    ensures |r| == |n| && forall i :: 0 <= i < |n| ==> r[i] == LowerLabel(n[i])
  {
    seq(|n|, i requires 0 <= i < |n| => LowerLabel(n[i]))
  }

  /** The same byte, or the same ASCII letter in two cases. */
  predicate SameByte(a: byte, b: byte) {
    a == b || (65 <= a <= 90 && b == a + 32) || (65 <= b <= 90 && a == b + 32)
  }

  predicate SameLabel(a: Label, b: Label) {
    |a| == |b| && forall i :: 0 <= i < |a| ==> SameByte(a[i], b[i])
  }

  /** Equal as domain names: label by label, without regard to letter case. */
  predicate SameName(a: Name, b: Name) {
    |a| == |b| && forall i :: 0 <= i < |a| ==> SameLabel(a[i], b[i])
  }

  lemma LowerByteIff(a: byte, b: byte)
    ensures LowerByte(a) == LowerByte(b) <==> SameByte(a, b)
  {
  }

  lemma LowerLabelIff(a: Label, b: Label)
    ensures LowerLabel(a) == LowerLabel(b) <==> SameLabel(a, b)
  {
    if SameLabel(a, b) {
      forall i | 0 <= i < |a| ensures LowerLabel(a)[i] == LowerLabel(b)[i] { assert SameByte(a[i], b[i]); }
    }
    if LowerLabel(a) == LowerLabel(b) {
      forall i | 0 <= i < |a| ensures SameByte(a[i], b[i]) {
        assert LowerLabel(a)[i] == LowerLabel(b)[i];
        LowerByteIff(a[i], b[i]);
      }
    }
  }

  /** Canonical forms are equal exactly for names that differ in letter case only. */
  lemma CanonicalIff(a: Name, b: Name)
    ensures Canonical(a) == Canonical(b) <==> SameName(a, b)
  {
    if SameName(a, b) {
      forall i | 0 <= i < |a| ensures Canonical(a)[i] == Canonical(b)[i] { LowerLabelIff(a[i], b[i]); }
    }
    if Canonical(a) == Canonical(b) {
      forall i | 0 <= i < |a| ensures SameLabel(a[i], b[i]) {
        assert Canonical(a)[i] == Canonical(b)[i];
        LowerLabelIff(a[i], b[i]);
      }
    }
  }

  /** And the canonical form is itself one of them. */
  lemma CanonicalIsSame(n: Name)
    ensures SameName(n, Canonical(n)) && Canonical(Canonical(n)) == Canonical(n)
  {
    forall i | 0 <= i < |n| ensures SameLabel(n[i], Canonical(n)[i]) {
      forall k | 0 <= k < |n[i]| ensures SameByte(n[i][k], Canonical(n)[i][k]) {}
    }
    CanonicalIff(n, Canonical(n));
  }
}
