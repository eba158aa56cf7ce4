/** Why the dispatcher's lock protects the record it writes.

    The lock is keyed by the text of the canonical owner name
    (src/astropath/data_plane/dispatcher.py:311), while Route 53 is written under
    `_normalize_name` of the text of the owner as it came in
    (src/astropath/providers/route53.py:107).  The two texts differ in general (a last label
    that ends in a dot loses one character in the second), but they always tell the same
    owners apart. */
module NameText {
  import opened Names

  /** A character as its code; a text is ASCII. */
  type Text = seq<byte>

  const DOT: byte := 46
  const BACKSLASH: byte := 92

  /** `"().;\@$` */
  const SPECIAL: set<byte> := {34, 40, 41, 46, 59, 92, 64, 36}

  /** How one label byte is written: escaped, as itself, or as three decimal digits. */
  function Escape(b: byte): (r: Text) {
    if b in SPECIAL then [BACKSLASH, b]
    else if 0x20 < b < 0x7F then [b]
    else [BACKSLASH, 48 + b / 100, 48 + b / 10 % 10, 48 + b % 10]
  }

  function LabelText(l: Label): Text {
    if l == [] then [] else LabelText(l[..|l| - 1]) + Escape(l[|l| - 1])
  }

  /** `Name.to_text()` of an absolute name; the root is a single dot. */
  function NameToText(n: Name): Text {
    if n == [] then [DOT] else Joined(n)
  }

  function Joined(n: Name): Text {
    if n == [] then [] else LabelText(n[0]) + [DOT] + Joined(n[1..])
  }

  function StripDots(t: Text): Text {
    if t != [] && t[|t| - 1] == DOT then StripDots(t[..|t| - 1]) else t
  }

  function LowerText(t: Text): (r: Text) {
    LowerLabel(t)
  }

  /** `_normalize_name`: strip trailing dots, lower-case, one trailing dot. */
  function NormalizeName(t: Text): Text {
    LowerText(StripDots(t)) + [DOT]
  }

  function LockKey(owner: Name): Text {
    NameToText(Canonical(owner))
  }

  function Route53Name(owner: Name): Text {
    NormalizeName(NameToText(owner))
  }

  /** Labels of a name are never empty. */
  predicate ValidName(n: Name) {
    forall i :: 0 <= i < |n| ==> n[i] != []
  }

  // ---------------------------------------------------------------- reading a text back

  /** Parse: `part` is the label read so far; a missing final dot ends the last label. */
  function Parse(t: Text, part: Label): Name {
    if t == [] then (if part == [] then [] else [part])
    else if t[0] == DOT then (if part == [] then Parse(t[1..], []) else [part] + Parse(t[1..], []))
    else if t[0] == BACKSLASH && |t| >= 4 && 48 <= t[1] < 58 then
      Parse(t[4..], part + [((t[1] - 48) * 100 + (t[2] as int - 48) * 10 + (t[3] as int - 48)) % 256])
    else if t[0] == BACKSLASH && |t| >= 2 then Parse(t[2..], part + [t[1]])
    else Parse(t[1..], part + [t[0]])
  }

  lemma ParseEscape(b: byte, rest: Text, part: Label)
    ensures Parse(Escape(b) + rest, part) == Parse(rest, part + [b])
  {
    var t := Escape(b) + rest;
    if b in SPECIAL {
      assert t[2..] == rest;
    } else if 0x20 < b < 0x7F {
      assert t[1..] == rest;
    } else {
      assert t[4..] == rest;
      assert b == (b / 100) * 100 + (b / 10 % 10) * 10 + b % 10;
    }
  }

  lemma {:induction false} ParseLabel(l: Label, rest: Text, before: Label)
    ensures Parse(LabelText(l) + rest, before) == Parse(rest, before + l)
  {
    if l == [] {
      assert LabelText(l) + rest == rest && before + l == before;
    } else {
      var init, b := l[..|l| - 1], l[|l| - 1];
      assert LabelText(l) + rest == LabelText(init) + (Escape(b) + rest);
      ParseLabel(init, Escape(b) + rest, before);
      ParseEscape(b, rest, before + init);
      assert before + init + [b] == before + l;
    }
  }

  lemma ParseFirstLabel(l: Label, rest: Text)
    requires l != []
    ensures Parse(LabelText(l) + [DOT] + rest, []) == [l] + Parse(rest, [])
  {
    assert LabelText(l) + [DOT] + rest == LabelText(l) + ([DOT] + rest);
    ParseLabel(l, [DOT] + rest, []);
    assert [] + l == l;
    assert ([DOT] + rest)[1..] == rest;
  }

  lemma {:induction false} ParseJoined(n: Name)
    requires ValidName(n)
    ensures Parse(Joined(n), []) == n
  {
    if n != [] {
      ParseJoined(n[1..]);
      ParseFirstLabel(n[0], Joined(n[1..]));
    }
  }

  lemma JoinedCut(n: Name)
    requires ValidName(n) && |n| >= 2
    ensures var t, r := Joined(n), Joined(n[1..]);
            t != [] && r != [] && t[..|t| - 1] == LabelText(n[0]) + [DOT] + r[..|r| - 1]
  {
    var r := Joined(n[1..]);
    assert n[1..] != [] && r == LabelText(n[1]) + [DOT] + Joined(n[1..][1..]);
  }

  /** A name reads back the same when its final dot is missing. */
  lemma {:induction false} ParseJoinedCut(n: Name)
    requires ValidName(n) && n != []
    ensures Joined(n) != [] && Parse(Joined(n)[..|Joined(n)| - 1], []) == n
  {
    if |n| == 1 {
      assert Joined(n)[..|Joined(n)| - 1] == LabelText(n[0]) + [];
      ParseLabel(n[0], [], []);
      assert [] + n[0] == n[0];
    } else {
      var r := Joined(n[1..]);
      ParseJoinedCut(n[1..]);
      JoinedCut(n);
      ParseFirstLabel(n[0], r[..|r| - 1]);
    }
  }

  // ---------------------------------------------------------------- lower-casing commutes

  lemma LowerEscape(b: byte)
    ensures LowerText(Escape(b)) == Escape(LowerByte(b))
  {
  }

  lemma {:induction false} LowerLabelText(l: Label)
    ensures LowerText(LabelText(l)) == LabelText(LowerLabel(l))
  {
    if l != [] {
      var init, b := l[..|l| - 1], l[|l| - 1];
      LowerLabelText(init);
      LowerEscape(b);
      assert LowerLabel(l)[..|l| - 1] == LowerLabel(init);
      assert LowerText(LabelText(init) + Escape(b)) == LowerText(LabelText(init)) + LowerText(Escape(b));
    }
  }

  lemma {:induction false} LowerJoined(n: Name)
    ensures LowerText(Joined(n)) == Joined(Canonical(n))
  {
    if n != [] {
      LowerJoined(n[1..]);
      LowerLabelText(n[0]);
      assert Canonical(n)[1..] == Canonical(n[1..]);
      assert LowerText(LabelText(n[0]) + [DOT] + Joined(n[1..]))
          == LowerText(LabelText(n[0])) + [DOT] + LowerText(Joined(n[1..]));
    }
  }

  // ---------------------------------------------------------------- what stripping leaves

  /** The text of a non-empty label ends in a dot only if the label does, and then the
      character before that dot is its backslash. */
  lemma LabelTextEnd(l: Label)
    requires l != []
    ensures var t := LabelText(l);
            t != [] && (t[|t| - 1] == DOT ==> |t| >= 2 && t[|t| - 2] == BACKSLASH)
  {
    assert LabelText(l) == LabelText(l[..|l| - 1]) + Escape(l[|l| - 1]);
  }

  lemma {:induction false} JoinedEnd(n: Name)
    requires ValidName(n) && n != []
    ensures var t := Joined(n);
            |t| >= 2 && t[|t| - 1] == DOT && (t[|t| - 2] == DOT ==> |t| >= 3 && t[|t| - 3] == BACKSLASH)
  {
    LabelTextEnd(n[0]);
    if |n| == 1 {
      assert Joined(n) == LabelText(n[0]) + [DOT];
    } else {
      JoinedEnd(n[1..]);
      var t, r := Joined(n), Joined(n[1..]);
      assert t == LabelText(n[0]) + [DOT] + r;
      assert t[|t| - 1] == r[|r| - 1] && t[|t| - 2] == r[|r| - 2];
      if |r| >= 3 { assert t[|t| - 3] == r[|r| - 3]; }
    }
  }

  lemma StripOne(t: Text)
    requires |t| >= 2 && t[|t| - 1] == DOT && t[|t| - 2] != DOT
    ensures StripDots(t) == t[..|t| - 1]
  {
    assert t[..|t| - 1][|t| - 2] == t[|t| - 2];
  }

  lemma StripTwo(t: Text)
    requires |t| >= 3 && t[|t| - 1] == DOT && t[|t| - 2] == DOT && t[|t| - 3] != DOT
    ensures StripDots(t) == t[..|t| - 2]
  {
    var u := t[..|t| - 1];
    StripOne(u);
    assert u[..|u| - 1] == t[..|t| - 2];
  }

  lemma LowerPrefix(t: Text, k: nat)
    requires k <= |t|
    ensures LowerText(t[..k]) == LowerText(t)[..k]
  {
  }

  /** Normalizing takes off one dot, or also the escaped one before it, and puts one back. */
  lemma NormalizedText(t: Text)
    requires |t| >= 2 && t[|t| - 1] == DOT && (t[|t| - 2] == DOT ==> |t| >= 3 && t[|t| - 3] == BACKSLASH)
    ensures var c := LowerText(t);
            NormalizeName(t) == if c[|c| - 2] == DOT then c[..|c| - 1] else c
  {
    var c := LowerText(t);
    assert c[|c| - 1] == DOT && c[|c| - 2] == LowerByte(t[|t| - 2]);
    if t[|t| - 2] == DOT {
      StripTwo(t);
      LowerPrefix(t, |t| - 2);
      assert c[..|c| - 2] + [DOT] == c[..|c| - 1];
    } else {
      StripOne(t);
      LowerPrefix(t, |t| - 1);
      assert c[..|c| - 1] + [DOT] == c;
    }
  }

  lemma NormalizedJoined(n: Name)
    requires ValidName(n) && n != []
    ensures var c := Joined(Canonical(n));
            |c| >= 2 && Route53Name(n) == if c[|c| - 2] == DOT then c[..|c| - 1] else c
  {
    JoinedEnd(n);
    LowerJoined(n);
    NormalizedText(Joined(n));
  }

  /** Both texts read back as the canonical owner. */
  lemma TextsReadBack(owner: Name)
    requires ValidName(owner)
    ensures Parse(LockKey(owner), []) == Canonical(owner)
    ensures Parse(Route53Name(owner), []) == Canonical(owner)
  {
    if owner == [] {
      assert NameToText(Canonical(owner)) == [DOT];
      assert StripDots([DOT]) == [];
      assert Route53Name(owner) == [DOT];
    } else {
      assert ValidName(Canonical(owner)) by {
        forall i | 0 <= i < |owner| ensures Canonical(owner)[i] != [] { assert owner[i] != []; }
      }
      ParseJoined(Canonical(owner));
      ParseJoinedCut(Canonical(owner));
      NormalizedJoined(owner);
    }
  }

  /** Two requests share a lock exactly when Route 53 would write them to the same
      record, which is exactly when their owners are equal up to letter case. */
  lemma LockKeyMatchesRecord(a: Name, b: Name)
    requires ValidName(a) && ValidName(b)
    ensures LockKey(a) == LockKey(b) <==> Canonical(a) == Canonical(b)
    ensures Route53Name(a) == Route53Name(b) <==> Canonical(a) == Canonical(b)
  {
    TextsReadBack(a);
    TextsReadBack(b);
    if Canonical(a) == Canonical(b) && a != [] {
      NormalizedJoined(a);
      NormalizedJoined(b);
    }
  }
}
