/** Character and string helpers used by the dialogue engine: Python's
    `lower`/`upper` (on the Latin and Cyrillic alphabets), `strip`, the
    group-name normalisation of send_check_group / search_check_group, and
    the 4000-character slicing of send_msg. */
module Text {

  /** Python's `str.isspace()`: the characters `str.strip()` removes. */
  predicate IsSpace(c: char)
  {
    ('\t' <= c <= '\r') || ('\U{1c}' <= c <= ' ') || c == '\U{85}' || c == '\U{a0}'
    || c == '\U{1680}' || ('\U{2000}' <= c <= '\U{200a}') || c == '\U{2028}' || c == '\U{2029}'
    || c == '\U{202f}' || c == '\U{205f}' || c == '\U{3000}'
  }

  /** Lower-case mapping of one character: A-Z, А-Я and Ѐ-Џ. */
  function LowerChar(c: char): (l: char)
    ensures IsSpace(l) <==> IsSpace(c)
    ensures l == ' ' <==> c == ' '
  {
    if 'A' <= c <= 'Z' then (c as int + 32) as char
    else if 'А' <= c <= 'Я' then (c as int + 0x20) as char
    else if 'Ѐ' <= c <= 'Џ' then (c as int + 0x50) as char
    else c
  }

  /** Upper-case mapping of one character: a-z, а-я and ѐ-џ. */
  function UpperChar(c: char): (u: char)
    ensures IsSpace(u) <==> IsSpace(c)
    ensures u == ' ' <==> c == ' '
  {
    if 'a' <= c <= 'z' then (c as int - 32) as char
    else if 'а' <= c <= 'я' then (c as int - 0x20) as char
    else if 'ѐ' <= c <= 'џ' then (c as int - 0x50) as char
    else c
  }

  /** `s.lower()` */
  function Lower(s: string): (r: string)
    ensures |r| == |s| && forall k :: 0 <= k < |s| ==> r[k] == LowerChar(s[k])
  {
    seq(|s|, k requires 0 <= k < |s| => LowerChar(s[k]))
  }

  /** `s.upper()` */
  function Upper(s: string): (r: string)
    ensures |r| == |s| && forall k :: 0 <= k < |s| ==> r[k] == UpperChar(s[k])
  {
    seq(|s|, k requires 0 <= k < |s| => UpperChar(s[k]))
  }

  /** `s.lstrip()` */
  function StripLeft(s: string): (r: string)
    ensures r == [] || !IsSpace(r[0])
    ensures |r| <= |s|
  {
    if s != [] && IsSpace(s[0]) then StripLeft(s[1..]) else s
  }

  /** `s.rstrip()` */
  function StripRight(s: string): (r: string)
    ensures r == [] || !IsSpace(r[|r| - 1])
    ensures |r| <= |s|
  {
    if s != [] && IsSpace(s[|s| - 1]) then StripRight(s[..|s| - 1]) else s
  }

  /** `s.strip()`: no white space is left at either end (and, by
      StripRemovesOnlyEnds, nothing but the white space at the ends goes). */
  function Strip(s: string): (r: string)
    ensures r == [] || (!IsSpace(r[0]) && !IsSpace(r[|r| - 1]))
  {
    var l := StripLeft(s);
    var r := StripRight(l);
    assert r != [] ==> r[0] == l[0] by {
      if r != [] { StripRightPrefix(l); }
    }
    r
  }

  /** `lstrip` removes a run of leading white space and nothing else. */
  lemma {:induction false} StripLeftIsSuffix(s: string)
    ensures StripLeft(s) == s[|s| - |StripLeft(s)|..]
    ensures forall k :: 0 <= k < |s| - |StripLeft(s)| ==> IsSpace(s[k])
  {
    if s != [] && IsSpace(s[0]) {
      StripLeftIsSuffix(s[1..]);
      assert s[1..][|s| - 1 - |StripLeft(s)|..] == s[|s| - |StripLeft(s)|..];
    }
  }

  /** `rstrip` removes a run of trailing white space and nothing else. */
  lemma {:induction false} StripRightIsPrefix(s: string)
    ensures StripRight(s) == s[..|StripRight(s)|]
    ensures forall k :: |StripRight(s)| <= k < |s| ==> IsSpace(s[k])
  {
    if s != [] && IsSpace(s[|s| - 1]) {
      StripRightIsPrefix(s[..|s| - 1]);
      assert s[..|s| - 1][..|StripRight(s)|] == s[..|StripRight(s)|];
    }
  }

  /** `strip` keeps the input between its leading and its trailing white
      space unchanged: the result is one contiguous piece of the input, and
      only white space lies outside it. */
  lemma StripRemovesOnlyEnds(s: string)
    ensures exists i, j ::
              && 0 <= i <= j <= |s| && Strip(s) == s[i..j]
              && (forall k :: 0 <= k < i ==> IsSpace(s[k]))
              && (forall k :: j <= k < |s| ==> IsSpace(s[k]))
  {
    var l := StripLeft(s);
    var r := StripRight(l);
    StripLeftIsSuffix(s);
    StripRightIsPrefix(l);
    var i := |s| - |l|;
    var j := i + |r|;
    assert Strip(s) == r;
    assert r == s[i..j];
    forall k | j <= k < |s| ensures IsSpace(s[k]) {
      assert s[k] == l[k - i];
    }
  }

  lemma {:induction false} StripRightPrefix(s: string)
    requires StripRight(s) != []
    ensures StripRight(s)[0] == s[0]
  {
    if s != [] && IsSpace(s[|s| - 1]) {
      StripRightPrefix(s[..|s| - 1]);
    }
  }

  /** Python's `lower` and `upper` agree on what they fold: upper-casing a
      lowered text, or lowering an upper-cased one, is the same as applying
      the second mapping alone, and lowering twice is lowering once. */
  lemma CaseFoldsAgree(s: string)
    ensures Upper(Lower(s)) == Upper(s)
    ensures Lower(Upper(s)) == Lower(s)
    ensures Lower(Lower(s)) == Lower(s)
  {
  }

  lemma {:induction false} LowerStripLeftCommute(s: string)
    ensures StripLeft(Lower(s)) == Lower(StripLeft(s))
  {
    if s != [] {
      assert Lower(s)[1..] == Lower(s[1..]);
      LowerStripLeftCommute(s[1..]);
    }
  }

  lemma {:induction false} LowerStripRightCommute(s: string)
    ensures StripRight(Lower(s)) == Lower(StripRight(s))
  {
    if s != [] {
      assert Lower(s)[..|s| - 1] == Lower(s[..|s| - 1]);
      LowerStripRightCommute(s[..|s| - 1]);
    }
  }

  lemma {:induction false} LowerRemoveSpacesCommute(s: string)
    ensures Lower(RemoveSpaces(s)) == RemoveSpaces(Lower(s))
  {
    if s != [] {
      LowerRemoveSpacesCommute(s[1..]);
      assert Lower(s)[1..] == Lower(s[1..]);
    }
  }

  /** The dispatcher lowers every text before a handler sees it; the group
      name looked up is the same as if the text had been typed in any other
      letter case. */
  lemma NormaliseIgnoresCase(s: string)
    ensures NormaliseGroupName(Lower(s)) == NormaliseGroupName(s)
  {
    LowerStripLeftCommute(s);
    LowerStripRightCommute(StripLeft(s));
    var t := Strip(s);
    assert Strip(Lower(s)) == Lower(t);
    LowerRemoveSpacesCommute(t);
    CaseFoldsAgree(RemoveSpaces(t));
  }

  /** `s.replace(" ", "")` */
  function RemoveSpaces(s: string): string
  {
    if s == [] then []
    else if s[0] == ' ' then RemoveSpaces(s[1..])
    else [s[0]] + RemoveSpaces(s[1..])
  }

  lemma {:induction false} RemoveSpacesNoSpace(s: string)
    ensures forall k :: 0 <= k < |RemoveSpaces(s)| ==> RemoveSpaces(s)[k] != ' '
  {
    if s != [] {
      RemoveSpacesNoSpace(s[1..]);
    }
  }

  lemma {:induction false} RemoveSpacesKeepsOthers(s: string)
    requires forall k :: 0 <= k < |s| ==> s[k] != ' '
    ensures RemoveSpaces(s) == s
  {
    if s != [] {
      RemoveSpacesKeepsOthers(s[1..]);
    }
  }

  lemma {:induction false} RemoveSpacesEnds(s: string)
    requires s != [] && s[0] != ' ' && s[|s| - 1] != ' '
    ensures RemoveSpaces(s) != []
    ensures RemoveSpaces(s)[0] == s[0]
    ensures RemoveSpaces(s)[|RemoveSpaces(s)| - 1] == s[|s| - 1]
  {
    if |s| > 1 {
      RemoveSpacesLast(s[1..]);
    }
  }

  lemma {:induction false} RemoveSpacesLast(s: string)
    requires s != [] && s[|s| - 1] != ' '
    ensures RemoveSpaces(s) != [] && RemoveSpaces(s)[|RemoveSpaces(s)| - 1] == s[|s| - 1]
  {
    if |s| > 1 {
      RemoveSpacesLast(s[1..]);
    }
  }

  lemma {:induction false} UpperRemoveSpacesCommute(s: string)
    ensures Upper(RemoveSpaces(s)) == RemoveSpaces(Upper(s))
  {
    if s != [] {
      UpperRemoveSpacesCommute(s[1..]);
      assert Upper(s)[1..] == Upper(s[1..]);
    }
  }

  /** The group name a user typed, as looked up and stored:
      `group_name.strip().replace(" ", "").upper()`. */
  function NormaliseGroupName(s: string): string
  {
    Upper(RemoveSpaces(Strip(s)))
  }

  /** A normalised name holds no space and has no white space at either end. */
  lemma NormalisedHasNoSpace(s: string)
    ensures forall k :: 0 <= k < |NormaliseGroupName(s)| ==> NormaliseGroupName(s)[k] != ' '
    ensures NormaliseGroupName(s) == [] || !IsSpace(NormaliseGroupName(s)[0])
    ensures NormaliseGroupName(s) == [] || !IsSpace(NormaliseGroupName(s)[|NormaliseGroupName(s)| - 1])
  {
    var t := Strip(s);
    RemoveSpacesNoSpace(t);
    if t != [] {
      RemoveSpacesEnds(t);
    }
  }

  /** Normalising an already normalised name changes nothing, so the name
      stored by send_check_group is looked up unchanged when typed again. */
  lemma {:induction false} NormaliseIdempotent(s: string)
    ensures NormaliseGroupName(NormaliseGroupName(s)) == NormaliseGroupName(s)
  {
    var n := NormaliseGroupName(s);
    NormalisedHasNoSpace(s);
    assert StripLeft(n) == n;
    assert StripRight(n) == n;
    assert Strip(n) == n;
    RemoveSpacesKeepsOthers(n);
    var u := RemoveSpaces(Strip(s));
    assert Upper(n) == Upper(Upper(u));
    assert Upper(Upper(u)) == Upper(u) by {
      forall k | 0 <= k < |u| ensures UpperChar(UpperChar(u[k])) == UpperChar(u[k]) { }
    }
  }

  /** The longest message text one transport call may carry. */
  const MaxPart: nat := 4000

  function Min(a: int, b: int): int
  {
    if a <= b then a else b
  }

  function PartCount(n: nat): nat
  {
    (n + MaxPart - 1) / MaxPart
  }

  lemma PartStartInRange(n: nat, k: nat)
    requires k < PartCount(n)
    ensures k * MaxPart < n
  {
  }

  /** The slice starts `0, 4000, 8000, …` below the length are exactly the
      first PartCount of them. */
  lemma PartIndexRange(n: nat, k: nat)
    ensures k < PartCount(n) <==> k * MaxPart < n
  {
  }

  /** `[message[i:i + 4000] for i in range(0, len(message), 4000)]` */
  function Slices(m: string): (parts: seq<string>)
    ensures |parts| == PartCount(|m|)
  {
    seq(PartCount(|m|), k requires 0 <= k < PartCount(|m|) =>
      PartStartInRange(|m|, k);
      m[k * MaxPart .. Min((k + 1) * MaxPart, |m|)])
  }

  function Concat(parts: seq<string>): string
  {
    if parts == [] then "" else parts[0] + Concat(parts[1..])
  }

  /** Every part holds between 1 and 4000 characters; an empty message has no part. */
  lemma SlicesBounded(m: string)
    ensures |Slices(m)| == 0 <==> m == []
    ensures forall k :: 0 <= k < |Slices(m)| ==> 0 < |Slices(m)[k]| <= MaxPart
  {
    forall k | 0 <= k < |Slices(m)| ensures 0 < |Slices(m)[k]| <= MaxPart {
      PartStartInRange(|m|, k);
    }
  }

  lemma SliceOfSuffix(m: string, d: nat, x: nat, y: nat)
    requires d <= |m| && x <= y <= |m| - d
    ensures m[d..][x..y] == m[d + x..d + y]
  {
    var l, r := m[d..][x..y], m[d + x..d + y];
    assert |l| == |r|;
    forall i | 0 <= i < |l| ensures l[i] == r[i] {
      assert l[i] == m[d + x + i];
    }
  }

  lemma SlicesStep(m: string)
    requires |m| > MaxPart
    ensures Slices(m) == [m[..MaxPart]] + Slices(m[MaxPart..])
  {
    var a, b := Slices(m), Slices(m[MaxPart..]);
    assert |a| == |b| + 1;
    forall k | 1 <= k < |a| ensures a[k] == b[k - 1] {
      PartStartInRange(|m|, k);
      var s := k * MaxPart;
      assert (k - 1) * MaxPart == s - MaxPart && (k + 1) * MaxPart == s + MaxPart;
      var e := Min(s + MaxPart, |m|);
      var t := m[MaxPart..];
      assert |t| == |m| - MaxPart && e - MaxPart == Min(s, |t|);
      assert a[k] == m[s..e];
      assert b[k - 1] == t[s - MaxPart .. e - MaxPart];
      SliceOfSuffix(m, MaxPart, s - MaxPart, e - MaxPart);
    }
  }

  /** Sending the parts in order delivers exactly the original message. */
  lemma {:induction false} SlicesReassemble(m: string)
    ensures Concat(Slices(m)) == m
    decreases |m|
  {
    if |m| > MaxPart {
      SlicesStep(m);
      SlicesReassemble(m[MaxPart..]);
      assert [m[..MaxPart]] + Slices(m[MaxPart..]) != [];
      assert m[..MaxPart] + m[MaxPart..] == m;
    } else if m != [] {
      assert PartCount(|m|) == 1;
      assert Slices(m)[0] == m;
    }
  }
}
