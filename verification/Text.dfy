/** The few facts about Unicode text that the checks of the repository rest on. */
module Text {

  /** The White_Space property, which `trim` removes at both ends. */
  predicate IsWhitespace(c: char) {
    var u := c as int;
    || 0x9 <= u <= 0xd || u == 0x20 || u == 0x85 || u == 0xa0 || u == 0x1680
    || 0x2000 <= u <= 0x200a || u == 0x2028 || u == 0x2029 || u == 0x202f || u == 0x205f || u == 0x3000
  }

  /** General category Cc. */
  predicate IsControl(c: char) {
    var u := c as int;
    u <= 0x1f || 0x7f <= u <= 0x9f
  }

  /** True exactly when trimming leaves nothing. */
  predicate IsBlank(s: string) {
    forall i :: 0 <= i < |s| ==> IsWhitespace(s[i])
  }

  function CharLen(c: char): (n: nat)
    ensures 1 <= n <= 4
  {
    var u := c as int;
    if u < 0x80 then 1 else if u < 0x800 then 2 else if u < 0x1_0000 then 3 else 4
  }

  /** A code of n bytes has room for 7, 11, 16 or 21 bits; the shortest with room is
      used. */
  lemma CharLenExactly(c: char, n: nat)
    requires 1 <= n <= 4
    ensures CharLen(c) <= n <==> (c as int) < [0x80, 0x800, 0x1_0000, 0x20_0000][n - 1]
  {
  }

  /** Length in bytes of the UTF-8 encoding. */
  function ByteLen(s: string): nat {
    if s == "" then 0 else CharLen(s[0]) + ByteLen(s[1..])
  }

  lemma {:induction false} ByteLenBound(s: string)
    ensures |s| <= ByteLen(s) <= 4 * |s|
  {
    if s != "" {
      ByteLenBound(s[1..]);
    }
  }

  function TrimStart(s: string): string {
    if s != "" && IsWhitespace(s[0]) then TrimStart(s[1..]) else s
  }

  function TrimEnd(s: string): string {
    if s != "" && IsWhitespace(s[|s| - 1]) then TrimEnd(s[..|s| - 1]) else s
  }

  function Trim(s: string): string {
    TrimEnd(TrimStart(s))
  }

  lemma {:induction false} TrimStartExactly(s: string) returns (i: nat)
    ensures i <= |s| && TrimStart(s) == s[i..]
    ensures forall k :: 0 <= k < i ==> IsWhitespace(s[k])
    ensures i < |s| ==> !IsWhitespace(s[i])
  {
    if s != "" && IsWhitespace(s[0]) {
      var j := TrimStartExactly(s[1..]);
      i := j + 1;
    } else {
      i := 0;
    }
  }

  lemma {:induction false} TrimEndExactly(s: string) returns (j: nat)
    ensures j <= |s| && TrimEnd(s) == s[..j]
    ensures forall k :: j <= k < |s| ==> IsWhitespace(s[k])
    ensures j > 0 ==> !IsWhitespace(s[j - 1])
  {
    if s != "" && IsWhitespace(s[|s| - 1]) {
      j := TrimEndExactly(s[..|s| - 1]);
      assert s[..|s| - 1][..j] == s[..j];
    } else {
      j := |s|;
    }
  }

  /** Trimming takes off all white space at both ends and no more; nothing is left
      exactly when all of it is white space. */
  lemma TrimExactly(s: string) returns (i: nat, j: nat)
    ensures i <= j <= |s| && Trim(s) == s[i..j]
    ensures forall k :: 0 <= k < i || j <= k < |s| ==> IsWhitespace(s[k])
    ensures i < j ==> !IsWhitespace(s[i]) && !IsWhitespace(s[j - 1])
    ensures Trim(s) == "" <==> IsBlank(s)
  {
    i := TrimStartExactly(s);
    var n := TrimEndExactly(s[i..]);
    j := i + n;
    assert s[i..][..n] == s[i..j];
    forall k | j <= k < |s|
      ensures IsWhitespace(s[k])
    {
      assert s[i..][k - i] == s[k];
    }
    if i < |s| {
      assert s[i..][0] == s[i];
    }
  }

  function DropControls(s: string): string {
    if s == "" then "" else (if IsControl(s[0]) then "" else [s[0]]) + DropControls(s[1..])
  }

  /** Trim, then drop control characters, then keep the first `max` characters. */
  function Compact(value: string, max: nat): string {
    var kept := DropControls(Trim(value));
    if |kept| <= max then kept else kept[..max]
  }

  function CleanLabel(value: string, fallback: string, max: nat): string {
    var compact := Compact(value, max);
    if compact == "" then fallback else compact
  }

  function SanitizeName(value: string): string {
    CleanLabel(value, "New peer", 48)
  }

  /** A stored name has at most 48 characters, hence at most 192 bytes. */
  lemma CleanLabelBound(value: string, fallback: string, max: nat)
    requires |fallback| <= max
    ensures CleanLabel(value, fallback, max) != "" || fallback == ""
    ensures ByteLen(CleanLabel(value, fallback, max)) <= 4 * max
  {
    ByteLenBound(CleanLabel(value, fallback, max));
  }

  /** The name check of a received hello. */
  predicate HelloNameAccepted(name: string) {
    !IsBlank(name) && ByteLen(name) <= 192
  }

  /** How many characters before position i are not controls. */
  function KeptBefore(s: string, i: nat): nat
    requires i <= |s|
  {
    if i == 0 then 0 else (if IsControl(s[0]) then 0 else 1) + KeptBefore(s[1..], i - 1)
  }

  lemma {:induction false} KeptAt(s: string, i: nat)
    requires i < |s| && !IsControl(s[i])
    ensures KeptBefore(s, i) < |DropControls(s)| && DropControls(s)[KeptBefore(s, i)] == s[i]
  {
    if i > 0 {
      KeptAt(s[1..], i - 1);
    }
  }

  lemma {:induction false} KeptFrom(s: string, j: nat) returns (i: nat)
    requires j < |DropControls(s)|
    ensures i < |s| && !IsControl(s[i]) && KeptBefore(s, i) == j && s[i] == DropControls(s)[j]
  {
    if IsControl(s[0]) {
      var k := KeptFrom(s[1..], j);
      i := k + 1;
    } else if j == 0 {
      i := 0;
    } else {
      var k := KeptFrom(s[1..], j - 1);
      i := k + 1;
    }
  }

  predicate OnlyControls(s: string) {
    forall i :: 0 <= i < |s| ==> IsControl(s[i])
  }

  /** Some character, neither a control nor white space, has fewer than `max`
      characters other than controls before it. */
  predicate ShowsWithin(s: string, max: nat) {
    exists i :: 0 <= i < |s| && !IsControl(s[i]) && !IsWhitespace(s[i]) && KeptBefore(s, i) < max
  }

  lemma NothingKept(s: string)
    ensures DropControls(s) == "" <==> OnlyControls(s)
  {
    if !OnlyControls(s) {
      var i :| 0 <= i < |s| && !IsControl(s[i]);
      KeptAt(s, i);
    }
    if DropControls(s) != "" {
      var i := KeptFrom(s, 0);
    }
  }

  lemma CompactShows(value: string, max: nat)
    ensures !IsBlank(Compact(value, max)) <==> ShowsWithin(Trim(value), max)
  {
    var s, compact := Trim(value), Compact(value, max);
    if !IsBlank(compact) {
      var j :| 0 <= j < |compact| && !IsWhitespace(compact[j]);
      var i := KeptFrom(s, j);
    }
    if i :| 0 <= i < |s| && !IsControl(s[i]) && !IsWhitespace(s[i]) && KeptBefore(s, i) < max {
      KeptAt(s, i);
      assert compact[KeptBefore(s, i)] == s[i];
    }
  }

  lemma {:induction false} KeptInAll(s: string)
    ensures |DropControls(s)| == KeptBefore(s, |s|)
  {
    if s != "" {
      KeptInAll(s[1..]);
    }
  }

  /** A cleaned label: the characters of the trimmed value that are not controls, in
      order, the first `max` of them; the fallback when there are none. */
  lemma CleanLabelExactly(value: string, fallback: string, max: nat)
    requires max > 0
    ensures var s, cleaned := Trim(value), CleanLabel(value, fallback, max);
            && (OnlyControls(s) ==> cleaned == fallback)
            && (!OnlyControls(s) ==>
                  && |cleaned| == (if KeptBefore(s, |s|) <= max then KeptBefore(s, |s|) else max)
                  && forall i :: 0 <= i < |s| && !IsControl(s[i]) && KeptBefore(s, i) < max ==>
                       KeptBefore(s, i) < |cleaned| && cleaned[KeptBefore(s, i)] == s[i])
  {
    var s, cleaned := Trim(value), CleanLabel(value, fallback, max);
    NothingKept(s);
    KeptInAll(s);
    if !OnlyControls(s) {
      forall i | 0 <= i < |s| && !IsControl(s[i]) && KeptBefore(s, i) < max
        ensures KeptBefore(s, i) < |cleaned| && cleaned[KeptBefore(s, i)] == s[i]
      {
        KeptAt(s, i);
      }
    }
  }

  /** The name an identity gives itself passes the check that every peer applies
      to it, exactly when the trimmed value has nothing but controls (the fallback
      is used), or a character to show among the first 48 that are not controls. */
  lemma SanitizedNameAcceptedExactly(value: string)
    ensures HelloNameAccepted(SanitizeName(value)) <==>
              OnlyControls(Trim(value)) || ShowsWithin(Trim(value), 48)
  {
    CleanLabelBound(value, "New peer", 48);
    CompactShows(value, 48);
    NothingKept(Trim(value));
    assert !IsWhitespace("New peer"[0]);
  }

  /** Trimming happens before control characters go, so a control character can
      shield a space: this value becomes " ", which every peer refuses. */
  lemma SanitizedNameCanBeRefused()
    ensures !HelloNameAccepted(SanitizeName("\U{0001} \U{0001}"))
  {
    var v := "\U{0001} \U{0001}";
    assert TrimStart(v) == v && TrimEnd(v) == v;
    calc {
      DropControls(v);
      { assert v[1..] == " \U{0001}"; }
      DropControls(" \U{0001}");
      { assert " \U{0001}"[1..] == "\U{0001}"; }
      [' '] + DropControls("\U{0001}");
      { assert "\U{0001}"[1..] == ""; }
      " ";
    }
    assert Compact(v, 48) == " ";
  }
}
