/** The few JavaScript string operations the calculator relies on:
    `String.prototype.includes`, `startsWith`, `toLowerCase` and the
    `replace(/^www\./, '')` applied to host names. */
module Strings {

  /** `sub` occurs in `s` starting at index `i`. */
  predicate OccursAt(s: string, sub: string, i: int)
  {
    0 <= i && i + |sub| <= |s| && s[i..i + |sub|] == sub
  }

  /** `s.includes(sub)`: some occurrence of `sub` lies inside `s`. A string
      never contains a longer one, and contains each of its prefixes (the
      empty string and itself among them). */
  predicate Contains(s: string, sub: string): (c: bool)
    ensures c ==> |sub| <= |s|
    ensures |sub| <= |s| && s[..|sub|] == sub ==> c
  {
    assert |sub| <= |s| && s[..|sub|] == sub ==> OccursAt(s, sub, 0);
    exists i | 0 <= i <= |s| - |sub| :: OccursAt(s, sub, i)
  }

  lemma ContainsEmpty(s: string)
    ensures Contains(s, "")
  {
    assert OccursAt(s, "", 0);
  }

  lemma ContainsSelf(s: string)
    ensures Contains(s, s)
  {
    assert OccursAt(s, s, 0);
  }

  /** An occurrence at a known index is enough to show containment. */
  lemma ContainsAt(s: string, sub: string, i: nat)
    requires i + |sub| <= |s| && s[i..i + |sub|] == sub
    ensures Contains(s, sub)
  {
    assert OccursAt(s, sub, i);
  }

  /** Every character of a contained string is a character of the container. */
  lemma ContainedChars(s: string, sub: string)
    requires Contains(s, sub)
    ensures forall c :: c in sub ==> c in s
  {
    var i :| 0 <= i <= |s| - |sub| && OccursAt(s, sub, i);
    assert s[i..i + |sub|] == sub;
    forall c | c in sub
      ensures c in s
    {
      var k :| 0 <= k < |sub| && sub[k] == c;
      assert s[i + k] == c;
    }
  }

  /** A character of `sub` missing from `s` rules out `s.includes(sub)`. */
  lemma MissingChar(s: string, sub: string, c: char)
    requires c in sub && c !in s
    ensures !Contains(s, sub)
  {
    if Contains(s, sub) {
      ContainedChars(s, sub);
    }
  }

  predicate IsUpper(c: char)
  {
    'A' <= c <= 'Z'
  }

  /** `toLowerCase` on one character, restricted to the ASCII letters. */
  function LowerChar(c: char): (r: char)
    ensures !IsUpper(r)
    ensures !IsUpper(c) ==> r == c
    ensures IsUpper(c) ==> r as int == c as int + 32
  {
    if IsUpper(c) then (c as int + 32) as char else c
  }

  /** `s.toLowerCase()`: same length, every upper-case letter replaced by its
      lower-case partner, every other character kept. */
  function ToLower(s: string): (r: string)
    ensures |r| == |s|
    ensures forall i :: 0 <= i < |r| ==> !IsUpper(r[i])
    ensures forall i :: 0 <= i < |s| && !IsUpper(s[i]) ==> r[i] == s[i]
    ensures forall i :: 0 <= i < |s| && IsUpper(s[i]) ==> r[i] as int == s[i] as int + 32
  {
    seq(|s|, i requires 0 <= i < |s| => LowerChar(s[i]))
  }

  /** Lower-casing twice is lower-casing once. */
  lemma ToLowerIdempotent(s: string)
    ensures ToLower(ToLower(s)) == ToLower(s)
  {
  }

  const WwwPrefix: string := "www."

  /** `host.replace(/^www\./, '')`: drops one leading `www.` label and
      nothing else. */
  function StripWww(host: string): (r: string)
    ensures WwwPrefix <= host ==> WwwPrefix + r == host
    ensures !(WwwPrefix <= host) ==> r == host
    ensures |r| <= |host|
  {
    if WwwPrefix <= host then host[|WwwPrefix|..] else host
  }

  /** Only the first `www.` label is removed. */
  lemma StripWwwOnce(host: string)
    ensures StripWww(WwwPrefix + host) == host
  {
    assert WwwPrefix <= WwwPrefix + host;
    assert (WwwPrefix + host)[|WwwPrefix|..] == host;
  }
}
