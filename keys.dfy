/** Lookup keys: eight characters from `string.ascii_letters + string.digits`,
    generated at random and checked again when a user sends one back. */
module Keys {

  import opened Media

  const KeyLength: nat := 8
  const AlphabetSize: nat := 62

  /** The k-th character of `ascii_letters + digits`: a-z, then A-Z, then 0-9. */
  function AlphabetAt(k: nat): (c: char)
    requires k < AlphabetSize
  {
    if k < 26 then ('a' as int + k) as char
    else if k < 52 then ('A' as int + (k - 26)) as char
    else ('0' as int + (k - 52)) as char
  }

  /** `string.ascii_letters + string.digits`. */
  function Alphabet(): (s: string)
    ensures |s| == AlphabetSize
  {
    seq(AlphabetSize, k requires 0 <= k < AlphabetSize => AlphabetAt(k))
  }

  predicate IsKeyChar(c: char) {
    'a' <= c <= 'z' || 'A' <= c <= 'Z' || '0' <= c <= '9'
  }

  /** The position of a key character in the alphabet. */
  function AlphabetIndex(c: char): (k: nat)
    requires IsKeyChar(c)
    ensures k < AlphabetSize && AlphabetAt(k) == c
  {
    if 'a' <= c <= 'z' then c as int - 'a' as int
    else if 'A' <= c <= 'Z' then 26 + (c as int - 'A' as int)
    else 52 + (c as int - '0' as int)
  }

  /** Membership in the alphabet is exactly the character-class test. */
  lemma AlphabetMembership(c: char)
    ensures c in Alphabet() <==> IsKeyChar(c)
  {
    if IsKeyChar(c) {
      var k := AlphabetIndex(c);
      assert Alphabet()[k] == c;
    }
    if c in Alphabet() {
      var k :| 0 <= k < |Alphabet()| && Alphabet()[k] == c;
      assert AlphabetAt(k) == c;
    }
  }

  /** The format test a looked-up key must pass. */
  predicate ValidKey(s: string) {
    |s| == KeyLength && forall i :: 0 <= i < |s| ==> IsKeyChar(s[i])
  }

  /** The format test is the source's own: eight characters, each a member
      of `ascii_letters + digits`. */
  lemma ValidKeyIsAlphabetTest(s: string)
    ensures ValidKey(s) <==> |s| == KeyLength && forall i :: 0 <= i < |s| ==> s[i] in Alphabet()
  {
    forall i | 0 <= i < |s| {
      AlphabetMembership(s[i]);
    }
  }

  /** The random draw of `random.choices(charset, k=8)`, given as its eight indices. */
  predicate ValidPicks(picks: seq<nat>) {
    |picks| == KeyLength && forall i :: 0 <= i < |picks| ==> picks[i] < AlphabetSize
  }

  /** `generate_key` with its randomness supplied as the drawn indices. */
  function GenerateKey(picks: seq<nat>): (key: string)
    requires ValidPicks(picks)
    ensures ValidKey(key)
    ensures forall i :: 0 <= i < KeyLength ==> key[i] == Alphabet()[picks[i]]
  {
    seq(KeyLength, i requires 0 <= i < KeyLength => AlphabetAt(picks[i]))
  }

  /** Every well-formed key is some draw of the generator. */
  lemma EveryValidKeyIsGenerated(key: string) returns (picks: seq<nat>)
    requires ValidKey(key)
    ensures ValidPicks(picks) && GenerateKey(picks) == key
  {
    picks := seq(KeyLength, i requires 0 <= i < KeyLength => AlphabetIndex(key[i]));
    var g := GenerateKey(picks);
    assert forall i :: 0 <= i < KeyLength ==> g[i] == key[i];
  }

  /** The characters `str.strip()` removes, those for which `str.isspace()`
      holds: tab to carriage return, the four information separators, space,
      and the Unicode spaces and line and paragraph separators. */
  predicate IsSpace(c: char) {
    '\U{0009}' <= c <= '\U{000D}' || '\U{001C}' <= c <= '\U{0020}'
    || c == '\U{0085}' || c == '\U{00A0}' || c == '\U{1680}'
    || '\U{2000}' <= c <= '\U{200A}' || c == '\U{2028}' || c == '\U{2029}'
    || c == '\U{202F}' || c == '\U{205F}' || c == '\U{3000}'
  }

  function StripLeft(s: string): (r: string)
    ensures |r| <= |s| && r == s[|s| - |r|..]
    ensures r != [] ==> !IsSpace(r[0])
    ensures forall i :: 0 <= i < |s| - |r| ==> IsSpace(s[i])
  {
    if s != [] && IsSpace(s[0]) then StripLeft(s[1..]) else s
  }

  function StripRight(s: string): (r: string)
    ensures |r| <= |s| && r == s[..|r|]
    ensures r != [] ==> !IsSpace(r[|r| - 1])
    ensures forall i :: |r| <= i < |s| ==> IsSpace(s[i])
  {
    if s != [] && IsSpace(s[|s| - 1]) then StripRight(s[..|s| - 1]) else s
  }

  /** `str.strip()`: the longest middle part with no surrounding whitespace. */
  function Strip(s: string): (r: string)
    ensures r == [] || (!IsSpace(r[0]) && !IsSpace(r[|r| - 1]))
    ensures LeadingSpaces(s) + |r| <= |s| && r == s[LeadingSpaces(s)..LeadingSpaces(s) + |r|]
    ensures forall i :: 0 <= i < LeadingSpaces(s) ==> IsSpace(s[i])
    ensures forall i :: LeadingSpaces(s) + |r| <= i < |s| ==> IsSpace(s[i])
  {
    StripRight(StripLeft(s))
  }

  /** How many whitespace characters `Strip` drops at the front. */
  function LeadingSpaces(s: string): nat {
    |s| - |StripLeft(s)|
  }

  /** The format check of the key handler: the stripped text when it is a
      well-formed key, nothing otherwise. */
  function CheckKey(text: string): (r: Option<string>)
    ensures r.Some? <==> ValidKey(Strip(text))
    ensures r.Some? ==> r.value == Strip(text)
  {
    var key := Strip(text);
    if ValidKey(key) then Some(key) else None
  }

  lemma {:induction false} StripLeftOfSpaces(pad: string, s: string)
    requires forall i :: 0 <= i < |pad| ==> IsSpace(pad[i])
    requires s == [] || !IsSpace(s[0])
    ensures StripLeft(pad + s) == s
  {
    if pad != [] {
      assert (pad + s)[1..] == pad[1..] + s;
      StripLeftOfSpaces(pad[1..], s);
    }
  }

  lemma {:induction false} StripRightOfSpaces(s: string, pad: string)
    requires forall i :: 0 <= i < |pad| ==> IsSpace(pad[i])
    requires s == [] || !IsSpace(s[|s| - 1])
    ensures StripRight(s + pad) == s
  {
    if pad != [] {
      assert (s + pad)[..|s + pad| - 1] == s + pad[..|pad| - 1];
      StripRightOfSpaces(s, pad[..|pad| - 1]);
    }
  }

  /** A generated key sent back with surrounding whitespace is accepted as itself. */
  lemma GeneratedKeyAccepted(picks: seq<nat>, before: string, after: string)
    requires ValidPicks(picks)
    requires forall i :: 0 <= i < |before| ==> IsSpace(before[i])
    requires forall i :: 0 <= i < |after| ==> IsSpace(after[i])
    ensures CheckKey(before + GenerateKey(picks) + after) == Some(GenerateKey(picks))
  {
    var key := GenerateKey(picks);
    assert before + key + after == before + (key + after);
    StripLeftOfSpaces(before, key + after);
    StripRightOfSpaces(key, after);
  }
}
