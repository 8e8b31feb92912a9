/**
 * `create_ref_code`: the reference code a paid order is stamped with, twenty
 * characters drawn from the lower-case letters and the digits. The random
 * draws are a parameter, one index per character.
 */
module RefCodes {

  /** `string.ascii_lowercase + string.digits`. */
  const Alphabet: string := "abcdefghijklmnopqrstuvwxyz0123456789"

  /** `k=20`, which is also the `max_length` of the `ref_code` column. */
  const RefCodeLength: nat := 20

  predicate IsRefCode(s: string)
  {
    |s| == RefCodeLength && forall i :: 0 <= i < |s| ==> s[i] in Alphabet
  }

  /** `random.choices(alphabet, k=20)` given the twenty draws. */
  function CreateRefCode(picks: seq<nat>): (r: string)
    requires |picks| == RefCodeLength
    ensures IsRefCode(r)
    ensures r != ""
  {
    seq(RefCodeLength, i requires 0 <= i < RefCodeLength => Alphabet[picks[i] % |Alphabet|])
  }

  /** Where `c` first occurs in `s`. */
  function IndexOf(s: string, c: char): (r: nat)
    requires c in s
    ensures r < |s| && s[r] == c
  {
    if s[0] == c then 0
    else
      assert s == [s[0]] + s[1..];
      1 + IndexOf(s[1..], c)
  }

  /** Drawing a character's own index gives back that character. */
  lemma DrawOwnIndex(s: string, c: char)
    requires c in s
    ensures s[IndexOf(s, c) % |s|] == c
  {
    var k := IndexOf(s, c);
    assert k % |s| == k;
  }

  /** Every code of the right length and alphabet can be drawn: the codes are exactly the strings `IsRefCode` admits. */
  lemma EveryRefCodeReachable(code: string)
    requires IsRefCode(code)
    ensures exists picks: seq<nat> :: |picks| == RefCodeLength && CreateRefCode(picks) == code
  {
    var picks := seq(RefCodeLength, i requires 0 <= i < RefCodeLength => IndexOf(Alphabet, code[i]));
    var r := CreateRefCode(picks);
    forall i | 0 <= i < RefCodeLength
      ensures r[i] == code[i]
    {
      DrawOwnIndex(Alphabet, code[i]);
    }
    assert r == code;
  }
}
