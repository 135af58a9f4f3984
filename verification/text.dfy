/**
 * String operations the dashboard relies on: lower-casing, substring search,
 * and the " | " pattern used to append a note to a payment's observations.
 */
module Text {

  /** `toLowerCase` on one character, for ASCII and the Latin-1 letters
      (À..Þ except ×); other scripts are left unchanged. */
  function LowerChar(c: char): char
  {
    if 'A' <= c <= 'Z' then (c as int + 32) as char
    else if 'À' <= c <= 'Þ' && c != '×' then (c as int + 32) as char
    else c
  }

  /** `toLowerCase` on a string, character by character. */
  function Lower(s: string): (r: string)
    ensures |r| == |s|
    ensures forall i :: 0 <= i < |s| ==> r[i] == LowerChar(s[i])
  {
    seq(|s|, i requires 0 <= i < |s| => LowerChar(s[i]))
  }

  /** `s.includes(sub)`. */
  predicate Contains(s: string, sub: string)
    decreases |s|
  {
    sub <= s || (s != [] && Contains(s[1..], sub))
  }

  /** `includes` holds exactly when `sub` occurs at some position of `s`. */
  lemma {:induction false} ContainsAt(s: string, sub: string)
    ensures Contains(s, sub) <==> exists i :: 0 <= i <= |s| && sub <= s[i..]
    decreases |s|
  {
    if s == [] {
      assert s[0..] == s;
    } else {
      ContainsAt(s[1..], sub);
      if Contains(s, sub) {
        if sub <= s {
          assert s[0..] == s;
          assert 0 <= 0 <= |s| && sub <= s[0..];
        } else {
          assert Contains(s[1..], sub);
          var i :| 0 <= i <= |s[1..]| && sub <= s[1..][i..];
          assert s[1..][i..] == s[i + 1..];
          assert 0 <= i + 1 <= |s| && sub <= s[i + 1..];
        }
      }
      if exists i :: 0 <= i <= |s| && sub <= s[i..] {
        var i :| 0 <= i <= |s| && sub <= s[i..];
        if i > 0 {
          assert s[1..][i - 1..] == s[i..];
          assert Contains(s[1..], sub);
        } else {
          assert s[0..] == s;
        }
      }
    }
  }

  /** A string always contains itself, placed after any prefix. */
  lemma {:induction false} ContainsSuffix(p: string, s: string, sub: string)
    requires sub <= s
    ensures Contains(p + s, sub)
    decreases |p|
  {
    if p == [] {
      assert p + s == s;
    } else {
      assert (p + s)[1..] == p[1..] + s;
      ContainsSuffix(p[1..], s, sub);
    }
  }

  /** The observation-append pattern: `(prior ? prior + " | " : "") + note`. */
  function AppendNote(prior: string, note: string): (r: string)
    ensures |r| == if prior == "" then |note| else |prior| + 3 + |note|
    ensures prior == "" ==> r == note
    ensures prior != "" ==> r[..|prior|] == prior && r[|prior|..|prior| + 3] == " | " && r[|prior| + 3..] == note
    ensures r[|r| - |note|..] == note
  {
    if prior == "" then note else prior + " | " + note
  }

  /** The number a string of decimal digits spells, most significant first. */
  function DigitsValue(s: string): int
  {
    if s == [] then 0 else DigitsValue(s[..|s| - 1]) * 10 + (s[|s| - 1] as int - '0' as int)
  }

  /** Decimal digits of a natural number, as `toString` writes them: digits
      only, with no leading zero, spelling exactly `n`. */
  function NatToString(n: nat): (r: string)
    ensures r != []
    ensures forall i :: 0 <= i < |r| ==> '0' <= r[i] <= '9'
    ensures r[0] == '0' <==> n == 0
    ensures DigitsValue(r) == n
  {
    var d := [('0' as int + n % 10) as char];
    if n < 10 then d
    else
      var h := NatToString(n / 10);
      assert (h + d)[..|h + d| - 1] == h;
      h + d
  }
}
