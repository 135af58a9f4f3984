/**
 * Reading a cheque number back out of a payment's free-text observations:
 * the three case-insensitive patterns tried in order when a cheque payment is
 * copied to the bank-transaction list, and the note written when a cheque is
 * issued, from which the first pattern recovers the number.
 */
module ChequeText {
  import opened Common
  import Text

  /** The characters of the regular-expression class `\s`. */
  predicate IsWs(c: char)
  {
    c == ' ' || c == '\t' || c == '\n' || c == '\U{000B}' || c == '\U{000C}' || c == '\r'
    || c == '\U{00A0}' || c == '\U{1680}' || ('\U{2000}' <= c <= '\U{200A}')
    || c == '\U{2028}' || c == '\U{2029}' || c == '\U{202F}' || c == '\U{205F}'
    || c == '\U{3000}' || c == '\U{FEFF}'
  }

  /** The characters of `\d`. */
  predicate IsDigit(c: char)
  {
    '0' <= c <= '9'
  }

  predicate AllDigits(s: string)
  {
    forall k :: 0 <= k < |s| ==> IsDigit(s[k])
  }

  /** The ordinal signs of the class `[º°]`. */
  predicate IsOrdinal(c: char)
  {
    c == 'º' || c == '°'
  }

  /** The lower-case ASCII `word` occurs at position `i`, ignoring case. */
  predicate WordAt(s: string, i: nat, word: string)
  {
    i + |word| <= |s| && forall k :: 0 <= k < |word| ==> Text.LowerChar(s[i + k]) == word[k]
  }

  /** End of the longest run of white space starting at `i`. */
  function WsEnd(s: string, i: nat): (j: nat)
    requires i <= |s|
    ensures i <= j <= |s|
    ensures forall k :: i <= k < j ==> IsWs(s[k])
    ensures j < |s| ==> !IsWs(s[j])
    decreases |s| - i
  {
    if i < |s| && IsWs(s[i]) then WsEnd(s, i + 1) else i
  }

  /** End of the longest run of digits starting at `i`. */
  function DigitEnd(s: string, i: nat): (j: nat)
    requires i <= |s|
    ensures i <= j <= |s|
    ensures forall k :: i <= k < j ==> IsDigit(s[k])
    ensures j < |s| ==> !IsDigit(s[j])
    decreases |s| - i
  {
    if i < |s| && IsDigit(s[i]) then DigitEnd(s, i + 1) else i
  }

  /** `\s*(\d+)` at position `k`: the captured digits, if any. */
  function DigitsAfterWs(s: string, k: nat): (r: Option<string>)
    requires k <= |s|
    ensures r.Some? ==> r.value != "" && AllDigits(r.value)
  {
    var m := WsEnd(s, k);
    var d := DigitEnd(s, m);
    if d > m then Some(s[m..d]) else None
  }

  /** The three patterns, in the order they are tried. */
  datatype Pattern =
    | ChequeWord   // cheque\s+n[º°]?\s*(\d+)
    | ChWord       // ch\s+n[º°]?\s*(\d+)
    | ChShort      // ch\s*(\d+)

  /** `<word>\s+n[º°]?\s*(\d+)` at position `i`. The white-space runs are
      maximal and an ordinal sign, when present, must be taken for the digits
      to follow, so the match needs no backtracking. */
  function NumberedAt(s: string, i: nat, word: string): (r: Option<string>)
    requires i <= |s|
    ensures r.Some? ==> WordAt(s, i, word) && r.value != "" && AllDigits(r.value)
  {
    if !WordAt(s, i, word) then None
    else
      var j := WsEnd(s, i + |word|);
      if j == i + |word| || j == |s| || Text.LowerChar(s[j]) != 'n' then None
      else if j + 1 < |s| && IsOrdinal(s[j + 1]) then DigitsAfterWs(s, j + 2)
      else DigitsAfterWs(s, j + 1)
  }

  /** The captured number of a pattern matched at position `i`. */
  function MatchAt(s: string, i: nat, pat: Pattern): (r: Option<string>)
    requires i <= |s|
    ensures r.Some? ==> r.value != "" && AllDigits(r.value)
    ensures pat == ChequeWord && r.Some? ==> WordAt(s, i, "cheque")
    ensures pat != ChequeWord && r.Some? ==> WordAt(s, i, "ch")
  {
    match pat
    case ChequeWord => NumberedAt(s, i, "cheque")
    case ChWord => NumberedAt(s, i, "ch")
    case ChShort => if WordAt(s, i, "ch") then DigitsAfterWs(s, i + 2) else None
  }

  /** The first match result in `ms` at or after `i`. */
  function FirstSome(ms: seq<Option<string>>, i: nat): (r: Option<string>)
    requires i <= |ms|
    ensures r.Some? ==> exists k :: i <= k < |ms| && ms[k] == r && forall j :: i <= j < k ==> ms[j].None?
    ensures r.None? ==> forall k :: i <= k < |ms| ==> ms[k].None?
    decreases |ms| - i
  {
    if i == |ms| then None
    else if ms[i].Some? then ms[i]
    else FirstSome(ms, i + 1)
  }

  /** The pattern tried at every position of `s`, the end included. */
  function Attempts(s: string, pat: Pattern): (ms: seq<Option<string>>)
    ensures |ms| == |s| + 1
    ensures forall k :: 0 <= k <= |s| ==> ms[k] == MatchAt(s, k, pat)
  {
    seq(|s| + 1, k requires 0 <= k <= |s| => MatchAt(s, k, pat))
  }

  /** `s.match(pattern)`: the leftmost match wins. */
  function FirstMatch(s: string, pat: Pattern): (r: Option<string>)
    ensures r.Some? ==> r.value != "" && AllDigits(r.value)
    ensures r.Some? ==> exists k :: 0 <= k <= |s| && MatchAt(s, k, pat) == r
                                    && forall j :: 0 <= j < k ==> MatchAt(s, j, pat).None?
    ensures r.None? ==> forall k :: 0 <= k <= |s| ==> MatchAt(s, k, pat).None?
  {
    var ms := Attempts(s, pat);
    FirstSome(ms, 0)
  }

  /** The order in which the patterns are tried. */
  function Rank(pat: Pattern): nat
  {
    match pat
    case ChequeWord => 0
    case ChWord => 1
    case ChShort => 2
  }

  /** The cheque number read from a payment's observations: the first of the
      three patterns that matches anywhere, its digits. */
  function ExtractChequeNumber(obs: string): (r: Option<string>)
    ensures r.Some? ==> r.value != "" && AllDigits(r.value)
    ensures r.None? <==> forall pat: Pattern, k :: 0 <= k <= |obs| ==> MatchAt(obs, k, pat).None?
    ensures r.Some? ==>
              exists pat: Pattern, k :: 0 <= k <= |obs| && MatchAt(obs, k, pat) == r
                && (forall j :: 0 <= j < k ==> MatchAt(obs, j, pat).None?)
                && (forall q: Pattern, j :: Rank(q) < Rank(pat) && 0 <= j <= |obs| ==> MatchAt(obs, j, q).None?)
  {
    var a := FirstMatch(obs, ChequeWord);
    if a.Some? then a
    else
      var b := FirstMatch(obs, ChWord);
      if b.Some? then b else FirstMatch(obs, ChShort)
  }

  /** The note appended to a payment's observations when a cheque is issued. */
  function EmissionNote(numero: string, date: string): string
  {
    "Cheque nº " + numero + " emitido em " + date
  }

  /** The text contains no "cheque", in any case, at any position. */
  predicate NoChequeWord(s: string)
  {
    forall i :: 0 <= i <= |s| ==> !WordAt(s, i, "cheque")
  }

  // ---------------------------------------------------------------- lemmas

  /** The first result is the one at the first position that has one. */
  lemma {:induction false} FirstSomeAt(ms: seq<Option<string>>, i: nat, p: nat)
    requires i <= p < |ms|
    requires forall k :: i <= k < p ==> ms[k].None?
    requires ms[p].Some?
    ensures FirstSome(ms, i) == ms[p]
    decreases p - i
  {
    if i < p {
      FirstSomeAt(ms, i + 1, p);
    }
  }

  /** The leftmost match is the one at the first position that matches. */
  lemma FirstMatchAt(s: string, pat: Pattern, p: nat)
    requires p <= |s|
    requires forall k :: 0 <= k < p ==> MatchAt(s, k, pat).None?
    requires MatchAt(s, p, pat).Some?
    ensures FirstMatch(s, pat) == MatchAt(s, p, pat)
  {
    FirstSomeAt(Attempts(s, pat), 0, p);
  }

  lemma WordAtChar(s: string, i: nat, word: string, k: nat)
    requires WordAt(s, i, word) && k < |word|
    ensures Text.LowerChar(s[i + k]) == word[k]
  {
  }

  /** A maximal white-space run is the one `WsEnd` finds. */
  lemma WsEndIs(s: string, i: nat, j: nat)
    requires i <= j <= |s|
    requires forall k :: i <= k < j ==> IsWs(s[k])
    requires j < |s| ==> !IsWs(s[j])
    ensures WsEnd(s, i) == j
  {
  }

  /** A maximal digit run is the one `DigitEnd` finds. */
  lemma DigitEndIs(s: string, i: nat, j: nat)
    requires i <= j <= |s|
    requires forall k :: i <= k < j ==> IsDigit(s[k])
    requires j < |s| ==> !IsDigit(s[j])
    ensures DigitEnd(s, i) == j
  {
  }

  /** The characters of the emission note around the number. */
  lemma EmissionNoteLayout(numero: string, date: string)
    ensures var note := EmissionNote(numero, date);
            |note| > 10 + |numero|
            && note[..10] == "Cheque nº " && note[10..10 + |numero|] == numero && note[10 + |numero|] == ' '
  {
    var note := EmissionNote(numero, date);
    assert note == "Cheque nº " + numero + (" emitido em " + date);
  }

  /** The emission note matches the first pattern at its start, capturing the number. */
  lemma NoteMatches(s: string, p: nat, numero: string, date: string)
    requires numero != "" && AllDigits(numero)
    requires p + |EmissionNote(numero, date)| == |s| && s[p..] == EmissionNote(numero, date)
    ensures MatchAt(s, p, ChequeWord) == Some(numero)
  {
    var n := |numero|;
    EmissionNoteLayout(numero, date);
    assert s[p..p + 10] == "Cheque nº ";
    assert s[p + 10..p + 10 + n] == numero;
    assert s[p + 10 + n] == ' ';
    PrefixMatches(s, p);
    DigitsMatch(s, p + 9, numero);
  }

  /** "Cheque nº " at `p`: the word, one space, the letter and the sign, one space. */
  lemma PrefixMatches(s: string, p: nat)
    requires p + 10 <= |s| && s[p..p + 10] == "Cheque nº "
    ensures WordAt(s, p, "cheque")
    ensures WsEnd(s, p + 6) == p + 7 && Text.LowerChar(s[p + 7]) == 'n' && IsOrdinal(s[p + 8]) && s[p + 9] == ' '
  {
    forall k | 0 <= k < 6
      ensures Text.LowerChar(s[p + k]) == "cheque"[k]
    {
      assert s[p + k] == "Cheque nº "[k];
    }
    assert s[p + 6] == ' ' && s[p + 7] == 'n' && s[p + 8] == 'º' && s[p + 9] == ' ';
    WsEndIs(s, p + 6, p + 7);
  }

  /** A space, then a digit string followed by a space: `\s*(\d+)` at the
      first space captures the digits. */
  lemma DigitsMatch(s: string, m: nat, numero: string)
    requires numero != "" && AllDigits(numero)
    requires m + 1 + |numero| < |s| && s[m] == ' ' && s[m + 1..m + 1 + |numero|] == numero && s[m + 1 + |numero|] == ' '
    ensures DigitsAfterWs(s, m) == Some(numero)
  {
    assert s[m + 1] == numero[0];
    WsEndIs(s, m, m + 1);
    forall k | m + 1 <= k < m + 1 + |numero|
      ensures IsDigit(s[k])
    {
      assert s[k] == numero[k - (m + 1)];
    }
    DigitEndIs(s, m + 1, m + 1 + |numero|);
  }

  /** Issuing a cheque and then reading the observations back recovers the
      number, provided the earlier observations never mention a cheque. */
  lemma ExtractAfterEmission(prior: string, numero: string, date: string)
    requires numero != "" && AllDigits(numero)
    requires NoChequeWord(prior)
    ensures ExtractChequeNumber(Text.AppendNote(prior, EmissionNote(numero, date))) == Some(numero)
  {
    var note := EmissionNote(numero, date);
    var s := Text.AppendNote(prior, note);
    var p := if prior == "" then 0 else |prior| + 3;
    assert s[p..] == note;
    forall k | 0 <= k < p
      ensures MatchAt(s, k, ChequeWord).None?
    {
      if WordAt(s, k, "cheque") {
        if k + 6 <= |prior| {
          assert s[..|prior|] == prior;
          forall j | 0 <= j < 6
            ensures Text.LowerChar(prior[k + j]) == "cheque"[j]
          {
            WordAtChar(s, k, "cheque", j);
            assert prior[k + j] == s[k + j];
          }
          assert WordAt(prior, k, "cheque");
          assert false;
        } else if k < |prior| {
          assert s[|prior|] == ' ';
          WordAtChar(s, k, "cheque", |prior| - k);
          assert false;
        } else {
          assert s[|prior|..|prior| + 3] == " | ";
          assert s[k] == " | "[k - |prior|];
          WordAtChar(s, k, "cheque", 0);
          assert false;
        }
      }
    }
    NoteMatches(s, p, numero, date);
    FirstMatchAt(s, ChequeWord, p);
  }

  /** The short pattern alone reads "CH 12", which the other two patterns miss. */
  lemma ShortPatternExample()
    ensures ExtractChequeNumber("CH 12") == Some("12")
  {
    var s := "CH 12";
    WsEndIs(s, 2, 3);
    DigitEndIs(s, 3, 5);
    assert WordAt(s, 0, "ch");
    assert s[3..5] == "12";
    forall k | 0 <= k <= |s|
      ensures MatchAt(s, k, ChequeWord).None? && MatchAt(s, k, ChWord).None?
    {
      if 0 < k < 3 {
        assert Text.LowerChar(s[k]) != 'c';
      }
    }
    assert MatchAt(s, 0, ChShort) == Some("12");
    FirstMatchAt(s, ChShort, 0);
  }
}
