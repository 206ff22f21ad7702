/** Text rules shared by the subscription registry and the price scrapers:
    ticker normalisation (`toUpperCase`) and the removal of thousands
    separators from scraped price text (`replace(/,/g, "")`). */
module Text {

  predicate IsLowerAscii(c: char) {
    'a' <= c <= 'z'
  }

  /** The two characters are the same letter up to ASCII case. */
  predicate CaseEq(a: char, b: char) {
    a == b
    || (IsLowerAscii(a) && a as int - 32 == b as int)
    || (IsLowerAscii(b) && b as int - 32 == a as int)
  }

  /** Two strings that differ at most in the ASCII case of their letters. */
  predicate EqualIgnoringCase(a: string, b: string) {
    |a| == |b| && forall i :: 0 <= i < |a| ==> CaseEq(a[i], b[i])
  }

  function UpperChar(c: char): char {
    if IsLowerAscii(c) then (c as int - 32) as char else c
  }

  /** Ticker normalisation: the result is the same text with every ASCII
      lower-case letter replaced by its capital, and no lower-case letter left. */
  function ToUpper(s: string): (r: string)
    ensures |r| == |s|
    ensures forall i :: 0 <= i < |r| ==> !IsLowerAscii(r[i])
    ensures EqualIgnoringCase(s, r)
  {
    if s == [] then [] else [UpperChar(s[0])] + ToUpper(s[1..])
  }

  /** For every character there is exactly one upper-case character of the
      same letter, so the contract of ToUpper fixes its result. */
  lemma UpperUnique(c: char, u: char, v: char)
    requires CaseEq(c, u) && !IsLowerAscii(u)
    requires CaseEq(c, v) && !IsLowerAscii(v)
    ensures u == v
  {
  }

  /** The same letter is the same letter: CaseEq composes through an
      upper-case character. */
  lemma CaseEqThroughUpper(a: char, b: char, u: char)
    requires CaseEq(a, u) && CaseEq(b, u) && !IsLowerAscii(u)
    ensures CaseEq(a, b)
  {
  }

  lemma CaseEqMoves(a: char, b: char, u: char)
    requires CaseEq(a, b) && CaseEq(a, u) && !IsLowerAscii(u)
    ensures CaseEq(b, u)
  {
  }

  /** Two tickers normalise to the same text exactly when they are equal
      up to ASCII case: "nio", "Nio" and "NIO" name one subscription. */
  lemma UpperSameIff(a: string, b: string)
    ensures ToUpper(a) == ToUpper(b) <==> EqualIgnoringCase(a, b)
  {
    var ua, ub := ToUpper(a), ToUpper(b);
    assert EqualIgnoringCase(a, ua) && EqualIgnoringCase(b, ub);
    if ua == ub {
      forall i | 0 <= i < |a| ensures CaseEq(a[i], b[i]) {
        CaseEqThroughUpper(a[i], b[i], ua[i]);
      }
    }
    if EqualIgnoringCase(a, b) {
      forall i | 0 <= i < |a| ensures ua[i] == ub[i] {
        CaseEqMoves(a[i], b[i], ua[i]);
        UpperUnique(b[i], ua[i], ub[i]);
      }
      assert ua == ub;
    }
  }

  /** A ticker with no lower-case letter is already normalised. */
  lemma UpperOfUpper(s: string)
    requires forall i :: 0 <= i < |s| ==> !IsLowerAscii(s[i])
    ensures ToUpper(s) == s
  {
    var u := ToUpper(s);
    forall i | 0 <= i < |s| ensures u[i] == s[i] {
      assert CaseEq(s[i], u[i]) && CaseEq(s[i], s[i]);
      UpperUnique(s[i], u[i], s[i]);
    }
  }

  /** Normalising twice is normalising once. */
  lemma UpperIdempotent(s: string)
    ensures ToUpper(ToUpper(s)) == ToUpper(s)
  {
    UpperOfUpper(ToUpper(s));
  }

  /** Scraped price text with every ',' removed (the global flag: not only
      the first one). */
  function StripCommas(s: string): (r: string)
    ensures ',' !in r
    ensures |r| <= |s|
  {
    if s == [] then [] else (if s[0] == ',' then [] else [s[0]]) + StripCommas(s[1..])
  }

  /** Every character other than ',' is kept as often as it occurs, and the
      text shrinks by the number of commas. */
  lemma {:induction false} StripCommasCounts(s: string)
    ensures |StripCommas(s)| == |s| - multiset(s)[',']
    ensures forall c :: c != ',' ==> multiset(StripCommas(s))[c] == multiset(s)[c]
  {
    if s != [] {
      assert s == [s[0]] + s[1..];
      StripCommasCounts(s[1..]);
    }
  }

  /** Stripping works piece by piece, so the kept characters stay in their
      original order. */
  lemma {:induction false} StripCommasConcat(a: string, b: string)
    ensures StripCommas(a + b) == StripCommas(a) + StripCommas(b)
  {
    if a == [] {
      assert a + b == b;
    } else {
      var head := if a[0] == ',' then [] else [a[0]];
      assert (a + b)[0] == a[0];
      assert (a + b)[1..] == a[1..] + b;
      assert StripCommas(a + b) == head + StripCommas(a[1..] + b);
      assert StripCommas(a) == head + StripCommas(a[1..]);
      StripCommasConcat(a[1..], b);
    }
  }

  /** A single character survives exactly when it is not a comma. */
  lemma StripCommasChar(c: char)
    ensures StripCommas([c]) == if c == ',' then [] else [c]
  {
    assert [c][1..] == [];
  }

  /** Text without commas is left as it is; so stripping is idempotent. */
  lemma {:induction false} StripCommasNoCommas(s: string)
    requires ',' !in s
    ensures StripCommas(s) == s
  {
    if s != [] {
      assert s[0] != ',';
      assert ',' !in s[1..];
      StripCommasNoCommas(s[1..]);
    }
  }

  lemma StripCommasIdempotent(s: string)
    ensures StripCommas(StripCommas(s)) == StripCommas(s)
  {
    StripCommasNoCommas(StripCommas(s));
  }
}
