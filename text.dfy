/** The string operations the service relies on: keeping the digits of a
    ZIP code, Python's `str.capitalize`, and the comma-separated location
    format the provider reads. Letters and digits are the ASCII ones. */
module Text {

  predicate IsDigit(c: char)
  {
    '0' <= c <= '9'
  }

  predicate IsUpper(c: char)
  {
    'A' <= c <= 'Z'
  }

  predicate IsLower(c: char)
  {
    'a' <= c <= 'z'
  }

  predicate AllDigits(s: string)
  {
    forall i :: 0 <= i < |s| ==> IsDigit(s[i])
  }

  /** The digits of `s`, in their original order (a filtering comprehension). */
  function Digits(s: string): (r: string)
    ensures AllDigits(r)
    ensures |r| <= |s|
  {
    if s == [] then []
    else (if IsDigit(s[0]) then [s[0]] else []) + Digits(s[1..])
  }

  /** Every digit of the input is kept as often as it occurs, and nothing else is. */
  lemma {:induction false} DigitsCount(s: string)
    ensures forall c :: multiset(Digits(s))[c] == if IsDigit(c) then multiset(s)[c] else 0
  {
    if s != [] {
      assert s == [s[0]] + s[1..];
      DigitsCount(s[1..]);
    }
  }

  /** Filtering distributes over concatenation: the digits come out in the
      order they appear in the input. */
  lemma {:induction false} DigitsAppend(a: string, b: string)
    ensures Digits(a + b) == Digits(a) + Digits(b)
  {
    if a == [] {
      assert a + b == b;
    } else {
      assert (a + b)[1..] == a[1..] + b;
      DigitsAppend(a[1..], b);
    }
  }

  /** A string of digits alone is left as it is, so cleaning twice is cleaning once. */
  lemma {:induction false} DigitsOfDigits(s: string)
    requires AllDigits(s)
    ensures Digits(s) == s
  {
    if s != [] {
      DigitsOfDigits(s[1..]);
    }
  }

  lemma DigitsIdempotent(s: string)
    ensures Digits(Digits(s)) == Digits(s)
  {
    DigitsOfDigits(Digits(s));
  }

  /** Cleaning yields nothing exactly when the input holds no digit. */
  lemma {:induction false} DigitsEmptyIff(s: string)
    ensures Digits(s) == [] <==> forall i :: 0 <= i < |s| ==> !IsDigit(s[i])
  {
    if s != [] {
      DigitsEmptyIff(s[1..]);
      assert forall i :: 1 <= i < |s| ==> s[i] == s[1..][i - 1];
    }
  }

  lemma DigitsExample()
    ensures Digits("9-0-2-1-0") == "90210"
    ensures Digits("abc") == []
    ensures Digits("") == []
  {
    assert Digits("-0-2-1-0") == "0210" by {
      assert Digits("-1-0") == "10" by {
        assert Digits("0") == "0";
      }
    }
    assert Digits("bc") == [];
  }

  function ToUpper(c: char): (r: char)
    ensures !IsLower(r)
  {
    if IsLower(c) then (c as int - 'a' as int + 'A' as int) as char else c
  }

  function ToLower(c: char): (r: char)
    ensures !IsUpper(r)
  {
    if IsUpper(c) then (c as int - 'A' as int + 'a' as int) as char else c
  }

  function LowerAll(s: string): (r: string)
    ensures |r| == |s|
    ensures forall i :: 0 <= i < |s| ==> r[i] == ToLower(s[i])
  {
    if s == [] then [] else [ToLower(s[0])] + LowerAll(s[1..])
  }

  /** Python's `str.capitalize`: first character upper case, the rest lower case. */
  function Capitalize(s: string): (r: string)
    ensures |r| == |s|
    ensures r != [] ==> r[0] == ToUpper(s[0])
    ensures forall i :: 1 <= i < |r| ==> r[i] == ToLower(s[i]) && !IsUpper(r[i])
  {
    if s == [] then [] else [ToUpper(s[0])] + LowerAll(s[1..])
  }

  /** Capitalising changes only the case of letters. */
  lemma CapitalizeSameLetters(s: string)
    ensures LowerAll(Capitalize(s)) == LowerAll(s)
  {
  }

  /** A capitalised text is left unchanged by capitalising it again. */
  lemma CapitalizeIdempotent(s: string)
    ensures Capitalize(Capitalize(s)) == Capitalize(s)
  {
  }

  /** Splits at the first comma: the text before it and the text after it;
      with no comma the whole text is the first part and the second is empty. */
  function SplitAtFirstComma(s: string): (r: (string, string))
    ensures |r.0| <= |s|
    ensures ',' !in r.0
  {
    if s == [] then ("", "")
    else if s[0] == ',' then ("", s[1..])
    else
      var rest := SplitAtFirstComma(s[1..]);
      ([s[0]] + rest.0, rest.1)
  }

  lemma {:induction false} SplitJoined(a: string, b: string)
    requires ',' !in a
    ensures SplitAtFirstComma(a + "," + b) == (a, b)
  {
    if a == [] {
      assert a + "," + b == [','] + b;
    } else {
      assert a[0] in a;
      assert (a + "," + b)[0] == a[0] != ',';
      assert (a + "," + b)[1..] == a[1..] + "," + b;
      assert [a[0]] + a[1..] == a;
      SplitJoined(a[1..], b);
    }
  }

  lemma {:induction false} SplitNoComma(a: string)
    requires ',' !in a
    ensures SplitAtFirstComma(a) == (a, "")
  {
    if a != [] {
      assert a[0] in a;
      assert a == [a[0]] + a[1..];
      SplitNoComma(a[1..]);
    }
  }

  lemma DigitsHaveNoComma(s: string)
    ensures ',' !in Digits(s)
  {
  }
}
