/** The string operations the identity string and the field paths are built from. */
module Strings {

  /** `text.split(separator)` for a one-character separator. */
  function Split(text: string, separator: char): (parts: seq<string>)
    ensures |parts| > 0
  {
    if text == [] then
      [""]
    else
      var rest := Split(text[1..], separator);
      if text[0] == separator then [""] + rest else [[text[0]] + rest[0]] + rest[1..]
  }

  lemma {:induction false} SplitWithoutSeparator(text: string, separator: char)
    requires separator !in text
    ensures Split(text, separator) == [text]
  {
    if text != [] {
      SplitWithoutSeparator(text[1..], separator);
      assert [text[0]] + text[1..] == text;
    }
  }

  /** The text before the first separator is the first part; the rest splits on its own. */
  lemma {:induction false} SplitAtFirst(head: string, tail: string, separator: char)
    requires separator !in head
    ensures Split(head + [separator] + tail, separator) == [head] + Split(tail, separator)
  {
    var text := head + [separator] + tail;
    if head == [] {
      assert text[1..] == tail;
    } else {
      assert text[1..] == head[1..] + [separator] + tail;
      SplitAtFirst(head[1..], tail, separator);
      assert [head[0]] + head[1..] == head;
    }
  }

  function Occurrences(text: string, c: char): nat {
    if text == [] then 0 else (if text[0] == c then 1 else 0) + Occurrences(text[1..], c)
  }

  lemma {:induction false} OccurrencesConcat(a: string, b: string, c: char)
    ensures Occurrences(a + b, c) == Occurrences(a, c) + Occurrences(b, c)
  {
    if a == [] {
      assert a + b == b;
    } else {
      assert (a + b)[1..] == a[1..] + b;
      OccurrencesConcat(a[1..], b, c);
    }
  }

  lemma {:induction false} OccursWhenPresent(text: string, c: char)
    requires c in text
    ensures Occurrences(text, c) > 0
  {
    if text[0] != c {
      assert text == [text[0]] + text[1..];
      OccursWhenPresent(text[1..], c);
    }
  }

  lemma {:induction false} SplitCount(text: string, separator: char)
    ensures |Split(text, separator)| == Occurrences(text, separator) + 1
  {
    if text != [] {
      SplitCount(text[1..], separator);
    }
  }

  // ---------- Decimal numbers ----------

  const DIGITS := "0123456789"

  predicate AllDigits(text: string) {
    forall i :: 0 <= i < |text| ==> '0' <= text[i] <= '9'
  }

  /** The decimal text of a natural number. */
  function Decimal(n: nat): (text: string)
    ensures text != [] && AllDigits(text)
  {
    if n < 10 then [DIGITS[n]] else Decimal(n / 10) + [DIGITS[n % 10]]
  }

  /** The number a string of digits denotes; leading zeros are allowed. */
  function DecimalValue(text: string): nat
    requires AllDigits(text)
  {
    if text == [] then 0
    else 10 * DecimalValue(text[..|text| - 1]) + (text[|text| - 1] as int - '0' as int)
  }

  lemma {:induction false} DecimalRoundTrip(n: nat)
    ensures DecimalValue(Decimal(n)) == n
  {
    var text := Decimal(n);
    if n >= 10 {
      DecimalRoundTrip(n / 10);
      assert text[..|text| - 1] == Decimal(n / 10);
    } else {
      assert text[..0] == [];
    }
  }

  lemma {:induction false} NoLeadingZero(n: nat)
    ensures n > 0 ==> Decimal(n)[0] != '0'
    ensures n == 0 ==> |Decimal(n)| == 1
  {
    if n >= 10 {
      NoLeadingZero(n / 10);
    }
  }

  lemma {:induction false} LeadingZeros(zeros: nat, text: string)
    requires AllDigits(text)
    ensures AllDigits(seq(zeros, _ => '0') + text)
    ensures DecimalValue(seq(zeros, _ => '0') + text) == DecimalValue(text)
  {
    var padded := seq(zeros, _ => '0') + text;
    if text != [] {
      LeadingZeros(zeros, text[..|text| - 1]);
      assert padded[..|padded| - 1] == seq(zeros, _ => '0') + text[..|text| - 1];
    } else if zeros > 0 {
      LeadingZeros(zeros - 1, []);
      assert padded[..|padded| - 1] == seq(zeros - 1, _ => '0') + [];
    }
  }
}
