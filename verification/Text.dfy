/** Splitting, joining and decimal numerals, as the scripts use them on paths, names and timestamps. */
module Text {

  /** `text.split(separator)` for a one-character separator. */
  function Split(text: string, separator: char): (parts: seq<string>)
    ensures parts != []
    ensures forall i | 0 <= i < |parts| :: separator !in parts[i]
  {
    if text == "" then [""]
    else
      var rest := Split(text[1..], separator);
      if text[0] == separator then [""] + rest else [[text[0]] + rest[0]] + rest[1..]
  }

  /** `separator.join(parts)`. */
  function Join(parts: seq<string>, separator: char): string {
    if parts == [] then "" else if |parts| == 1 then parts[0]
    else parts[0] + [separator] + Join(parts[1..], separator)
  }

  lemma {:induction false} SplitHead(head: string, tail: string, separator: char)
    requires separator !in head
    ensures Split(head, separator) == [head]
    ensures Split(head + [separator] + tail, separator) == [head] + Split(tail, separator)
  {
    if head == "" {
      assert ([separator] + tail)[1..] == tail;
      assert head + [separator] + tail == [separator] + tail;
    } else {
      SplitHead(head[1..], tail, separator);
      var text := head + [separator] + tail;
      assert text[1..] == head[1..] + [separator] + tail;
      assert [head[0]] + head[1..] == head;
      assert Split(text[1..], separator)[1..] == Split(tail, separator);
    }
  }

  /** Joining and splitting are inverse to each other on separator-free parts. */
  lemma {:induction false} JoinSnoc(parts: seq<string>, last: string, separator: char)
    requires parts != []
    ensures Join(parts + [last], separator) == Join(parts, separator) + [separator] + last
  {
    if |parts| > 1 {
      JoinSnoc(parts[1..], last, separator);
      assert (parts + [last])[1..] == parts[1..] + [last];
    } else {
      assert (parts + [last])[1..] == [last];
    }
  }

  /** Splitting a text that ends in one more piece. */
  lemma SplitSnoc(text: string, last: string, separator: char)
    requires separator !in last
    ensures Split(text + [separator] + last, separator) == Split(text, separator) + [last]
  {
    var parts := Split(text, separator) + [last];
    JoinSnoc(Split(text, separator), last, separator);
    JoinSplit(text, separator);
    SplitJoin(parts, separator);
  }

  lemma {:induction false} SplitJoin(parts: seq<string>, separator: char)
    requires parts != [] && forall i | 0 <= i < |parts| :: separator !in parts[i]
    ensures Split(Join(parts, separator), separator) == parts
  {
    SplitHead(parts[0], if |parts| == 1 then "" else Join(parts[1..], separator), separator);
    if |parts| > 1 {
      SplitJoin(parts[1..], separator);
      assert [parts[0]] + parts[1..] == parts;
    }
  }

  lemma {:induction false} JoinSplit(text: string, separator: char)
    ensures Join(Split(text, separator), separator) == text
  {
    if text != "" {
      JoinSplit(text[1..], separator);
      var rest := Split(text[1..], separator);
      if text[0] == separator {
        assert ([""] + rest)[1..] == rest;
      } else {
        assert ([[text[0]] + rest[0]] + rest[1..])[1..] == rest[1..];
      }
    }
  }

  // --- Decimal numerals ----------------------------------------------------------------------

  function Digit(d: nat): char
    requires d < 10
  {
    '0' + d as char
  }

  function Decimal(n: nat): string {
    if n < 10 then [Digit(n)] else Decimal(n / 10) + [Digit(n % 10)]
  }

  /** Zero-padded to at least `width` digits, as the format `:09d` does. */
  function Padded(n: nat, width: nat): string
    decreases width
  {
    if width == 0 then (if n == 0 then "" else Decimal(n)) else Padded(n / 10, width - 1) + [Digit(n % 10)]
  }

  predicate Numeral(text: string) {
    forall i | 0 <= i < |text| :: '0' <= text[i] <= '9'
  }

  /** `int(text)` of a run of digits. */
  function Value(text: string): nat
    requires Numeral(text)
  {
    if text == "" then 0 else 10 * Value(text[..|text| - 1]) + (text[|text| - 1] as int - '0' as int)
  }

  lemma ValueOfSnoc(text: string, d: nat)
    requires Numeral(text) && d < 10
    ensures Numeral(text + [Digit(d)]) && Value(text + [Digit(d)]) == 10 * Value(text) + d
  {
    assert (text + [Digit(d)])[..|text|] == text;
  }

  lemma {:induction false} ValueOfDecimal(n: nat)
    ensures Numeral(Decimal(n)) && Value(Decimal(n)) == n
  {
    if n < 10 {
      ValueOfSnoc("", n);
      assert "" + [Digit(n)] == [Digit(n)];
    } else {
      ValueOfDecimal(n / 10);
      ValueOfSnoc(Decimal(n / 10), n % 10);
    }
  }

  lemma {:induction false} ValueOfPadded(n: nat, width: nat)
    ensures Numeral(Padded(n, width)) && Value(Padded(n, width)) == n
    decreases width
  {
    if width == 0 {
      if n > 0 {
        ValueOfDecimal(n);
      }
    } else {
      ValueOfPadded(n / 10, width - 1);
      ValueOfSnoc(Padded(n / 10, width - 1), n % 10);
    }
  }
}
