/** Splitting text at a separator character, as `String.prototype.split` does. */
module Strings {
  function Split(s: string, separator: char): (parts: seq<string>)
    ensures |parts| > 0
  {
    if s == "" then [""]
    else if s[0] == separator then [""] + Split(s[1..], separator)
    else
      var rest := Split(s[1..], separator);
      [[s[0]] + rest[0]] + rest[1..]
  }

  lemma {:induction false} SplitAtSeparator(a: string, b: string, separator: char)
    requires separator !in a
    ensures Split(a + [separator] + b, separator) == [a] + Split(b, separator)
    decreases |a|
  {
    var whole := a + [separator] + b;
    if a == "" {
      assert whole == [separator] + b && whole[1..] == b;
    } else {
      assert whole[1..] == a[1..] + [separator] + b;
      SplitAtSeparator(a[1..], b, separator);
      assert [a[0]] + a[1..] == a;
    }
  }

  lemma {:induction false} SplitPlain(a: string, separator: char)
    requires separator !in a
    ensures Split(a, separator) == [a]
  {
    if a != "" {
      SplitPlain(a[1..], separator);
      assert [a[0]] + a[1..] == a;
    }
  }

  function Last(parts: seq<string>): string
    requires parts != []
  {
    parts[|parts| - 1]
  }

  function AllButLast(parts: seq<string>): seq<string>
    requires parts != []
  {
    parts[..|parts| - 1]
  }

  /** A character in front of a text joins its first part, or opens a new one. */
  lemma SplitCons(x: char, s: string, separator: char)
    ensures var rest := Split(s, separator);
            Split([x] + s, separator) == if x == separator then [""] + rest else [[x] + rest[0]] + rest[1..]
  {
    assert ([x] + s)[1..] == s;
  }

  /** Splitting can stop anywhere and go on later with the unfinished last part. */
  lemma {:induction false} SplitAppend(a: string, b: string, separator: char)
    ensures var parts := Split(a, separator);
            Split(a + b, separator) == AllButLast(parts) + Split(Last(parts) + b, separator)
    decreases |a|
  {
    if a == "" {
      assert a + b == b;
    } else {
      var tail := a[1..];
      SplitAppend(tail, b, separator);
      assert a == [a[0]] + tail && a + b == [a[0]] + (tail + b);
      SplitAppendCons(a[0], tail, b, separator);
    }
  }

  lemma SplitAppendCons(x: char, tail: string, b: string, separator: char)
    requires var rest := Split(tail, separator);
             Split(tail + b, separator) == AllButLast(rest) + Split(Last(rest) + b, separator)
    ensures var parts := Split([x] + tail, separator);
            Split([x] + (tail + b), separator) == AllButLast(parts) + Split(Last(parts) + b, separator)
  {
    var rest := Split(tail, separator);
    SplitCons(x, tail, separator);
    SplitCons(x, tail + b, separator);
    if x == separator || |rest| > 1 {
      ConsParts(x, rest, Split(Last(rest) + b, separator), separator);
    } else {
      ConsLast(x, rest[0], b, separator);
    }
  }

  lemma ConsLast(x: char, last: string, b: string, separator: char)
    requires x != separator
    ensures var more := Split(last + b, separator);
            [[x] + ([] + more)[0]] + ([] + more)[1..] == [] + Split([x] + last + b, separator)
  {
    SplitCons(x, last + b, separator);
    assert [x] + (last + b) == [x] + last + b;
  }

  lemma ConsParts(x: char, rest: seq<string>, more: seq<string>, separator: char)
    requires rest != [] && (x == separator || |rest| > 1)
    ensures var parts := if x == separator then [""] + rest else [[x] + rest[0]] + rest[1..];
            var joined := AllButLast(rest) + more;
            Last(parts) == Last(rest)
            && AllButLast(parts) + more == (if x == separator then [""] + joined else [[x] + joined[0]] + joined[1..])
  {
  }
}
