/**
 * Multi-address queries pass a list of addresses as one field: the list
 * joined with "," (`Vec<&str>::join`). `Split` is `str::split` on one
 * character, the reading a server applies to such a field.
 */
module AddressList {

  /** Total length of all parts. */
  function TotalLength(parts: seq<string>): nat
  {
    if parts == [] then 0 else |parts[0]| + TotalLength(parts[1..])
  }

  /** The parts with `sep` between each neighbouring two. */
  function Join(parts: seq<string>, sep: string): (s: string)
    ensures |parts| >= 1 ==> |s| == TotalLength(parts) + (|parts| - 1) * |sep|
    ensures |parts| == 0 ==> s == ""
  {
    if |parts| == 0 then ""
    else if |parts| == 1 then parts[0]
    else parts[0] + sep + Join(parts[1..], sep)
  }

  /** Number of occurrences of `c` in `s`. */
  function Count(s: string, c: char): nat
  {
    if s == [] then 0 else (if s[0] == c then 1 else 0) + Count(s[1..], c)
  }

  /** Position of the first `c` in `s`. */
  function IndexOf(s: string, c: char): (i: nat)
    requires c in s
    ensures i < |s| && s[i] == c && c !in s[..i]
  {
    if s[0] == c then 0 else 1 + IndexOf(s[1..], c)
  }

  /** The pieces of `s` between occurrences of `c`; never empty (splitting "" gives [""]). */
  function Split(s: string, c: char): (parts: seq<string>)
    ensures |parts| >= 1
    decreases |s|
  {
    if c !in s then [s]
    else
      var i := IndexOf(s, c);
      [s[..i]] + Split(s[i + 1..], c)
  }

  predicate NoComma(parts: seq<string>)
  {
    forall i :: 0 <= i < |parts| ==> ',' !in parts[i]
  }

  /** An empty list joins to "", and a single address is passed through unchanged. */
  lemma JoinSmallCases(x: string)
    ensures Join([], ",") == ""
    ensures Join([x], ",") == x
    ensures ',' !in x ==> Count(Join([x], ","), ',') == 0
  {
    if ',' !in x {
      CountAbsent(x, ',');
    }
  }

  lemma {:induction false} CountAbsent(s: string, c: char)
    requires c !in s
    ensures Count(s, c) == 0
  {
    if s != [] {
      CountAbsent(s[1..], c);
    }
  }

  lemma {:induction false} CountAppend(a: string, b: string, c: char)
    ensures Count(a + b, c) == Count(a, c) + Count(b, c)
  {
    if a == [] {
      assert a + b == b;
    } else {
      assert (a + b)[1..] == a[1..] + b;
      CountAppend(a[1..], b, c);
    }
  }

  /** Joining n >= 1 comma-free addresses introduces exactly n - 1 commas. */
  lemma {:induction false} JoinCommaCount(parts: seq<string>)
    requires |parts| >= 1 && NoComma(parts)
    ensures Count(Join(parts, ","), ',') == |parts| - 1
  {
    CountAbsent(parts[0], ',');
    if |parts| > 1 {
      JoinCommaCount(parts[1..]);
      CountAppend(parts[0], ",", ',');
      CountAppend(parts[0] + ",", Join(parts[1..], ","), ',');
    }
  }

  /** Splitting the joined field on "," gives back the n >= 1 comma-free addresses. */
  lemma {:induction false} SplitJoin(parts: seq<string>)
    requires |parts| >= 1 && NoComma(parts)
    ensures Split(Join(parts, ","), ',') == parts
  {
    if |parts| > 1 {
      var s := Join(parts, ",");
      var x := parts[0];
      var rest := Join(parts[1..], ",");
      assert s == x + "," + rest;
      assert s[|x|] == ',';
      assert s[..|x|] == x;
      assert ',' in s;
      assert IndexOf(s, ',') == |x|;
      assert s[|x| + 1..] == rest;
      SplitJoin(parts[1..]);
      assert parts == [x] + parts[1..];
    }
  }

  /** The round trip needs n >= 1: the empty list joins to "", which splits into one empty piece. */
  lemma EmptyListDoesNotRoundTrip()
    ensures Split(Join([], ","), ',') == [""]
  {
  }

  /** Three addresses join to "0xA,0xB,0xC". */
  lemma JoinThree()
    ensures Join(["0xA", "0xB", "0xC"], ",") == "0xA,0xB,0xC"
  {
  }
}
