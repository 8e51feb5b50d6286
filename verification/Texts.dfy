/** Splitting and joining texts, decimal numbers, and the order in which names are sorted. */
module Texts {
  import opened Options
  import AnyOrder

  // ---------- Splitting at a separator ----------

  /** The length of the text before the first separator. */
  function Until(s: string, sep: char): (n: nat)
    ensures n <= |s| && sep !in s[..n] && (n < |s| ==> s[n] == sep)
  {
    if s == [] || s[0] == sep then 0 else
      assert s[..1 + Until(s[1..], sep)] == [s[0]] + s[1..][..Until(s[1..], sep)];
      1 + Until(s[1..], sep)
  }

  function Split(s: string, sep: char): (parts: seq<string>)
    ensures parts != []
    decreases |s|
  {
    var n := Until(s, sep);
    if n == |s| then [s] else [s[..n]] + Split(s[n + 1..], sep)
  }

  function Join(parts: seq<string>, sep: char): string
    requires parts != []
  {
    if |parts| == 1 then parts[0] else parts[0] + [sep] + Join(parts[1..], sep)
  }

  predicate Unsplit(parts: seq<string>, sep: char) { forall k | 0 <= k < |parts| :: sep !in parts[k] }

  lemma {:induction false} UntilFirst(part: string, rest: string, sep: char)
    requires sep !in part
    ensures Until(part + [sep] + rest, sep) == |part|
    decreases |part|
  {
    var s := part + [sep] + rest;
    if part != [] {
      assert s[1..] == part[1..] + [sep] + rest;
      UntilFirst(part[1..], rest, sep);
    }
  }

  lemma SplitFirst(part: string, rest: string, sep: char)
    requires sep !in part
    ensures Split(part + [sep] + rest, sep) == [part] + Split(rest, sep)
  {
    var s := part + [sep] + rest;
    UntilFirst(part, rest, sep);
    assert s[..|part|] == part && s[|part| + 1..] == rest;
  }

  lemma {:induction false} SplitJoin(parts: seq<string>, sep: char)
    requires parts != [] && Unsplit(parts, sep)
    ensures Split(Join(parts, sep), sep) == parts
    decreases |parts|
  {
    if |parts| == 1 {
      assert sep !in parts[0];
    } else {
      SplitJoin(parts[1..], sep);
      SplitFirst(parts[0], Join(parts[1..], sep), sep);
      assert parts == [parts[0]] + parts[1..];
    }
  }

  lemma {:induction false} JoinSplit(s: string, sep: char)
    ensures Join(Split(s, sep), sep) == s && Unsplit(Split(s, sep), sep)
    decreases |s|
  {
    var n := Until(s, sep);
    if n == |s| {
      assert s[..n] == s;
    } else {
      var rest := Split(s[n + 1..], sep);
      JoinSplit(s[n + 1..], sep);
      assert ([s[..n]] + rest)[1..] == rest;
      assert s == s[..n] + [sep] + s[n + 1..];
    }
  }

  // ---------- White space ----------

  predicate IsSpace(c: char) {
    var n := c as int;
    || 9 <= n <= 13 || n == 0x20 || n == 0x85 || n == 0xA0 || n == 0x1680 || 0x2000 <= n <= 0x200A
    || n == 0x2028 || n == 0x2029 || n == 0x202F || n == 0x205F || n == 0x3000
  }

  function TrimLeft(s: string): string { if s != [] && IsSpace(s[0]) then TrimLeft(s[1..]) else s }

  function TrimRight(s: string): string { if s != [] && IsSpace(s[|s| - 1]) then TrimRight(s[..|s| - 1]) else s }

  function TrimSpace(s: string): string { TrimRight(TrimLeft(s)) }

  // ---------- Decimal numbers ----------

  predicate IsDigit(c: char) { '0' <= c <= '9' }

  predicate AllDigits(s: string) { forall k | 0 <= k < |s| :: IsDigit(s[k]) }

  function Digit(d: nat): char
    requires d < 10
  {
    '0' + d as char
  }

  function Itoa(n: nat): (s: string)
    ensures s != [] && AllDigits(s)
  {
    if n < 10 then [Digit(n)] else Itoa(n / 10) + [Digit(n % 10)]
  }

  function Value(digits: string): nat
    requires AllDigits(digits)
  {
    if digits == [] then 0 else 10 * Value(digits[..|digits| - 1]) + (digits[|digits| - 1] - '0') as nat
  }

  function Atoi(s: string): Option<int> {
    var negative := s != [] && s[0] == '-';
    var digits := if s != [] && (s[0] == '-' || s[0] == '+') then s[1..] else s;
    if digits == [] || !AllDigits(digits) then None
    else Some(if negative then -(Value(digits) as int) else Value(digits))
  }

  lemma {:induction false} ValueOfItoa(n: nat)
    ensures Value(Itoa(n)) == n
  {
    if n >= 10 {
      ValueOfItoa(n / 10);
      assert Itoa(n)[..|Itoa(n)| - 1] == Itoa(n / 10);
    }
  }

  lemma AtoiOfItoa(n: nat)
    ensures Atoi(Itoa(n)) == Some(n)
  {
    ValueOfItoa(n);
  }

  // ---------- The order of names ----------

  predicate Leq(a: string, b: string) {
    a == [] || (b != [] && (a[0] < b[0] || (a[0] == b[0] && Leq(a[1..], b[1..]))))
  }

  lemma {:induction false} LeqTotal(a: string, b: string)
    ensures Leq(a, b) || Leq(b, a)
    ensures Leq(a, b) && Leq(b, a) ==> a == b
    decreases |a|
  {
    if a != [] && b != [] && a[0] == b[0] {
      LeqTotal(a[1..], b[1..]);
      assert a == [a[0]] + a[1..] && b == [b[0]] + b[1..];
    }
  }

  lemma {:induction false} LeqTransitive(a: string, b: string, c: string)
    requires Leq(a, b) && Leq(b, c)
    ensures Leq(a, c)
    decreases |a|
  {
    if a != [] && a[0] == b[0] == c[0] {
      LeqTransitive(a[1..], b[1..], c[1..]);
    }
  }

  ghost predicate IsFirst(names: set<string>, name: string) {
    name in names && forall other | other in names :: Leq(name, other)
  }

  lemma FirstExists(names: set<string>)
    requires names != {}
    ensures exists name :: IsFirst(names, name)
  {
    var leq := (a: string, b: string) => Leq(a, b);
    forall a, b ensures leq(a, b) || leq(b, a) {
      LeqTotal(a, b);
    }
    forall a, b, c | leq(a, b) && leq(b, c) ensures leq(a, c) {
      LeqTransitive(a, b, c);
    }
    var name := AnyOrder.LeastOf(names, leq);
    assert IsFirst(names, name);
  }

  /** Names in sorted order. */
  ghost function Sorted(names: set<string>): seq<string>
    decreases |names|
  {
    if names == {} then []
    else
      FirstExists(names);
      var name :| IsFirst(names, name);
      [name] + Sorted(names - {name})
  }

  lemma SortedFirst(names: set<string>, name: string)
    requires IsFirst(names, name)
    ensures Sorted(names) == [name] + Sorted(names - {name})
  {
    FirstExists(names);
    var first :| IsFirst(names, first) && Sorted(names) == [first] + Sorted(names - {first});
    LeqTotal(first, name);
  }

  lemma {:induction false} SortedOnce(names: set<string>)
    ensures forall name :: name in Sorted(names) <==> name in names
    ensures forall i, k | 0 <= i < k < |Sorted(names)| :: Sorted(names)[i] != Sorted(names)[k] && Leq(Sorted(names)[i], Sorted(names)[k])
    decreases |names|
  {
    if names != {} {
      FirstExists(names);
      var name :| IsFirst(names, name) && Sorted(names) == [name] + Sorted(names - {name});
      var rest := Sorted(names - {name});
      SortedOnce(names - {name});
      forall i, k | 0 <= i < k < |Sorted(names)|
        ensures Sorted(names)[i] != Sorted(names)[k] && Leq(Sorted(names)[i], Sorted(names)[k])
      {
        assert Sorted(names)[k] == rest[k - 1] && rest[k - 1] in rest;
        if i > 0 {
          assert Sorted(names)[i] == rest[i - 1];
        }
      }
    }
  }
}
