/** Decimal numerals and comma-joined lists (strconv.Itoa and Atoi as snapshot.go:105-132 uses them). */
module Decimals {
  import opened Routing

  function Digit(d: nat): (c: char)
    requires d < 10
    ensures '0' <= c <= '9' && c as int == '0' as int + d
  {
    ('0' as int + d) as char
  }

  function Itoa(n: nat): (s: string)
    ensures s != "" && forall i :: 0 <= i < |s| ==> '0' <= s[i] <= '9'
  {
    if n < 10 then [Digit(n)] else Itoa(n / 10) + [Digit(n % 10)]
  }

  /** The number a string of digits stands for, or nothing. */
  function Atoi(s: string): Option<nat> {
    if s == "" || !('0' <= s[|s| - 1] <= '9') then None
    else
      var last := s[|s| - 1] as int - '0' as int;
      if |s| == 1 then Some(last)
      else
        match Atoi(s[..|s| - 1])
        case None => None
        case Some(n) => Some(10 * n + last)
  }

  lemma {:induction false} AtoiItoa(n: nat)
    ensures Atoi(Itoa(n)) == Some(n)
  {
    if n >= 10 {
      AtoiItoa(n / 10);
      var s := Itoa(n / 10) + [Digit(n % 10)];
      assert s[..|s| - 1] == Itoa(n / 10);
    }
  }

  /** Different numbers have different numerals. */
  lemma ItoaInjective(m: nat, n: nat)
    requires Itoa(m) == Itoa(n)
    ensures m == n
  {
    AtoiItoa(m);
    AtoiItoa(n);
  }

  function Join(parts: seq<string>): string {
    if parts == [] then ""
    else if |parts| == 1 then parts[0]
    else Join(parts[..|parts| - 1]) + "," + parts[|parts| - 1]
  }

  /** The parts between commas; there is always at least one. */
  function Split(s: string): (parts: seq<string>)
    ensures |parts| >= 1
  {
    if s == "" then [""]
    else
      var rest, c := Split(s[..|s| - 1]), s[|s| - 1];
      if c == ',' then rest + [""] else rest[..|rest| - 1] + [rest[|rest| - 1] + [c]]
  }

  /** The parts with more at the end of the last one. */
  function Lengthened(parts: seq<string>, more: string): seq<string>
    requires parts != []
  {
    parts[..|parts| - 1] + [parts[|parts| - 1] + more]
  }

  lemma LengthenedTwice(parts: seq<string>, a: string, b: string)
    requires parts != []
    ensures Lengthened(Lengthened(parts, a), b) == Lengthened(parts, a + b)
    ensures Lengthened(parts, "") == parts
  {
    assert (parts[|parts| - 1] + a) + b == parts[|parts| - 1] + (a + b);
    assert parts[|parts| - 1] + "" == parts[|parts| - 1];
  }

  lemma SplitLast(s: string, c: char)
    ensures Split(s + [c]) == if c == ',' then Split(s) + [""] else Lengthened(Split(s), [c])
  {
    assert (s + [c])[..|s|] == s;
  }

  /** Text without commas only lengthens the last part. */
  lemma {:induction false} SplitPlain(s: string, part: string)
    requires ',' !in part
    ensures Split(s + part) == Lengthened(Split(s), part)
  {
    hide Split, Lengthened;
    if part == "" {
      LengthenedTwice(Split(s), "", "");
      assert s + part == s;
    } else {
      var shorter, c := part[..|part| - 1], part[|part| - 1];
      assert c in part;
      assert shorter + [c] == part;
      SplitPlain(s, shorter);
      assert s + part == (s + shorter) + [c];
      SplitLast(s + shorter, c);
      LengthenedTwice(Split(s), shorter, [c]);
    }
  }

  lemma {:induction false} SplitJoin(parts: seq<string>)
    requires parts != [] && forall p :: p in parts ==> ',' !in p
    ensures Split(Join(parts)) == parts
  {
    hide Split, Lengthened;
    var init, last := parts[..|parts| - 1], parts[|parts| - 1];
    assert last in parts;
    Refilled(init, last);
    assert init + [last] == parts;
    if |parts| == 1 {
      SplitPlain("", last);
      SplitEmpty();
      assert "" + last == last;
    } else {
      forall p | p in init ensures ',' !in p {
        assert p in parts;
      }
      SplitJoin(init);
      JoinLast(parts);
      SplitLast(Join(init), ',');
      SplitPlain(Join(init) + ",", last);
    }
  }

  lemma SplitEmpty()
    ensures Split("") == [""] && [] + [""] == [""]
  {
  }

  lemma Refilled(init: seq<string>, last: string)
    ensures Lengthened(init + [""], last) == init + [last]
  {
    assert "" + last == last;
  }

  lemma JoinLast(parts: seq<string>)
    requires |parts| >= 2
    ensures Join(parts) == (Join(parts[..|parts| - 1]) + ",") + parts[|parts| - 1]
  {
  }
}
