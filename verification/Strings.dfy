/**
  The library calls on strings that the registry and its clients make: sort.Strings,
  strings.Join and strings.Split with ",", and strings.TrimSpace.
 */
module Strings {

  // ----- order and sorting -----

  predicate Leq(a: string, b: string) {
    a == "" || (b != "" && (a[0] < b[0] || (a[0] == b[0] && Leq(a[1..], b[1..]))))
  }

  lemma {:induction false} LeqTotal(a: string, b: string)
    ensures Leq(a, b) || Leq(b, a)
  {
    if a != "" && b != "" {
      LeqTotal(a[1..], b[1..]);
    }
  }

  lemma {:induction false} LeqTransitive(a: string, b: string, c: string)
    requires Leq(a, b) && Leq(b, c)
    ensures Leq(a, c)
  {
    if a != "" && a[0] == b[0] == c[0] {
      LeqTransitive(a[1..], b[1..], c[1..]);
    }
  }

  lemma {:induction false} LeqAntisymmetric(a: string, b: string)
    requires Leq(a, b) && Leq(b, a)
    ensures a == b
  {
    if a != "" {
      LeqAntisymmetric(a[1..], b[1..]);
      assert a == [a[0]] + a[1..] && b == [b[0]] + b[1..];
    }
  }

  /** Position i is the first at which the two differ, and a has the smaller character there. */
  predicate SmallerAt(a: string, b: string, i: nat) {
    i < |a| && i < |b| && a[i] < b[i] && forall k :: 0 <= k < i ==> a[k] == b[k]
  }

  /** The first character in which they differ decides, upwards, and a prefix comes first. */
  lemma {:induction false} LeqMeaning(a: string, b: string)
    ensures Leq(a, b) <==> a <= b || exists i: nat :: SmallerAt(a, b, i)
  {
    if a != "" && b != "" {
      if a[0] == b[0] {
        LeqMeaning(a[1..], b[1..]);
        assert a == [a[0]] + a[1..] && b == [b[0]] + b[1..];
        if i: nat :| SmallerAt(a[1..], b[1..], i) {
          assert SmallerAt(a, b, i + 1);
        }
        if i: nat :| SmallerAt(a, b, i) {
          assert SmallerAt(a[1..], b[1..], i - 1);
        }
      } else if a[0] < b[0] {
        assert SmallerAt(a, b, 0);
      }
    }
  }

  ghost predicate Sorted(list: seq<string>) {
    forall i, j :: 0 <= i < j < |list| ==> Leq(list[i], list[j])
  }

  ghost predicate NoDuplicates(list: seq<string>) {
    forall i, j :: 0 <= i < j < |list| ==> list[i] != list[j]
  }

  /** list holds exactly the members of s, each once, in order. */
  ghost predicate Lists(list: seq<string>, s: set<string>) {
    Sorted(list) && NoDuplicates(list) && forall a :: a in list <==> a in s
  }

  /** A set has one such list, whatever order it was collected in. */
  lemma {:induction false} ListIsUnique(a: seq<string>, b: seq<string>, s: set<string>)
    requires Lists(a, s) && Lists(b, s)
    ensures a == b
  {
    assert a != [] ==> a[0] in b;
    assert b != [] ==> b[0] in a;
    if a != [] && b != [] {
      var i :| 0 <= i < |b| && b[i] == a[0];
      var j :| 0 <= j < |a| && a[j] == b[0];
      if i != 0 {
        LeqAntisymmetric(a[0], b[0]);
      }
      forall x ensures x in a[1..] <==> x in s - {a[0]} {
      }
      forall x ensures x in b[1..] <==> x in s - {a[0]} {
      }
      ListIsUnique(a[1..], b[1..], s - {a[0]});
      assert a == [a[0]] + a[1..] && b == [b[0]] + b[1..];
    }
  }

  function Insert(list: seq<string>, x: string): (r: seq<string>)
    ensures multiset(r) == multiset(list) + multiset{x}
  {
    if list == [] || Leq(x, list[0]) then [x] + list
    else
      assert list == [list[0]] + list[1..];
      [list[0]] + Insert(list[1..], x)
  }

  /** sort.Strings, by insertion. */
  function Sort(list: seq<string>): (r: seq<string>)
    ensures multiset(r) == multiset(list)
  {
    if list == [] then []
    else
      assert list == [list[0]] + list[1..];
      Insert(Sort(list[1..]), list[0])
  }

  lemma {:induction false} InsertSorted(list: seq<string>, x: string)
    requires Sorted(list)
    ensures Sorted(Insert(list, x))
  {
    if list != [] {
      if Leq(x, list[0]) {
        forall i | 0 <= i < |list| ensures Leq(x, list[i]) {
          if i > 0 {
            LeqTransitive(x, list[0], list[i]);
          }
        }
      } else {
        LeqTotal(x, list[0]);
        InsertSorted(list[1..], x);
        var rest := Insert(list[1..], x);
        forall i | 0 <= i < |rest| ensures Leq(list[0], rest[i]) {
          assert rest[i] in multiset(rest);
          assert rest[i] == x || rest[i] in list[1..];
        }
      }
    }
  }

  lemma {:induction false} SortSorted(list: seq<string>)
    ensures Sorted(Sort(list))
  {
    if list != [] {
      SortSorted(list[1..]);
      InsertSorted(Sort(list[1..]), list[0]);
    }
  }

  lemma {:induction false} CountOnce(list: seq<string>)
    ensures NoDuplicates(list) <==> forall x :: multiset(list)[x] <= 1
  {
    if list != [] {
      var rest := list[1..];
      CountOnce(rest);
      assert list == [list[0]] + rest;
      assert list[0] in rest <==> multiset(rest)[list[0]] > 0;
      if NoDuplicates(list) {
        assert NoDuplicates(rest);
        forall x ensures multiset(list)[x] <= 1 {
          assert multiset(rest)[x] <= 1;
        }
      } else {
        var i, j :| 0 <= i < j < |list| && list[i] == list[j];
        if i == 0 {
          assert list[j] == rest[j - 1];
          assert multiset(list)[list[0]] > 1;
        } else {
          assert rest[i - 1] == rest[j - 1];
          var x :| multiset(rest)[x] > 1;
          assert multiset(list)[x] > 1;
        }
      }
    }
  }

  lemma SortLists(list: seq<string>, s: set<string>)
    requires NoDuplicates(list) && forall a :: a in list <==> a in s
    ensures Lists(Sort(list), s)
  {
    SortSorted(list);
    CountOnce(list);
    CountOnce(Sort(list));
    forall a ensures a in Sort(list) <==> a in s {
      assert a in multiset(Sort(list)) <==> a in multiset(list);
    }
  }

  // ----- joining, splitting, trimming -----

  function Join(list: seq<string>): string {
    if list == [] then ""
    else if |list| == 1 then list[0]
    else list[0] + "," + Join(list[1..])
  }

  function Split(s: string): (r: seq<string>)
    ensures r != []
  {
    if s == "" then [""]
    else
      var rest := Split(s[1..]);
      if s[0] == ',' then [""] + rest else [[s[0]] + rest[0]] + rest[1..]
  }

  /** unicode.IsSpace. */
  predicate IsSpace(c: char) {
    var n := c as int;
    || 9 <= n <= 13 || n == 0x20 || n == 0x85 || n == 0xA0 || n == 0x1680
    || 0x2000 <= n <= 0x200A || n == 0x2028 || n == 0x2029 || n == 0x202F || n == 0x205F || n == 0x3000
  }

  /** The white space of ASCII, and of the rest the characters that Unicode calls so. */
  lemma SpaceCharacters(c: char)
    ensures c as int < 0x80 ==> (IsSpace(c) <==> c in "\t\n\U{000B}\U{000C}\r ")
    ensures c as int >= 0x80 ==>
              (IsSpace(c) <==> c in "\U{0085}\U{00A0}\U{1680}\U{2028}\U{2029}\U{202F}\U{205F}\U{3000}"
                               || '\U{2000}' <= c <= '\U{200A}')
  {
  }

  function TrimSpace(s: string): (t: string)
    ensures t != "" ==> !IsSpace(t[0]) && !IsSpace(t[|t| - 1])
  {
    if s == "" then ""
    else if IsSpace(s[0]) then TrimSpace(s[1..])
    else if IsSpace(s[|s| - 1]) then TrimSpace(s[..|s| - 1])
    else s
  }

  /** What is cut off is white space, at both ends. */
  lemma {:induction false} TrimMeaning(s: string) returns (i: nat, j: nat)
    ensures i <= j <= |s| && TrimSpace(s) == s[i..j]
    ensures forall k :: 0 <= k < i || j <= k < |s| ==> IsSpace(s[k])
  {
    i, j := 0, |s|;
    if s != "" && IsSpace(s[0]) {
      var rest := s[1..];
      i, j := TrimMeaning(rest);
      assert rest[i..j] == s[i + 1..j + 1];
      assert forall k :: 1 <= k < |s| ==> s[k] == rest[k - 1];
      i, j := i + 1, j + 1;
    } else if s != "" && IsSpace(s[|s| - 1]) {
      var rest := s[..|s| - 1];
      i, j := TrimMeaning(rest);
      assert rest[i..j] == s[i..j];
      assert forall k :: 0 <= k < |s| - 1 ==> s[k] == rest[k];
    }
  }

  /** What RefreshServerList keeps of the split header. */
  function KeepNonEmpty(parts: seq<string>): seq<string> {
    if parts == [] then []
    else
      var last := TrimSpace(parts[|parts| - 1]);
      KeepNonEmpty(parts[..|parts| - 1]) + if last != "" then [last] else []
  }

  /** Each part is trimmed, and kept unless nothing is left of it. */
  lemma KeptMeaning(parts: seq<string>, last: string)
    ensures KeepNonEmpty([]) == []
    ensures KeepNonEmpty(parts + [last])
            == KeepNonEmpty(parts) + if TrimSpace(last) == "" then [] else [TrimSpace(last)]
  {
    assert (parts + [last])[..|parts|] == parts;
  }

  function Parse(header: string): seq<string> {
    KeepNonEmpty(Split(header))
  }

  /** An address that survives being printed in a list and parsed back. */
  predicate Clean(a: string) {
    a != "" && ',' !in a && !IsSpace(a[0]) && !IsSpace(a[|a| - 1])
  }

  lemma {:induction false} SplitPrefix(a: string, rest: string)
    requires ',' !in a
    ensures Split(a + "," + rest) == [a] + Split(rest)
    ensures Split(a) == [a]
  {
    if a == "" {
      assert (a + "," + rest)[1..] == rest;
    } else {
      SplitPrefix(a[1..], rest);
      assert (a + "," + rest)[1..] == a[1..] + "," + rest;
      assert [a[0]] + a[1..] == a;
    }
  }

  lemma {:induction false} SplitJoin(list: seq<string>)
    requires list != [] && forall a :: a in list ==> ',' !in a
    ensures Split(Join(list)) == list
  {
    if |list| == 1 {
      SplitPrefix(list[0], "");
    } else {
      SplitJoin(list[1..]);
      SplitPrefix(list[0], Join(list[1..]));
    }
  }

  lemma {:induction false} PartsHaveNoComma(s: string)
    ensures forall p :: p in Split(s) ==> ',' !in p
  {
    if s != "" {
      PartsHaveNoComma(s[1..]);
    }
  }

  lemma {:induction false} TrimIsClean(s: string)
    requires ',' !in s
    ensures TrimSpace(s) == "" || Clean(TrimSpace(s))
  {
    if s != "" && IsSpace(s[0]) {
      TrimIsClean(s[1..]);
    } else if s != "" && IsSpace(s[|s| - 1]) {
      TrimIsClean(s[..|s| - 1]);
    }
  }

  lemma {:induction false} KeptAreClean(parts: seq<string>)
    requires forall p :: p in parts ==> ',' !in p
    ensures forall a :: a in KeepNonEmpty(parts) ==> Clean(a)
  {
    if parts != [] {
      KeptAreClean(parts[..|parts| - 1]);
      TrimIsClean(parts[|parts| - 1]);
    }
  }

  lemma {:induction false} CleanAreKept(list: seq<string>)
    requires forall a :: a in list ==> Clean(a)
    ensures KeepNonEmpty(list) == list
  {
    if list != [] {
      CleanAreKept(list[..|list| - 1]);
      assert Clean(list[|list| - 1]);
      assert list == list[..|list| - 1] + [list[|list| - 1]];
    }
  }

  /** A list is printed with commas between its members. */
  lemma JoinMeaning(a: string, list: seq<string>)
    ensures Join([]) == "" && Join([a]) == a
    ensures list != [] ==> Join([a] + list) == a + "," + Join(list)
  {
  }

  /** A header is taken apart at its commas and nowhere else: the parts are free of them, and joined
      again they are the header. */
  lemma {:induction false} SplitMeaning(s: string)
    ensures Join(Split(s)) == s && forall p :: p in Split(s) ==> ',' !in p
  {
    PartsHaveNoComma(s);
    if s != "" {
      SplitMeaning(s[1..]);
      var rest := Split(s[1..]);
      if s[0] == ',' {
        JoinMeaning("", rest);
        assert Split(s) == [""] + rest;
        assert "" + "," + s[1..] == s;
      } else if |rest| > 1 {
        JoinMeaning([s[0]] + rest[0], rest[1..]);
        JoinMeaning(rest[0], rest[1..]);
        assert rest == [rest[0]] + rest[1..];
        assert Split(s) == [[s[0]] + rest[0]] + rest[1..];
        assert [s[0]] + rest[0] + "," + Join(rest[1..]) == [s[0]] + s[1..];
      } else {
        assert rest == [s[1..]] by { assert rest == [rest[0]]; }
        assert Split(s) == [[s[0]] + rest[0]] + [];
        assert [s[0]] + s[1..] == s;
      }
    }
  }

  /** Printing a list of addresses and parsing it back gives the same list exactly when every
      address is clean; the empty list included. */
  lemma ListRoundTrip(list: seq<string>)
    ensures Parse(Join(list)) == list <==> forall a :: a in list ==> Clean(a)
  {
    PartsHaveNoComma(Join(list));
    KeptAreClean(Split(Join(list)));
    if forall a :: a in list ==> Clean(a) {
      if list == [] {
        assert Split("")[..0] == [];
      } else {
        SplitJoin(list);
        CleanAreKept(list);
      }
    }
  }
}
