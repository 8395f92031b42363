/**
  String helpers shared by the exporters: JavaScript's `Array.prototype.join`
  and its inverse (splitting on one separator character), decimal rendering
  of naturals as template literals do, the `LIMIT … OFFSET …` suffix both
  exporters append to their queries, and character removal as done by
  `String.prototype.replace` with a global character-class pattern.
*/
module Text {
  import opened Wrappers

  /** `parts.join(sep)`: the parts with `sep` between consecutive ones. */
  function Join(parts: seq<string>, sep: string): string
  {
    if |parts| == 0 then ""
    else if |parts| == 1 then parts[0]
    else parts[0] + sep + Join(parts[1..], sep)
  }

  /** Cuts `s` at every occurrence of `sep`; the pieces never contain `sep`. */
  function Split(s: string, sep: char): (r: seq<string>)
    ensures |r| >= 1
    ensures forall i :: 0 <= i < |r| ==> sep !in r[i]
  {
    if |s| == 0 then [""]
    else if s[0] == sep then [""] + Split(s[1..], sep)
    else
      var rest := Split(s[1..], sep);
      [[s[0]] + rest[0]] + rest[1..]
  }

  lemma {:induction false} SplitWithoutSeparator(s: string, sep: char)
    requires sep !in s
    ensures Split(s, sep) == [s]
  {
    if |s| > 0 {
      SplitWithoutSeparator(s[1..], sep);
      assert [s[0]] + s[1..] == s;
    }
  }

  lemma {:induction false} SplitAtFirst(a: string, sep: char, b: string)
    requires sep !in a
    ensures Split(a + [sep] + b, sep) == [a] + Split(b, sep)
  {
    if |a| == 0 {
      assert a + [sep] + b == [sep] + b;
      assert ([sep] + b)[1..] == b;
    } else {
      SplitAtFirst(a[1..], sep, b);
      assert (a + [sep] + b)[1..] == a[1..] + [sep] + b;
      assert [a[0]] + a[1..] == a;
    }
  }

  /** Splitting what `Join` built gives back the parts, when no part holds the separator. */
  lemma {:induction false} SplitJoin(parts: seq<string>, sep: char)
    requires |parts| >= 1
    requires forall i :: 0 <= i < |parts| ==> sep !in parts[i]
    ensures Split(Join(parts, [sep]), sep) == parts
  {
    if |parts| == 1 {
      SplitWithoutSeparator(parts[0], sep);
    } else {
      SplitJoin(parts[1..], sep);
      SplitAtFirst(parts[0], sep, Join(parts[1..], [sep]));
      assert [parts[0]] + parts[1..] == parts;
    }
  }

  /** Joining the pieces of a split gives back the string. */
  lemma {:induction false} JoinSplit(s: string, sep: char)
    ensures Join(Split(s, sep), [sep]) == s
  {
    if |s| > 0 {
      JoinSplit(s[1..], sep);
      var rest := Split(s[1..], sep);
      if s[0] == sep {
        assert Split(s, sep) == [""] + rest;
        assert ([""] + rest)[1..] == rest;
        assert [sep] + s[1..] == s;
      } else {
        var r := Split(s, sep);
        assert r == [[s[0]] + rest[0]] + rest[1..];
        if |rest| == 1 {
          assert [s[0]] + s[1..] == s;
        } else {
          assert r[1..] == rest[1..];
          assert Join(rest, [sep]) == rest[0] + [sep] + Join(rest[1..], [sep]);
          assert [s[0]] + s[1..] == s;
        }
      }
    }
  }

  /** `s` with every character of `drop` removed (`s.replace(/[…]/g, '')`). */
  function Without(s: string, drop: set<char>): (r: string)
    ensures forall i :: 0 <= i < |r| ==> r[i] !in drop
    ensures (forall i :: 0 <= i < |s| ==> s[i] !in drop) ==> r == s
  {
    if |s| == 0 then ""
    else
      var rest := Without(s[1..], drop);
      assert s == [s[0]] + s[1..];
      if s[0] in drop then rest else [s[0]] + rest
  }

  /** Removal keeps every other character, as many times as it occurs. */
  lemma {:induction false} WithoutKeepsOthers(s: string, drop: set<char>, c: char)
    requires c !in drop
    ensures multiset(Without(s, drop))[c] == multiset(s)[c]
  {
    if |s| > 0 {
      WithoutKeepsOthers(s[1..], drop, c);
      WithoutFirst(s, drop);
      assert s == [s[0]] + s[1..];
      assert multiset(s) == multiset([s[0]]) + multiset(s[1..]);
      var h := if s[0] in drop then "" else [s[0]];
      assert multiset(Without(s, drop)) == multiset(h) + multiset(Without(s[1..], drop));
    }
  }

  lemma WithoutFirst(s: string, drop: set<char>)
    requires |s| > 0
    ensures Without(s, drop) == (if s[0] in drop then "" else [s[0]]) + Without(s[1..], drop)
  {
  }

  /** Removing characters works piece by piece, so the kept characters keep their order. */
  lemma {:induction false} WithoutConcat(a: string, b: string, drop: set<char>)
    ensures Without(a + b, drop) == Without(a, drop) + Without(b, drop)
  {
    if |a| > 0 {
      WithoutConcat(a[1..], b, drop);
      var ab := a + b;
      assert ab[0] == a[0] && ab[1..] == a[1..] + b;
      WithoutFirst(ab, drop);
      WithoutFirst(a, drop);
    } else {
      assert a + b == b;
    }
  }

  /** A character that occurs in no part and not in the separator does not occur in their join. */
  lemma {:induction false} JoinAvoids(parts: seq<string>, sep: string, c: char)
    requires c !in sep
    requires forall i :: 0 <= i < |parts| ==> c !in parts[i]
    ensures c !in Join(parts, sep)
  {
    if |parts| > 1 {
      JoinAvoids(parts[1..], sep, c);
      assert parts[1..][0] == parts[1];
    }
  }

  function Min(a: nat, b: nat): nat
  {
    if a <= b then a else b
  }

  predicate IsDecimal(s: string)
  {
    |s| >= 1 && forall i :: 0 <= i < |s| ==> '0' <= s[i] <= '9'
  }

  function DigitChar(d: nat): (c: char)
    requires d < 10
  {
    ('0' as int + d) as char
  }

  /** Decimal rendering of `n`, as `${n}` gives for a non-negative integer. */
  function Decimal(n: nat): (r: string)
    ensures IsDecimal(r)
  {
    if n < 10 then [DigitChar(n)] else Decimal(n / 10) + [DigitChar(n % 10)]
  }

  function ParseDecimal(s: string): nat
    requires forall i :: 0 <= i < |s| ==> '0' <= s[i] <= '9'
  {
    if |s| == 0 then 0
    else ParseDecimal(s[..|s| - 1]) * 10 + (s[|s| - 1] as int - '0' as int)
  }

  lemma {:induction false} ParseDecimalOf(n: nat)
    ensures ParseDecimal(Decimal(n)) == n
  {
    if n >= 10 {
      ParseDecimalOf(n / 10);
      var d := Decimal(n);
      assert d[..|d| - 1] == Decimal(n / 10);
    }
  }

  /** `${query} LIMIT ${limit} OFFSET ${offset}`, the page query of both exporters. */
  function Paginated(query: string, limit: nat, offset: nat): string
  {
    query + " LIMIT " + Decimal(limit) + " OFFSET " + Decimal(offset)
  }

  /**
    How a SPARQL endpoint reads a page query of `query`: the query itself,
    then the solution modifiers LIMIT and OFFSET with their decimal values.
  */
  function ParsePaginated(text: string, query: string): Option<(nat, nat)>
  {
    if |query| + 7 <= |text| && text[..|query|] == query && text[|query|..|query| + 7] == " LIMIT " then
      var words := Split(text[|query| + 7..], ' ');
      if |words| == 3 && words[1] == "OFFSET" && IsDecimal(words[0]) && IsDecimal(words[2]) then
        Some((ParseDecimal(words[0]), ParseDecimal(words[2])))
      else None
    else None
  }

  /** The solution modifiers of a page query split into three words. */
  lemma ModifierWords(a: string, b: string)
    requires IsDecimal(a) && IsDecimal(b)
    ensures Split(a + " OFFSET " + b, ' ') == [a, "OFFSET", b]
  {
    assert [a, "OFFSET", b][1..] == ["OFFSET", b] && ["OFFSET", b][1..] == [b];
    assert Join(["OFFSET", b], " ") == "OFFSET" + " " + b;
    assert Join([a, "OFFSET", b], " ") == a + " OFFSET " + b;
    assert ' ' !in a && ' ' !in b by {
      assert forall i :: 0 <= i < |a| ==> a[i] != ' ';
      assert forall i :: 0 <= i < |b| ==> b[i] != ' ';
    }
    SplitJoin([a, "OFFSET", b], ' ');
  }

  /** The LIMIT and OFFSET written into a page query are the ones read back from it. */
  lemma ParsePaginatedRoundTrip(query: string, limit: nat, offset: nat)
    ensures ParsePaginated(Paginated(query, limit, offset), query) == Some((limit, offset))
  {
    var a, b := Decimal(limit), Decimal(offset);
    var text := Paginated(query, limit, offset);
    assert text == query + " LIMIT " + (a + " OFFSET " + b);
    assert text[..|query|] == query;
    assert text[|query|..|query| + 7] == " LIMIT ";
    assert text[|query| + 7..] == a + " OFFSET " + b;
    ModifierWords(a, b);
    ParseDecimalOf(limit);
    ParseDecimalOf(offset);
  }
}
