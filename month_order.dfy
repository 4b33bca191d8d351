/**
 * The chronological order of the month series: each `YYYY-MM` key stands for the first day
 * of its month, and the series is sorted ascending by that day.
 */
module MonthOrder {
  import opened Types
  import opened Grouping

  predicate IsDigit(c: char)
  {
    '0' <= c <= '9'
  }

  function DigitValue(c: char): int
  {
    c as int - '0' as int
  }

  /** A `YYYY-MM` key with a month from 01 to 12. */
  predicate WellFormedMonth(k: string)
  {
    && |k| == 7
    && IsDigit(k[0]) && IsDigit(k[1]) && IsDigit(k[2]) && IsDigit(k[3])
    && k[4] == '-' && IsDigit(k[5]) && IsDigit(k[6])
    && 1 <= 10 * DigitValue(k[5]) + DigitValue(k[6]) <= 12
  }

  function YearOf(k: string): int
    requires |k| >= 4
  {
    1000 * DigitValue(k[0]) + 100 * DigitValue(k[1]) + 10 * DigitValue(k[2]) + DigitValue(k[3])
  }

  function MonthOf(k: string): int
    requires |k| >= 7
  {
    10 * DigitValue(k[5]) + DigitValue(k[6])
  }

  /**
   * The first day of the key's month, counted in months. A key that is not a year-month has
   * no date in the source; the model places it before every real month.
   */
  function MonthOrdinal(k: string): (o: int)
    ensures WellFormedMonth(k) ==> o >= 0
    ensures !WellFormedMonth(k) ==> o == -1
  {
    if WellFormedMonth(k) then YearOf(k) * 12 + MonthOf(k) - 1 else -1
  }

  /** For year-month keys the order is by year, then by month. */
  lemma MonthOrdinalIsChronological(a: string, b: string)
    requires WellFormedMonth(a) && WellFormedMonth(b)
    ensures MonthOrdinal(a) < MonthOrdinal(b)
            <==> YearOf(a) < YearOf(b) || (YearOf(a) == YearOf(b) && MonthOf(a) < MonthOf(b))
  {
  }

  /** Two year-month keys with the same first day are the same key. */
  lemma MonthOrdinalInjective(a: string, b: string)
    requires WellFormedMonth(a) && WellFormedMonth(b)
    ensures MonthOrdinal(a) == MonthOrdinal(b) ==> a == b
  {
    if MonthOrdinal(a) == MonthOrdinal(b) {
      assert YearOf(a) == YearOf(b) && MonthOf(a) == MonthOf(b);
      assert DigitValue(a[0]) == DigitValue(b[0]);
      assert DigitValue(a[1]) == DigitValue(b[1]);
      assert DigitValue(a[2]) == DigitValue(b[2]);
      assert DigitValue(a[3]) == DigitValue(b[3]);
      assert DigitValue(a[5]) == DigitValue(b[5]);
      assert forall i :: 0 <= i < 7 ==> a[i] == b[i];
    }
  }

  /** October 2023 comes before November 2023, which comes before January 2024. */
  lemma ExampleMonths()
    ensures MonthOrdinal("2023-10") < MonthOrdinal("2023-11") < MonthOrdinal("2024-01")
    ensures MonthKey("2023-10-15") == "2023-10" && MonthKey("2024-01-05") == "2024-01"
  {
    assert WellFormedMonth("2023-10") && WellFormedMonth("2023-11") && WellFormedMonth("2024-01");
  }

  predicate SortedByMonth(es: seq<Entry>)
  {
    forall i, j :: 0 <= i < j < |es| ==> MonthOrdinal(es[i].name) <= MonthOrdinal(es[j].name)
  }

  /** The set of names of a series. */
  function NameSet(es: seq<Entry>): set<string>
  {
    set e | e in es :: e.name
  }

  predicate DistinctNames(es: seq<Entry>)
  {
    forall i, j :: 0 <= i < j < |es| ==> es[i].name != es[j].name
  }

  /** A bar no later than the first bar of a sorted series can go in front of it. */
  lemma ConsSorted(e: Entry, es: seq<Entry>)
    requires SortedByMonth(es)
    requires es == [] || MonthOrdinal(e.name) <= MonthOrdinal(es[0].name)
    ensures SortedByMonth([e] + es)
  {
    var r := [e] + es;
    forall i, j | 0 <= i < j < |r| ensures MonthOrdinal(r[i].name) <= MonthOrdinal(r[j].name) {
      if i == 0 {
        assert r[j] == es[j - 1];
        if j > 1 {
          assert MonthOrdinal(es[0].name) <= MonthOrdinal(es[j - 1].name);
        }
      } else {
        assert r[i] == es[i - 1] && r[j] == es[j - 1];
      }
    }
  }

  /** Inserts one bar in front of the first bar of a later or equal month. */
  function InsertByMonth(x: Entry, es: seq<Entry>): (r: seq<Entry>)
    requires SortedByMonth(es)
    ensures |r| == |es| + 1
    ensures r[0] == x || (es != [] && r[0] == es[0])
    ensures SortedByMonth(r)
    ensures multiset(r) == multiset(es) + multiset{x}
    decreases |es|
  {
    if es == [] || MonthOrdinal(x.name) <= MonthOrdinal(es[0].name) then
      ConsSorted(x, es);
      [x] + es
    else
      assert es == [es[0]] + es[1..];
      var rest := InsertByMonth(x, es[1..]);
      assert MonthOrdinal(es[0].name) <= MonthOrdinal(rest[0].name);
      ConsSorted(es[0], rest);
      [es[0]] + rest
  }

  /** The final sort of the month series: ascending by month, a permutation of its input. */
  function SortByMonth(es: seq<Entry>): (r: seq<Entry>)
    ensures SortedByMonth(r)
    ensures multiset(r) == multiset(es)
    decreases |es|
  {
    if es == [] then []
    else
      assert es == [es[0]] + es[1..];
      InsertByMonth(es[0], SortByMonth(es[1..]))
  }

  lemma NameSetCons(e: Entry, es: seq<Entry>)
    ensures NameSet([e] + es) == {e.name} + NameSet(es)
  {
    assert forall x :: x in [e] + es <==> x == e || x in es;
  }

  /** A permutation has the same names. */
  lemma NameSetOfPermutation(a: seq<Entry>, b: seq<Entry>)
    requires multiset(a) == multiset(b)
    ensures NameSet(a) == NameSet(b)
  {
    assert forall e :: e in a <==> e in multiset(a);
    assert forall e :: e in b <==> e in multiset(b);
  }

  lemma DistinctNamesCons(e: Entry, es: seq<Entry>)
    ensures DistinctNames([e] + es) <==> DistinctNames(es) && e.name !in NameSet(es)
  {
    var r := [e] + es;
    if DistinctNames(r) {
      forall i, j | 0 <= i < j < |es| ensures es[i].name != es[j].name {
        assert r[i + 1] == es[i] && r[j + 1] == es[j];
      }
      forall x | x in es ensures x.name != e.name {
        var j :| 0 <= j < |es| && es[j] == x;
        assert r[j + 1] == x && r[0] == e;
        assert r[0].name != r[j + 1].name;
      }
    }
    if DistinctNames(es) && e.name !in NameSet(es) {
      forall i, j | 0 <= i < j < |r| ensures r[i].name != r[j].name {
        if i == 0 {
          assert r[j] in es;
        } else {
          assert r[i] == es[i - 1] && r[j] == es[j - 1];
        }
      }
    }
  }

  /** Distinct names are as many as the bars. */
  lemma {:induction false} DistinctNamesCount(es: seq<Entry>)
    ensures DistinctNames(es) <==> |NameSet(es)| == |es|
    ensures |NameSet(es)| <= |es|
    decreases |es|
  {
    if es != [] {
      var rest := es[1..];
      assert es == [es[0]] + rest;
      NameSetCons(es[0], rest);
      DistinctNamesCons(es[0], rest);
      DistinctNamesCount(rest);
      if es[0].name in NameSet(rest) {
        assert NameSet(es) == NameSet(rest);
      } else {
        assert |NameSet(es)| == |NameSet(rest)| + 1;
      }
    }
  }

  /** A permutation of a series with distinct names has distinct names. */
  lemma DistinctNamesOfPermutation(a: seq<Entry>, b: seq<Entry>)
    requires multiset(a) == multiset(b) && DistinctNames(a)
    ensures DistinctNames(b)
  {
    NameSetOfPermutation(a, b);
    DistinctNamesCount(a);
    DistinctNamesCount(b);
    assert |a| == |multiset(a)| == |multiset(b)| == |b|;
  }

  /** With year-month names and no name twice, a sorted series is strictly ascending. */
  lemma StrictlyAscending(es: seq<Entry>)
    requires SortedByMonth(es) && DistinctNames(es)
    requires forall i :: 0 <= i < |es| ==> WellFormedMonth(es[i].name)
    ensures forall i, j :: 0 <= i < j < |es| ==> MonthOrdinal(es[i].name) < MonthOrdinal(es[j].name)
  {
    forall i, j | 0 <= i < j < |es|
      ensures MonthOrdinal(es[i].name) < MonthOrdinal(es[j].name)
    {
      MonthOrdinalInjective(es[i].name, es[j].name);
    }
  }

  predicate StrictlyAscendingKeys(ks: seq<string>)
  {
    forall i, j :: 0 <= i < j < |ks| ==> MonthOrdinal(ks[i]) < MonthOrdinal(ks[j])
  }

  /** Two strictly ascending key lists with the same members start with the same key. */
  lemma AscendingHeads(a: seq<string>, b: seq<string>)
    requires StrictlyAscendingKeys(a) && StrictlyAscendingKeys(b)
    requires forall k :: k in a <==> k in b
    requires a != []
    ensures b != [] && a[0] == b[0]
  {
    assert a[0] in b;
    var j :| 0 <= j < |b| && b[j] == a[0];
    assert b[0] in a;
    var k :| 0 <= k < |a| && a[k] == b[0];
    assert MonthOrdinal(b[0]) <= MonthOrdinal(a[0]);
    assert MonthOrdinal(a[0]) <= MonthOrdinal(b[0]);
  }

  /** After a common first key, what follows it in one list follows it in the other. */
  lemma AscendingRest(a: seq<string>, b: seq<string>, x: string)
    requires StrictlyAscendingKeys(a)
    requires forall k :: k in a <==> k in b
    requires a != [] && b != [] && a[0] == b[0]
    ensures x in a[1..] ==> x in b[1..]
  {
    if x in a[1..] {
      var p :| 0 <= p < |a| - 1 && a[1..][p] == x;
      assert MonthOrdinal(a[0]) < MonthOrdinal(a[p + 1]);
      assert x in b && x != b[0];
      var q :| 0 <= q < |b| && b[q] == x;
      assert b[1..][q - 1] == x;
    }
  }

  /** Two strictly ascending key lists with the same members are the same list. */
  lemma {:induction false} AscendingKeysUnique(a: seq<string>, b: seq<string>)
    requires StrictlyAscendingKeys(a) && StrictlyAscendingKeys(b)
    requires forall k :: k in a <==> k in b
    ensures a == b
    decreases |a|
  {
    if a != [] {
      AscendingHeads(a, b);
      forall x ensures x in a[1..] <==> x in b[1..] {
        AscendingRest(a, b, x);
        AscendingRest(b, a, x);
      }
      AscendingKeysUnique(a[1..], b[1..]);
      assert a == [a[0]] + a[1..] && b == [b[0]] + b[1..];
    } else if b != [] {
      AscendingHeads(b, a);
      assert false;
    }
  }
}
