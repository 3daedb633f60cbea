/** The weekday list of a feeding schedule and the rule `toggleDay` applies
    to it. A day is an integer (0 = Sunday); nothing checks its range.
    Adding a day calls JavaScript's default `Array.prototype.sort`, which
    orders elements by their decimal text, compared character by character. */
module Days {
  import opened Decimal

  /** String order by character code, as the default sort compares. A
      prefix sorts first; otherwise the first differing character decides. */
  predicate TextLe(a: string, b: string): (ok: bool)
    ensures |a| <= |b| && a == b[..|a|] ==> ok
    ensures |a| > |b| && b == a[..|b|] ==> !ok
  {
    if a == [] then true
    else if b == [] then false
    else if a[0] != b[0] then a[0] < b[0]
    else TextLe(a[1..], b[1..])
  }

  /** The textbook lexicographic order: `a` is a prefix of `b`, or at the
      first position where they differ `a` has the smaller character. */
  ghost predicate Lexicographic(a: string, b: string)
  {
    (|a| <= |b| && a == b[..|a|]) ||
    exists k :: 0 <= k < |a| && k < |b| && a[..k] == b[..k] && a[k] < b[k]
  }

  /** The character-by-character comparison is that order. */
  lemma {:induction false} TextLeIsLexicographic(a: string, b: string)
    ensures TextLe(a, b) <==> Lexicographic(a, b)
  {
    if a == [] || b == [] {
    } else if a[0] != b[0] {
      if a[0] < b[0] {
        assert a[..0] == b[..0];
      }
    } else {
      TextLeIsLexicographic(a[1..], b[1..]);
      if Lexicographic(a[1..], b[1..]) {
        LexicographicFromTail(a, b);
      }
      if Lexicographic(a, b) {
        LexicographicToTail(a, b);
      }
    }
  }

  /** A common first character can be put in front of ordered texts. */
  lemma LexicographicFromTail(a: string, b: string)
    requires a != [] && b != [] && a[0] == b[0] && Lexicographic(a[1..], b[1..])
    ensures Lexicographic(a, b)
  {
    if |a| - 1 <= |b| - 1 && a[1..] == b[1..][..|a| - 1] {
      assert a == [a[0]] + a[1..] && b[..|a|] == [b[0]] + b[1..][..|a| - 1];
    } else {
      var k :| 0 <= k < |a| - 1 && k < |b| - 1 && a[1..][..k] == b[1..][..k] && a[1..][k] < b[1..][k];
      assert a[..k + 1] == [a[0]] + a[1..][..k] && b[..k + 1] == [b[0]] + b[1..][..k];
    }
  }

  /** A common first character can be taken off ordered texts. */
  lemma LexicographicToTail(a: string, b: string)
    requires a != [] && b != [] && a[0] == b[0] && Lexicographic(a, b)
    ensures Lexicographic(a[1..], b[1..])
  {
    if |a| <= |b| && a == b[..|a|] {
      assert a[1..] == b[1..][..|a| - 1];
    } else {
      var k :| 0 <= k < |a| && k < |b| && a[..k] == b[..k] && a[k] < b[k];
      assert k > 0;
      assert a[1..][..k - 1] == a[..k][1..] == b[..k][1..] == b[1..][..k - 1];
      assert a[1..][k - 1] < b[1..][k - 1];
    }
  }

  lemma {:induction false} TextLeTotal(a: string, b: string)
    ensures TextLe(a, b) || TextLe(b, a)
  {
    if a != [] && b != [] && a[0] == b[0] {
      TextLeTotal(a[1..], b[1..]);
    }
  }

  lemma {:induction false} TextLeTransitive(a: string, b: string, c: string)
    requires TextLe(a, b) && TextLe(b, c)
    ensures TextLe(a, c)
  {
    if a != [] && b != [] && c != [] && a[0] == b[0] && b[0] == c[0] {
      TextLeTransitive(a[1..], b[1..], c[1..]);
    }
  }

  lemma {:induction false} TextLeAntisymmetric(a: string, b: string)
    requires TextLe(a, b) && TextLe(b, a)
    ensures a == b
  {
    if a != [] && b != [] {
      TextLeAntisymmetric(a[1..], b[1..]);
      assert a == [a[0]] + a[1..];
      assert b == [b[0]] + b[1..];
    }
  }

  /** The order the default sort puts two days in. A negative day's text
      starts with '-', which sorts before every digit. */
  predicate DayLe(x: int, y: int): (ok: bool)
    ensures x < 0 <= y ==> ok
    ensures y < 0 <= x ==> !ok
  {
    TextLe(IntToString(x), IntToString(y))
  }

  lemma DayLeTotal(x: int, y: int)
    ensures DayLe(x, y) || DayLe(y, x)
  {
    TextLeTotal(IntToString(x), IntToString(y));
  }

  lemma DayLeTransitive(x: int, y: int, z: int)
    requires DayLe(x, y) && DayLe(y, z)
    ensures DayLe(x, z)
  {
    TextLeTransitive(IntToString(x), IntToString(y), IntToString(z));
  }

  lemma DayLeAntisymmetric(x: int, y: int)
    requires DayLe(x, y) && DayLe(y, x)
    ensures x == y
  {
    TextLeAntisymmetric(IntToString(x), IntToString(y));
    IntToStringInjective(x, y);
  }

  /** On single digits the text order is the numeric order, which is why the
      default sort looks numeric for the weekdays 0..6 the page passes. */
  lemma DigitDayOrder(x: int, y: int)
    requires 0 <= x <= 9 && 0 <= y <= 9
    ensures DayLe(x, y) <==> x <= y
  {
    var a, b := DigitChar(x), DigitChar(y);
    assert IntToString(x) == [a] && IntToString(y) == [b];
    assert [a][1..] == [] && [b][1..] == [];
    assert TextLe([a], [b]) <==> a <= b;
  }

  /** The laws a comparison needs for sorting to have one answer: any two
      elements are comparable, the order is transitive, and two elements
      each before the other are equal. */
  ghost predicate TotalOrder(le: (int, int) -> bool)
  {
    (forall x, y :: le(x, y) || le(y, x)) &&
    (forall x, y, z :: le(x, y) && le(y, z) ==> le(x, z)) &&
    (forall x, y :: le(x, y) && le(y, x) ==> x == y)
  }

  /** The default sort's order on days is such an order. */
  lemma DayLeTotalOrder()
    ensures TotalOrder(DayLe)
  {
    forall x, y ensures DayLe(x, y) || DayLe(y, x) { DayLeTotal(x, y); }
    forall x, y, z | DayLe(x, y) && DayLe(y, z) ensures DayLe(x, z) { DayLeTransitive(x, y, z); }
    forall x, y | DayLe(x, y) && DayLe(y, x) ensures x == y { DayLeAntisymmetric(x, y); }
  }

  lemma Comparable(le: (int, int) -> bool, a: int, b: int)
    requires TotalOrder(le)
    ensures le(a, b) || le(b, a)
  {
  }

  lemma Transitive(le: (int, int) -> bool, a: int, b: int, c: int)
    requires TotalOrder(le) && le(a, b) && le(b, c)
    ensures le(a, c)
  {
  }

  lemma Antisymmetric(le: (int, int) -> bool, a: int, b: int)
    requires TotalOrder(le) && le(a, b) && le(b, a)
    ensures a == b
  {
  }

  ghost predicate SortedBy(s: seq<int>, le: (int, int) -> bool)
  {
    forall i, j :: 0 <= i < j < |s| ==> le(s[i], s[j])
  }

  ghost predicate SortedByText(s: seq<int>)
  {
    SortedBy(s, DayLe)
  }

  /** An element placed before a sorted list that it precedes throughout
      keeps the list sorted. */
  lemma ConsSorted(h: int, t: seq<int>, le: (int, int) -> bool)
    requires SortedBy(t, le)
    requires forall k :: 0 <= k < |t| ==> le(h, t[k])
    ensures SortedBy([h] + t, le)
  {
    var r := [h] + t;
    forall i, j | 0 <= i < j < |r| ensures le(r[i], r[j]) {
      if i > 0 { assert r[i] == t[i - 1] && r[j] == t[j - 1]; }
      else { assert r[j] == t[j - 1]; }
    }
  }

  /** The tail of a sorted list is sorted. */
  lemma TailSorted(s: seq<int>, le: (int, int) -> bool)
    requires SortedBy(s, le) && s != []
    ensures SortedBy(s[1..], le)
  {
    var t := s[1..];
    forall i, j | 0 <= i < j < |t| ensures le(t[i], t[j]) {
      assert t[i] == s[i + 1] && t[j] == s[j + 1];
    }
  }

  /** Inserting into the tail of a list whose head belongs before the new
      element leaves the head before everything. */
  lemma HeadPrecedesInserted(x: int, s: seq<int>, t: seq<int>, le: (int, int) -> bool)
    requires TotalOrder(le) && SortedBy(s, le) && s != [] && !le(x, s[0])
    requires multiset(t) == multiset(s[1..]) + multiset{x}
    ensures forall k :: 0 <= k < |t| ==> le(s[0], t[k])
  {
    forall k | 0 <= k < |t| ensures le(s[0], t[k]) {
      assert t[k] in multiset(t);
      if t[k] == x {
        Comparable(le, x, s[0]);
      } else {
        assert t[k] in multiset(s[1..]);
        var m :| 0 <= m < |s[1..]| && s[1..][m] == t[k];
        assert s[m + 1] == t[k];
        assert le(s[0], s[m + 1]);
      }
    }
  }

  /** One step of insertion sort: the element goes before the first element
      it does not come after. */
  function InsertBy(x: int, s: seq<int>, le: (int, int) -> bool): (r: seq<int>)
    requires TotalOrder(le) && SortedBy(s, le)
    ensures SortedBy(r, le)
    ensures multiset(r) == multiset(s) + multiset{x}
  {
    if s == [] then [x]
    else if le(x, s[0]) then
      assert forall j :: 0 <= j < |s| ==> le(x, s[j]) by {
        forall j | 0 <= j < |s| ensures le(x, s[j]) {
          if j > 0 {
            Transitive(le, x, s[0], s[j]);
          }
        }
      }
      ConsSorted(x, s, le);
      [x] + s
    else
      TailSorted(s, le);
      var t := InsertBy(x, s[1..], le);
      assert s == [s[0]] + s[1..];
      HeadPrecedesInserted(x, s, t, le);
      ConsSorted(s[0], t, le);
      [s[0]] + t
  }

  /** Sorting by a total order: a sorted permutation of the input. */
  function SortBy(s: seq<int>, le: (int, int) -> bool): (r: seq<int>)
    requires TotalOrder(le)
    ensures SortedBy(r, le)
    ensures multiset(r) == multiset(s)
  {
    if s == [] then [] else
      assert s == [s[0]] + s[1..];
      InsertBy(s[0], SortBy(s[1..], le), le)
  }

  /** The default sort: the days rearranged into text order. */
  function SortDays(s: seq<int>): (r: seq<int>)
    ensures SortedByText(r)
    ensures multiset(r) == multiset(s)
  {
    DayLeTotalOrder();
    SortBy(s, DayLe)
  }

  lemma {:induction false} SortedHeadIsLeast(s: seq<int>, x: int, le: (int, int) -> bool)
    requires TotalOrder(le) && SortedBy(s, le) && x in s
    ensures le(s[0], x)
  {
    var j :| 0 <= j < |s| && s[j] == x;
    if j == 0 { Comparable(le, x, x); }
  }

  /** Only one arrangement of a collection is sorted by a total order, so
      the result of the sort does not depend on the algorithm the browser
      runs. */
  lemma {:induction false} SortedUnique(s: seq<int>, t: seq<int>, le: (int, int) -> bool)
    requires TotalOrder(le) && SortedBy(s, le) && SortedBy(t, le)
    requires multiset(s) == multiset(t)
    ensures s == t
  {
    if s != [] {
      assert s[0] in multiset(t) && t[0] in multiset(s);
      assert t != [];
      SortedHeadIsLeast(s, t[0], le);
      SortedHeadIsLeast(t, s[0], le);
      Antisymmetric(le, s[0], t[0]);
      assert s == [s[0]] + s[1..];
      assert t == [t[0]] + t[1..];
      assert multiset(s[1..]) == multiset(s) - multiset{s[0]};
      assert multiset(t[1..]) == multiset(t) - multiset{t[0]};
      TailSorted(s, le);
      TailSorted(t, le);
      SortedUnique(s[1..], t[1..], le);
    } else {
      assert |t| == |multiset(t)| == 0;
    }
  }

  /** `days.filter((d) => d !== day)`: every occurrence of the day goes, the
      rest keep their order. */
  function RemoveDay(days: seq<int>, day: int): (r: seq<int>)
    ensures forall x :: x in r <==> x in days && x != day
    ensures multiset(r) == multiset(days)[day := 0]
    ensures day !in days ==> r == days
  {
    if days == [] then []
    else
      var t := RemoveDay(days[1..], day);
      assert days == [days[0]] + days[1..];
      assert multiset(days) == multiset{days[0]} + multiset(days[1..]);
      if days[0] == day then
        assert multiset(days)[day := 0] == multiset(days[1..])[day := 0];
        t
      else
        assert multiset([days[0]] + t) == multiset{days[0]} + multiset(t);
        assert multiset(days)[day := 0] == multiset{days[0]} + multiset(days[1..])[day := 0];
        [days[0]] + t
  }

  /** Filtering a list with a first element: that element stays unless it
      is the day, and the rest is filtered. */
  lemma RemoveDayCons(x: int, t: seq<int>, day: int)
    ensures RemoveDay([x] + t, day) == (if x == day then [] else [x]) + RemoveDay(t, day)
  {
    assert ([x] + t)[0] == x && ([x] + t)[1..] == t;
  }

  /** The remaining days keep their order: filtering two halves and joining
      them gives the filter of the whole. */
  lemma {:induction false} RemoveDayConcat(a: seq<int>, b: seq<int>, day: int)
    ensures RemoveDay(a + b, day) == RemoveDay(a, day) + RemoveDay(b, day)
  {
    if a == [] {
      assert a + b == b;
    } else {
      var x, t := a[0], a[1..];
      var h := if x == day then [] else [x];
      ConsConcat(a, b);
      calc {
        RemoveDay(a + b, day);
      == { RemoveDayCons(x, t + b, day); }
        h + RemoveDay(t + b, day);
      == { RemoveDayConcat(t, b, day); }
        h + (RemoveDay(t, day) + RemoveDay(b, day));
      == { ConcatAssoc(h, RemoveDay(t, day), RemoveDay(b, day)); }
        (h + RemoveDay(t, day)) + RemoveDay(b, day);
      == { RemoveDayCons(x, t, day); }
        RemoveDay(a, day) + RemoveDay(b, day);
      }
    }
  }

  /** A non-empty list is its head before its tail, also when joined. */
  lemma ConsConcat(a: seq<int>, b: seq<int>)
    requires a != []
    ensures a == [a[0]] + a[1..] && a + b == [a[0]] + (a[1..] + b)
  {
  }

  lemma ConcatAssoc(p: seq<int>, q: seq<int>, r: seq<int>)
    ensures p + (q + r) == (p + q) + r
  {
  }

  /** Filtering keeps a sorted list sorted. */
  lemma {:induction false} RemoveDaySorted(days: seq<int>, day: int, le: (int, int) -> bool)
    requires SortedBy(days, le)
    ensures SortedBy(RemoveDay(days, day), le)
  {
    if days != [] {
      var rest := days[1..];
      TailSorted(days, le);
      RemoveDaySorted(rest, day, le);
      var t := RemoveDay(rest, day);
      if days[0] != day {
        assert RemoveDay(days, day) == [days[0]] + t;
        forall k | 0 <= k < |t| ensures le(days[0], t[k]) {
          assert t[k] in t;
          var j :| 0 <= j < |rest| && rest[j] == t[k];
          assert days[j + 1] == t[k];
        }
        ConsSorted(days[0], t, le);
      }
    }
  }

  /** The rule applied to a schedule's days when a day button is clicked:
      a day already present is removed everywhere, a missing day is appended
      and the whole list is sorted. */
  function ToggleDays(days: seq<int>, day: int): (r: seq<int>)
    ensures day in r <==> day !in days
    ensures forall x :: x != day ==> (x in r <==> x in days)
    ensures day in days ==> multiset(r) == multiset(days)[day := 0]
    ensures day !in days ==> SortedByText(r) && multiset(r) == multiset(days) + multiset{day}
  {
    if day in days then RemoveDay(days, day)
    else
      var r := SortDays(days + [day]);
      assert forall x :: x in r <==> x in multiset(days) + multiset{day};
      r
  }

  /** Clicking a day twice leaves the same set of days. */
  lemma ToggleDaysTwiceSameSet(days: seq<int>, day: int)
    ensures forall x :: x in ToggleDays(ToggleDays(days, day), day) <==> x in days
  {
  }

  predicate InWeek(days: seq<int>)
  {
    forall i :: 0 <= i < |days| ==> 0 <= days[i] <= 6
  }

  /** Nothing checks the range, but weekdays in and a weekday toggled give
      weekdays out. */
  lemma ToggleDaysInWeek(days: seq<int>, day: int)
    requires InWeek(days) && 0 <= day <= 6
    ensures InWeek(ToggleDays(days, day))
  {
    var r := ToggleDays(days, day);
    forall i | 0 <= i < |r| ensures 0 <= r[i] <= 6 {
      assert r[i] in multiset(r);
      if r[i] != day { assert r[i] in days; }
    }
  }

  predicate Ascending(days: seq<int>)
  {
    forall i, j :: 0 <= i < j < |days| ==> days[i] < days[j]
  }

  /** For weekdays, adding a day leaves the list in numeric order. */
  lemma ToggleDaysAddsInNumericOrder(days: seq<int>, day: int)
    requires InWeek(days) && 0 <= day <= 6 && day !in days
    ensures forall i, j :: 0 <= i < j < |ToggleDays(days, day)| ==>
      ToggleDays(days, day)[i] <= ToggleDays(days, day)[j]
  {
    var r := ToggleDays(days, day);
    ToggleDaysInWeek(days, day);
    forall i, j | 0 <= i < j < |r| ensures r[i] <= r[j] {
      DigitDayOrder(r[i], r[j]);
    }
  }

  lemma AscendingWeekIsSorted(days: seq<int>)
    requires InWeek(days) && Ascending(days)
    ensures SortedByText(days)
  {
    forall i, j | 0 <= i < j < |days| ensures DayLe(days[i], days[j]) {
      DigitDayOrder(days[i], days[j]);
    }
    assert SortedBy(days, DayLe);
  }

  lemma {:induction false} AscendingOccursOnce(days: seq<int>, x: int)
    requires Ascending(days) && x in days
    ensures multiset(days)[x] == 1
  {
    assert days == [days[0]] + days[1..];
    assert multiset(days) == multiset{days[0]} + multiset(days[1..]);
    if x == days[0] {
      assert x !in days[1..];
    } else {
      AscendingOccursOnce(days[1..], x);
    }
  }

  /** On a list of weekdays in ascending order without repeats, clicking
      the same day twice restores the list exactly, order included. */
  lemma ToggleDaysInvolution(days: seq<int>, day: int)
    requires InWeek(days) && Ascending(days) && 0 <= day <= 6
    ensures ToggleDays(ToggleDays(days, day), day) == days
  {
    AscendingWeekIsSorted(days);
    var once := ToggleDays(days, day);
    var twice := ToggleDays(once, day);
    if day in days {
      AscendingOccursOnce(days, day);
      assert twice == SortDays(once + [day]);
      assert multiset(twice) == multiset(days)[day := 0] + multiset{day};
      assert multiset(twice) == multiset(days);
    } else {
      assert twice == RemoveDay(once, day);
      RemoveDaySorted(once, day, DayLe);
      assert multiset(twice) == (multiset(days) + multiset{day})[day := 0];
      assert multiset(twice) == multiset(days);
    }
    DayLeTotalOrder();
    SortedUnique(twice, days, DayLe);
  }
}
