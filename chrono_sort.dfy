/**
 * The chronological ordering the templates apply to experience and education
 * before laying them out. Each template sorts a copy (`slice().sort(compare)`)
 * with JavaScript's stable sort; here that is a stable insertion sort by a key,
 * latest first, and the comparators of the source are shown to order exactly
 * as the keys do.
 */
module ChronoSort {
  import opened Document

  /** A sort key, compared lexicographically: major first, then minor. */
  datatype Key = Key(major: int, minor: int)

  /** `a` may stand before `b` in a latest-first order. */
  predicate AtLeast(a: Key, b: Key) {
    a.major > b.major || (a.major == b.major && a.minor >= b.minor)
  }

  /** The instant dayjs reads from a stored date, with dayjs(0) for a missing or unparseable one. */
  function InstantOf(d: DateField): int {
    match d
    case At(t) => t
    case _ => 0
  }

  /**
   * `parseSortDate(dateString, isPresent)`: "now" for an ongoing entry, otherwise
   * the stored instant, with instant 0 for a missing or unparseable date.
   */
  function ParseSortDate(d: DateField, isPresent: bool, now: int): (t: int)
    ensures isPresent ==> t == now
    ensures !isPresent && (d.NoDate? || d.Unparseable?) ==> t == 0
    ensures !isPresent && d.At? ==> t == d.instant
  {
    if isPresent then now else InstantOf(d)
  }

  /** Effective end first, start as the tie-break. */
  function ExperienceKey(e: Experience, now: int): Key {
    Key(ParseSortDate(e.endDate, e.currentlyWorking, now), ParseSortDate(e.startDate, false, now))
  }

  function EducationKey(e: Education): Key {
    Key(InstantOf(e.date), 0)
  }

  /** The experience comparator of the classic, modern and minimal-image templates, as written. */
  function CompareExperience(a: Experience, b: Experience, now: int): (r: int)
    ensures r < 0 <==> !AtLeast(ExperienceKey(b, now), ExperienceKey(a, now))
    ensures r == 0 <==> ExperienceKey(a, now) == ExperienceKey(b, now)
  {
    var dateB := ParseSortDate(b.endDate, b.currentlyWorking, now);
    var dateA := ParseSortDate(a.endDate, a.currentlyWorking, now);
    if dateB == dateA then ParseSortDate(b.startDate, false, now) - ParseSortDate(a.startDate, false, now)
    else dateB - dateA
  }

  /** The education comparator of all four templates, as written. */
  function CompareEducation(a: Education, b: Education): (r: int)
    ensures r < 0 <==> !AtLeast(EducationKey(b), EducationKey(a))
    ensures r == 0 <==> EducationKey(a) == EducationKey(b)
  {
    ParseSortDate(b.date, false, 0) - ParseSortDate(a.date, false, 0)
  }

  /**
   * The experience comparator orders as the key does: a negative result (a goes
   * first) exactly when a's key is strictly later, zero exactly when the keys tie,
   * and it is antisymmetric, so a stable sort by it is a stable sort by the key.
   */
  lemma CompareExperienceIsKeyOrder(a: Experience, b: Experience, now: int)
    ensures CompareExperience(a, b, now) < 0 <==> !AtLeast(ExperienceKey(b, now), ExperienceKey(a, now))
    ensures CompareExperience(a, b, now) == 0 <==> ExperienceKey(a, now) == ExperienceKey(b, now)
    ensures CompareExperience(a, b, now) == -CompareExperience(b, a, now)
  {
  }

  lemma CompareEducationIsKeyOrder(a: Education, b: Education)
    ensures CompareEducation(a, b) < 0 <==> !AtLeast(EducationKey(b), EducationKey(a))
    ensures CompareEducation(a, b) == 0 <==> EducationKey(a) == EducationKey(b)
  {
  }

  /** Places x before the first element whose key is not later than x's. */
  function Insert<T>(x: T, s: seq<T>, key: T -> Key): (r: seq<T>)
    ensures |r| == |s| + 1
  {
    if s == [] || AtLeast(key(x), key(s[0])) then [x] + s
    else [s[0]] + Insert(x, s[1..], key)
  }

  /** A stable sort, latest key first; the input is left as it is. */
  function Sort<T>(s: seq<T>, key: T -> Key): (r: seq<T>)
    ensures |r| == |s|
  {
    if s == [] then [] else Insert(s[0], Sort(s[1..], key), key)
  }

  ghost predicate SortedBy<T>(s: seq<T>, key: T -> Key) {
    forall i, j :: 0 <= i < j < |s| ==> AtLeast(key(s[i]), key(s[j]))
  }

  /** The elements whose key is k, in their order. */
  function WithKey<T>(s: seq<T>, key: T -> Key, k: Key): seq<T> {
    if s == [] then [] else (if key(s[0]) == k then [s[0]] else []) + WithKey(s[1..], key, k)
  }

  lemma {:induction false} InsertPerm<T>(x: T, s: seq<T>, key: T -> Key)
    ensures multiset(Insert(x, s, key)) == multiset(s) + multiset{x}
  {
    if s != [] && !AtLeast(key(x), key(s[0])) {
      InsertPerm(x, s[1..], key);
      assert s == [s[0]] + s[1..];
    }
  }

  lemma {:induction false} InsertSpec<T>(x: T, s: seq<T>, key: T -> Key)
    requires SortedBy(s, key)
    ensures SortedBy(Insert(x, s, key), key)
    ensures multiset(Insert(x, s, key)) == multiset(s) + multiset{x}
  {
    InsertPerm(x, s, key);
    if s == [] || AtLeast(key(x), key(s[0])) {
      var r := [x] + s;
      forall i, j | 0 <= i < j < |r| ensures AtLeast(key(r[i]), key(r[j])) {
        if i == 0 {
          assert r[j] == s[j - 1];
        } else {
          assert r[i] == s[i - 1] && r[j] == s[j - 1];
        }
      }
    } else {
      var rest := Insert(x, s[1..], key);
      InsertSpec(x, s[1..], key);
      var r := [s[0]] + rest;
      forall y | y in multiset(rest) ensures AtLeast(key(s[0]), key(y)) {
        if y != x {
          assert y in multiset(s[1..]);
          var j :| 0 <= j < |s[1..]| && s[1..][j] == y;
          assert s[j + 1] == y;
        }
      }
      forall i, j | 0 <= i < j < |r| ensures AtLeast(key(r[i]), key(r[j])) {
        assert r[j] == rest[j - 1];
        assert rest[j - 1] in multiset(rest);
        if i > 0 {
          assert r[i] == rest[i - 1];
        }
      }
    }
  }

  /** Sorting yields a latest-first order of the same entries. */
  lemma {:induction false} SortSpec<T>(s: seq<T>, key: T -> Key)
    ensures SortedBy(Sort(s, key), key)
    ensures multiset(Sort(s, key)) == multiset(s)
  {
    if s != [] {
      SortSpec(s[1..], key);
      InsertSpec(s[0], Sort(s[1..], key), key);
      assert s == [s[0]] + s[1..];
    }
  }

  lemma WithKeyCons<T>(y: T, t: seq<T>, key: T -> Key, k: Key)
    ensures WithKey([y] + t, key, k) == (if key(y) == k then [y] else []) + WithKey(t, key, k)
  {
    assert ([y] + t)[1..] == t;
  }

  lemma {:induction false} InsertKeepsTies<T>(x: T, s: seq<T>, key: T -> Key, k: Key)
    ensures WithKey(Insert(x, s, key), key, k) == (if key(x) == k then [x] else []) + WithKey(s, key, k)
  {
    if s == [] || AtLeast(key(x), key(s[0])) {
      WithKeyCons(x, s, key, k);
    } else {
      var rest := Insert(x, s[1..], key);
      InsertKeepsTies(x, s[1..], key, k);
      WithKeyCons(s[0], rest, key, k);
      WithKeyCons(s[0], s[1..], key, k);
      assert [s[0]] + s[1..] == s;
      if key(x) == k {
        assert key(s[0]) != k;
      }
    }
  }

  /** Stability: the entries that tie on any one key keep their input order. */
  lemma {:induction false} SortStable<T>(s: seq<T>, key: T -> Key, k: Key)
    ensures WithKey(Sort(s, key), key, k) == WithKey(s, key, k)
  {
    if s != [] {
      SortStable(s[1..], key, k);
      InsertKeepsTies(s[0], Sort(s[1..], key), key, k);
    }
  }

  /** A list already in order is returned unchanged. */
  lemma {:induction false} SortOfSorted<T>(s: seq<T>, key: T -> Key)
    requires SortedBy(s, key)
    ensures Sort(s, key) == s
  {
    if s != [] {
      SortOfSorted(s[1..], key);
      assert s == [s[0]] + s[1..];
    }
  }

  /** Sorting twice is sorting once. */
  lemma SortIdempotent<T>(s: seq<T>, key: T -> Key)
    ensures Sort(Sort(s, key), key) == Sort(s, key)
  {
    SortSpec(s, key);
    SortOfSorted(Sort(s, key), key);
  }

  ghost predicate DistinctKeys<T>(s: seq<T>, key: T -> Key) {
    forall i, j :: 0 <= i < j < |s| ==> key(s[i]) != key(s[j])
  }

  /** Two latest-first orders of the same entries start with the same entry when no two entries of the first tie. */
  lemma SortedHeads<T>(a: seq<T>, b: seq<T>, key: T -> Key)
    requires a != [] && SortedBy(a, key) && SortedBy(b, key)
    requires multiset(a) == multiset(b)
    requires DistinctKeys(a, key)
    ensures b != [] && a[0] == b[0]
  {
    assert a[0] in multiset(b);
    assert b[0] in multiset(a);
    var i :| 0 <= i < |a| && a[i] == b[0];
    var j :| 0 <= j < |b| && b[j] == a[0];
    assert AtLeast(key(b[0]), key(b[j]));
    assert AtLeast(key(a[0]), key(a[i]));
  }

  /** Two latest-first orders of the same entries agree when no two entries of the first tie. */
  lemma {:induction false} SortedUnique<T>(a: seq<T>, b: seq<T>, key: T -> Key)
    requires SortedBy(a, key) && SortedBy(b, key)
    requires multiset(a) == multiset(b)
    requires DistinctKeys(a, key)
    ensures a == b
  {
    if a != [] {
      Tails(a, b, key);
      SortedUnique(a[1..], b[1..], key);
      SameHeadSameTail(a, b);
    } else {
      assert |b| == |multiset(b)| == 0;
    }
  }

  /** Removing the common first entry keeps the premises of SortedUnique. */
  lemma Tails<T>(a: seq<T>, b: seq<T>, key: T -> Key)
    requires a != [] && SortedBy(a, key) && SortedBy(b, key)
    requires multiset(a) == multiset(b)
    requires DistinctKeys(a, key)
    ensures b != [] && a[0] == b[0]
    ensures SortedBy(a[1..], key) && SortedBy(b[1..], key) && DistinctKeys(a[1..], key)
    ensures multiset(a[1..]) == multiset(b[1..])
  {
    SortedHeads(a, b, key);
    TailSorted(a, key);
    TailSorted(b, key);
    TailDistinct(a, key);
    TailMultiset(a);
    TailMultiset(b);
  }

  lemma SameHeadSameTail<T>(a: seq<T>, b: seq<T>)
    requires a != [] && b != [] && a[0] == b[0] && a[1..] == b[1..]
    ensures a == b
  {
    assert a == [a[0]] + a[1..] && b == [b[0]] + b[1..];
  }

  lemma TailSorted<T>(a: seq<T>, key: T -> Key)
    requires a != [] && SortedBy(a, key)
    ensures SortedBy(a[1..], key)
  {
  }

  lemma TailDistinct<T>(a: seq<T>, key: T -> Key)
    requires a != [] && DistinctKeys(a, key)
    ensures DistinctKeys(a[1..], key)
  {
  }

  lemma TailMultiset<T>(a: seq<T>)
    requires a != []
    ensures multiset(a[1..]) == multiset(a) - multiset{a[0]}
  {
    assert a == [a[0]] + a[1..];
  }

  lemma DistinctKeysOfSame<T>(s: seq<T>, t: seq<T>, key: T -> Key)
    requires multiset(s) == multiset(t) && DistinctKeys(s, key)
    ensures DistinctKeys(t, key)
  {
    forall i, j | 0 <= i < j < |t| ensures key(t[i]) != key(t[j]) {
      DistinctKeysPair(s, t, key, i, j);
    }
  }

  lemma DistinctKeysPair<T>(s: seq<T>, t: seq<T>, key: T -> Key, i: nat, j: nat)
    requires multiset(s) == multiset(t) && DistinctKeys(s, key) && i < j < |t|
    ensures key(t[i]) != key(t[j])
  {
    assert t[i] in multiset(s) && t[j] in multiset(s);
    var i' :| 0 <= i' < |s| && s[i'] == t[i];
    var j' :| 0 <= j' < |s| && s[j'] == t[j];
    if i' == j' {
      TwoPositions(t, i, j);
      MultiplicityTwo(s, i');
    }
  }

  /** An element at two positions occurs at least twice. */
  lemma TwoPositions<T>(t: seq<T>, i: nat, j: nat)
    requires i < j < |t| && t[i] == t[j]
    ensures multiset(t)[t[i]] >= 2
  {
    assert t == t[..i] + [t[i]] + t[i + 1..j] + [t[j]] + t[j + 1..];
  }

  /** An element that occurs twice in a list sits at two different positions. */
  lemma {:induction false} MultiplicityTwo<T>(s: seq<T>, i: nat)
    requires i < |s| && multiset(s)[s[i]] >= 2
    ensures exists k :: 0 <= k < |s| && k != i && s[k] == s[i]
  {
    var x := s[i];
    assert s == s[..i] + [x] + s[i + 1..];
    assert multiset(s)[x] == multiset(s[..i])[x] + 1 + multiset(s[i + 1..])[x];
    if multiset(s[..i])[x] > 0 {
      assert x in multiset(s[..i]);
      var k :| 0 <= k < i && s[..i][k] == x;
      assert s[k] == x;
    } else {
      assert x in multiset(s[i + 1..]);
      var k :| 0 <= k < |s| - i - 1 && s[i + 1..][k] == x;
      assert s[i + 1 + k] == x;
    }
  }

  /**
   * When no two entries tie on their key, the sorted result depends only on which
   * entries there are, not on the order they were given in.
   */
  lemma SortIgnoresInputOrder<T>(s: seq<T>, t: seq<T>, key: T -> Key)
    requires multiset(s) == multiset(t) && DistinctKeys(s, key)
    ensures Sort(s, key) == Sort(t, key)
  {
    SortSpec(s, key);
    SortSpec(t, key);
    DistinctKeysOfSame(s, Sort(s, key), key);
    SortedUnique(Sort(s, key), Sort(t, key), key);
  }

  /** The copy the classic, modern and minimal-image templates lay out. */
  function SortExperience(exp: seq<Experience>, now: int): (r: seq<Experience>)
    ensures multiset(r) == multiset(exp)
  {
    SortSpec(exp, e => ExperienceKey(e, now));
    Sort(exp, e => ExperienceKey(e, now))
  }

  /** The copy all four templates lay out. */
  function SortEducation(edu: seq<Education>): (r: seq<Education>)
    ensures multiset(r) == multiset(edu)
  {
    SortSpec(edu, e => EducationKey(e));
    Sort(edu, e => EducationKey(e))
  }

  /**
   * The copy the minimal template lays out: its comparator is an empty stub whose
   * undefined result compares as 0, so every pair ties.
   */
  function StubSortExperience(exp: seq<Experience>): (r: seq<Experience>)
    ensures r == exp
  {
    SortOfSorted(exp, e => Key(0, 0));
    Sort(exp, e => Key(0, 0))
  }

  /** The experience entries that tie on both dates with key k, in their order. */
  function ExperienceTies(exp: seq<Experience>, now: int, k: Key): seq<Experience> {
    WithKey(exp, e => ExperienceKey(e, now), k)
  }

  /** The education entries whose date gives key k, in their order. */
  function EducationTies(edu: seq<Education>, k: Key): seq<Education> {
    WithKey(edu, e => EducationKey(e), k)
  }

  /**
   * The experience order: latest effective end first, ties by latest start, the same
   * entries, and entries that tie on both dates in their input order.
   */
  lemma SortExperienceSpec(exp: seq<Experience>, now: int)
    ensures SortedBy(SortExperience(exp, now), e => ExperienceKey(e, now))
    ensures multiset(SortExperience(exp, now)) == multiset(exp)
    ensures forall k :: ExperienceTies(SortExperience(exp, now), now, k) == ExperienceTies(exp, now, k)
  {
    SortSpec(exp, e => ExperienceKey(e, now));
    forall k ensures ExperienceTies(SortExperience(exp, now), now, k) == ExperienceTies(exp, now, k) {
      SortStable(exp, e => ExperienceKey(e, now), k);
    }
  }

  /** The education order: latest date first, the same entries, ties in input order. */
  lemma SortEducationSpec(edu: seq<Education>)
    ensures SortedBy(SortEducation(edu), e => EducationKey(e))
    ensures multiset(SortEducation(edu)) == multiset(edu)
    ensures forall k :: EducationTies(SortEducation(edu), k) == EducationTies(edu, k)
  {
    SortSpec(edu, e => EducationKey(e));
    forall k ensures EducationTies(SortEducation(edu), k) == EducationTies(edu, k) {
      SortStable(edu, e => EducationKey(e), k);
    }
  }

  lemma SortExperienceIdempotent(exp: seq<Experience>, now: int)
    ensures SortExperience(SortExperience(exp, now), now) == SortExperience(exp, now)
  {
    SortIdempotent(exp, e => ExperienceKey(e, now));
  }

  lemma SortEducationIdempotent(edu: seq<Education>)
    ensures SortEducation(SortEducation(edu)) == SortEducation(edu)
  {
    SortIdempotent(edu, e => EducationKey(e));
  }

  /**
   * Entries that never tie on both dates are laid out in the same order however
   * the user arranged them in the editor.
   */
  lemma ExperienceOrderIgnoresInput(exp: seq<Experience>, other: seq<Experience>, now: int)
    requires multiset(other) == multiset(exp)
    requires forall i, j :: 0 <= i < j < |exp| ==> ExperienceKey(exp[i], now) != ExperienceKey(exp[j], now)
    ensures SortExperience(other, now) == SortExperience(exp, now)
  {
    SortIgnoresInputOrder(exp, other, e => ExperienceKey(e, now));
  }

  /** Schools with distinct dates are laid out in the same order however they were entered. */
  lemma EducationOrderIgnoresInput(edu: seq<Education>, other: seq<Education>)
    requires multiset(other) == multiset(edu)
    requires forall i, j :: 0 <= i < j < |edu| ==> InstantOf(edu[i].date) != InstantOf(edu[j].date)
    ensures SortEducation(other) == SortEducation(edu)
  {
    SortIgnoresInputOrder(edu, other, e => EducationKey(e));
  }

  /** With the stub comparator every pair ties, so the stable sort keeps insertion order. */
  lemma StubSortKeepsOrder(exp: seq<Experience>)
    ensures StubSortExperience(exp) == exp
  {
    SortOfSorted(exp, e => Key(0, 0));
  }

  /**
   * When "now" is later than every recorded end date (and than instant 0), an
   * ongoing entry never comes after an entry that has ended.
   */
  lemma OngoingFirst(exp: seq<Experience>, now: int)
    requires now > 0
    requires forall e :: e in exp && !e.currentlyWorking ==> InstantOf(e.endDate) < now
    ensures forall i, j :: 0 <= i < j < |SortExperience(exp, now)| ==>
      !(SortExperience(exp, now)[j].currentlyWorking && !SortExperience(exp, now)[i].currentlyWorking)
  {
    var r := SortExperience(exp, now);
    SortExperienceSpec(exp, now);
    forall i, j | 0 <= i < j < |r| && r[j].currentlyWorking
      ensures r[i].currentlyWorking
    {
      assert AtLeast(ExperienceKey(r[i], now), ExperienceKey(r[j], now));
      assert r[i] in multiset(exp);
    }
  }

  /** 2022-01-01 and 2023-01-01 as epoch milliseconds. */
  const Jan2022 := 1640995200000
  const Jan2023 := 1672531200000

  /**
   * A job that ended in January 2022 listed before a current job started in
   * January 2023: the current job is shown first.
   */
  lemma ScenarioCurrentJobFirst(now: int)
    requires now > Jan2023
    ensures var a := Experience("A", "", NoDate, At(Jan2022), false, "");
            var b := Experience("B", "", At(Jan2023), NoDate, true, "");
            SortExperience([a, b], now) == [b, a]
  {
    var a := Experience("A", "", NoDate, At(Jan2022), false, "");
    var b := Experience("B", "", At(Jan2023), NoDate, true, "");
    var key := e => ExperienceKey(e, now);
    assert key(a) == Key(Jan2022, 0);
    assert key(b) == Key(now, Jan2023);
    assert [a, b][1..] == [b];
    assert Sort([b], key) == Insert(b, [], key) == [b];
    assert Insert(a, [b], key) == [b] + Insert(a, [], key);
  }
}
