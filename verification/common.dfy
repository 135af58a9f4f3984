/**
 * Shared vocabulary of the treasury dashboard model: optional values, the
 * three outcomes of reading a collection back from browser storage, calendar
 * dates reduced to what the dashboard compares, and integer money.
 */
module Common {

  /** An optional value, standing for a JavaScript `undefined`/`null` field. */
  datatype Option<+T> = None | Some(value: T)

  /** A collection read back from browser storage and parsed as JSON:
      the key is absent, its text does not parse, or it parses to a list. */
  datatype Stored<T> = Missing | Corrupt | Parsed(items: seq<T>)

  /** The list a reader works on when an absent or unparseable entry counts as empty. */
  function OrEmpty<T>(s: Stored<T>): (r: seq<T>)
    ensures s.Parsed? ==> r == s.items
    ensures !s.Parsed? ==> r == []
  {
    if s.Parsed? then s.items else []
  }

  /** JavaScript truthiness of an optional string: present and non-empty. */
  predicate Present(o: Option<string>)
  {
    o.Some? && o.value != ""
  }

  /** Truthiness of an optional number (`0` and `undefined` are falsy). */
  predicate NonZero(o: Option<int>)
  {
    o.Some? && o.value != 0
  }

  /** Truthiness of an optional flag: only a stored `true` counts. */
  predicate IsTrue(o: Option<bool>)
  {
    o == Some(true)
  }

  /** A calendar month, as `getFullYear()` and `getMonth()` report it. */
  datatype MonthKey = MonthKey(year: int, month: int)

  /** A point in time: its year, its month, and an opaque offset inside the
      month. Only the month and the order of instants matter to the dashboard. */
  datatype Date = Date(year: int, month: int, offset: int)
  {
    function Key(): MonthKey
    {
      MonthKey(year, month)
    }
  }

  /** Chronological order of instants. */
  predicate AtOrBefore(a: Date, b: Date)
  {
    a.year < b.year
    || (a.year == b.year && a.month < b.month)
    || (a.year == b.year && a.month == b.month && a.offset <= b.offset)
  }

  /** `start <= d <= end`, as date-fns `isWithinInterval` tests it. */
  predicate WithinInterval(d: Date, start: Date, end: Date)
  {
    AtOrBefore(start, d) && AtOrBefore(d, end)
  }

  lemma AtOrBeforeTotal(a: Date, b: Date)
    ensures AtOrBefore(a, b) || AtOrBefore(b, a)
  {
  }

  lemma AtOrBeforeTransitive(a: Date, b: Date, c: Date)
    requires AtOrBefore(a, b) && AtOrBefore(b, c)
    ensures AtOrBefore(a, c)
  {
  }

  /** Money is held in thousandths of a metical. */
  const MinorPerUnit: int := 1000

  /** The `< 0.01` amount tolerance of the reconciliation matcher, in minor units. */
  const Tolerance: int := 10

  /** `Math.abs(a - b) < 0.01`. */
  predicate SameAmount(a: int, b: int)
  {
    -Tolerance < a - b < Tolerance
  }

  /** Sum of a list of amounts. */
  function SumInts(s: seq<int>): int
  {
    if s == [] then 0 else SumInts(s[..|s| - 1]) + s[|s| - 1]
  }

  lemma SumIntsAppend(a: seq<int>, b: seq<int>)
    ensures SumInts(a + b) == SumInts(a) + SumInts(b)
  {
    if b != [] {
      assert (a + b)[..|a + b| - 1] == a + b[..|b| - 1];
      SumIntsAppend(a, b[..|b| - 1]);
    } else {
      assert a + b == a;
    }
  }
}
