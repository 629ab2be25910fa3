/** Timestamps of the killing records and of the reveal windows.

    Every timestamp in the narrative is written in the fixed format
    "%Y-%m-%d %H:%M:%S" and parsed with d3.timeParse before two of them are
    compared.  Only the ORDER of parsed times is ever used, so a timestamp is
    modelled as its six fields, and the parsed value as an integer Key that
    orders timestamps field by field.  For real calendar dates that is the
    order of the wall-clock instants; an impossible date such as 30 February,
    which the parser rolls over into March, is ordered by its fields. */
module Timestamps {

  /** The six fields of a "%Y-%m-%d %H:%M:%S" timestamp. */
  datatype Stamp = Stamp(year: int, month: int, day: int, hour: int, minute: int, second: int)

  /** A timestamp whose fields are in the ranges the format admits. */
  predicate WellFormed(t: Stamp) {
    1 <= t.month <= 12 && 1 <= t.day <= 31 &&
    0 <= t.hour < 24 && 0 <= t.minute < 60 && 0 <= t.second < 60
  }

  /** Lexicographic order of two timestamps, field by field: for real calendar
      dates, the order of the instants they denote. */
  predicate Earlier(a: Stamp, b: Stamp) {
    a.year < b.year ||
    (a.year == b.year && (a.month < b.month ||
    (a.month == b.month && (a.day < b.day ||
    (a.day == b.day && (a.hour < b.hour ||
    (a.hour == b.hour && (a.minute < b.minute ||
    (a.minute == b.minute && a.second < b.second)))))))))
  }

  /** The parsed value of a timestamp: a mixed-radix count of seconds.  It is
      not the epoch count d3 produces, but it orders well-formed timestamps
      field by field (lemma KeyOrder), as d3's values order real dates. */
  function Key(t: Stamp): int {
    ((((t.year * 12 + (t.month - 1)) * 31 + (t.day - 1)) * 24 + t.hour) * 60 + t.minute) * 60 + t.second
  }

  /** Comparing keys is comparing timestamps field by field, and the key
      forgets nothing about a well-formed timestamp. */
  lemma KeyOrder(a: Stamp, b: Stamp)
    requires WellFormed(a) && WellFormed(b)
    ensures Key(a) < Key(b) <==> Earlier(a, b)
    ensures Key(a) == Key(b) <==> a == b
  {
  }
}
