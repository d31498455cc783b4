/** Small value types shared by every component. */
module Common {

  datatype Option<+T> = None | Some(value: T)

  /** Instants and durations.  The source uses microsecond datetimes; rounding is never the point here. */
  type Time = real

  function Least(a: nat, b: nat): nat {
    if a < b then a else b
  }

  /** Decimal digits. */
  function Digits(n: nat): string {
    if n < 10 then [(n + 48) as char] else Digits(n / 10) + [(n % 10 + 48) as char]
  }

  predicate OccursAt(v: string, text: string, i: int) {
    0 <= i && i + |v| <= |text| && text[i..i + |v|] == v
  }

  predicate Occurs(v: string, text: string) {
    exists i :: 0 <= i <= |text| && OccursAt(v, text, i)
  }
}
