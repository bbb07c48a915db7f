/** The records the REST API returns, reduced to the fields the client-side
    code reads. Timestamps arrive with their local calendar fields already
    extracted (what `getFullYear`, `getMonth`, `getDay` and `getHours` give). */
module Records {

  datatype Option<T> = None | Some(value: T)

  type Id = nat

  /** `Date.getMonth()`: 0 is January. */
  type MonthIndex = m: int | 0 <= m < 12

  /** `Date.getDay()`: 0 is Sunday. */
  type Weekday = d: int | 0 <= d < 7

  /** `Date.getHours()`. */
  type Hour = h: int | 0 <= h < 24

  datatype Stamp = Stamp(year: int, month: MonthIndex, weekday: Weekday, hour: Hour)

  /** A calendar month; it also stands for the localized "Mon YYYY" label. */
  datatype YearMonth = YearMonth(year: int, month: MonthIndex)

  datatype User = User(id: Id, name: string, createdAt: Option<Stamp>)

  /** `carType` is the record's `type` field. */
  datatype Car = Car(id: Id, brand: string, model: string, carType: string)

  datatype Booking = Booking(id: Id, carId: Id, userId: Id, status: string, createdAt: Option<Stamp>)

  /** A `None` amount is a JSON null. */
  datatype Payment = Payment(id: Id, bookingId: Id, amount: Option<int>, paymentTime: Option<Stamp>)

  /** `p.amount || 0` */
  function AmountOrZero(p: Payment): int
  {
    match p.amount
    case Some(a) => a
    case None => 0
  }
}
