/** The records the REST API returns, as the components read them. */
module Records {
  import opened Optional
  import opened Calendar

  /** A document of the `/flight` collection. */
  datatype Flight = Flight(
    id: string,
    flightNumber: string,
    departureAirport: string,
    arrivalAirport: string,
    flightDate: Date,
    flightTime: TimeOfDay,
    aircraftType: string,
    duration: int,
    price: int,
    seatAvailability: int)

  /** The name and e-mail typed into the booking form. */
  datatype Contact = Contact(name: string, email: string)

  /** The body the flight page posts to `/flight-booking`. */
  datatype BookingRequest = BookingRequest(
    flightId: string,
    flightNumber: string,
    departureAirport: string,
    arrivalAirport: string,
    flightDate: Date,
    flightTime: TimeOfDay,
    seatCount: nat,
    totalCost: int,
    transactionId: string,
    user: Contact,
    loginPerson: Option<string>,
    loginUserImage: Option<string>)

  /**
   * A document of the `/flight-booking` collection: a stored request plus the
   * server's `_id` and `createdAt`, and the refund fields that later updates add.
   * `flightNumber` may be absent in stored documents.
   */
  datatype Booking = Booking(
    id: string,
    flightNumber: Option<string>,
    departureAirport: string,
    arrivalAirport: string,
    flightDate: Date,
    flightTime: TimeOfDay,
    seatCount: nat,
    totalCost: int,
    user: Contact,
    loginPerson: Option<string>,
    status: Option<string>,
    refund: Option<string>,
    createdAt: int)

  /** A document of the `/signup` collection. */
  datatype UserAccount = UserAccount(
    id: string,
    fullName: string,
    email: string,
    phoneNumber: string,
    image: Option<string>)

  /** The signed-in user the identity provider hands out. */
  datatype AuthUser = AuthUser(email: Option<string>)

  /** `user?.email`. */
  function EmailOf(user: Option<AuthUser>): Option<string> {
    match user
    case Some(u) => u.email
    case None => None
  }
}
