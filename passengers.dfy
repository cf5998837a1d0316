/**
 * The passenger resource helper of src/models/passengers.ts: a handle on one
 * passenger of one booking, its resource path, and the read-merge-write
 * update of the passenger's APIS (advance passenger information) record.
 *
 * HTTP responses are inputs; the calls the helper issues are returned in order.
 */
module Passengers {
  import opened Wrappers
  import opened Decimal

  const ReservationsPrefix: string := "/reservations/"
  const PassengersSegment: string := "/passengers/"

  /** An APIS record as sent over the wire: field name to value. */
  type Apis = map<string, string>

  datatype HttpCall = Get(path: string) | Put(path: string, body: Apis)

  function PassengerPath(booking: int, passenger: int): string {
    ReservationsPrefix + IntString(booking) + PassengersSegment + IntString(passenger)
  }

  /** Index of the first '/' in s, or |s| when there is none. */
  function FirstSlash(s: string): (i: nat)
    ensures i <= |s|
    ensures forall j :: 0 <= j < i ==> s[j] != '/'
    ensures i < |s| ==> s[i] == '/'
  {
    if s == [] || s[0] == '/' then 0 else 1 + FirstSlash(s[1..])
  }

  /** Reads a passenger path back into its booking id and passenger id. */
  function ParsePassengerPath(p: string): Option<(int, int)> {
    if |p| < |ReservationsPrefix| || p[..|ReservationsPrefix|] != ReservationsPrefix then None
    else
      var rest := p[|ReservationsPrefix|..];
      var i := FirstSlash(rest);
      var tail := rest[i..];
      if |tail| < |PassengersSegment| || tail[..|PassengersSegment|] != PassengersSegment then None
      else
        match (ParseInt(rest[..i]), ParseInt(tail[|PassengersSegment|..]))
        case (Some(b), Some(q)) => Some((b, q))
        case _ => None
  }

  /** The first '/' after a rendered id is the one that ends it. */
  lemma {:induction false} FirstSlashAfterId(n: int, t: string)
    requires |t| > 0 && t[0] == '/'
    ensures FirstSlash(IntString(n) + t) == |IntString(n)|
  {
    IntStringHasNoSlash(n);
    var d := IntString(n);
    var s := d + t;
    assert forall j :: 0 <= j < |d| ==> s[j] == d[j];
    assert s[|d|] == '/';
  }

  /** The path determines both ids: parsing it gives back the booking and the passenger. */
  lemma {:induction false} PathRoundTrip(booking: int, passenger: int)
    ensures ParsePassengerPath(PassengerPath(booking, passenger)) == Some((booking, passenger))
  {
    var b, q := IntString(booking), IntString(passenger);
    var p := PassengerPath(booking, passenger);
    var rest := b + PassengersSegment + q;
    assert p == ReservationsPrefix + rest;
    assert p[..|ReservationsPrefix|] == ReservationsPrefix;
    assert p[|ReservationsPrefix|..] == rest;
    FirstSlashAfterId(booking, PassengersSegment + q);
    assert rest == b + (PassengersSegment + q);
    var i := |b|;
    assert rest[..i] == b;
    var tail := rest[i..];
    assert tail == PassengersSegment + q;
    assert tail[..|PassengersSegment|] == PassengersSegment;
    assert tail[|PassengersSegment|..] == q;
    IntStringRoundTrip(booking);
    IntStringRoundTrip(passenger);
  }

  /** Two handles with the same path refer to the same booking and passenger. */
  lemma PathInjective(b1: int, p1: int, b2: int, p2: int)
    requires PassengerPath(b1, p1) == PassengerPath(b2, p2)
    ensures b1 == b2 && p1 == p2
  {
    PathRoundTrip(b1, p1);
    PathRoundTrip(b2, p2);
  }

  /**
   * The payload `{ ...updates, ...existing }`: the spread on the right wins,
   * so every field the server already holds keeps the server's value.
   */
  function Merge<V>(updates: map<string, V>, existing: map<string, V>): (payload: map<string, V>)
    ensures payload.Keys == updates.Keys + existing.Keys
    ensures forall k :: k in existing ==> payload[k] == existing[k]
    ensures forall k :: k in updates && k !in existing ==> payload[k] == updates[k]
  {
    updates + existing
  }

  /** An update can only add fields the server lacks; when it has them all, the payload is what was read. */
  lemma MergeKeepsServerRecord<V>(updates: map<string, V>, existing: map<string, V>)
    requires updates.Keys <= existing.Keys
    ensures Merge(updates, existing) == existing
  {
  }

  /** A handle on one passenger of one booking; both ids are fixed at construction. */
  class PassengerApi {
    const booking: int
    const id: int

    constructor (booking: int, passenger: int)
      ensures this.booking == booking && this.id == passenger
    {
      this.booking := booking;
      this.id := passenger;
    }

    /** `/reservations/{booking}/passengers/{id}`. */
    function Path(): (p: string)
      ensures |p| > |ReservationsPrefix| && p[..|ReservationsPrefix|] == ReservationsPrefix
      ensures ParsePassengerPath(p) == Some((booking, id))
    {
      PathRoundTrip(booking, id);
      PassengerPath(booking, id)
    }

    /** Reads the APIS record; `response` is what the GET settled with. */
    method GetApis(response: Result<Apis, string>) returns (r: Result<Apis, string>, calls: seq<HttpCall>)
      ensures calls == [Get(Path() + "/Apis")]
      ensures r == response
    {
      calls := [Get(Path() + "/Apis")];
      r := response;
    }

    /**
     * Reads the record, merges it over `updates` and writes the merge back.
     * `fetched` is what the GET settled with, `stored` what the PUT settled with.
     */
    method UpdateApis(updates: Apis, fetched: Result<Apis, string>, stored: Result<(), string>)
      returns (r: Result<(), string>, calls: seq<HttpCall>)
      ensures |calls| >= 1 && calls[0] == Get(Path() + "/Apis")
      ensures fetched.Err? ==> calls == [Get(Path() + "/Apis")] && r == Err(fetched.error)
      ensures fetched.Ok? ==>
        && calls == [Get(Path() + "/Apis"), Put(Path() + "/apis", Merge(updates, fetched.value))]
        && r == stored
    {
      var existing;
      existing, calls := GetApis(fetched);
      if existing.Err? {
        return Err(existing.error), calls;
      }
      var payload := Merge(updates, existing.value);
      calls := calls + [Put(Path() + "/apis", payload)];
      r := stored;
    }
  }
}
