/**
 * `GET /api/seats/available`: twenty mock seats of a floor, numbered row by
 * row, of which the available ones are returned. Availability is random in
 * the route; here it is a sequence of coin flips passed in.
 */
module SeatsRoute {
  import Text

  datatype Seat = Seat(id: string, seatNo: string, floorNumber: int, isAvailable: bool)

  /** The number of seats `GET` asks the generator for. */
  const SeatsPerRequest: nat := 20

  /**
   * The largest count whose row letters `String.fromCharCode(65 + i/10)` stay
   * below the surrogate range, so that each letter is one character.
   */
  const MaxSeats: nat := 552310

  /** The row letter of seat `i`: 'A' for the first ten, 'B' for the next ten, and so on. */
  function RowLetter(i: nat): (c: char)
    requires i < MaxSeats
    ensures c as int == 65 + i / 10
  {
    (65 + i / 10) as char
  }

  /** `seat-<floor>-<i + 1>` */
  function SeatId(floor: int, i: nat): string {
    "seat-" + Text.IntToString(floor) + "-" + Text.NatToString(i + 1)
  }

  /** `<floor><row letter><(i % 10) + 1>` */
  function SeatNo(floor: int, i: nat): (s: string)
    requires i < MaxSeats
    ensures s == Text.IntToString(floor) + [RowLetter(i)] + Text.NatToString(i % 10 + 1)
  {
    Text.IntToString(floor) + [RowLetter(i)] + Text.NatToString(i % 10 + 1)
  }

  /**
   * `generateMockSeats(floor, count)`; `coins[i]` stands for
   * `Math.random() > 0.3` drawn for seat `i`.
   */
  function GenerateMockSeats(floor: int, count: nat, coins: seq<bool>): (seats: seq<Seat>)
    requires count <= MaxSeats && |coins| == count
    ensures |seats| == count
    ensures forall i :: 0 <= i < count ==>
      seats[i] == Seat(SeatId(floor, i), SeatNo(floor, i), floor, coins[i])
  {
    seq(count, i requires 0 <= i < count => Seat(SeatId(floor, i), SeatNo(floor, i), floor, coins[i]))
  }

  /** Two strings built as prefix, one character and suffix around prefixes of equal length agree part by part. */
  lemma SplitEqual(p1: string, c1: char, s1: string, p2: string, c2: char, s2: string)
    requires |p1| == |p2| && p1 + [c1] + s1 == p2 + [c2] + s2
    ensures c1 == c2 && s1 == s2
  {
    var a, b := p1 + [c1] + s1, p2 + [c2] + s2;
    assert a[|p1|] == c1 && b[|p2|] == c2;
    assert a[|p1| + 1..] == s1 && b[|p2| + 1..] == s2;
  }

  /** The id determines the position. */
  lemma SeatIdInjective(floor: int, i: nat, j: nat)
    ensures SeatId(floor, i) == SeatId(floor, j) ==> i == j
  {
    var p := "seat-" + Text.IntToString(floor);
    if SeatId(floor, i) == SeatId(floor, j) {
      assert SeatId(floor, i) == p + ['-'] + Text.NatToString(i + 1);
      assert SeatId(floor, j) == p + ['-'] + Text.NatToString(j + 1);
      SplitEqual(p, '-', Text.NatToString(i + 1), p, '-', Text.NatToString(j + 1));
      Text.NatToStringInjective(i + 1, j + 1);
    }
  }

  /** The seat number determines the position: its row letter gives `i / 10`, its number `i % 10`. */
  lemma SeatNoInjective(floor: int, i: nat, j: nat)
    requires i < MaxSeats && j < MaxSeats
    ensures SeatNo(floor, i) == SeatNo(floor, j) ==> i == j
  {
    var p := Text.IntToString(floor);
    if SeatNo(floor, i) == SeatNo(floor, j) {
      SplitEqual(p, RowLetter(i), Text.NatToString(i % 10 + 1), p, RowLetter(j), Text.NatToString(j % 10 + 1));
      Text.NatToStringInjective(i % 10 + 1, j % 10 + 1);
      assert i == 10 * (i / 10) + i % 10 && j == 10 * (j / 10) + j % 10;
    }
  }

  /** The number within a row reads back as 1 to 10, and with twenty seats the row is 'A' or 'B'. */
  lemma SeatNoParts(floor: int, i: nat)
    requires i < MaxSeats
    ensures 1 <= Text.DigitsValue(Text.NatToString(i % 10 + 1)) <= 10
    ensures i < SeatsPerRequest ==> RowLetter(i) == 'A' || RowLetter(i) == 'B'
  {
    Text.NatToStringRoundTrip(i % 10 + 1);
  }

  /** Every generated seat has a different id and a different seat number. */
  lemma GeneratedSeatsDistinct(floor: int, count: nat, coins: seq<bool>)
    requires count <= MaxSeats && |coins| == count
    ensures forall i, j :: 0 <= i < j < count ==>
      && GenerateMockSeats(floor, count, coins)[i].id != GenerateMockSeats(floor, count, coins)[j].id
      && GenerateMockSeats(floor, count, coins)[i].seatNo != GenerateMockSeats(floor, count, coins)[j].seatNo
  {
    forall i, j | 0 <= i < j < count
      ensures SeatId(floor, i) != SeatId(floor, j) && SeatNo(floor, i) != SeatNo(floor, j)
    {
      SeatIdInjective(floor, i, j);
      SeatNoInjective(floor, i, j);
    }
  }

  /** `.filter(seat => seat.isAvailable)` */
  function AvailableOnly(seats: seq<Seat>): (r: seq<Seat>)
    ensures |r| <= |seats|
    ensures forall k :: 0 <= k < |r| ==> r[k].isAvailable && r[k] in seats
    ensures forall s :: s in seats && s.isAvailable ==> s in r
  {
    if seats == [] then []
    else if seats[0].isAvailable then [seats[0]] + AvailableOnly(seats[1..])
    else AvailableOnly(seats[1..])
  }

  /** The filter keeps the seats in their generated order. */
  lemma {:induction false} AvailableOnlyAppend(a: seq<Seat>, b: seq<Seat>)
    ensures AvailableOnly(a + b) == AvailableOnly(a) + AvailableOnly(b)
    decreases |a|
  {
    if a == [] {
      assert a + b == b;
    } else {
      assert (a + b)[0] == a[0] && (a + b)[1..] == a[1..] + b;
      AvailableOnlyAppend(a[1..], b);
    }
  }

  /**
   * `GET`, for the parsed `floor` parameter; `date` is the `date` parameter
   * or today's date, which the route reads and then does not use.
   */
  function Get(floor: int, date: string, coins: seq<bool>): (seats: seq<Seat>)
    requires |coins| == SeatsPerRequest
    ensures |seats| <= SeatsPerRequest
    ensures forall k :: 0 <= k < |seats| ==> seats[k].isAvailable && seats[k].floorNumber == floor
    ensures forall i :: 0 <= i < SeatsPerRequest && coins[i] ==>
      Seat(SeatId(floor, i), SeatNo(floor, i), floor, true) in seats
    ensures forall k :: 0 <= k < |seats| ==>
      exists i :: 0 <= i < SeatsPerRequest && coins[i] && seats[k] == Seat(SeatId(floor, i), SeatNo(floor, i), floor, true)
    ensures seats == AvailableOnly(GenerateMockSeats(floor, SeatsPerRequest, coins))
  {
    var all := GenerateMockSeats(floor, SeatsPerRequest, coins);
    assert forall i :: 0 <= i < SeatsPerRequest ==> all[i] in all;
    AvailableOnly(all)
  }

  /** The date does not change the answer. */
  lemma GetIgnoresDate(floor: int, d1: string, d2: string, coins: seq<bool>)
    requires |coins| == SeatsPerRequest
    ensures Get(floor, d1, coins) == Get(floor, d2, coins)
  {
  }
}
