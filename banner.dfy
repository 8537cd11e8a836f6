/** The pure parts of components/LimitedOfferBanner.tsx: the route of the
    call to action, and the countdown to midnight split into hours, minutes
    and seconds and shown as two-digit fields. */
module LimitedOfferBanner {
  import opened Wrappers
  import opened Types
  import opened Decimal

  /** A user who has declared at least one purpose. */
  predicate HasPurposes(u: User) {
    u.purposes.Some? && |u.purposes.value| > 0
  }

  /** `ctaRoute`. */
  function CtaRoute(user: Option<User>, loading: bool): (route: string)
    ensures route == "/register" <==> loading || user.None?
    ensures route == "/purpose" <==> !loading && user.Some? && !HasPurposes(user.value)
    ensures route == "/payment" <==> !loading && user.Some? && HasPurposes(user.value) && !user.value.paymentMade
    ensures route == "/dashboard" <==> !loading && user.Some? && HasPurposes(user.value) && user.value.paymentMade
  {
    if loading then "/register"
    else if user.None? then "/register"
    else if user.value.purposes.None? || |user.value.purposes.value| == 0 then "/purpose"
    else if !user.value.paymentMade then "/payment"
    else "/dashboard"
  }

  /** The route is always one of four, and purposes are asked for before
      payment is: a user with no purposes goes to /purpose whether paid or not. */
  lemma CtaRouteCases(user: Option<User>, loading: bool)
    ensures CtaRoute(user, loading) in ["/register", "/purpose", "/payment", "/dashboard"]
    ensures user.Some? && !loading && !HasPurposes(user.value) ==> CtaRoute(user, loading) == "/purpose"
  {
  }

  const MsPerHour: int := 1000 * 60 * 60
  const MsPerMinute: int := 1000 * 60
  const MsPerSecond: int := 1000

  /** The quotient rounded toward zero, which JavaScript's `%` pairs with. */
  function TruncDiv(a: int, b: int): (q: int)
    requires b > 0
    ensures a >= 0 ==> q == a / b
    ensures a < 0 ==> q <= 0
  {
    if a >= 0 then a / b else -((-a) / b)
  }

  /** JavaScript's `%`: the remainder takes the sign of the dividend, and
      what is left after it is a whole multiple of the divisor. */
  function JsRem(a: int, b: int): (r: int)
    requires b > 0
    ensures a >= 0 ==> 0 <= r < b && r == a % b
    ensures a < 0 ==> -b < r <= 0
    ensures a == TruncDiv(a, b) * b + r
  {
    if a >= 0 then a % b else -((-a) % b)
  }

  /** A worked negative case: -5 % 3 is -2 in JavaScript (Euclidean: 1). */
  lemma JsRemNegative()
    ensures TruncDiv(-5, 3) == -1 && JsRem(-5, 3) == -2
    ensures -5 % 3 == 1
  {
  }

  /** `Math.floor(a / b)` for a positive divisor, which is Dafny's `/`. */
  function FloorDiv(a: int, b: int): (q: int)
    requires b > 0
    ensures q * b <= a < q * b + b
  {
    a / b
  }

  datatype TimeLeft = TimeLeft(hours: int, minutes: int, seconds: int)

  /** The arithmetic of `calculateTimeLeft`, from the millisecond difference. */
  function CalculateTimeLeft(difference: int): (t: TimeLeft)
    ensures difference >= 0 ==> t.hours >= 0 && 0 <= t.minutes < 60 && 0 <= t.seconds < 60
    ensures difference >= 0 ==>
              var ms := MsPerHour * t.hours + MsPerMinute * t.minutes + MsPerSecond * t.seconds;
              ms <= difference < ms + MsPerSecond
  {
    var hours := FloorDiv(difference, MsPerHour);
    var minutes := FloorDiv(JsRem(difference, MsPerHour), MsPerMinute);
    var seconds := FloorDiv(JsRem(difference, MsPerMinute), MsPerSecond);
    if difference >= 0 then
      DecompositionBounds(difference);
      TimeLeft(hours, minutes, seconds)
    else
      TimeLeft(hours, minutes, seconds)
  }

  lemma DecompositionBounds(d: int)
    requires d >= 0
    ensures var h := d / MsPerHour;
            var m := (d % MsPerHour) / MsPerMinute;
            var s := (d % MsPerMinute) / MsPerSecond;
            && 0 <= m < 60 && 0 <= s < 60
            && MsPerHour * h + MsPerMinute * m + MsPerSecond * s <= d < MsPerHour * h + MsPerMinute * m + MsPerSecond * s + MsPerSecond
  {
    var h := d / MsPerHour;
    var rh := d % MsPerHour;
    var m := rh / MsPerMinute;
    var rm := rh % MsPerMinute;
    assert d == MsPerHour * h + rh;
    assert rh == MsPerMinute * m + rm;
    assert MsPerHour == MsPerMinute * 60;
    assert d % MsPerMinute == rm by {
      assert d == MsPerMinute * (60 * h + m) + rm;
    }
  }

  /** Counting down to the next midnight (at most a day away) never shows
      more than 24 hours. */
  lemma CountdownWithinADay(difference: int)
    requires 0 <= difference <= 24 * MsPerHour
    ensures 0 <= CalculateTimeLeft(difference).hours <= 24
  {
  }

  /** `String.prototype.padStart(2, '0')`. */
  function PadStart2(s: string): (r: string)
    ensures |r| == if |s| >= 2 then |s| else 2
    ensures r[|r| - |s|..] == s
    ensures forall i :: 0 <= i < |r| - |s| ==> r[i] == '0'
  {
    if |s| >= 2 then s else seq(2 - |s|, _ => '0') + s
  }

  /** One countdown field: `String(n).padStart(2, '0')`. */
  function Field(n: int): (r: string)
    ensures |r| >= 2
  {
    PadStart2(IntToString(n))
  }

  /** A field of a non-negative number is its digits padded to at least two
      and still reads back as the number. */
  lemma FieldReadsBack(n: nat)
    ensures |Field(n)| == if |NatToString(n)| >= 2 then |NatToString(n)| else 2
    ensures AllDigits(Field(n)) && Value(Field(n)) == n
  {
    var s := NatToString(n);
    ValueOfNatToString(n);
    if |s| < 2 {
      assert Field(n) == "0" + s;
      ValueLeadingZero(s);
    }
  }

  /** Minutes and seconds are always shown with exactly two digits. */
  lemma FieldTwoDigits(n: nat)
    requires n < 100
    ensures |Field(n)| == 2
  {
    if n >= 10 {
      assert NatToString(n) == NatToString(n / 10) + [DigitChar(n % 10)];
    }
  }
}
