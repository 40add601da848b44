/** The failures the two rental workflows report instead of throwing. */
module Errors {

  /** BadRequest and Conflict stand for ResponseStatusException with HTTP status 400 and 409 and
      their reason text; NotFound for NotFoundException, which keeps only its message; and
      NoSuchElement for the exception Optional.orElseThrow() raises on an empty Optional. */
  datatype Failure =
    | BadRequest(reason: string)
    | NotFound(message: string)
    | Conflict(reason: string)
    | NoSuchElement

  /** The decimal digits of n, most significant first, as Java prints a long. */
  function Digits(n: nat): (s: string)
    ensures |s| >= 1
    ensures forall i :: 0 <= i < |s| ==> '0' <= s[i] <= '9'
    ensures s[0] == '0' <==> n == 0
    decreases n
  {
    var last := ['0' + (n % 10) as char];
    if n < 10 then last else Digits(n / 10) + last
  }

  /** The number a string of decimal digits denotes, most significant digit first. */
  function DigitsValue(s: string): nat
    decreases |s|
  {
    if s == [] then 0
    else
      var c := s[|s| - 1];
      DigitsValue(s[..|s| - 1]) * 10 + (if '0' <= c <= '9' then c as int - '0' as int else 0)
  }

  /** The rendering loses nothing: reading the digits back gives the number. */
  lemma {:induction false} DigitsRoundTrip(n: nat)
    ensures DigitsValue(Digits(n)) == n
    decreases n
  {
    if n >= 10 {
      DigitsRoundTrip(n / 10);
      var s := Digits(n);
      assert s[..|s| - 1] == Digits(n / 10);
    }
  }

  /** The number a rendered long denotes: an optional '-' and then decimal digits. */
  function IntValue(s: string): int {
    if |s| > 0 && s[0] == '-' then -(DigitsValue(s[1..]) as int) else DigitsValue(s)
  }

  /** A long as Java's string concatenation renders it; reading it back gives the number. */
  function IntToString(n: int): (s: string)
    ensures |s| >= 1
    ensures (s[0] == '-') <==> n < 0
    ensures IntValue(s) == n
  {
    if n < 0 then
      DigitsRoundTrip(-n);
      assert ("-" + Digits(-n))[1..] == Digits(-n);
      "-" + Digits(-n)
    else
      DigitsRoundTrip(n);
      Digits(n)
  }

  /** The message of `new NotFoundException(what, id)`: "<what> not found: <id>". */
  function NotFoundMessage(what: string, id: int): (m: string)
    ensures |m| > |what| + 12
    ensures m[..|what|] == what
    ensures m[|what|..|what| + 12] == " not found: "
    ensures m[|what| + 12..] == IntToString(id)
  {
    what + " not found: " + IntToString(id)
  }

  /** Two not-found messages for the same kind of entity are equal only for the same id, so
      the message identifies the id it was built from. */
  lemma NotFoundMessageIdentifiesId(what: string, a: int, b: int)
    ensures NotFoundMessage(what, a) == NotFoundMessage(what, b) <==> a == b
  {
    if NotFoundMessage(what, a) == NotFoundMessage(what, b) {
      var m := NotFoundMessage(what, a);
      assert IntToString(a) == m[|what| + 12..] == IntToString(b);
    }
  }

  /** A number renders as its decimal digits, as in the messages the open-rental workflow's
      tests expect. */
  lemma SmallNumbersRender()
    ensures IntToString(10) == "10" && IntToString(999) == "999"
  {
    assert Digits(1) == "1";
    assert Digits(10) == Digits(1) + "0";
    assert Digits(9) == "9";
    assert Digits(99) == Digits(9) + "9";
    assert Digits(999) == Digits(99) + "9";
  }

  /** The two messages the open-rental workflow's tests expect. */
  lemma NotFoundMessageExamples()
    ensures NotFoundMessage("Car", 10) == "Car not found: 10"
    ensures NotFoundMessage("Customer", 999) == "Customer not found: 999"
  {
    SmallNumbersRender();
    calc {
      NotFoundMessage("Car", 10);
      "Car" + " not found: " + "10";
      "Car not found: 10";
    }
    calc {
      NotFoundMessage("Customer", 999);
      "Customer" + " not found: " + "999";
      "Customer not found: 999";
    }
  }
}
