/** The `Car` record: three fields set once by the constructor, and a
    `toString` that formats the model and the mileage. */
module Car {

  /** A car; the fields are never reassigned after construction. */
  datatype Car = Car(model: string, year: int, miles: int)

  /** `new Car(model, year, miles)`: stores the three values as given, with
      no check on their types or ranges. */
  function NewCar(model: string, year: int, miles: int): (c: Car)
    ensures c.model == model && c.year == year && c.miles == miles
  {
    Car(model, year, miles)
  }

  /** The character of a single decimal digit. */
  function DigitChar(d: nat): (ch: char)
    requires d < 10
    ensures '0' <= ch <= '9' && ch as int - '0' as int == d
  {
    (('0' as int) + d) as char
  }

  /** The decimal digits of `n`, most significant first, without leading zeros. */
  function Digits(n: nat): (s: string)
    ensures |s| >= 1
    ensures forall i :: 0 <= i < |s| ==> '0' <= s[i] <= '9'
    ensures |s| > 1 ==> s[0] != '0'
  {
    if n < 10 then [DigitChar(n)] else Digits(n / 10) + [DigitChar(n % 10)]
  }

  /** `String(n)` for an integer: a minus sign exactly for negatives, then
      the decimal digits of the magnitude, without leading zeros. */
  function NumberToString(n: int): (s: string)
    ensures |s| >= 1 && (s[0] == '-' <==> n < 0)
    ensures var digits := if n < 0 then s[1..] else s;
      |digits| >= 1 &&
      (forall i :: 0 <= i < |digits| ==> '0' <= digits[i] <= '9') &&
      (|digits| > 1 ==> digits[0] != '0')
  {
    if n < 0 then "-" + Digits(-n) else Digits(n)
  }

  /** The value of a string of decimal digits, read from the left. */
  function DigitsValue(s: string): int
  {
    if s == [] then 0 else DigitsValue(s[..|s| - 1]) * 10 + (s[|s| - 1] as int - '0' as int)
  }

  /** The value of an optionally signed decimal string. */
  function ParseNumber(s: string): int
  {
    if |s| > 0 && s[0] == '-' then -DigitsValue(s[1..]) else DigitsValue(s)
  }

  /** Reading back the digits of `n` gives `n`. */
  lemma {:induction false} DigitsRoundTrip(n: nat)
    ensures DigitsValue(Digits(n)) == n
  {
    if n >= 10 {
      var s := Digits(n / 10) + [DigitChar(n % 10)];
      assert s[..|s| - 1] == Digits(n / 10);
      DigitsRoundTrip(n / 10);
    }
  }

  /** `NumberToString` loses nothing: parsing it gives the number back. */
  lemma NumberRoundTrip(n: int)
    ensures ParseNumber(NumberToString(n)) == n
  {
    if n < 0 {
      assert ("-" + Digits(-n))[1..] == Digits(-n);
      DigitsRoundTrip(-n);
    } else {
      DigitsRoundTrip(n);
    }
  }

  /** The rendering of the mileage inside a `toString` result that starts
      with a model of `modelLength` characters. */
  function MilesText(s: string, modelLength: nat): string
    requires modelLength + |" has done "| + |" miles"| <= |s|
  {
    s[modelLength + |" has done "| .. |s| - |" miles"|]
  }

  /** `toString`: the template `${model} has done ${miles} miles`. Read
      piece by piece: the model, " has done ", the canonical decimal
      rendering of the miles, and " miles". */
  function ToString(c: Car): (s: string)
    ensures |c.model| + |" has done "| + |" miles"| <= |s|
    ensures s[..|c.model|] == c.model
    ensures s[|c.model|..|c.model| + |" has done "|] == " has done "
    ensures s[|s| - |" miles"|..] == " miles"
    ensures MilesText(s, |c.model|) == NumberToString(c.miles)
  {
    c.model + " has done " + NumberToString(c.miles) + " miles"
  }

  /** The text of `toString` between " has done " and " miles" reads back
      as the mileage: the rendering loses nothing. */
  lemma ToStringLayout(c: Car)
    ensures ParseNumber(MilesText(ToString(c), |c.model|)) == c.miles
  {
    NumberRoundTrip(c.miles);
  }

  /** `toString` reads only the model and the miles, never the year. */
  lemma ToStringIgnoresYear(c: Car, year: int)
    ensures ToString(c.(year := year)) == ToString(c)
  {
  }

  /** The demonstration mileage renders as "20000". */
  lemma SonataMiles()
    ensures NumberToString(20000) == "20000"
  {
    assert Digits(2) == "2";
    assert Digits(20) == "20";
    assert Digits(200) == "200";
    assert Digits(2000) == "2000";
  }

  /** The demonstration car renders as "쏘나타 has done 20000 miles". */
  lemma SonataExample()
    ensures ToString(NewCar("쏘나타", 2010, 20000)) == "쏘나타 has done 20000 miles"
  {
    SonataMiles();
  }
}
