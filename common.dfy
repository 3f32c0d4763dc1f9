/** Shared vocabulary of the processing pipeline: optional values, the
    exceptions the JVM code throws (as an error datatype), record metadata,
    time values and the integer arithmetic of the JVM. */
module Common {

  datatype Option<+T> = None | Some(value: T)

  /** The exceptions the pipeline code can raise, as values. */
  datatype Error =
    | IllegalStateException(message: string)
    | IllegalArgumentException(message: string)
    | NullPointerException
    | NoSuchElementException
    | CollaboratorFailure(what: string)

  /** A computation that either yields a value or throws. */
  datatype Result<+T> = Ok(value: T) | Err(error: Error)

  /** Envelope metadata carried by every topic entry. */
  datatype Metadata = Metadata(version: int, correlationId: string)

  /** One record on a topic: metadata plus payload. */
  datatype TopicEntry<+V> = TopicEntry(metadata: Metadata, data: V)

  /** Identifiers passed to the collaborators. */
  datatype AktorId = AktorId(id: string)
  datatype CorrelationId = CorrelationId(id: string)
  datatype DokumentEier = DokumentEier(eiersFodselsnummer: string)

  /** Document-store ids (URIs) and document bundles. */
  type Uri = string

  /** A calendar date, as a day number. */
  type LocalDate = int

  /** A zoned timestamp: the instant (epoch seconds) and the zone offset in seconds. */
  datatype ZonedDateTime = ZonedDateTime(epochSecond: int, offsetSeconds: int)

  const SECONDS_PER_DAY: int := 86400

  /** `isAfter`: a strict comparison of the two instants; the zones do not matter. */
  predicate IsAfter(t: ZonedDateTime, other: ZonedDateTime) {
    t.epochSecond > other.epochSecond
  }

  /** The local date of a zoned timestamp, in its own zone. */
  function ToLocalDate(t: ZonedDateTime): (d: LocalDate)
    ensures d * SECONDS_PER_DAY <= t.epochSecond + t.offsetSeconds < (d + 1) * SECONDS_PER_DAY
  {
    (t.epochSecond + t.offsetSeconds) / SECONDS_PER_DAY
  }

  /** JVM integer division: rounds toward zero. */
  function Quot(a: int, b: int): (q: int)
    requires b > 0
    ensures a >= 0 ==> 0 <= q * b <= a < q * b + b
    ensures a < 0 ==> q * b - b < a <= q * b <= 0
  {
    if a >= 0 then
      DivisionBounds(a, b);
      a / b
    else
      DivisionBounds(-a, b);
      NegMul((-a) / b, b);
      -((-a) / b)
  }

  /** Euclidean division of a natural number by a positive one. */
  lemma DivisionBounds(a: nat, b: int)
    requires b > 0
    ensures 0 <= (a / b) * b <= a < (a / b) * b + b
  {
    var q := a / b;
    assert a == q * b + a % b;
    assert q >= 0;
    MulNonNeg(q, b);
  }

  lemma MulNonNeg(x: nat, y: nat)
    ensures x * y >= 0
  {
  }

  lemma NegMul(x: int, y: int)
    ensures (-x) * y == -(x * y)
  {
  }

  /** JVM remainder: takes the sign of the dividend. */
  function Rem(a: int, b: int): (r: int)
    requires b > 0
    ensures a == Quot(a, b) * b + r
    ensures a >= 0 ==> 0 <= r < b
    ensures a < 0 ==> -b < r <= 0
  {
    a - Quot(a, b) * b
  }

  /** Absolute value (`absoluteValue`). */
  function Abs(a: int): (r: nat)
    ensures r == a || r == -a
  {
    if a < 0 then -a else a
  }

  /** Decimal rendering of an integer, as string templates print it. */
  function NatToString(n: nat): (s: string)
    ensures |s| >= 1
    ensures forall i :: 0 <= i < |s| ==> '0' <= s[i] <= '9'
    decreases n
  {
    if n < 10 then [DigitChar(n)] else NatToString(n / 10) + [DigitChar(n % 10)]
  }

  function DigitChar(d: nat): (c: char)
    requires d < 10
    ensures '0' <= c <= '9'
    ensures c as int - '0' as int == d
  {
    ['0', '1', '2', '3', '4', '5', '6', '7', '8', '9'][d]
  }

  /** The number a string of decimal digits spells. */
  function DesimalVerdi(s: string): nat
    requires forall i :: 0 <= i < |s| ==> '0' <= s[i] <= '9'
    decreases |s|
  {
    if s == [] then 0
    else DesimalVerdi(s[..|s| - 1]) * 10 + (s[|s| - 1] as int - '0' as int)
  }

  /** The decimal rendering spells the number it renders. */
  lemma {:induction false} NatToStringVerdi(n: nat)
    ensures DesimalVerdi(NatToString(n)) == n
    decreases n
  {
    var s := NatToString(n);
    if n < 10 {
      assert s[..|s| - 1] == [];
    } else {
      NatToStringVerdi(n / 10);
      assert s[..|s| - 1] == NatToString(n / 10);
      assert s[|s| - 1] == DigitChar(n % 10);
    }
  }

  function IntToString(i: int): (s: string)
    ensures |s| >= 1
    ensures i < 0 <==> s[0] == '-'
  {
    if i < 0 then "-" + NatToString(-i) else NatToString(i)
  }

  /** ASCII lower-casing of one character (`lowercase`/`toLowerCase`). */
  function LowerChar(c: char): (r: char)
    ensures 'A' <= c <= 'Z' ==> r as int == c as int + 32
    ensures !('A' <= c <= 'Z') ==> r == c
  {
    if 'A' <= c <= 'Z' then (c as int + 32) as char else c
  }

  /** ASCII upper-casing of one character. */
  function UpperChar(c: char): (r: char)
    ensures 'a' <= c <= 'z' ==> r as int == c as int - 32
    ensures !('a' <= c <= 'z') ==> r == c
  {
    if 'a' <= c <= 'z' then (c as int - 32) as char else c
  }

  function Lowercase(s: string): (r: string)
    ensures |r| == |s|
    ensures forall i :: 0 <= i < |s| ==> r[i] == LowerChar(s[i])
  {
    if s == [] then [] else [LowerChar(s[0])] + Lowercase(s[1..])
  }
}
