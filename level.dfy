/** Log levels: an enumeration ordered by its underlying value, and the
    display name of each level. */
module Levels {

  datatype Option<T> = None | Some(value: T)

  /** The six severities, in ascending order. */
  datatype Level = Debug | Warning | Notice | Info | Error | Fatal

  /** The underlying integer of an enumerator: Debug is 0, each next one adds 1. */
  function Value(l: Level): (v: nat)
    ensures v <= 5
  {
    match l
    case Debug => 0
    case Warning => 1
    case Notice => 2
    case Info => 3
    case Error => 4
    case Fatal => 5
  }

  /** The enumerator whose underlying value is `v`, if there is one. */
  function FromValue(v: int): (r: Option<Level>)
    ensures r.Some? <==> 0 <= v <= 5
    ensures r.Some? ==> Value(r.value) == v
  {
    if v == 0 then Some(Debug)
    else if v == 1 then Some(Warning)
    else if v == 2 then Some(Notice)
    else if v == 3 then Some(Info)
    else if v == 4 then Some(Error)
    else if v == 5 then Some(Fatal)
    else None
  }

  /** Level comparison is comparison of underlying values. */
  predicate AtLeast(a: Level, b: Level): (r: bool)
    ensures r <==> a == b || Value(a) > Value(b)
  {
    Value(a) >= Value(b)
  }

  /** The name of each enumerator. */
  function Name(l: Level): (r: string)
    ensures |r| > 0 && r != "Unknown"
  {
    match l
    case Debug => "Debug"
    case Warning => "Warning"
    case Notice => "Notice"
    case Info => "Info"
    case Error => "Error"
    case Fatal => "Fatal"
  }

  /** The name of a level given by its underlying value: a value outside the
      six enumerators (a cast integer) falls to the default branch. */
  function NameOfValue(v: int): (r: string)
    ensures |r| > 0
    ensures r == "Unknown" <==> !(0 <= v <= 5)
    ensures 0 <= v <= 5 ==> r == Name(FromValue(v).value)
  {
    match FromValue(v)
    case Some(l) => Name(l)
    case None => "Unknown"
  }

  /** Each level is recovered from its underlying value, so values are distinct. */
  lemma ValueRoundTrip(l: Level)
    ensures FromValue(Value(l)) == Some(l)
  {
  }

  /** The order on levels is total, reflexive, antisymmetric and transitive,
      and it is the order in which the enumerators are declared. */
  lemma TotalOrder(a: Level, b: Level, c: Level)
    ensures AtLeast(a, a)
    ensures AtLeast(a, b) || AtLeast(b, a)
    ensures AtLeast(a, b) && AtLeast(b, a) ==> a == b
    ensures AtLeast(a, b) && AtLeast(b, c) ==> AtLeast(a, c)
  {
    if AtLeast(a, b) && AtLeast(b, a) {
      ValueRoundTrip(a);
      ValueRoundTrip(b);
    }
  }

  /** Debug < Warning < Notice < Info < Error < Fatal. */
  lemma DeclarationOrder()
    ensures Value(Debug) == 0 && Value(Fatal) == 5
    ensures !AtLeast(Debug, Warning) && !AtLeast(Warning, Notice) && !AtLeast(Notice, Info)
    ensures !AtLeast(Info, Error) && !AtLeast(Error, Fatal)
  {
  }

  /** No two levels share a name, and no level is named "Unknown". */
  lemma NamesDistinct(a: Level, b: Level)
    ensures Name(a) == Name(b) ==> a == b
    ensures NameOfValue(Value(a)) == Name(a)
  {
    ValueRoundTrip(a);
    if Name(a) == Name(b) {
      match a
      case Debug => assert Name(b)[0] == 'D';
      case Warning => assert Name(b)[0] == 'W';
      case Notice => assert Name(b)[0] == 'N';
      case Info => assert Name(b)[0] == 'I';
      case Error => assert Name(b)[0] == 'E';
      case Fatal => assert Name(b)[0] == 'F';
    }
  }
}
