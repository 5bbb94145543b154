/**
 * Shared value types of the client: the connection status enumeration and
 * its names, the values carried by the hub connection, the queued event,
 * server message and asynchronous result records, and the reconnect policy
 * with its defaults.
 */
module Types {

  datatype Option<T> = None | Some(value: T)

  /** The five phases of the connection, in declaration order. */
  datatype ConnectionStatus =
    | Disconnected
    | Connecting
    | Connected
    | Disconnecting
    | Reconnecting

  /** The underlying integer of each enumerator. */
  function Ordinal(s: ConnectionStatus): (v: int)
    ensures 0 <= v <= 4
  {
    match s
    case Disconnected => 0
    case Connecting => 1
    case Connected => 2
    case Disconnecting => 3
    case Reconnecting => 4
  }

  /**
   * The name of a status, keyed by the enumeration's underlying integer so
   * that the switch's default branch (a value outside the enumerators) is
   * part of the model.
   */
  function StatusName(value: int): string
  {
    if value == 0 then "disconnected"
    else if value == 1 then "connecting"
    else if value == 2 then "connected"
    else if value == 3 then "disconnecting"
    else if value == 4 then "reconnecting"
    else "disconnected"
  }

  function StatusToString(s: ConnectionStatus): string
  {
    StatusName(Ordinal(s))
  }

  /** The enumerators are numbered 0..4 in declaration order, without gaps. */
  lemma OrdinalsInOrder()
    ensures Ordinal(Disconnected) == 0 && Ordinal(Connecting) == 1
    ensures Ordinal(Connected) == 2 && Ordinal(Disconnecting) == 3
    ensures Ordinal(Reconnecting) == 4
    ensures forall s, t :: Ordinal(s) == Ordinal(t) ==> s == t
  {
  }

  /** Distinct statuses have distinct names. */
  lemma StatusNamesDistinct(s: ConnectionStatus, t: ConnectionStatus)
    ensures StatusToString(s) == StatusToString(t) <==> s == t
  {
  }

  /** Every value outside the enumerators is named like DISCONNECTED. */
  lemma OutOfRangeNamedDisconnected(value: int)
    requires value < 0 || 4 < value
    ensures StatusName(value) == StatusToString(Disconnected)
  {
  }

  /**
   * A value carried by the hub connection. A number is kept as the decimal
   * text that the double-to-string conversion produces for it; null, arrays,
   * maps and binary blobs are not distinguished.
   */
  datatype Value =
    | StringValue(s: string)
    | NumberValue(rendered: string)
    | BoolValue(b: bool)
    | OtherValue

  /** A named event with positional string arguments, queued for dispatch. */
  datatype LuaEvent = LuaEvent(name: string, args: seq<string>)

  /** A server-invoked method call, queued by the transport's handler. */
  datatype ServerMessage = ServerMessage(methodName: string, args: seq<Value>)

  /** The outcome of one asynchronous invocation. */
  datatype AsyncResult = AsyncResult(callbackRef: int, result: Value, error: string, success: bool)

  /** The reconnect policy; a maxAttempts of 0 means no limit. */
  datatype ReconnectConfig = ReconnectConfig(
    enabled: bool,
    maxAttempts: int,
    initialDelayMs: int,
    maxDelayMs: int,
    multiplier: real)

  const DefaultReconnectConfig: ReconnectConfig :=
    ReconnectConfig(false, 5, 1000, 30000, 2.0)

  /** A default-initialised result: no callback, no value, failed, no error text. */
  const DefaultAsyncResult: AsyncResult :=
    AsyncResult(-1, OtherValue, "", false)

  /**
   * Ascii decimal rendering of a natural number, as std::to_string gives it:
   * digits only, and no leading zero except in "0" itself.
   */
  function Decimal(n: nat): (s: string)
    ensures |s| >= 1
    ensures forall i :: 0 <= i < |s| ==> '0' <= s[i] <= '9'
    ensures n == 0 ==> s == "0"
    ensures n > 0 ==> s[0] != '0'
  {
    if n < 10 then [Digit(n)] else Decimal(n / 10) + [Digit(n % 10)]
  }

  function Digit(d: nat): (c: char)
    requires d < 10
    ensures '0' <= c <= '9'
    ensures c as int - '0' as int == d
  {
    (48 + d) as char
  }

  /** The number a string of decimal digits denotes, most significant first. */
  function DigitsValue(s: string): nat
    requires forall i :: 0 <= i < |s| ==> '0' <= s[i] <= '9'
  {
    if s == [] then 0
    else 10 * DigitsValue(s[..|s| - 1]) + (s[|s| - 1] as int - '0' as int)
  }

  /** The rendering reads back as the number it renders. */
  lemma {:induction false} DecimalValue(n: nat)
    ensures DigitsValue(Decimal(n)) == n
  {
    if n >= 10 {
      DecimalValue(n / 10);
      var s := Decimal(n);
      assert s[..|s| - 1] == Decimal(n / 10);
    }
  }
}
