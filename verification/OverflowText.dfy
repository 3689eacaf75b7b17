/** Receive overflow is recognised by its message text. What the server prints, how the four clients
    recognise it, and why no message can be taken for the overflow of another call. */
module OverflowTexts {
  import opened Options

  // ----- decimal numbers -----

  function Digit(d: nat): (c: char)
    requires d < 10
    ensures '0' <= c <= '9' && (c - '0') as nat == d
  {
    '0' + d as char
  }

  function Decimal(n: nat): (s: string)
    ensures s != "" && forall i | 0 <= i < |s| :: '0' <= s[i] <= '9'
  {
    if n < 10 then [Digit(n)] else Decimal(n / 10) + [Digit(n % 10)]
  }

  function Integer(i: int): (s: string)
    ensures s != ""
  {
    if i < 0 then "-" + Decimal(-i) else Decimal(i)
  }

  function ReadDecimal(s: string): nat
    requires forall i | 0 <= i < |s| :: '0' <= s[i] <= '9'
  {
    if s == "" then 0 else 10 * ReadDecimal(s[..|s| - 1]) + (s[|s| - 1] - '0') as nat
  }

  lemma {:induction false} DecimalReadsBack(n: nat)
    ensures ReadDecimal(Decimal(n)) == n
  {
    if n >= 10 {
      DecimalReadsBack(n / 10);
      assert Decimal(n)[..|Decimal(n)| - 1] == Decimal(n / 10);
    } else {
      assert Decimal(n)[..0] == "";
    }
  }

  /** Printing is injective, also across the sign. */
  lemma IntegerIsInjective(i: int, j: int)
    ensures Integer(i) == Integer(j) <==> i == j
  {
    DecimalReadsBack(if i < 0 then -i else i);
    DecimalReadsBack(if j < 0 then -j else j);
    if i < 0 && j < 0 {
      assert Integer(i)[1..] == Decimal(-i) && Integer(j)[1..] == Decimal(-j);
    } else if i < 0 || j < 0 {
      assert Integer(i)[0] != Integer(j)[0];
    }
  }

  // ----- the server's side -----

  datatype Operation = Receive | ReceiveCoop

  /** What a PostgreSQL error carries as far as the clients look at it. */
  datatype ServerError = ServerError(sqlstate: string, primary: string, hint: string)

  const OVERFLOW_STATE := "54000"

  function FunctionName(o: Operation): string {
    match o
    case Receive => "receive"
    case ReceiveCoop => "receive_coop"
  }

  function OverflowMessage(name: string, ceiling: int): string {
    "pgque." + name + ": batch exceeds max_return of " + Integer(ceiling)
  }

  /** The error that pgque.receive or pgque.receive_coop raises. */
  function ServerOverflow(o: Operation, ceiling: int, hint: string): ServerError {
    ServerError(OVERFLOW_STATE, OverflowMessage(FunctionName(o), ceiling), hint)
  }

  lemma SomeDecimals()
    ensures Decimal(7) == "7" && Decimal(25) == "25" && Decimal(100) == "100"
  {
    assert Decimal(25) == Decimal(2) + "5";
    assert Decimal(10) == Decimal(1) + "0" && Decimal(100) == Decimal(10) + "0";
  }

  /** The error in full, for one call of each operation. */
  lemma ServerOverflowInFull(hint: string)
    ensures ServerOverflow(Receive, 100, hint) ==
      ServerError("54000", "pgque." + "receive" + ": batch exceeds max_return of " + "100", hint)
    ensures ServerOverflow(ReceiveCoop, 25, hint) ==
      ServerError("54000", "pgque." + "receive_coop" + ": batch exceeds max_return of " + "25", hint)
  {
    SomeDecimals();
  }

  // ----- the clients -----

  /** What the typed overflow error of a client says about the call. */
  datatype Overflow = Overflow(operation: string, ceiling: int, hint: string)

  function GoOverflow(op: string, ceiling: int, e: ServerError): Option<Overflow> {
    var name := if op == "receive" then "receive" else if op == "receive coop" then "receive_coop" else "";
    if e.sqlstate == OVERFLOW_STATE && name != "" && e.primary == OverflowMessage(name, ceiling)
    then Some(Overflow(op, ceiling, e.hint)) else None
  }

  function TypeScriptOverflow(op: string, maxMessages: Option<int>, e: ServerError): Option<Overflow> {
    var operation := if op == "receive" || op == "receiveCoop" then Some(op) else None;
    var name := if operation == Some("receive") then "receive" else "receive_coop";
    if e.sqlstate == OVERFLOW_STATE && operation.Some? && maxMessages.Some?
      && e.primary == OverflowMessage(name, maxMessages.value)
    then Some(Overflow(op, maxMessages.value, e.hint)) else None
  }

  /** `text` is the whole error text, used when the error has no primary message. */
  function PythonOverflow(operation: Option<string>, limit: Option<int>, e: ServerError,
                          text: string): Option<Overflow> {
    var primary := if e.primary == "" then text else e.primary;
    if e.sqlstate == OVERFLOW_STATE && operation.Some? && operation.value in ["receive", "receive_coop"] && limit.Some?
      && primary == OverflowMessage(operation.value, limit.value)
    then Some(Overflow(operation.value, limit.value, e.hint)) else None
  }

  /** None stands for an error without a server result. */
  function RubyOverflow(operation: Option<string>, limit: Option<int>, e: Option<ServerError>): Option<Overflow> {
    if e.Some? && e.value.sqlstate == OVERFLOW_STATE
      && operation.Some? && operation.value in ["receive", "receive_coop"]
      && limit.Some? && e.value.primary == OverflowMessage(operation.value, limit.value)
    then Some(Overflow(operation.value, limit.value, e.value.hint)) else None
  }

  /** The names the clients give the two operations. */
  function GoName(o: Operation): string {
    if o.Receive? then "receive" else "receive coop"
  }

  function TypeScriptName(o: Operation): string {
    if o.Receive? then "receive" else "receiveCoop"
  }

  /** The error as the Python client sees it: without a primary message it reads the whole text. */
  function SeenByPython(e: ServerError, text: string): ServerError {
    if e.primary == "" then e.(primary := text) else e
  }

  /** Every client takes an error for the overflow of a call exactly when it is the error the server
      raises for that operation and that ceiling, each as it sees the error. */
  lemma ClientsAgree(o: Operation, n: int, e: ServerError, text: string)
    ensures var mine := e == ServerOverflow(o, n, e.hint);
      && GoOverflow(GoName(o), n, e) == (if mine then Some(Overflow(GoName(o), n, e.hint)) else None)
      && TypeScriptOverflow(TypeScriptName(o), Some(n), e) ==
           (if mine then Some(Overflow(TypeScriptName(o), n, e.hint)) else None)
      && RubyOverflow(Some(FunctionName(o)), Some(n), Some(e)) ==
           (if mine then Some(Overflow(FunctionName(o), n, e.hint)) else None)
    ensures PythonOverflow(Some(FunctionName(o)), Some(n), e, text) ==
      if SeenByPython(e, text) == ServerOverflow(o, n, e.hint) then Some(Overflow(FunctionName(o), n, e.hint)) else None
  {
  }

  lemma Cancel(head: string, a: string, b: string)
    ensures head + a == head + b <==> a == b
  {
    assert (head + a)[|head|..] == a && (head + b)[|head|..] == b;
  }

  lemma TheNamesTell(n: int, m: int)
    ensures OverflowMessage("receive", n) != OverflowMessage("receive_coop", m)
  {
    assert OverflowMessage("receive", n)[13] == ':';
    assert OverflowMessage("receive_coop", m)[13] == '_';
  }

  /** No two calls share an overflow message. */
  lemma MessagesAreDistinct(o: Operation, n: int, p: Operation, m: int)
    ensures OverflowMessage(FunctionName(o), n) == OverflowMessage(FunctionName(p), m) <==> o == p && n == m
  {
    if o == p {
      Cancel("pgque." + FunctionName(o) + ": batch exceeds max_return of ", Integer(n), Integer(m));
      IntegerIsInjective(n, m);
    } else {
      TheNamesTell(n, m);
      TheNamesTell(m, n);
    }
  }

  /** Each client recognises the overflow of its two calls under its own names for them. */
  lemma CallsByName(n: int, hint: string)
    ensures var e := ServerOverflow(Receive, n, hint); var f := ServerOverflow(ReceiveCoop, n, hint);
      && GoOverflow("receive", n, e) == Some(Overflow("receive", n, hint))
      && GoOverflow("receive coop", n, f) == Some(Overflow("receive coop", n, hint))
      && TypeScriptOverflow("receive", Some(n), e) == Some(Overflow("receive", n, hint))
      && TypeScriptOverflow("receiveCoop", Some(n), f) == Some(Overflow("receiveCoop", n, hint))
      && PythonOverflow(Some("receive"), Some(n), e, "") == Some(Overflow("receive", n, hint))
      && PythonOverflow(Some("receive_coop"), Some(n), f, "") == Some(Overflow("receive_coop", n, hint))
      && RubyOverflow(Some("receive"), Some(n), Some(e)) == Some(Overflow("receive", n, hint))
      && RubyOverflow(Some("receive_coop"), Some(n), Some(f)) == Some(Overflow("receive_coop", n, hint))
  {
    assert OverflowMessage("receive", n)[0] == OverflowMessage("receive_coop", n)[0] == 'p';
  }

  datatype Client = Go | TypeScript | Python | Ruby

  /** The client takes the error for the overflow of that call. */
  predicate Claims(client: Client, o: Operation, n: int, e: ServerError, text: string) {
    match client
    case Go => GoOverflow(GoName(o), n, e).Some?
    case TypeScript => TypeScriptOverflow(TypeScriptName(o), Some(n), e).Some?
    case Python => PythonOverflow(Some(FunctionName(o)), Some(n), e, text).Some?
    case Ruby => RubyOverflow(Some(FunctionName(o)), Some(n), Some(e)).Some?
  }

  /** One server message is the overflow of at most one operation and ceiling, whichever clients are
      asked; and the server's own error is always claimed, for every ceiling. */
  lemma OverflowIsUnambiguous(x: Client, o: Operation, n: int, y: Client, p: Operation, m: int, e: ServerError,
                              text: string)
    ensures Claims(x, o, n, e, text) && Claims(y, p, m, e, text) ==> o == p && n == m
    ensures Claims(x, o, n, ServerOverflow(p, m, e.hint), text) <==> o == p && n == m
  {
    ClientsAgree(o, n, e, text);
    ClientsAgree(p, m, e, text);
    ClientsAgree(o, n, ServerOverflow(p, m, e.hint), text);
    MessagesAreDistinct(o, n, p, m);
    assert OverflowMessage(FunctionName(o), n)[0] == OverflowMessage(FunctionName(p), m)[0] == 'p';
  }

  /** The clients differ exactly on an error without a primary message whose whole text is the overflow
      message: only Python claims it. */
  lemma ClientsDiffer(o: Operation, n: int, e: ServerError, text: string)
    ensures (forall x, y :: Claims(x, o, n, e, text) == Claims(y, o, n, e, text)) <==>
      !(e.primary == "" && e.sqlstate == OVERFLOW_STATE && text == OverflowMessage(FunctionName(o), n))
  {
    ClientsAgree(o, n, e, text);
    assert OverflowMessage(FunctionName(o), n)[0] == 'p';
    if e.primary == "" && e.sqlstate == OVERFLOW_STATE && text == OverflowMessage(FunctionName(o), n) {
      assert Claims(Python, o, n, e, text) && !Claims(Go, o, n, e, text);
    }
  }
}
