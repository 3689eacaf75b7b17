/** The Go client's error values: trees searched by errors.Is and errors.As, and the three wrap
    functions that build them. */
module ErrorTrees {
  import opened Options
  import opened OverflowTexts

  datatype Sentinel = ErrConnection | ErrQueueNotFound | ErrConsumerNotFound | ErrBatchNotFound | ErrReceiveOverflow

  /** What errors.Is is asked for. */
  datatype Target = Canceled | DeadlineExceeded | Typed(sentinel: Sentinel)

  /** `Value` is the target itself; `Other` is an error of another package or of fmt.Errorf, with the
      targets its own Is method accepts and what its Unwrap method returns. */
  datatype Err =
    | Value(target: Target)
    | PgError(severity: string, code: string, message: string, hint: string)
    | Other(text: string, accepts: set<Target>, unwraps: seq<Err>)
    | SQLError(op: string, sqlstate: string, err: Err)
    | ReceiveOverflowError(op: string, sqlstate: string, hint: string, ceiling: int, err: Err, sqlErr: Option<Err>)

  /** What errors.As is asked for. */
  datatype Kind = PgErrorKind | SQLErrorKind | ReceiveOverflowKind

  function Unwrap(e: Err): (r: seq<Err>)
    ensures forall i | 0 <= i < |r| :: r[i] < e
  {
    match e
    case Value(_) => []
    case PgError(_, _, _, _) => []
    case Other(_, _, unwraps) => unwraps
    case SQLError(_, _, err) => [err]
    case ReceiveOverflowError(_, _, _, _, err, sqlErr) => if sqlErr.Some? then [sqlErr.value] else [err]
  }

  predicate Matches(e: Err, t: Target) {
    || e == Value(t)
    || (e.Other? && t in e.accepts)
    || (e.ReceiveOverflowError? && t == Typed(ErrReceiveOverflow))
  }

  predicate HasKind(e: Err, k: Kind) {
    match k
    case PgErrorKind => e.PgError?
    case SQLErrorKind => e.SQLError?
    case ReceiveOverflowKind => e.ReceiveOverflowError?
  }

  // ----- errors.Is and errors.As -----

  predicate Is(e: Err, t: Target)
    decreases e, |Unwrap(e)| + 1
  {
    Matches(e, t) || IsAny(e, 0, t)
  }

  predicate IsAny(e: Err, i: nat, t: Target)
    requires i <= |Unwrap(e)|
    decreases e, |Unwrap(e)| - i
  {
    i < |Unwrap(e)| && (Is(Unwrap(e)[i], t) || IsAny(e, i + 1, t))
  }

  function As(e: Err, k: Kind): (r: Option<Err>)
    ensures r.Some? ==> HasKind(r.value, k)
    decreases e, |Unwrap(e)| + 1
  {
    if HasKind(e, k) then Some(e) else AsAny(e, 0, k)
  }

  function AsAny(e: Err, i: nat, k: Kind): (r: Option<Err>)
    requires i <= |Unwrap(e)|
    ensures r.Some? ==> HasKind(r.value, k)
    decreases e, |Unwrap(e)| - i
  {
    if i == |Unwrap(e)| then None
    else
      var found := As(Unwrap(e)[i], k);
      if found.Some? then found else AsAny(e, i + 1, k)
  }

  // ----- the tree as the list of its nodes, parents first -----

  function Nodes(e: Err): (r: seq<Err>)
    decreases e, |Unwrap(e)| + 1
  {
    [e] + Below(e, 0)
  }

  function Below(e: Err, i: nat): seq<Err>
    requires i <= |Unwrap(e)|
    decreases e, |Unwrap(e)| - i
  {
    if i == |Unwrap(e)| then [] else Nodes(Unwrap(e)[i]) + Below(e, i + 1)
  }

  predicate AnyMatch(nodes: seq<Err>, t: Target) {
    exists n <- nodes :: Matches(n, t)
  }

  function First(nodes: seq<Err>, k: Kind): (r: Option<Err>)
    ensures r.None? <==> forall n <- nodes :: !HasKind(n, k)
  {
    if nodes == [] then None else if HasKind(nodes[0], k) then Some(nodes[0]) else First(nodes[1..], k)
  }

  lemma {:induction false} FirstConcat(a: seq<Err>, b: seq<Err>, k: Kind)
    ensures First(a + b, k) == if First(a, k).Some? then First(a, k) else First(b, k)
  {
    if a == [] {
      assert a + b == b;
    } else {
      assert (a + b)[1..] == a[1..] + b;
      FirstConcat(a[1..], b, k);
    }
  }

  /** errors.Is asks whether any node matches. */
  lemma {:induction false} IsSearchesTheTree(e: Err, t: Target)
    ensures Is(e, t) <==> AnyMatch(Nodes(e), t)
    decreases e, |Unwrap(e)| + 1
  {
    IsAnySearches(e, 0, t);
  }

  lemma {:induction false} IsAnySearches(e: Err, i: nat, t: Target)
    requires i <= |Unwrap(e)|
    ensures IsAny(e, i, t) <==> AnyMatch(Below(e, i), t)
    decreases e, |Unwrap(e)| - i
  {
    if i < |Unwrap(e)| {
      IsSearchesTheTree(Unwrap(e)[i], t);
      IsAnySearches(e, i + 1, t);
    }
  }

  /** errors.As finds the first node of the kind. */
  lemma {:induction false} AsFindsTheFirst(e: Err, k: Kind)
    ensures As(e, k) == First(Nodes(e), k)
    decreases e, |Unwrap(e)| + 1
  {
    AsAnyFindsTheFirst(e, 0, k);
    FirstConcat([e], Below(e, 0), k);
  }

  lemma {:induction false} AsAnyFindsTheFirst(e: Err, i: nat, k: Kind)
    requires i <= |Unwrap(e)|
    ensures AsAny(e, i, k) == First(Below(e, i), k)
    decreases e, |Unwrap(e)| - i
  {
    if i < |Unwrap(e)| {
      AsFindsTheFirst(Unwrap(e)[i], k);
      AsAnyFindsTheFirst(e, i + 1, k);
      FirstConcat(Nodes(Unwrap(e)[i]), Below(e, i + 1), k);
    }
  }

  // ----- the wrap functions -----

  function Text(e: Err): string {
    match e
    case Value(Canceled) => "context canceled"
    case Value(DeadlineExceeded) => "context deadline exceeded"
    case Value(Typed(ErrConnection)) => "pgque: connection error"
    case Value(Typed(ErrQueueNotFound)) => "pgque: queue not found"
    case Value(Typed(ErrConsumerNotFound)) => "pgque: consumer not registered"
    case Value(Typed(ErrBatchNotFound)) => "pgque: batch not found"
    case Value(Typed(ErrReceiveOverflow)) => "pgque: receive overflow"
    case PgError(severity, code, message, _) => severity + ": " + message + " (SQLSTATE " + code + ")"
    case Other(text, _, _) => text
    case SQLError(op, sqlstate, err) =>
      "pgque: " + op + ": " + Text(err) + if sqlstate != "" then " [SQLSTATE " + sqlstate + "]" else ""
    case ReceiveOverflowError(op, sqlstate, _, ceiling, _, sqlErr) =>
      if sqlErr.Some? then Text(sqlErr.value)
      else
        "pgque: " + op + ": receive overflow at configured ceiling " + Integer(ceiling) +
        if sqlstate != "" then " [SQLSTATE " + sqlstate + "]" else ""
  }

  /** fmt.Errorf with %w verbs. */
  function Errorf(text: string, wraps: seq<Err>): Err {
    Other(text, {}, wraps)
  }

  /** strings.ToLower, as far as its result is ASCII. */
  function ToLower(s: string): (r: string)
    ensures |r| == |s|
  {
    seq(|s|, i requires 0 <= i < |s| =>
      if 'A' <= s[i] <= 'Z' then s[i] - 'A' + 'a'
      else if s[i] == '\U{0130}' then 'i'
      else if s[i] == '\U{212A}' then 'k'
      else s[i])
  }

  predicate Contains(s: string, part: string) {
    part <= s || (s != "" && Contains(s[1..], part))
  }

  function ClassifyPgMessage(message: string): Option<Sentinel> {
    var low := ToLower(message);
    if Contains(low, "queue not found") || Contains(low, "no such queue") || Contains(low, "no such event queue")
      || Contains(low, "event queue not found") || Contains(low, "event queue not created")
    then Some(ErrQueueNotFound)
    else if Contains(low, "consumer not registered") || Contains(low, "consumer not found")
      || Contains(low, "not subscriber to queue")
    then Some(ErrConsumerNotFound)
    else if Contains(low, "batch not found") || Contains(low, "cannot find data for batch")
    then Some(ErrBatchNotFound)
    else None
  }

  predicate IsCancellation(e: Err) {
    Is(e, Canceled) || Is(e, DeadlineExceeded)
  }

  function WrapSQLError(op: string, err: Option<Err>): Option<Err> {
    match err
    case None => None
    case Some(e) =>
      if IsCancellation(e) then Some(Errorf("pgque: " + op + ": " + Text(e), [e]))
      else
        match As(e, PgErrorKind)
        case Some(PgError(_, code, message, _)) =>
          var sqlErr := SQLError(op, code, e);
          (match ClassifyPgMessage(message)
           case Some(s) => Some(Errorf(Text(Value(Typed(s))) + ": " + Text(sqlErr), [Value(Typed(s)), sqlErr]))
           case None => Some(sqlErr))
        case _ =>
          var connection := Value(Typed(ErrConnection));
          Some(Errorf("pgque: " + op + ": " + Text(connection) + ": " + Text(e), [connection, e]))
  }

  function WrapConnectError(err: Option<Err>): Option<Err> {
    match err
    case None => None
    case Some(e) =>
      var connection := Value(Typed(ErrConnection));
      match As(e, PgErrorKind)
      case Some(PgError(_, code, _, _)) =>
        var sqlErr := SQLError("connect", code, e);
        Some(Errorf("pgque: connect: " + Text(connection) + ": " + Text(sqlErr), [connection, sqlErr]))
      case _ => Some(Errorf("pgque: connect: " + Text(connection) + ": " + Text(e), [connection, e]))
  }

  /** The overflow that the first PgError of the tree reports for this call. */
  function OverflowOf(op: string, ceiling: int, e: Err): Option<Overflow> {
    match As(e, PgErrorKind)
    case Some(PgError(_, code, message, hint)) => GoOverflow(op, ceiling, ServerError(code, message, hint))
    case _ => None
  }

  function WrapReceiveError(op: string, ceiling: int, err: Option<Err>): Option<Err> {
    if err.None? then None
    else
      match OverflowOf(op, ceiling, err.value)
      case Some(Overflow(_, _, hint)) =>
        var sqlErr := SQLError(op, OVERFLOW_STATE, err.value);
        Some(ReceiveOverflowError(op, OVERFLOW_STATE, hint, ceiling, err.value, Some(sqlErr)))
      case None => WrapSQLError(op, err)
  }

  // ----- what a caller finds in a wrapped error -----

  /** The wrapped tree is the original one below a few new nodes. */
  ghost predicate Wraps(w: Err, front: seq<Err>, e: Err) {
    Nodes(w) == front + Nodes(e) && First(front, PgErrorKind).None?
  }

  lemma SearchWrapped(w: Err, front: seq<Err>, e: Err)
    requires Wraps(w, front, e)
    ensures forall t :: Is(w, t) <==> AnyMatch(front, t) || Is(e, t)
    ensures forall k :: As(w, k) == if First(front, k).Some? then First(front, k) else As(e, k)
  {
    forall t ensures Is(w, t) <==> AnyMatch(front, t) || Is(e, t) {
      IsSearchesTheTree(w, t);
      IsSearchesTheTree(e, t);
    }
    forall k ensures As(w, k) == if First(front, k).Some? then First(front, k) else As(e, k) {
      AsFindsTheFirst(w, k);
      AsFindsTheFirst(e, k);
      FirstConcat(front, Nodes(e), k);
    }
  }

  lemma WrapOne(w: Err, e: Err)
    requires Unwrap(w) == [e] && !w.PgError?
    ensures Wraps(w, [w], e) && forall t :: AnyMatch([w], t) <==> Matches(w, t)
  {
    assert Below(w, 1) == [];
    assert Below(w, 0) == Nodes(e);
  }

  lemma WrapTwo(w: Err, s: Sentinel, e: Err)
    requires Unwrap(w) == [Value(Typed(s)), e] && !w.PgError?
    ensures Wraps(w, [w, Value(Typed(s))], e)
    ensures forall t :: AnyMatch([w, Value(Typed(s))], t) <==> Matches(w, t) || t == Typed(s)
  {
    forall t ensures AnyMatch([w, Value(Typed(s))], t) <==> Matches(w, t) || t == Typed(s) {
      var nodes := [w, Value(Typed(s))];
      assert nodes[0] in nodes && nodes[1] in nodes;
    }
    assert Nodes(Value(Typed(s))) == [Value(Typed(s))];
    assert Below(w, 2) == [];
    assert Below(w, 1) == Nodes(e);
  }

  /** The sentinel wrapSQLError adds. */
  function Added(e: Err): Option<Sentinel> {
    if IsCancellation(e) then None
    else
      match As(e, PgErrorKind)
      case Some(PgError(_, _, message, _)) => ClassifyPgMessage(message)
      case _ => Some(ErrConnection)
  }

  // ----- which message gets which sentinel -----

  /** The part stands somewhere in the text. */
  ghost predicate Stands(s: string, part: string) {
    exists i: nat :: StandsAt(s, part, i)
  }

  predicate StandsAt(s: string, part: string, i: nat) {
    i + |part| <= |s| && s[i..i + |part|] == part
  }

  lemma StandsBehind(s: string, part: string, i: nat)
    requires s != ""
    ensures StandsAt(s[1..], part, i) <==> StandsAt(s, part, i + 1)
  {
    if i + 1 + |part| <= |s| {
      assert s[1..][i..i + |part|] == s[i + 1..i + 1 + |part|];
    }
  }

  lemma StandsFirst(s: string, part: string)
    ensures StandsAt(s, part, 0) <==> part <= s
  {
    if |part| <= |s| {
      assert s[0..0 + |part|] == s[..|part|];
    }
  }

  lemma StandsLater(s: string, part: string)
    requires s != "" && !(part <= s)
    ensures Stands(s, part) <==> Stands(s[1..], part)
  {
    StandsFirst(s, part);
    if i: nat :| StandsAt(s, part, i) {
      StandsBehind(s, part, i - 1);
    }
    if i: nat :| StandsAt(s[1..], part, i) {
      StandsBehind(s, part, i);
    }
  }

  lemma {:induction false} ContainsMeans(s: string, part: string)
    ensures Contains(s, part) <==> Stands(s, part)
  {
    StandsFirst(s, part);
    if !(part <= s) && s != "" {
      ContainsMeans(s[1..], part);
      StandsLater(s, part);
    }
  }

  /** One of the texts of a missing queue stands in it. */
  ghost predicate NamesQueue(low: string) {
    || Stands(low, "queue not found") || Stands(low, "no such queue") || Stands(low, "no such event queue")
    || Stands(low, "event queue not found") || Stands(low, "event queue not created")
  }

  /** One of the texts of a missing consumer does. */
  ghost predicate NamesConsumer(low: string) {
    || Stands(low, "consumer not registered") || Stands(low, "consumer not found")
    || Stands(low, "not subscriber to queue")
  }

  /** One of the texts of a missing batch does. */
  ghost predicate NamesBatch(low: string) {
    Stands(low, "batch not found") || Stands(low, "cannot find data for batch")
  }

  /** A message is classified by what stands in it, in any case: a missing queue before a missing consumer
      before a missing batch, and nothing exactly when none of them stands in it. */
  lemma ClassifyMeans(message: string)
    ensures var low := ToLower(message); var r := ClassifyPgMessage(message);
      && (r == Some(ErrQueueNotFound) <==> NamesQueue(low))
      && (r == Some(ErrConsumerNotFound) <==> !NamesQueue(low) && NamesConsumer(low))
      && (r == Some(ErrBatchNotFound) <==> !NamesQueue(low) && !NamesConsumer(low) && NamesBatch(low))
      && (r == None <==> !NamesQueue(low) && !NamesConsumer(low) && !NamesBatch(low))
  {
    var low := ToLower(message);
    ContainsMeans(low, "queue not found");
    ContainsMeans(low, "no such queue");
    ContainsMeans(low, "no such event queue");
    ContainsMeans(low, "event queue not found");
    ContainsMeans(low, "event queue not created");
    ContainsMeans(low, "consumer not registered");
    ContainsMeans(low, "consumer not found");
    ContainsMeans(low, "not subscriber to queue");
    ContainsMeans(low, "batch not found");
    ContainsMeans(low, "cannot find data for batch");
  }

  /** The same letter, in either case. */
  predicate SameLetter(a: char, b: char) {
    a == b || ('A' <= a <= 'Z' && b == a - 'A' + 'a') || ('A' <= b <= 'Z' && a == b - 'A' + 'a')
  }

  /** Case does not matter. */
  lemma ClassifyIgnoresCase(m: string, n: string)
    requires |m| == |n| && forall i | 0 <= i < |m| :: SameLetter(m[i], n[i])
    ensures ClassifyPgMessage(m) == ClassifyPgMessage(n)
  {
    assert ToLower(m) == ToLower(n);
  }

  // ----- the server's own texts -----

  lemma LetterMissing(s: string, part: string, x: char)
    requires x in part && x !in s
    ensures !Stands(s, part)
  {
    var j :| 0 <= j < |part| && part[j] == x;
    forall i: nat | i + |part| <= |s| ensures !StandsAt(s, part, i) {
      assert s[i..i + |part|][j] == s[i + j] && s[i + j] in s;
    }
  }

  lemma NoBridge(s: string, tail: string, part: string, i: nat)
    requires |s| >= 2 && s[|s| - 2] == ':' && s[|s| - 1] == ' '
    requires part != "" && part[0] != ' ' && ':' !in part && i < |s| < i + |part|
    ensures !StandsAt(s + tail, part, i)
  {
    if i + |part| <= |s + tail| {
      var there := (s + tail)[i..i + |part|];
      if i == |s| - 1 {
        assert there[0] == ' ';
      } else {
        assert there[|s| - 2 - i] == ':';
      }
    }
  }

  /** A part without a colon that does not start with a space cannot reach across a colon and a space. */
  lemma AcrossColon(s: string, tail: string, part: string)
    requires |s| >= 2 && s[|s| - 2] == ':' && s[|s| - 1] == ' '
    requires part != "" && part[0] != ' ' && ':' !in part
    ensures Stands(s + tail, part) <==> Stands(s, part) || Stands(tail, part)
  {
    if i: nat :| StandsAt(s, part, i) {
      assert (s + tail)[i..i + |part|] == s[i..i + |part|];
      assert StandsAt(s + tail, part, i);
    }
    if i: nat :| StandsAt(tail, part, i) {
      assert (s + tail)[|s| + i..|s| + i + |part|] == tail[i..i + |part|];
      assert StandsAt(s + tail, part, |s| + i);
    }
    if i: nat :| StandsAt(s + tail, part, i) {
      var found := (s + tail)[i..i + |part|];
      if i + |part| <= |s| {
        assert s[i..i + |part|] == found;
        assert StandsAt(s, part, i);
      } else {
        if i < |s| {
          NoBridge(s, tail, part, i);
        }
        assert tail[i - |s|..i - |s| + |part|] == found;
        assert StandsAt(tail, part, i - |s|);
      }
    }
  }

  lemma AtTheFront(part: string, rest: string)
    ensures Stands(part + rest, part)
  {
    assert (part + rest)[0..|part|] == part;
    assert StandsAt(part + rest, part, 0);
  }

  lemma LowerJoin(a: string, b: string)
    ensures ToLower(a + b) == ToLower(a) + ToLower(b)
  {
  }

  /** What stands in a server text with a name or an id behind its colon. */
  lemma NamedText(s: string, tail: string)
    requires |s| >= 2 && s[|s| - 2] == ':' && s[|s| - 1] == ' '
    ensures NamesQueue(s + tail) <==> NamesQueue(s) || NamesQueue(tail)
    ensures NamesConsumer(s + tail) <==> NamesConsumer(s) || NamesConsumer(tail)
  {
    NamedQueue(s, tail);
    NamedConsumer(s, tail);
  }

  lemma NamedQueue(s: string, tail: string)
    requires |s| >= 2 && s[|s| - 2] == ':' && s[|s| - 1] == ' '
    ensures NamesQueue(s + tail) <==> NamesQueue(s) || NamesQueue(tail)
  {
    AcrossColon(s, tail, "queue not found");
    AcrossColon(s, tail, "no such queue");
    AcrossColon(s, tail, "no such event queue");
    AcrossColon(s, tail, "event queue not found");
    AcrossColon(s, tail, "event queue not created");
  }

  lemma NamedConsumer(s: string, tail: string)
    requires |s| >= 2 && s[|s| - 2] == ':' && s[|s| - 1] == ' '
    ensures NamesConsumer(s + tail) <==> NamesConsumer(s) || NamesConsumer(tail)
  {
    AcrossColon(s, tail, "consumer not registered");
    AcrossColon(s, tail, "consumer not found");
    AcrossColon(s, tail, "not subscriber to queue");
  }

  /** Without the letter q no queue is named, and without s no consumer. */
  lemma LettersTell(s: string)
    ensures 'q' !in s ==> !NamesQueue(s)
    ensures 's' !in s ==> !NamesConsumer(s)
  {
    if 'q' !in s {
      LetterMissing(s, "queue not found", 'q');
      LetterMissing(s, "no such queue", 'q');
      LetterMissing(s, "no such event queue", 'q');
      LetterMissing(s, "event queue not found", 'q');
      LetterMissing(s, "event queue not created", 'q');
    }
    if 's' !in s {
      LetterMissing(s, "consumer not registered", 's');
      LetterMissing(s, "consumer not found", 's');
      LetterMissing(s, "not subscriber to queue", 's');
    }
  }

  /** "queue not found: <name>" is a missing queue, whatever the name. */
  lemma QueueText(name: string)
    ensures ClassifyPgMessage("queue not found: " + name) == Some(ErrQueueNotFound)
  {
    var s := "queue not found: ";
    assert ToLower(s) == s;
    LowerJoin(s, name);
    ClassifyMeans(s + name);
    AtTheFront("queue not found", ": " + ToLower(name));
    assert s + ToLower(name) == "queue not found" + (": " + ToLower(name));
  }

  lemma BatchNamesNeither()
    ensures !NamesQueue("batch not found: ") && !NamesConsumer("batch not found: ")
  {
    var s := "batch not found: ";
    assert 'q' !in s && 's' !in s;
    LettersTell(s);
  }

  /** "batch not found: <text>" is a missing batch, exactly when the text names no queue and no consumer. */
  lemma BatchText(text: string)
    ensures var low := ToLower(text);
      ClassifyPgMessage("batch not found: " + text) ==
        if NamesQueue(low) then Some(ErrQueueNotFound)
        else if NamesConsumer(low) then Some(ErrConsumerNotFound)
        else Some(ErrBatchNotFound)
  {
    var s := "batch not found: ";
    assert ToLower(s) == s;
    LowerJoin(s, text);
    ClassifyMeans(s + text);
    AtTheFront("batch not found", ": " + ToLower(text));
    assert s + ToLower(text) == "batch not found" + (": " + ToLower(text));
    BatchNamesNeither();
    NamedText(s, ToLower(text));
  }

  /** With an id there it always is. */
  lemma BatchIdText(id: int)
    ensures ClassifyPgMessage("batch not found: " + Integer(id)) == Some(ErrBatchNotFound)
  {
    BatchText(Integer(id));
    var low := ToLower(Integer(id));
    assert forall i | 0 <= i < |low| :: low[i] == '-' || '0' <= low[i] <= '9';
    assert 'q' !in low && 's' !in low;
    LettersTell(low);
  }

  /** "Not subscriber to queue: <queue>/<consumer>" is a missing consumer, exactly when these names hold no
      text of a missing queue. */
  lemma SubscriberText(names: string)
    ensures ClassifyPgMessage("Not subscriber to queue: " + names) ==
      if NamesQueue(ToLower(names)) then Some(ErrQueueNotFound) else Some(ErrConsumerNotFound)
  {
    var s := "not subscriber to queue: ";
    assert ToLower("Not subscriber to queue: ") == s;
    LowerJoin("Not subscriber to queue: ", names);
    ClassifyMeans("Not subscriber to queue: " + names);
    SubscriberNamesNoQueue();
    NamedQueue(s, ToLower(names));
    AtTheFront("not subscriber to queue", ": " + ToLower(names));
    assert s + ToLower(names) == "not subscriber to queue" + (": " + ToLower(names));
  }

  lemma SubscriberNamesNoQueue()
    ensures !NamesQueue("not subscriber to queue: ")
  {
    var s := "not subscriber to queue: ";
    assert 'f' !in s && 'h' !in s && 'd' !in s;
    LetterMissing(s, "queue not found", 'f');
    LetterMissing(s, "no such queue", 'h');
    LetterMissing(s, "no such event queue", 'h');
    LetterMissing(s, "event queue not found", 'f');
    LetterMissing(s, "event queue not created", 'd');
  }

  /** The wrapped error matches this sentinel and no other target. */
  ghost predicate MatchesOnly(op: string, e: Err, s: Sentinel) {
    && WrapSQLError(op, Some(e)).Some?
    && forall t :: Is(WrapSQLError(op, Some(e)).value, t) <==> t == Typed(s)
  }

  lemma ServerErrorMatches(op: string, e: Err, s: Sentinel)
    requires e.PgError? && ClassifyPgMessage(e.message) == Some(s)
    ensures MatchesOnly(op, e, s)
  {
    forall t ensures !Is(e, t) {
      assert !IsAny(e, 0, t);
    }
    WrapSQLErrorMeaning(op, e);
  }

  /** The server's own texts, wrapped, match their own sentinel and no other: a missing queue and a missing
      batch always, a missing subscription exactly when its names hold no text of a missing queue. */
  lemma ServerTextsMatch(op: string, severity: string, code: string, hint: string, name: string, id: int)
    ensures MatchesOnly(op, PgError(severity, code, "queue not found: " + name, hint), ErrQueueNotFound)
    ensures MatchesOnly(op, PgError(severity, code, "batch not found: " + Integer(id), hint), ErrBatchNotFound)
    ensures MatchesOnly(op, PgError(severity, code, "Not subscriber to queue: " + name, hint),
                        if NamesQueue(ToLower(name)) then ErrQueueNotFound else ErrConsumerNotFound)
  {
    QueueText(name);
    BatchIdText(id);
    SubscriberText(name);
    ServerErrorMatches(op, PgError(severity, code, "queue not found: " + name, hint), ErrQueueNotFound);
    ServerErrorMatches(op, PgError(severity, code, "batch not found: " + Integer(id), hint), ErrBatchNotFound);
    ServerErrorMatches(op, PgError(severity, code, "Not subscriber to queue: " + name, hint),
                       if NamesQueue(ToLower(name)) then ErrQueueNotFound else ErrConsumerNotFound);
  }

  /** What a wrapped error tree is, said by searching it: its sentinel, and its SQLError if it has one. */
  ghost predicate Adds(w: Err, e: Err, sentinel: Option<Sentinel>, sqlError: Option<Err>) {
    && (forall t :: Is(w, t) <==> Is(e, t) || (sentinel.Some? && t == Typed(sentinel.value)))
    && As(w, PgErrorKind) == As(e, PgErrorKind)
    && As(w, ReceiveOverflowKind) == As(e, ReceiveOverflowKind)
    && As(w, SQLErrorKind) == if sqlError.Some? then sqlError else As(e, SQLErrorKind)
  }

  lemma CancelledAdds(op: string, e: Err)
    requires IsCancellation(e)
    ensures Adds(WrapSQLError(op, Some(e)).value, e, None, None)
  {
    var w := WrapSQLError(op, Some(e)).value;
    WrapOne(w, e);
    SearchWrapped(w, [w], e);
  }

  lemma SQLErrorAdds(op: string, e: Err, code: string)
    ensures Adds(SQLError(op, code, e), e, None, Some(SQLError(op, code, e)))
  {
    var w := SQLError(op, code, e);
    WrapOne(w, e);
    SearchWrapped(w, [w], e);
  }

  lemma SentinelAdds(w: Err, s: Sentinel, e: Err, sqlError: Option<Err>)
    requires Unwrap(w) == [Value(Typed(s)), e] && w.Other? && w.accepts == {}
    requires if sqlError.Some? then As(e, SQLErrorKind) == sqlError else true
    ensures Adds(w, e, Some(s), sqlError)
  {
    WrapTwo(w, s, e);
    SearchWrapped(w, [w, Value(Typed(s))], e);
  }

  lemma DatabaseAdds(op: string, e: Err)
    requires !IsCancellation(e) && As(e, PgErrorKind).Some?
    ensures Adds(WrapSQLError(op, Some(e)).value, e, Added(e), Some(SQLError(op, As(e, PgErrorKind).value.code, e)))
  {
    var code := As(e, PgErrorKind).value.code;
    var sqlErr := SQLError(op, code, e);
    SQLErrorAdds(op, e, code);
    if Added(e).Some? {
      SentinelAdds(WrapSQLError(op, Some(e)).value, Added(e).value, sqlErr, Some(sqlErr));
    }
  }

  lemma OtherAdds(op: string, e: Err)
    requires !IsCancellation(e) && As(e, PgErrorKind).None?
    ensures Adds(WrapSQLError(op, Some(e)).value, e, Some(ErrConnection), None)
  {
    SentinelAdds(WrapSQLError(op, Some(e)).value, ErrConnection, e, None);
  }

  /** wrapSQLError, for every error tree: nothing that could be matched or extracted before is lost;
      a cancelled call gets no sentinel, one without a PgError gets ErrConnection, and one with a PgError
      the one its message is classified as, if any; and an SQLError with the operation and the SQLSTATE is
      found if and only if there is a PgError and no cancellation, or there was one before. */
  lemma WrapSQLErrorMeaning(op: string, e: Err)
    ensures WrapSQLError(op, Some(e)).Some?
    ensures var w := WrapSQLError(op, Some(e)).value; var pg := As(e, PgErrorKind);
      var cancelled := Is(e, Canceled) || Is(e, DeadlineExceeded);
      && (cancelled ==> forall t :: Is(w, t) <==> Is(e, t))
      && (!cancelled && pg.None? ==> forall t :: Is(w, t) <==> Is(e, t) || t == Typed(ErrConnection))
      && (!cancelled && pg.Some? ==> (
            && pg.value.PgError?
            && forall t :: Is(w, t) <==>
                 Is(e, t) || (t.Typed? && ClassifyPgMessage(pg.value.message) == Some(t.sentinel))))
      && As(w, PgErrorKind) == pg
      && As(w, ReceiveOverflowKind) == As(e, ReceiveOverflowKind)
      && As(w, SQLErrorKind) ==
           (if pg.Some? && !cancelled then Some(SQLError(op, pg.value.code, e)) else As(e, SQLErrorKind))
  {
    if IsCancellation(e) {
      CancelledAdds(op, e);
    } else if As(e, PgErrorKind).Some? {
      DatabaseAdds(op, e);
    } else {
      OtherAdds(op, e);
    }
  }

  /** No node is an error of this package. */
  ghost predicate Foreign(e: Err) {
    && (forall s :: !Is(e, Typed(s)))
    && As(e, SQLErrorKind).None? && As(e, ReceiveOverflowKind).None?
  }

  lemma StandsBetween(a: string, b: string, c: string)
    ensures Stands(a + b + c, b)
  {
    assert (a + b + c)[|a|..|a| + |b|] == b;
    assert StandsAt(a + b + c, b, |a|);
  }

  /** A text that names the operation and quotes the original in full. */
  ghost predicate Tells(text: string, op: string, original: string) {
    Stands(text, "pgque: " + op + ": ") && Stands(text, original)
  }

  lemma TellsInOrder(front: string, op: string, between: string, original: string, end: string)
    ensures Tells(front + ("pgque: " + op + ": ") + between + original + end, op, original)
  {
    var head := "pgque: " + op + ": ";
    StandsBetween(front, head, between + original + end);
    StandsBetween(front + head + between, original, end);
    assert front + head + (between + original + end) == front + head + between + original + end;
  }

  lemma {:induction false} SQLErrorText(op: string, code: string, e: Err)
    ensures Text(SQLError(op, code, e)) ==
      "" + ("pgque: " + op + ": ") + "" + Text(e) + if code != "" then " [SQLSTATE " + code + "]" else ""
  {
  }

  /** The text of a wrapped error names the operation and quotes the original in full. */
  lemma {:induction false} WrappedTextTells(op: string, e: Err)
    requires WrapSQLError(op, Some(e)).Some?
    ensures Tells(Text(WrapSQLError(op, Some(e)).value), op, Text(e))
  {
    var text := Text(WrapSQLError(op, Some(e)).value);
    if IsCancellation(e) {
      TellsInOrder("", op, "", Text(e), "");
      assert text == "" + ("pgque: " + op + ": ") + "" + Text(e) + "";
    } else if As(e, PgErrorKind).Some? {
      DatabaseTextTells(op, As(e, PgErrorKind).value.code, e, Added(e));
    } else {
      var between := "pgque: connection error" + ": ";
      TellsInOrder("", op, between, Text(e), "");
      assert text == "" + ("pgque: " + op + ": ") + between + Text(e) + "";
    }
  }

  lemma {:induction false} DatabaseTextTells(op: string, code: string, e: Err, s: Option<Sentinel>)
    ensures Tells(Text(SQLError(op, code, e)), op, Text(e))
    ensures s.Some? ==> Tells(Text(Value(Typed(s.value))) + ": " + Text(SQLError(op, code, e)), op, Text(e))
  {
    var head, end := "pgque: " + op + ": ", if code != "" then " [SQLSTATE " + code + "]" else "";
    SQLErrorText(op, code, e);
    TellsInOrder("", op, "", Text(e), end);
    if s.Some? {
      var front := Text(Value(Typed(s.value))) + ": ";
      TellsInOrder(front, op, "", Text(e), end);
      Regroup(front, head, Text(e), end);
    }
  }

  lemma Regroup(a: string, b: string, c: string, d: string)
    ensures a + ("" + b + "" + c + d) == a + b + "" + c + d
  {
  }

  /** A driver error, once wrapped, matches at most one sentinel, and matches ErrConnection exactly
      when it holds neither a PgError nor a cancellation. */
  lemma AtMostOneSentinel(op: string, e: Err, a: Sentinel, b: Sentinel)
    requires Foreign(e) && WrapSQLError(op, Some(e)).Some?
    ensures var w := WrapSQLError(op, Some(e)).value;
      && (Is(w, Typed(a)) && Is(w, Typed(b)) ==> a == b)
      && !Is(w, Typed(ErrReceiveOverflow))
      && (Is(w, Typed(ErrConnection)) <==> As(e, PgErrorKind).None? && !Is(e, Canceled) && !Is(e, DeadlineExceeded))
      && (As(w, SQLErrorKind).Some? <==> As(e, PgErrorKind).Some? && !Is(e, Canceled) && !Is(e, DeadlineExceeded))
  {
    WrapSQLErrorMeaning(op, e);
  }

  /** wrapConnectError: every failed connect matches ErrConnection, a PgError inside also gives an
      SQLError, and nothing is lost. */
  lemma WrapConnectErrorMeaning(e: Err)
    ensures WrapConnectError(Some(e)).Some?
    ensures var w := WrapConnectError(Some(e)).value; var pg := As(e, PgErrorKind);
      && (forall t :: Is(w, t) <==> Is(e, t) || t == Typed(ErrConnection))
      && As(w, PgErrorKind) == pg
      && As(w, SQLErrorKind) == if pg.Some? then Some(SQLError("connect", pg.value.code, e)) else As(e, SQLErrorKind)
  {
    var w := WrapConnectError(Some(e)).value;
    if As(e, PgErrorKind).Some? {
      var sqlErr := SQLError("connect", As(e, PgErrorKind).value.code, e);
      WrapOne(sqlErr, e);
      SearchWrapped(sqlErr, [sqlErr], e);
      WrapTwo(w, ErrConnection, sqlErr);
      SearchWrapped(w, [w, Value(Typed(ErrConnection))], sqlErr);
    } else {
      WrapTwo(w, ErrConnection, e);
      SearchWrapped(w, [w, Value(Typed(ErrConnection))], e);
    }
  }

  /** wrapReceiveError of an overflow: the overflow error and the SQLError are both found, the
      original is kept, and a cancellation does not hide it. */
  lemma OverflowMeaning(op: string, ceiling: int, e: Err)
    requires OverflowOf(op, ceiling, e).Some?
    ensures WrapReceiveError(op, ceiling, Some(e)).Some?
    ensures var w := WrapReceiveError(op, ceiling, Some(e)).value; var pg := As(e, PgErrorKind);
      && (forall t :: Is(w, t) <==> Is(e, t) || t == Typed(ErrReceiveOverflow))
      && As(w, PgErrorKind) == pg && pg.Some? && pg.value.PgError?
      && As(w, ReceiveOverflowKind) == Some(w) && w.op == op && w.ceiling == ceiling && w.hint == pg.value.hint
      && As(w, SQLErrorKind) == Some(SQLError(op, pg.value.code, e))
  {
    var w := WrapReceiveError(op, ceiling, Some(e)).value;
    var sqlErr := SQLError(op, OVERFLOW_STATE, e);
    WrapOne(sqlErr, e);
    SearchWrapped(sqlErr, [sqlErr], e);
    WrapOne(w, sqlErr);
    SearchWrapped(w, [w], sqlErr);
  }

  /** The Go poll loop ends on a driver error exactly when the server reported the overflow of that
      very receive. */
  lemma LoopEndsOnItsOwnOverflow(o: Operation, ceiling: int, e: Err)
    requires Foreign(e) && WrapReceiveError(GoName(o), ceiling, Some(e)).Some?
    ensures Is(WrapReceiveError(GoName(o), ceiling, Some(e)).value, Typed(ErrReceiveOverflow)) <==>
      match As(e, PgErrorKind)
      case Some(PgError(_, code, message, hint)) => ServerError(code, message, hint) == ServerOverflow(o, ceiling, hint)
      case _ => false
  {
    if OverflowOf(GoName(o), ceiling, e).Some? {
      OverflowMeaning(GoName(o), ceiling, e);
    } else {
      WrapSQLErrorMeaning(GoName(o), e);
    }
  }

  lemma InWrapped(w: Err, front: seq<Err>, e: Err, x: Err)
    requires Wraps(w, front, e) && x in Nodes(e)
    ensures x in Nodes(w)
  {
  }

  /** Whatever wrapSQLError makes of an error, every node of the original is a node of the result. */
  lemma WrapSQLErrorKeeps(op: string, e: Err, x: Err)
    requires x in Nodes(e) && WrapSQLError(op, Some(e)).Some?
    ensures x in Nodes(WrapSQLError(op, Some(e)).value)
  {
    var w := WrapSQLError(op, Some(e)).value;
    if IsCancellation(e) {
      WrapOne(w, e);
      InWrapped(w, [w], e, x);
    } else if As(e, PgErrorKind).Some? {
      var sqlErr := SQLError(op, As(e, PgErrorKind).value.code, e);
      WrapOne(sqlErr, e);
      InWrapped(sqlErr, [sqlErr], e, x);
      if Added(e).Some? {
        WrapTwo(w, Added(e).value, sqlErr);
        InWrapped(w, [w, Value(Typed(Added(e).value))], sqlErr, x);
      }
    } else {
      WrapTwo(w, ErrConnection, e);
      InWrapped(w, [w, Value(Typed(ErrConnection))], e, x);
    }
  }

  /** The same of wrapConnectError. */
  lemma WrapConnectErrorKeeps(e: Err, x: Err)
    requires x in Nodes(e) && WrapConnectError(Some(e)).Some?
    ensures x in Nodes(WrapConnectError(Some(e)).value)
  {
    var w := WrapConnectError(Some(e)).value;
    if As(e, PgErrorKind).Some? {
      var sqlErr := SQLError("connect", As(e, PgErrorKind).value.code, e);
      WrapOne(sqlErr, e);
      InWrapped(sqlErr, [sqlErr], e, x);
      WrapTwo(w, ErrConnection, sqlErr);
      InWrapped(w, [w, Value(Typed(ErrConnection))], sqlErr, x);
    } else {
      WrapTwo(w, ErrConnection, e);
      InWrapped(w, [w, Value(Typed(ErrConnection))], e, x);
    }
  }

  /** The same of wrapReceiveError; in particular the original itself is a node of the result. */
  lemma WrapReceiveErrorKeeps(op: string, ceiling: int, e: Err, x: Err)
    requires x in Nodes(e) && WrapReceiveError(op, ceiling, Some(e)).Some?
    ensures x in Nodes(WrapReceiveError(op, ceiling, Some(e)).value) && e in Nodes(e)
  {
    assert Nodes(e)[0] == e;
    var w := WrapReceiveError(op, ceiling, Some(e)).value;
    if OverflowOf(op, ceiling, e).Some? {
      var sqlErr := SQLError(op, OVERFLOW_STATE, e);
      WrapOne(sqlErr, e);
      InWrapped(sqlErr, [sqlErr], e, x);
      WrapOne(w, sqlErr);
      InWrapped(w, [w], sqlErr, x);
    } else {
      WrapSQLErrorKeeps(op, e, x);
    }
  }
}
