/** The service's error vocabulary: the JSON-RPC result codes and their
    human-readable names, the `IconServiceBaseException` family (which derives
    from Python's `BaseException`, not from `Exception`), the ordinary Python
    exceptions the engine meets, and the `check_exception` decorator. */
module Exceptions {
  import opened Common
  import opened Text

  // ---------------------------------------------------------------- codes

  datatype ExceptionCode =
    | OK
    | INVALID_REQUEST
    | METHOD_NOT_FOUND
    | INVALID_PARAMS
    | INTERNAL_ERROR
    | PARSE_ERROR
    | LOCKED_ACCOUNT
    | NOT_ENOUGH_BALANCE
    | INVALID_FEE

  /** The integer value of each code (the enum is an `IntEnum`). */
  function CodeValue(c: ExceptionCode): int
  {
    match c
    case OK => 0
    case INVALID_REQUEST => -32600
    case METHOD_NOT_FOUND => -32601
    case INVALID_PARAMS => -32602
    case INTERNAL_ERROR => -32603
    case PARSE_ERROR => -32700
    case LOCKED_ACCOUNT => -40000
    case NOT_ENOUGH_BALANCE => -40001
    case INVALID_FEE => -40002
  }

  /** The member name of each code. */
  function CodeName(c: ExceptionCode): (name: string)
    ensures |name| > 0
  {
    match c
    case OK => "OK"
    case INVALID_REQUEST => "INVALID_REQUEST"
    case METHOD_NOT_FOUND => "METHOD_NOT_FOUND"
    case INVALID_PARAMS => "INVALID_PARAMS"
    case INTERNAL_ERROR => "INTERNAL_ERROR"
    case PARSE_ERROR => "PARSE_ERROR"
    case LOCKED_ACCOUNT => "LOCKED_ACCOUNT"
    case NOT_ENOUGH_BALANCE => "NOT_ENOUGH_BALANCE"
    case INVALID_FEE => "INVALID_FEE"
  }

  /** `@unique`: no two codes share a value, so a value identifies its code. */
  lemma CodeValuesDistinct(a: ExceptionCode, b: ExceptionCode)
    ensures CodeValue(a) == CodeValue(b) ==> a == b
  {
  }

  /** Python's `str.capitalize()` on ASCII text: first character upper case,
      every other character lower case. */
  function Capitalize(s: string): string
  {
    seq(|s|, i requires 0 <= i < |s| => if i == 0 then ToUpper(s[0]) else ToLower(s[i]))
  }

  /** Python's `str.replace(old, new)` for single characters. */
  function ReplaceChar(s: string, from: char, to: char): string
  {
    seq(|s|, i requires 0 <= i < |s| => if s[i] == from then to else s[i])
  }

  /** `ExceptionCode.__str__`: "Invalid Request" for INVALID_REQUEST, and for
      every other code its name capitalised with underscores turned into
      spaces. */
  function CodeToString(c: ExceptionCode): (text: string)
    ensures |text| == |CodeName(c)| > 0
    ensures c == INVALID_REQUEST ==> text == "Invalid Request"
    ensures c != INVALID_REQUEST ==> text[0] == ToUpper(CodeName(c)[0])
    ensures c != INVALID_REQUEST ==>
      forall i :: 1 <= i < |text| ==>
        text[i] == (if CodeName(c)[i] == '_' then ' ' else ToLower(CodeName(c)[i]))
  {
    if c == INVALID_REQUEST then "Invalid Request"
    else ReplaceChar(Capitalize(CodeName(c)), '_', ' ')
  }

  /** The rendering every code is expected to have, written out by hand. */
  function ReadableCode(c: ExceptionCode): string
  {
    match c
    case OK => "Ok"
    case INVALID_REQUEST => "Invalid Request"
    case METHOD_NOT_FOUND => "Method not found"
    case INVALID_PARAMS => "Invalid params"
    case INTERNAL_ERROR => "Internal error"
    case PARSE_ERROR => "Parse error"
    case LOCKED_ACCOUNT => "Locked account"
    case NOT_ENOUGH_BALANCE => "Not enough balance"
    case INVALID_FEE => "Invalid fee"
  }

  /** The rule in `__str__` produces exactly the hand-written table, e.g.
      NOT_ENOUGH_BALANCE renders as "Not enough balance". */
  lemma CodeToStringMatchesTable(c: ExceptionCode)
    ensures CodeToString(c) == ReadableCode(c)
  {
    match c
    case INVALID_REQUEST =>
    case OK => RuleGives(CodeName(c), ReadableCode(c));
    case METHOD_NOT_FOUND => RuleGives(CodeName(c), ReadableCode(c));
    case INVALID_PARAMS => RuleGives(CodeName(c), ReadableCode(c));
    case INTERNAL_ERROR => RuleGives(CodeName(c), ReadableCode(c));
    case PARSE_ERROR => RuleGives(CodeName(c), ReadableCode(c));
    case LOCKED_ACCOUNT => RuleGives(CodeName(c), ReadableCode(c));
    case NOT_ENOUGH_BALANCE => RuleGives(CodeName(c), ReadableCode(c));
    case INVALID_FEE => RuleGives(CodeName(c), ReadableCode(c));
  }

  lemma RuleGives(name: string, expected: string)
    requires |name| == |expected| > 0
    requires expected[0] == ToUpper(name[0]) != '_'
    requires forall i :: 1 <= i < |name| ==> expected[i] == (if name[i] == '_' then ' ' else ToLower(name[i]))
    ensures ReplaceChar(Capitalize(name), '_', ' ') == expected
  {
    var text := ReplaceChar(Capitalize(name), '_', ' ');
    forall i | 0 <= i < |name| ensures text[i] == expected[i] {
    }
  }

  /** Distinct codes render as distinct texts. */
  lemma CodeToStringInjective(a: ExceptionCode, b: ExceptionCode)
    ensures CodeToString(a) == CodeToString(b) ==> a == b
  {
    CodeToStringMatchesTable(a);
    CodeToStringMatchesTable(b);
  }

  /** Without its special case, INVALID_REQUEST would render differently
      ("Invalid request"): the special case is what makes the capital R. */
  lemma InvalidRequestSpecialCase()
    ensures ReplaceChar(Capitalize(CodeName(INVALID_REQUEST)), '_', ' ') == "Invalid request"
    ensures CodeToString(INVALID_REQUEST) != "Invalid request"
  {
    var generic := ReplaceChar(Capitalize(CodeName(INVALID_REQUEST)), '_', ' ');
    assert generic[8] == 'r';
  }

  // ---------------------------------------------------------------- exceptions

  /** Subclasses of `IconServiceBaseException` that carry only a message. */
  datatype MessageKind =
    | BaseKind            // IconServiceBaseException itself
    | DatabaseKind        // DatabaseException
    | ScoreKind           // IconScoreException
    | ScoreInstallKind    // ScoreInstallException
    | ScoreInstallExtractKind  // ScoreInstallExtractException
    | ContainerDbKind     // ContainerDBException

  /** Subclasses of `APIIconScoreBaseException`. */
  datatype ApiKind = ApiBaseKind | ExternalKind | PayableKind

  /** An `IconServiceBaseException`, one variant per distinct constructor. */
  datatype ServiceException =
    | Plain(kind: MessageKind, msg: string)
    | Icon(code: ExceptionCode, msg: string)
    | ApiScore(apiKind: ApiKind, msg: string, funcName: string, clsName: string)
    | OutOfStep(stepLimit: int, stepUsed: int, requestedStep: int)

  /** Ordinary Python exceptions (subclasses of `Exception`). */
  datatype PyError = KeyError | TypeError | AttributeError | IndexError | OverflowError | ValueError | OtherError

  /** Anything a call can raise: a service exception, which `except Exception`
      does NOT catch, or an ordinary exception, which it does. */
  datatype Raised = Service(service: ServiceException) | Ordinary(error: PyError)

  /** How a Python call ends: it returns a value or it raises. */
  datatype Outcome<+T> = Returned(value: T) | Threw(raised: Raised)

  /** The text of `OutOfStepException.message`: the requested steps and the
      steps that remain, `step_limit - step_used`. */
  function OutOfStepMessage(stepLimit: int, stepUsed: int, requestedStep: int): string
  {
    REQUESTED_LABEL + (IntToDecimal(requestedStep)
      + (REMAINING_LABEL + (IntToDecimal(stepLimit - stepUsed) + " ")))
  }

  const REQUESTED_LABEL: string := "'Requested steps': "
  const REMAINING_LABEL: string := ", 'Remaining steps': "

  /** The `message` property of each exception. */
  function Message(e: ServiceException): string
  {
    match e
    case Plain(_, m) => m
    case Icon(_, m) => m
    case ApiScore(_, m, _, _) => m
    case OutOfStep(l, u, q) => OutOfStepMessage(l, u, q)
  }

  /** `str(e)`: the message, except that an IconException appends its code's
      text in parentheses and an API exception names function and class. */
  function Render(e: ServiceException): (text: string)
    ensures !e.Icon? && !e.ApiScore? ==> text == Message(e)
    ensures e.Icon? ==> text == Message(e) + " (" + CodeToString(e.code) + ")"
    ensures e.ApiScore? ==> text == "msg: " + e.msg + " func: " + e.funcName + " cls: " + e.clsName
  {
    match e
    case Icon(c, m) => m + " (" + CodeToString(c) + ")"
    case ApiScore(_, m, f, k) => "msg: " + m + " func: " + f + " cls: " + k
    case _ => Message(e)
  }

  /** Two IconExceptions with the same message render alike exactly when
      their codes are the same: the code's text in parentheses tells them
      apart. */
  lemma IconRenderDeterminesCode(c: ExceptionCode, c': ExceptionCode, m: string)
    ensures Render(Icon(c, m)) == Render(Icon(c', m)) <==> c == c'
  {
    if Render(Icon(c, m)) == Render(Icon(c', m)) {
      var head := m + " (";
      assert (head + CodeToString(c)) + ")" == (head + CodeToString(c')) + ")";
      StripSuffix(head + CodeToString(c), head + CodeToString(c'), ")");
      StripPrefix(head, CodeToString(c), CodeToString(c'));
      CodeToStringInjective(c, c');
    }
  }

  /** `IconException(code, message)`: a missing or empty message is replaced
      by the code's text, so the message is never empty; the code is kept. */
  function NewIconException(code: ExceptionCode, message: Option<string>): (e: ServiceException)
    ensures e.Icon? && e.code == code
    ensures Message(e) != ""
    ensures message == None || message == Some("") ==> Message(e) == CodeToString(code)
    ensures message.Some? && message.value != "" ==> Message(e) == message.value
  {
    if message == None || message.value == "" then Icon(code, CodeToString(code))
    else Icon(code, message.value)
  }

  lemma {:induction false} PrefixBeforeSeparator(x: string, y: string, x': string, y': string, sep: char)
    requires x + y == x' + y'
    requires forall i :: 0 <= i < |x| ==> x[i] != sep
    requires forall i :: 0 <= i < |x'| ==> x'[i] != sep
    requires |y| > 0 && |y'| > 0 && y[0] == sep && y'[0] == sep
    ensures x == x' && y == y'
  {
    if |x| < |x'| {
      CharAtJoin(x, y, x', y', |x|);
      assert false;
    } else if |x'| < |x| {
      CharAtJoin(x', y', x, y, |x'|);
      assert false;
    } else {
      assert x == (x + y)[..|x|] && x' == (x' + y')[..|x'|];
      assert y == (x + y)[|x|..] && y' == (x' + y')[|x'|..];
    }
  }

  /** Where the first part of one split ends inside the first part of the
      other, the character there is the start of the second part. */
  lemma CharAtJoin(x: string, y: string, x': string, y': string, k: nat)
    requires x + y == x' + y'
    requires k == |x| < |x'| && |y| > 0
    ensures x'[k] == y[0]
  {
    assert (x + y)[k] == y[0];
    assert (x' + y')[k] == x'[k];
  }

  lemma StripPrefix(p: string, x: string, y: string)
    requires p + x == p + y
    ensures x == y
  {
    assert x == (p + x)[|p|..];
    assert y == (p + y)[|p|..];
  }

  lemma StripSuffix(x: string, y: string, t: string)
    requires x + t == y + t
    ensures x == y
  {
    assert x == (x + t)[..|x|];
    assert y == (y + t)[..|y|];
  }

  /** The out-of-step message determines the requested steps and the
      remaining steps it reports: two messages are equal only when both
      numbers are. */
  lemma OutOfStepMessageDetermines(l: int, u: int, q: int, l': int, u': int, q': int)
    ensures OutOfStepMessage(l, u, q) == OutOfStepMessage(l', u', q') <==> q == q' && l - u == l' - u'
  {
    if OutOfStepMessage(l, u, q) == OutOfStepMessage(l', u', q') {
      var a, b := IntToDecimal(q), IntToDecimal(l - u);
      var a', b' := IntToDecimal(q'), IntToDecimal(l' - u');
      StripPrefix(REQUESTED_LABEL, a + (REMAINING_LABEL + (b + " ")), a' + (REMAINING_LABEL + (b' + " ")));
      PrefixBeforeSeparator(a, REMAINING_LABEL + (b + " "), a', REMAINING_LABEL + (b' + " "), ',');
      StripPrefix(REMAINING_LABEL, b + " ", b' + " ");
      StripSuffix(b, b', " ");
      IntToDecimalInjective(q, q');
      IntToDecimalInjective(l - u, l' - u');
    }
  }

  // ---------------------------------------------------------------- check_exception

  /** `check_exception(func)`: the wrapped call's value is passed through, a
      service exception is logged and swallowed (the call yields None), and
      any other exception is re-raised. */
  function CheckException<T>(call: Outcome<T>): (r: Outcome<Option<T>>)
    ensures call.Returned? ==> r == Returned(Some(call.value))
    ensures call.Threw? && call.raised.Service? ==> r == Returned(None)
    ensures call.Threw? && call.raised.Ordinary? ==> r == Threw(call.raised)
  {
    match call
    case Returned(v) => Returned(Some(v))
    case Threw(Service(_)) => Returned(None)
    case Threw(Ordinary(e)) => Threw(Ordinary(e))
  }

  /** The wrapped call escapes `check_exception` exactly when it raises an
      ordinary exception, and then with that same exception. */
  lemma CheckExceptionEscapes<T>(call: Outcome<T>)
    ensures CheckException(call).Threw? <==> call.Threw? && call.raised.Ordinary?
    ensures CheckException(call).Threw? ==> CheckException(call).raised == call.raised
  {
  }
}
