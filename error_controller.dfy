/** controllers/errorController.js: the global error middleware. It defaults
    the code and status, then in development echoes the error, in production
    turns known database errors into 400 operational errors and masks every
    non-operational error as a generic 500. */
module ErrorController {
  import opened Common
  import opened AppErrors

  /** What the middleware writes: a JSON reply, nothing at all, or an
      exception thrown by the middleware itself. */
  datatype Reply = Replied(code: int, status: string, message: string) | NoReply | HandlerThrew(err: Error)

  const GenericMessage: string := "Somthing want very wrong!"

  // ---------------------------------------------------------------------
  // The first quoted substring: `message.match(/(["'])(\\?.)*?\1/)`
  // ---------------------------------------------------------------------

  /** Characters that `.` in a JavaScript regular expression does not match. */
  predicate IsLineTerminator(c: char)
  {
    c == '\n' || c == '\r' || c == '\U{2028}' || c == '\U{2029}'
  }

  predicate IsQuote(c: char)
  {
    c == '"' || c == '\''
  }

  /** No line terminator in `s[p..j]`. */
  predicate NoTerminator(s: string, p: nat, j: nat)
    requires p <= j <= |s|
  {
    forall k :: p <= k < j ==> !IsLineTerminator(s[k])
  }

  /** The backtracking search of `(\\?.)*?q` from position `p`: the lazy
      loop first tries to close with `q`, then takes one more unit, the unit
      preferring an escaping backslash and falling back to a single character.
      Gives the end of the match, just past the closing quote. */
  function CloseFrom(s: string, q: char, p: nat): (r: Option<nat>)
    requires p <= |s|
    ensures r.Some? ==> p < r.value <= |s| && s[r.value - 1] == q && NoTerminator(s, p, r.value - 1)
    decreases |s| - p
  {
    if p < |s| && s[p] == q then Some(p + 1)
    else if p + 1 < |s| && s[p] == '\\' && !IsLineTerminator(s[p + 1]) && CloseFrom(s, q, p + 2).Some? then
      CloseFrom(s, q, p + 2)
    else if p < |s| && !IsLineTerminator(s[p]) then CloseFrom(s, q, p + 1)
    else None
  }

  /** The leftmost match starting at or after `i`, as the span `[a, e)`. */
  function FirstQuotedSpan(s: string, i: nat): (r: Option<(nat, nat)>)
    requires i <= |s|
    ensures r.Some? ==> i <= r.value.0 && r.value.0 + 2 <= r.value.1 <= |s|
    ensures r.Some? ==> IsQuote(s[r.value.0]) && CloseFrom(s, s[r.value.0], r.value.0 + 1) == Some(r.value.1)
    decreases |s| - i
  {
    if i == |s| then None
    else if IsQuote(s[i]) && CloseFrom(s, s[i], i + 1).Some? then Some((i, CloseFrom(s, s[i], i + 1).value))
    else FirstQuotedSpan(s, i + 1)
  }

  /** The matched text: a quote, the text up to the closing quote, the quote. */
  function FirstQuoted(s: string): (r: Option<string>)
    ensures r.Some? ==> |r.value| >= 2 && IsQuote(r.value[0]) && r.value[|r.value| - 1] == r.value[0]
  {
    match FirstQuotedSpan(s, 0)
    case None => None
    case Some((a, e)) => Some(s[a..e])
  }

  /** The search closes whenever the same quote occurs later on the same line. */
  lemma {:induction false} CloseFromComplete(s: string, q: char, p: nat, j: nat)
    requires p <= j < |s| && s[j] == q && NoTerminator(s, p, j)
    ensures CloseFrom(s, q, p).Some?
    decreases j - p
  {
    if s[p] != q {
      assert p < j;
      CloseFromComplete(s, q, p + 1, j);
    }
  }

  /** A quote at `a` closed by the same quote at `j` on the same line. */
  predicate QuotePair(s: string, a: nat, j: nat)
    requires a < j < |s|
  {
    IsQuote(s[a]) && s[j] == s[a] && NoTerminator(s, a + 1, j)
  }

  /** No quote at `a` is closed later on its line. */
  predicate NoPairAt(s: string, a: nat)
    requires a < |s|
  {
    forall j :: a < j < |s| ==> !QuotePair(s, a, j)
  }

  /** No quote at or after `i` is closed later on its line. */
  predicate NoPairFrom(s: string, i: nat)
    requires i <= |s|
  {
    forall a :: i <= a < |s| ==> NoPairAt(s, a)
  }

  /** The search from a quote at `i` closes exactly when that quote has a
      partner on its line. */
  lemma CloseIffPair(s: string, i: nat)
    requires i < |s|
    ensures IsQuote(s[i]) && CloseFrom(s, s[i], i + 1).Some? <==> !NoPairAt(s, i)
  {
    if IsQuote(s[i]) && CloseFrom(s, s[i], i + 1).Some? {
      var e := CloseFrom(s, s[i], i + 1).value;
      assert QuotePair(s, i, e - 1);
    } else if !NoPairAt(s, i) {
      var j :| i < j < |s| && QuotePair(s, i, j);
      CloseFromComplete(s, s[i], i + 1, j);
    }
  }

  /** `match` finds nothing exactly when no quote character is followed, on
      the same line, by the same quote character. */
  lemma {:induction false} FirstQuotedNoneIff(s: string, i: nat)
    requires i <= |s|
    ensures FirstQuotedSpan(s, i).None? <==> NoPairFrom(s, i)
    decreases |s| - i
  {
    if i < |s| {
      FirstQuotedNoneIff(s, i + 1);
      CloseIffPair(s, i);
      assert NoPairFrom(s, i) <==> NoPairAt(s, i) && NoPairFrom(s, i + 1);
    }
  }

  /** A message whose only quoting is one plain double-quoted value yields
      that value, quotes included. */
  lemma FirstQuotedOfPlainValue(before: string, v: string, after: string)
    requires forall k :: 0 <= k < |before| ==> !IsQuote(before[k])
    requires forall k :: 0 <= k < |v| ==> v[k] != '"' && v[k] != '\\' && !IsLineTerminator(v[k])
    ensures FirstQuoted(before + "\"" + v + "\"" + after) == Some("\"" + v + "\"")
  {
    var quoted := "\"" + v + "\"";
    var s := before + quoted + after;
    assert s == before + "\"" + v + "\"" + after;
    var a := |before|;
    var e := a + |quoted|;
    assert s[a..e] == quoted;
    forall k | 0 <= k < a ensures !IsQuote(s[k]) {
      assert s[k] == before[k];
    }
    forall k | a + 1 <= k < e - 1 ensures s[k] != '"' && s[k] != '\\' && !IsLineTerminator(s[k]) {
      assert s[k] == quoted[k - a] == v[k - a - 1];
    }
    assert s[a] == quoted[0];
    assert s[e - 1] == quoted[|quoted| - 1];
    PlainQuotedSpan(s, a, e);
  }

  /** The same, stated on positions: nothing before `a` is a quote, and a
      double quote at `a` is closed at `e - 1` by plain characters. */
  lemma PlainQuotedSpan(s: string, a: nat, e: nat)
    requires a + 2 <= e <= |s| && s[a] == '"' && s[e - 1] == '"'
    requires forall k :: 0 <= k < a ==> !IsQuote(s[k])
    requires forall k :: a + 1 <= k < e - 1 ==> s[k] != '"' && s[k] != '\\' && !IsLineTerminator(s[k])
    ensures FirstQuoted(s) == Some(s[a..e])
  {
    SkipPlain(s, 0, a);
    ClosePlain(s, a + 1, e - 1);
    assert FirstQuotedSpan(s, a) == Some((a, e));
  }

  lemma {:induction false} SkipPlain(s: string, i: nat, a: nat)
    requires i <= a < |s|
    requires forall k :: i <= k < a ==> !IsQuote(s[k])
    ensures FirstQuotedSpan(s, i) == FirstQuotedSpan(s, a)
    decreases a - i
  {
    if i < a {
      SkipStep(s, i);
      SkipPlain(s, i + 1, a);
    }
  }

  /** A character that is not a quote cannot start the match. */
  lemma SkipStep(s: string, i: nat)
    requires i < |s| && !IsQuote(s[i])
    ensures FirstQuotedSpan(s, i) == FirstQuotedSpan(s, i + 1)
  {
  }

  lemma {:induction false} ClosePlain(s: string, p: nat, j: nat)
    requires p <= j < |s| && s[j] == '"'
    requires forall k :: p <= k < j ==> s[k] != '"' && s[k] != '\\' && !IsLineTerminator(s[k])
    ensures CloseFrom(s, '"', p) == Some(j + 1)
    decreases j - p
  {
    if p < j {
      assert s[p] != '"' && s[p] != '\\' && !IsLineTerminator(s[p]);
      assert CloseFrom(s, '"', p) == CloseFrom(s, '"', p + 1);
      ClosePlain(s, p + 1, j);
    }
  }

  // ---------------------------------------------------------------------
  // The helpers
  // ---------------------------------------------------------------------

  /** handleCastErrorDB. */
  function HandleCastErrorDB(err: Error): (e: Error)
    ensures e.statusCode == Some(400) && e.isOperational
    ensures e.message == "Invalid input " + err.path + " " + err.value
  {
    NewAppError("Invalid input " + err.path + " " + err.value, Some(400))
  }

  /** handleDuplicateFieldsDB; `None` when the message holds no quoted value,
      where `null[0]` throws. */
  function HandleDuplicateFieldsDB(err: Error): (r: Option<Error>)
    ensures r.None? <==> FirstQuoted(err.message).None?
    ensures r.Some? ==> r.value.statusCode == Some(400) && r.value.isOperational
    ensures r.Some? ==> r.value.message == "Duplicate field value " + FirstQuoted(err.message).value + " please use another value!"
  {
    match FirstQuoted(err.message)
    case None => None
    case Some(v) => Some(NewAppError("Duplicate field value " + v + " please use another value!", Some(400)))
  }

  /** handleValidationErrorDB. */
  function HandleValidationErrorDB(err: Error): (e: Error)
    ensures e.statusCode == Some(400) && e.isOperational
    ensures e.message == "Invalid Input data. " + Join(err.fieldMessages, ". ")
  {
    NewAppError("Invalid Input data. " + Join(err.fieldMessages, ". "), Some(400))
  }

  /** sendErrorDev: the error as it is. */
  function SendErrorDev(err: Error): (r: Reply)
    requires err.statusCode.Some? && err.status.Some?
    ensures r.Replied? && r.code == err.statusCode.value && r.status == err.status.value && r.message == err.message
  {
    Replied(err.statusCode.value, err.status.value, err.message)
  }

  /** sendErrorProd: operational errors as they are, all others masked. */
  function SendErrorProd(err: Error): (r: Reply)
    requires err.isOperational ==> err.statusCode.Some? && err.status.Some?
    ensures r.Replied?
    ensures err.isOperational ==> r == Replied(err.statusCode.value, err.status.value, err.message)
    ensures !err.isOperational ==> r == Replied(500, "error", GenericMessage)
  {
    if err.isOperational then Replied(err.statusCode.value, err.status.value, err.message)
    else Replied(500, "error", GenericMessage)
  }

  /** `err.statusCode || 500`. */
  function CodeOrDefault(err: Error): int
  {
    if err.statusCode.None? || err.statusCode == Some(0) then 500 else err.statusCode.value
  }

  /** `err.status || 'error'`. */
  function StatusOrDefault(err: Error): string
  {
    if err.status.None? || err.status == Some("") then "error" else err.status.value
  }

  /** The exception `handleJWTError` throws: `next` is not in its scope. */
  const NextUndefined: Error :=
    Error("ReferenceError", "next is not defined", None, None, false, None, "", "", [])

  /** The exception `null[0]` throws in handleDuplicateFieldsDB. */
  const NoMatchIndexed: Error :=
    Error("TypeError", "Cannot read properties of null (reading '0')", None, None, false, None, "", "", [])

  /** The exported middleware. It updates `err` in place, then dispatches on
      NODE_ENV; in production it works on a copy that the helpers replace. */
  method GlobalErrorHandler(err: Error, nodeEnv: string) returns (reply: Reply)
    ensures nodeEnv == "development" ==>
      reply == Replied(CodeOrDefault(err), StatusOrDefault(err), err.message)
    ensures nodeEnv != "development" && nodeEnv != "production" ==> reply == NoReply
    ensures nodeEnv == "production" && err.name == "CastError" ==>
      reply == Replied(400, "fail", "Invalid input " + err.path + " " + err.value)
    ensures nodeEnv == "production" && err.name != "CastError" && err.code == Some(11000) ==>
      reply == match FirstQuoted(err.message)
               case Some(v) => Replied(400, "fail", "Duplicate field value " + v + " please use another value!")
               case None => HandlerThrew(NoMatchIndexed)
    ensures nodeEnv == "production" && err.name != "CastError" && err.code != Some(11000) && err.name == "ValidationError" ==>
      reply == Replied(400, "fail", "Invalid Input data. " + Join(err.fieldMessages, ". "))
    ensures nodeEnv == "production" && err.name in {"JsonWebTokenError", "TokenExpiredError"} && err.code != Some(11000) ==>
      reply == HandlerThrew(NextUndefined)
    ensures nodeEnv == "production" && !IsDatabaseOrTokenError(err) ==>
      reply == if err.isOperational then Replied(CodeOrDefault(err), StatusOrDefault(err), err.message)
               else Replied(500, "error", GenericMessage)
  {
    StatusOfHttpCode(400);
    var e := err;
    e := e.(statusCode := Some(CodeOrDefault(e)));
    e := e.(status := Some(StatusOrDefault(e)));
    if nodeEnv == "development" {
      reply := SendErrorDev(e);
    } else if nodeEnv == "production" {
      var error := e;
      if e.name == "CastError" {
        error := HandleCastErrorDB(error);
      } else if e.code == Some(11000) {
        var dup := HandleDuplicateFieldsDB(error);
        if dup.None? {
          reply := HandlerThrew(NoMatchIndexed);
          return;
        }
        error := dup.value;
      } else if e.name == "ValidationError" {
        error := HandleValidationErrorDB(error);
      } else if e.name == "JsonWebTokenError" || e.name == "TokenExpiredError" {
        reply := HandlerThrew(NextUndefined);
        return;
      }
      reply := SendErrorProd(error);
    } else {
      reply := NoReply;
    }
  }

  /** The errors the production branch converts (or fails on). */
  predicate IsDatabaseOrTokenError(err: Error)
  {
    err.name in {"CastError", "ValidationError", "JsonWebTokenError", "TokenExpiredError"} || err.code == Some(11000)
  }

  /** In production no non-operational error reaches the client in detail:
      every reply is either operational or the fixed generic 500. */
  lemma ProductionMasksProgrammerErrors(err: Error)
    requires !err.isOperational && !IsDatabaseOrTokenError(err)
    ensures SendErrorProd(err.(statusCode := Some(CodeOrDefault(err)), status := Some(StatusOrDefault(err))))
            == Replied(500, "error", GenericMessage)
  {
  }

  /** An AppError raised without a code (as `updateMe` does) is answered as a
      500 "error" carrying its own message, in production and development. */
  lemma UncodedAppErrorIs500(message: string)
    ensures var e := NewAppError(message, None);
      CodeOrDefault(e) == 500 && StatusOrDefault(e) == "error" && e.isOperational && !IsDatabaseOrTokenError(e)
  {
    AppErrorStatus(message, None);
  }
}
