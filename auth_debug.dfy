/**
 * The debug helpers of src/lib/auth/debug.ts: a log line written only when
 * AUTH_DEBUG is the string 'true', and the error body of the auth routes, which
 * carries the error's name, message and the head of its stack only in that mode.
 */
module AuthDebug {
  import opened Common

  /** `isEnabled()`: the AUTH_DEBUG variable is exactly 'true'. */
  predicate DebugEnabled(flag: Option<string>) {
    flag == Some("true")
  }

  /** One `console.info` call: the tagged event line and the details object, if one was passed. */
  datatype LogEntry = LogEntry(line: string, details: Option<map<string, string>>)

  /** `authLog(event, details)`: what is written to the console, if anything. */
  function AuthLog(flag: Option<string>, event: string, details: Option<map<string, string>>): (r: Option<LogEntry>)
    ensures r.Some? <==> DebugEnabled(flag)
    ensures r.Some? ==> StartsWith(r.value.line, "[AUTH_DEBUG] ") && r.value.line[13..] == event && r.value.details == details
  {
    if !DebugEnabled(flag) then None
    else Some(LogEntry("[AUTH_DEBUG] " + event, details))
  }

  /** The thrown value as far as the helper looks at it; `None` stands for a value with none of the three. */
  datatype ErrorInfo = ErrorInfo(name: Option<string>, message: Option<string>, stack: Option<string>)

  datatype DebugInfo = DebugInfo(name: string, message: string, stack: string)

  datatype ErrorPayload = ErrorPayload(error: string, debug: Option<DebugInfo>)

  /** `v || d` for an optional string. */
  function OrElse(v: Option<string>, d: string): string {
    if v.Some? && v.value != [] then v.value else d
  }

  /** `stack.split('\n').slice(0, n).join('\n')` */
  function FirstLines(stack: string, n: nat): string {
    var lines := Split(stack, '\n');
    Join(lines[..if |lines| < n then |lines| else n], "\n")
  }

  /** `authErrorPayload(error, fallback)` */
  function AuthErrorPayload(flag: Option<string>, err: Option<ErrorInfo>, fallback: string): (p: ErrorPayload)
    ensures p.debug.Some? <==> DebugEnabled(flag)
  {
    var message := if err.Some? then OrElse(err.value.message, fallback) else fallback;
    if !DebugEnabled(flag) then ErrorPayload(message, None)
    else
      var name := if err.Some? then OrElse(err.value.name, "UnknownError") else "UnknownError";
      var stack := if err.Some? && err.value.stack.Some? then FirstLines(err.value.stack.value, 5) else "";
      ErrorPayload(message, Some(DebugInfo(name, message, stack)))
  }

  /**
   * The error text is the message, or the fallback when there is none, in both modes;
   * in debug mode the name is the error's own, or 'UnknownError' when it has none, and
   * the stack is the first five lines of the original (the text it starts with, split
   * into its lines), or empty when there is no stack.
   */
  lemma PayloadFields(flag: Option<string>, err: Option<ErrorInfo>, fallback: string)
    ensures var p := AuthErrorPayload(flag, err, fallback);
      && (err.Some? && err.value.message.Some? && err.value.message.value != [] ==> p.error == err.value.message.value)
      && ((err.None? || err.value.message.None? || err.value.message.value == []) ==> p.error == fallback)
      && (p.debug.Some? ==> p.debug.value.message == p.error && p.debug.value.name != [])
      && (p.debug.Some? ==> p.debug.value.name == (if err.Some? && err.value.name.Some? && err.value.name.value != []
                                                   then err.value.name.value else "UnknownError"))
      && (p.debug.Some? ==> |Split(p.debug.value.stack, '\n')| <= 5)
      && (p.debug.Some? && err.Some? && err.value.stack.Some? ==> StartsWith(err.value.stack.value, p.debug.value.stack))
      && (p.debug.Some? && err.Some? && err.value.stack.Some? ==>
            var lines := Split(err.value.stack.value, '\n');
            Split(p.debug.value.stack, '\n') == lines[..if |lines| < 5 then |lines| else 5])
      && (p.debug.Some? && (err.None? || err.value.stack.None?) ==> p.debug.value.stack == [])
  {
    if DebugEnabled(flag) && err.Some? && err.value.stack.Some? {
      FirstLinesShape(err.value.stack.value, 5);
    }
    if DebugEnabled(flag) && !(err.Some? && err.value.stack.Some?) {
      assert Split("", '\n') == [""] by {
        assert IndexOf("", '\n').None?;
      }
    }
  }

  /**
   * The first `n` lines are a prefix of the text whose lines are exactly the text's first
   * `n` lines (all of them when there are fewer), and all of the text when it is that short.
   */
  lemma FirstLinesShape(s: string, n: nat)
    requires n >= 1
    ensures StartsWith(s, FirstLines(s, n))
    ensures |Split(FirstLines(s, n), '\n')| <= n
    ensures var lines := Split(s, '\n'); Split(FirstLines(s, n), '\n') == lines[..if |lines| < n then |lines| else n]
    ensures |Split(s, '\n')| <= n ==> FirstLines(s, n) == s
  {
    var lines := Split(s, '\n');
    var k := if |lines| < n then |lines| else n;
    JoinSplit(s, '\n');
    JoinPrefix(lines, k, "\n");
    SplitJoin(lines[..k], '\n');
    if |lines| <= n {
      assert lines[..k] == lines;
    }
  }

  /** Joining the first `k` pieces gives a prefix of joining them all. */
  lemma {:induction false} JoinPrefix(parts: seq<string>, k: nat, sep: string)
    requires 1 <= k <= |parts|
    ensures StartsWith(Join(parts, sep), Join(parts[..k], sep))
  {
    if k == 1 {
      assert Join(parts[..1], sep) == parts[0];
    } else {
      JoinPrefix(parts[1..], k - 1, sep);
      assert parts[..k][1..] == parts[1..][..k - 1];
      assert Join(parts[..k], sep) == parts[0] + sep + Join(parts[1..][..k - 1], sep);
    }
  }
}
