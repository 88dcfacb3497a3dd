/**
 The error values of the library: the OS error captured after a native
 call, and the `Error` record a chain latches, which pairs that OS error
 with a context message (the procedure name).
 */
module Errors {
  import opened Wrappers

  /** A `syscall.Errno` together with the text its `Error()` method yields. */
  datatype OsError = OsError(code: nat, text: string)

  /**
   The `Error` struct. `original` is a Go `error`, which may be nil; the
   text of the error can only be rendered when it is not.
   */
  datatype Error = Error(original: Option<OsError>, msg: string)

  const SEPARATOR: string := ": "

  /** `Error.Error()`: the message, a colon and a space, then the OS error text. */
  function ErrorText(e: Error): string
    requires e.original.Some?
  {
    e.msg + SEPARATOR + e.original.value.text
  }

  /** The position of the first colon in `s`, or `|s|` when there is none. */
  function IndexOfColon(s: string): (k: nat)
    ensures k <= |s|
    ensures k < |s| ==> s[k] == ':'
    ensures forall j :: 0 <= j < k ==> s[j] != ':'
  {
    if |s| == 0 then 0
    else if s[0] == ':' then 0
    else 1 + IndexOfColon(s[1..])
  }

  /**
   Reads a rendered error back: the message is everything before the first
   colon, which must be followed by a space; the rest is the OS error text.
   */
  function SplitText(s: string): Option<(string, string)>
  {
    var k := IndexOfColon(s);
    if k + 2 <= |s| && s[k..k + 2] == SEPARATOR then Some((s[..k], s[k + 2..]))
    else None
  }

  lemma {:induction false} IndexOfColonAfter(msg: string, rest: string)
    requires ':' !in msg
    requires |rest| > 0 && rest[0] == ':'
    ensures IndexOfColon(msg + rest) == |msg|
    decreases |msg|
  {
    if |msg| > 0 {
      assert (msg + rest)[1..] == msg[1..] + rest;
      IndexOfColonAfter(msg[1..], rest);
    } else {
      assert msg + rest == rest;
    }
  }

  /**
   The rendered text determines the error's message and OS text whenever
   the message holds no colon. The round trip needs a colon-free procedure
   name; nothing in the library guarantees one.
   */
  lemma ErrorTextRoundTrip(e: Error)
    requires e.original.Some?
    requires ':' !in e.msg
    ensures SplitText(ErrorText(e)) == Some((e.msg, e.original.value.text))
  {
    var s := ErrorText(e);
    var rest := SEPARATOR + e.original.value.text;
    assert s == e.msg + rest;
    IndexOfColonAfter(e.msg, rest);
    assert s[..|e.msg|] == e.msg;
    assert s[|e.msg| + 2..] == e.original.value.text;
  }

  /** Two errors with colon-free messages render alike only if they agree. */
  lemma ErrorTextInjective(e1: Error, e2: Error)
    requires e1.original.Some? && e2.original.Some?
    requires ':' !in e1.msg && ':' !in e2.msg
    requires ErrorText(e1) == ErrorText(e2)
    ensures e1.msg == e2.msg
    ensures e1.original.value.text == e2.original.value.text
  {
    ErrorTextRoundTrip(e1);
    ErrorTextRoundTrip(e2);
  }
}
