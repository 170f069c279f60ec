/**
 * The harness's console listener: every message the host console reports is
 * echoed with a "console: " prefix, unless it begins with one of the strings
 * in POINTLESS_ERRORS.
 */
module ConsoleFilter {
  import opened Wrappers

  /** Messages that begin with one of these are not echoed. */
  const POINTLESS_ERRORS: seq<string> := ["Invalid chrome URI:"]

  /** The prefix the listener puts in front of every echoed message. */
  const ECHO_PREFIX: string := "console: "

  /**
   * `s.indexOf(t)`: the first position at which `t` occurs in `s`, or -1.
   * As in JavaScript, the empty string occurs at position 0.
   */
  function IndexOf(s: string, t: string): (r: int)
    ensures -1 <= r <= |s|
    ensures r >= 0 ==> t <= s[r..]
    ensures r >= 0 ==> forall j :: 0 <= j < r ==> !(t <= s[j..])
    ensures r == -1 ==> forall j :: 0 <= j <= |s| ==> !(t <= s[j..])
    decreases |s|
  {
    if t <= s then 0
    else if s == [] then -1
    else
      var r := IndexOf(s[1..], t);
      assert forall j :: 1 <= j <= |s| ==> s[j..] == s[1..][j - 1..];
      if r < 0 then -1 else r + 1
  }

  /** The comprehension `[err for each (err in errors) if (message.indexOf(err) == 0)]`. */
  function Pointless(message: string, errors: seq<string>): (r: seq<string>)
    ensures forall e :: e in r <==> e in errors && e <= message
    ensures |r| <= |errors|
  {
    if errors == [] then []
    else
      (if IndexOf(message, errors[0]) == 0 then [errors[0]] else [])
      + Pointless(message, errors[1..])
  }

  /** What the listener prints for a console message, if anything. */
  function Observe(message: string): (line: Option<string>)
    ensures line.Some? <==> forall e :: e in POINTLESS_ERRORS ==> !(e <= message)
    ensures line.Some? ==> line.value == ECHO_PREFIX + message
  {
    var pointless := Pointless(message, POINTLESS_ERRORS);
    if |pointless| == 0 then Some(ECHO_PREFIX + message)
    else assert pointless[0] in pointless; None
  }
}
