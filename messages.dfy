/**
 * The user-visible texts of the camera page and the pure choice of the
 * message shown when the host refuses a stream (js/UserMedia.js,
 * `writeError` and `getUserMediaError`).
 */
module Messages {

  /** The error name the host uses for "no such capture device". */
  const NotFoundName := "NotFoundError"
  const NotFoundMessage := "Webcam not found."
  const GenericPrefix := "The following error occurred: \""
  const GenericSuffix := "\" Please check your webcam device(s) and try again."
  const UnsupportedMessage := "You are using a browser that does not support the Media Capture API"
  /** Every line of the error region starts with this. */
  const ErrorPrefix := "ERROR: "

  /** `sub` occurs in `s` starting at position `i`. */
  predicate OccursAt(s: string, sub: string, i: int) {
    0 <= i && i + |sub| <= |s| && s[i..i + |sub|] == sub
  }

  ghost predicate Occurs(s: string, sub: string) {
    exists i :: OccursAt(s, sub, i)
  }

  /**
   * The search behind `name.indexOf('NotFoundError')`, from position `k`:
   * the first position at or after `k` where `sub` occurs, or -1 when there
   * is none. (It follows `indexOf` for the non-empty needle the page uses.)
   */
  function IndexOfFrom(s: string, sub: string, k: nat): (r: int)
    decreases |s| - k
    ensures r == -1 || (k <= r && OccursAt(s, sub, r))
    ensures r == -1 ==> forall i :: k <= i ==> !OccursAt(s, sub, i)
    ensures r != -1 ==> forall i :: k <= i < r ==> !OccursAt(s, sub, i)
  {
    if k + |sub| > |s| then -1
    else if s[k..k + |sub|] == sub then k
    else IndexOfFrom(s, sub, k + 1)
  }

  /** `s.indexOf(sub)`: non-negative exactly when `sub` occurs in `s`, and then the first such place. */
  function IndexOf(s: string, sub: string): (r: int)
    ensures r >= 0 <==> Occurs(s, sub)
    ensures r >= 0 ==> OccursAt(s, sub, r) && forall i :: 0 <= i < r ==> !OccursAt(s, sub, i)
  {
    IndexOfFrom(s, sub, 0)
  }

  /** The line `writeError` appends to the error region for message `msg`. */
  function ErrorLine(msg: string): (line: string)
    ensures |line| == |ErrorPrefix| + |msg|
    ensures line[..|ErrorPrefix|] == ErrorPrefix && line[|ErrorPrefix|..] == msg
  {
    ErrorPrefix + msg
  }

  /** Different messages give different lines: the error region never merges two messages. */
  lemma ErrorLineInjective(a: string, b: string)
    ensures ErrorLine(a) == ErrorLine(b) ==> a == b
  {
    if ErrorLine(a) == ErrorLine(b) {
      assert a == ErrorLine(a)[|ErrorPrefix|..];
    }
  }

  /**
   * The message `getUserMediaError` chooses for a host error whose name is
   * `name`: either "Webcam not found." or a message that shows the name.
   */
  function ErrorMessage(name: string): (m: string)
    ensures m == NotFoundMessage || OccursAt(m, name, |GenericPrefix|)
  {
    if IndexOf(name, NotFoundName) >= 0 then NotFoundMessage
    else
      var m := GenericPrefix + name + GenericSuffix;
      assert OccursAt(m, name, |GenericPrefix|);
      m
  }

  /**
   * The "not found" message is chosen exactly when the error name contains
   * "NotFoundError"; the generic message can never be mistaken for it.
   */
  lemma ErrorMessageClassifies(name: string)
    ensures ErrorMessage(name) == NotFoundMessage <==> Occurs(name, NotFoundName)
  {
    if !Occurs(name, NotFoundName) {
      var m := GenericPrefix + name + GenericSuffix;
      assert m[0] == 'T' && NotFoundMessage[0] == 'W';
    }
  }

  /** Any other error name is shown verbatim inside the generic message. */
  lemma GenericMessageEmbedsName(name: string)
    requires !Occurs(name, NotFoundName)
    ensures var m := ErrorMessage(name);
      && |m| == |GenericPrefix| + |name| + |GenericSuffix|
      && m[..|GenericPrefix|] == GenericPrefix
      && m[|GenericPrefix|..|GenericPrefix| + |name|] == name
      && m[|GenericPrefix| + |name|..] == GenericSuffix
  {
  }
}
