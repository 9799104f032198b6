/**
 * The client's calls to the collector and their offline policy. `fetch` is
 * abstracted to its outcome: the server answered (with its `ok` flag and the
 * parsed JSON body, absent when the body does not parse) or the call threw.
 * Neither operation ever throws to its caller.
 */
module Api {
  import opened Wrappers

  datatype FetchOutcome<J> = Responded(ok: bool, json: Option<J>) | Threw

  /** What `startSession` resolves to: the server's JSON body, or a locally made `{ sessionId }`. */
  datatype SessionReply<J> = ServerBody(body: J) | OfflineSession(sessionId: string)

  /** The JSON body `submitData` posts to `/data`. */
  datatype DataRequest<P> = DataRequest(sessionId: string, kind: string, payload: P)

  const OfflinePrefix: string := "offline-"

  predicate IsDigit(c: char) {
    '0' <= c <= '9'
  }

  predicate AllDigits(s: string) {
    forall i :: 0 <= i < |s| ==> IsDigit(s[i])
  }

  /** `n.toString()` for a non-negative integer `n`: its decimal digits, most significant first. */
  function DecimalString(n: nat): (s: string)
    ensures |s| > 0 && AllDigits(s)
    ensures |s| > 1 ==> s[0] != '0'
    decreases n
  {
    if n < 10 then [(('0' as int) + n) as char]
    else DecimalString(n / 10) + [(('0' as int) + n % 10) as char]
  }

  /** The number a string of decimal digits denotes. */
  function DecimalValue(s: string): nat
    requires AllDigits(s)
    decreases |s|
  {
    if s == [] then 0
    else 10 * DecimalValue(s[..|s| - 1]) + (s[|s| - 1] as int - '0' as int)
  }

  /** Reading back the printed timestamp gives the timestamp. */
  lemma {:induction false} DecimalRoundTrip(n: nat)
    ensures DecimalValue(DecimalString(n)) == n
    decreases n
  {
    var s := DecimalString(n);
    if n >= 10 {
      DecimalRoundTrip(n / 10);
      assert s[..|s| - 1] == DecimalString(n / 10);
    }
  }

  /** The id `startSession` falls back to at clock reading `now` (`Date.now()`). */
  function OfflineId(now: nat): (id: string)
    ensures |id| > |OfflinePrefix| && id[..|OfflinePrefix|] == OfflinePrefix
    ensures AllDigits(id[|OfflinePrefix|..])
  {
    var id := OfflinePrefix + DecimalString(now);
    assert id[|OfflinePrefix|..] == DecimalString(now);
    id
  }

  /** Two fallbacks made at different times get different ids. */
  lemma OfflineIdsDistinct(a: nat, b: nat)
    requires a != b
    ensures OfflineId(a) != OfflineId(b)
  {
    if OfflineId(a) == OfflineId(b) {
      assert OfflineId(a)[|OfflinePrefix|..] == DecimalString(a);
      assert OfflineId(b)[|OfflinePrefix|..] == DecimalString(b);
      DecimalRoundTrip(a);
      DecimalRoundTrip(b);
    }
  }

  predicate IsBase36Digit(c: char) {
    ('0' <= c <= '9') || ('a' <= c <= 'z')
  }

  /**
   * The shape of a server-generated id: base-36 digits of the clock followed by
   * base-36 digits of a random fraction, so only `0`-`9` and `a`-`z`.
   */
  predicate IsGeneratedId(id: string) {
    forall i :: 0 <= i < |id| ==> IsBase36Digit(id[i])
  }

  /** An offline id can never be mistaken for a server-issued one: it contains `-`. */
  lemma OfflineIdIsNotGenerated(now: nat, id: string)
    requires IsGeneratedId(id)
    ensures OfflineId(now) != id
  {
    var off := OfflineId(now);
    assert off[7] == OfflinePrefix[7] == '-';
    assert !IsBase36Digit(off[7]);
  }

  /** `startSession`: the server's body when the answer is ok and parses, otherwise the offline fallback. */
  function StartSession<J>(outcome: FetchOutcome<J>, now: nat): (r: SessionReply<J>)
    ensures r.ServerBody? <==> outcome.Responded? && outcome.ok && outcome.json.Some?
    ensures r.ServerBody? ==> r.body == outcome.json.value
    ensures r.OfflineSession? ==> r.sessionId == OfflineId(now)
  {
    match outcome
    case Responded(ok, json) =>
      if !ok then OfflineSession(OfflineId(now))       // `throw new Error(...)`, caught below
      else if json.None? then OfflineSession(OfflineId(now))   // `response.json()` rejected
      else ServerBody(json.value)
    case Threw => OfflineSession(OfflineId(now))
  }

  /**
   * `submitData`: posts exactly `{ sessionId, type, payload }` through `post`
   * and reports `response.ok`; a thrown fetch is reported as delivered.
   */
  function SubmitData<P, J>(sessionId: string, kind: string, payload: P, post: DataRequest<P> -> FetchOutcome<J>): (delivered: bool)
    ensures var sent := post(DataRequest(sessionId, kind, payload));
      !delivered <==> sent.Responded? && !sent.ok
  {
    match post(DataRequest(sessionId, kind, payload))
    case Responded(ok, _) => ok
    case Threw => true
  }
}
